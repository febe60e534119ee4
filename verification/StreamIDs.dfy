/** Which positions a Read(after, count) asks for (driver/driver.go). */
module StreamIDs {
  import opened Words

  /**
   math.PagerBox, which the repository imports but does not hold: where a page starts and how many
   ids it takes, backwards when negative. Only what `Boxed` says of it is used outside this module.
   */
  function PagerBox(first: uint64, last: uint64, after: int64, count: int64): (r: (uint64, int64))
    ensures Boxed(first, last, r.0, r.1)
    ensures 0 <= after && 0 < count && Max(first, after + 1) <= last ==>
              r == (Max(first, after + 1), Min(count, last - Max(first, after + 1) + 1))
    ensures 0 <= after && 0 < count && last < Max(first, after + 1) ==> r.1 == 0
    ensures Abs(r.1) <= Abs(count)
  {
    var start := if 0 <= after then Max(first, after + 1) else last + after + 1;
    if first <= start <= last && count != 0 then
      (start, if 0 < count then Min(count, last - start + 1) else Max(count, first - start - 1))
    else (0, 0)
  }

  predicate Boxed(first: uint64, last: uint64, start: uint64, count: int64) {
    count == 0 || (first <= start <= last && Abs(count) <= last - first + 1)
  }

  /** n positions from start, each one `step` from the one before. */
  function Line(start: uint64, step: int, n: nat): (r: seq<uint64>)
    requires step == 1 || step == -1
    requires n > 0 ==> 0 <= start + step * (n - 1) < TWO64
    ensures |r| == n
    ensures forall i | 0 <= i < n :: r[i] == start + step * i
  {
    seq(n, i requires 0 <= i < n =>
      assert step * i == (if step == 1 then i else -i);
      start + step * i)
  }

  /** The ids left in the direction of `count`. */
  function Remaining(first: uint64, last: uint64, start: uint64, count: int64): nat
    requires first <= start <= last
  {
    if 0 < count then last - start + 1 else start - first + 1
  }

  /** What the code's loop makes of a start and a count. */
  function Page(first: uint64, last: uint64, start: uint64, count: int64): (r: seq<uint64>)
    requires count != 0 ==> first <= start <= last
    ensures forall i | 0 <= i < |r| :: first <= r[i] <= last
  {
    if count == 0 then []
    else Line(start, if 0 < count then 1 else -1, Min(Abs(count), Remaining(first, last, start, count)))
  }

  function IDs(first: uint64, last: uint64, after: int64, count: int64): (r: seq<uint64>)
    ensures forall i | 0 <= i < |r| :: first <= r[i] <= last
    ensures |r| <= Abs(count)
  {
    if first == 0 || last == 0 then []
    else
      var (start, n) := PagerBox(first, last, after, count);
      Page(first, last, start, n)
  }

  /**
   The loop on wrapping integers. Stepping past 2^64 - 1 or below 1 lands outside [first, last], so
   the run stops there as it does at any other end of the log.
   */
  method FillPage(first: uint64, last: uint64, start: uint64, count: int64) returns (ids: seq<uint64>)
    requires 1 <= first <= start <= last && count != 0
    ensures ids == Page(first, last, start, count)
    ensures 0 < count ==> |ids| == Min(count, last - start + 1) && forall k | 0 <= k < |ids| :: ids[k] == start + k
    ensures count < 0 ==>
              |ids| == Min(Abs(count), start - first + 1) && forall k | 0 <= k < |ids| :: ids[k] == start - k
  {
    var next := start;
    var streamIDs := new uint64[Abs(count)];
    var up := 0 < count;
    ghost var room := Remaining(first, last, start, count);
    for i := 0 to streamIDs.Length
      invariant i < room
      invariant next == if up then start + i else start - i
      invariant forall k | 0 <= k < i :: streamIDs[k] == if up then start + k else start - k
    {
      streamIDs[i] := next;
      if up {
        next := Add(next, 1);
      } else {
        next := Sub(next, 1);
      }
      if next < first || next > last {
        assert i + 1 == room;
        return streamIDs[..i + 1];
      }
    }
    return streamIDs[..];
  }

  method GenerateStreamIDs(first: uint64, last: uint64, after: int64, count: int64) returns (ids: seq<uint64>)
    ensures ids == IDs(first, last, after, count)
    ensures first == 0 || last == 0 ==> ids == []
  {
    if first == 0 || last == 0 {
      return [];
    }
    var r := PagerBox(first, last, after, count);
    if r.1 == 0 {
      return [];
    }
    ids := FillPage(first, last, r.0, r.1);
  }

  /**
   The positions of a page in their order: from start up by one for a positive count, down by one for a negative
   one, as many as counted but no more than are left in that direction.
   */
  lemma PageOrder(first: uint64, last: uint64, after: int64, count: int64, start: uint64, n: int64)
    requires 1 <= first && 1 <= last && PagerBox(first, last, after, count) == (start, n)
    ensures var ids := IDs(first, last, after, count);
            && (n == 0 ==> ids == [])
            && (0 < n ==> |ids| == Min(n, last - start + 1) && forall k | 0 <= k < |ids| :: ids[k] == start + k)
            && (n < 0 ==> |ids| == Min(Abs(n), start - first + 1) && forall k | 0 <= k < |ids| :: ids[k] == start - k)
  {
  }

  /** A page holds exactly the positions of the log that lie less than |count| away from start, on count's side. */
  lemma PageMembers(first: uint64, last: uint64, start: uint64, count: int64, p: uint64)
    requires first <= start <= last
    ensures p in Page(first, last, start, count) <==>
            && first <= p <= last
            && if 0 < count then start <= p < start + count else start + count < p <= start
  {
    var ids := Page(first, last, start, count);
    var k := Abs(p - start);
    if k < |ids| && (p == start || (start < p <==> 0 < count)) {
      assert ids[k] == p;
    }
  }

  /** What a forward read asks for: the run after `after`, cut at `count` and at the end of the log. */
  lemma ForwardMembers(first: uint64, last: uint64, after: int64, count: int64, p: uint64)
    requires 1 <= first <= last && 0 <= after && 0 <= count
    ensures p in IDs(first, last, after, count) <==>
            Max(first, after + 1) <= p <= last && p < Max(first, after + 1) + count
  {
    var start := Max(first, after + 1);
    if start <= last && count > 0 {
      PageMembers(first, last, start, PagerBox(first, last, after, count).1, p);
    }
  }

  /** Read(0, AllEvents) asks for the whole log when it is no longer than an int64 can count. */
  lemma WholeLog(first: uint64, last: uint64)
    requires 1 <= first <= last && last - first + 1 <= ALL_EVENTS
    ensures IDs(first, last, 0, ALL_EVENTS) == Line(first, 1, last - first + 1)
  {
  }
}
