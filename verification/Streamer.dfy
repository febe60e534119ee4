/** Subscriptions to a stream (driver/streamer): the cursor each holds, and the registry of who is told of what. */
module Streamer {
  import opened Words
  import opened Events
  import opened Logs
  import StreamIDs

  // The cursor

  /** How far a subscriber is, and how many events it believes to be waiting; `waiting` is the wake-up channel. */
  datatype Cursor = Cursor(idx: int64, size: int64, waiting: bool)

  function Started(start: int64): Cursor {
    Cursor(start, ALL_EVENTS, false)
  }

  function Plus(a: int64, b: int64): int64 {
    ToSigned(Add(ToUnsigned(a), ToUnsigned(b)))
  }

  function Sent(c: Cursor, last: uint64): Cursor {
    Cursor(c.idx, ToSigned(Sub(last, ToUnsigned(c.idx))), false)
  }

  /** The cursor after Recv, and whether Recv lets the subscriber go on at once. */
  function Received(c: Cursor): (Cursor, bool) {
    if c.size == ALL_EVENTS then (c, true)
    else if c.size == 0 then (c.(waiting := true), false)
    else (c.(idx := Plus(c.idx, c.size), size := 0), true)
  }

  function Fetched(c: Cursor, events: seq<Event>): Cursor
    requires |events| <= ALL_EVENTS
  {
    c.(size := |events|, idx := if events == [] then c.idx else ToSigned(Sub(FirstActual(events), 1)))
  }

  class Subscription {
    const topic: string
    var idx: int64
    var size: int64
    var waiting: bool
    var once: bool

    constructor (topic: string, start: int64)
      ensures this.topic == topic && Value() == Started(start) && !once
    {
      this.topic := topic;
      idx, size, waiting, once := start, ALL_EVENTS, false, false;
    }

    function Value(): Cursor
      reads this
    {
      Cursor(idx, size, waiting)
    }

    /** What Send does to one subscriber. */
    method Notify(events: seq<Event>)
      modifies this
      ensures Value() == Sent(old(Value()), LastActual(events)) && once == old(once)
      ensures idx == old(idx) && !waiting
    {
      size := ToSigned(Sub(LastActual(events), ToUnsigned(idx)));
      if waiting {
        waiting := false;
      }
    }

    method Recv() returns (ready: bool)
      modifies this
      ensures (Value(), ready) == Received(old(Value())) && once == old(once)
      ensures ready <==> old(size) != 0
      ensures old(size) == 0 ==> idx == old(idx) && size == 0 && waiting
    {
      ready := true;
      if size == ALL_EVENTS {
        return;
      }
      if size == 0 {
        waiting := true;
        ready := false;
      }
      idx := Plus(idx, size);
      size := 0;
    }

    /** Events reads the log behind the streamer. */
    method Events(l: Log) returns (events: seq<Event>)
      requires l.Fits()
      modifies this
      ensures LogRead(l, old(idx), old(size)) == Ok(events) && |events| <= ALL_EVENTS
      ensures Value() == Fetched(old(Value()), events) && once == old(once)
    {
      ReadFits(l, idx, size);
      events := LogRead(l, idx, size).value;
      size := |events|;
      if |events| > 0 {
        idx := ToSigned(Sub(FirstActual(events), 1));
      }
    }
  }

  lemma ReadFits(l: Log, after: int64, count: int64)
    requires l.Fits()
    ensures |LogRead(l, after, count).value| <= ALL_EVENTS
  {
    var ids := StreamIDs.IDs(l.FirstIndex(), l.LastIndex(), after, count);
    assert |ids| <= l.LastIndex();
  }

  // Who is told

  function First<T(==)>(s: seq<T>, x: T): (i: nat)
    requires x in s
    ensures i < |s| && s[i] == x && forall j | 0 <= j < i :: s[j] != x
  {
    if s[0] == x then 0 else 1 + First(s[1..], x)
  }

  /** The last element takes the place of the first x. */
  function Removed<T(==)>(s: seq<T>, x: T): seq<T> {
    if x in s then s[First(s, x) := s[|s| - 1]][..|s| - 1] else s
  }

  /** The others stay where they are, except that the last one takes the place of the first x. */
  lemma RemovedAt<T>(s: seq<T>, x: T, i: nat)
    requires i < |s| && s[i] == x && forall j | 0 <= j < i :: s[j] != x
    ensures var r := Removed(s, x);
            |r| == |s| - 1 && forall j | 0 <= j < |r| :: r[j] == if j == i then s[|s| - 1] else s[j]
  {
    assert First(s, x) == i;
  }

  lemma LastCounts<T>(s: seq<T>)
    requires s != []
    ensures multiset(s) == multiset(s[..|s| - 1]) + multiset{s[|s| - 1]}
  {
    assert s == s[..|s| - 1] + [s[|s| - 1]];
  }

  lemma UpdateCounts<T>(s: seq<T>, i: nat, x: T)
    requires i < |s|
    ensures multiset(s[i := x]) + multiset{s[i]} == multiset(s) + multiset{x}
  {
    assert s[i] in s;
  }

  lemma UpdateTake<T>(s: seq<T>, i: nat, x: T, n: nat)
    requires i < n <= |s|
    ensures s[i := x][..n] == s[..n][i := x]
  {
  }

  lemma SwapAdds<T>(s: seq<T>, i: nat)
    requires i < |s|
    ensures multiset(s[i := s[|s| - 1]][..|s| - 1]) + multiset{s[i]} == multiset(s)
  {
    var n := |s| - 1;
    LastCounts(s);
    if i < n {
      UpdateTake(s, i, s[n], n);
      UpdateCounts(s[..n], i, s[n]);
    } else {
      assert s[i := s[n]] == s;
    }
  }

  lemma TakeAway<T>(rest: multiset<T>, x: T, all: multiset<T>)
    requires rest + multiset{x} == all
    ensures rest == all - multiset{x}
  {
  }

  /** One x fewer and all else as often as before, though not in the same order. */
  lemma RemovedCounts<T>(s: seq<T>, x: T)
    ensures multiset(Removed(s, x)) == multiset(s) - multiset{x}
  {
    if x in s {
      SwapAdds(s, First(s, x));
      TakeAway(multiset(Removed(s, x)), x, multiset(s));
    }
  }

  class Subscribers {
    var lists: map<string, seq<Subscription>>

    constructor ()
      ensures lists == map[]
    {
      lists := map[];
    }

    function Of(streamID: string): seq<Subscription>
      reads this
    {
      if streamID in lists then lists[streamID] else []
    }

    method Subscribe(streamID: string, start: int64) returns (sub: Subscription)
      modifies this
      ensures fresh(sub) && sub.topic == streamID && sub.Value() == Started(start) && !sub.once
      ensures lists == old(lists)[streamID := old(Of(streamID)) + [sub]]
    {
      var lis := Of(streamID);
      sub := new Subscription(streamID, start);
      lists := lists[streamID := lis + [sub]];
    }

    method Send(streamID: string, events: seq<Event>)
      modifies Of(streamID)
      ensures forall sub <- Of(streamID) ::
          sub.Value() == Sent(old(sub.Value()), LastActual(events)) && sub.once == old(sub.once)
    {
      var lis := Of(streamID);
      for i := 0 to |lis|
        invariant forall sub <- lis :: sub.once == old(sub.once)
        invariant forall sub <- lis ::
            sub.Value() == old(sub.Value()) || sub.Value() == Sent(old(sub.Value()), LastActual(events))
        invariant forall j | 0 <= j < i :: lis[j].Value() == Sent(old(lis[j].Value()), LastActual(events))
      {
        lis[i].Notify(events);
      }
    }

    /** The closure a subscription is given to leave by. */
    method Delete(sub: Subscription)
      modifies this
      ensures sub !in old(Of(sub.topic)) ==> lists == old(lists)
      ensures sub in old(Of(sub.topic)) ==> lists == old(lists)[sub.topic := Removed(old(Of(sub.topic)), sub)]
    {
      var lis := Of(sub.topic);
      for i := 0 to |lis|
        invariant sub !in lis[..i]
        invariant lists == old(lists)
      {
        if lis[i] == sub {
          assert First(lis, sub) == i;
          lis := lis[i := lis[|lis| - 1]];
          lists := lists[sub.topic := lis[..|lis| - 1]];
          return;
        }
      }
    }

    /** Only the first Close runs the closure, and that does nothing under a context already done. */
    method Close(sub: Subscription, live: bool) returns (ok: bool)
      modifies this, sub`once
      ensures ok == (old(sub.once) || live) && sub.once
      ensures old(sub.once) || !live || sub !in old(Of(sub.topic)) ==> lists == old(lists)
      ensures !old(sub.once) && live && sub in old(Of(sub.topic)) ==>
                lists == old(lists)[sub.topic := Removed(old(Of(sub.topic)), sub)]
    {
      ok := true;
      if !sub.once {
        sub.once := true;
        if live {
          Delete(sub);
        } else {
          ok := false;
        }
      }
    }
  }
}
