/**
 Following links (driver/resolve-links): a pointer read from a stream is replaced by the event it points
 to, which is read through the same wrapper and so is resolved in its turn.
 */
module Links {
  import opened Words
  import opened Events

  // The stored events, in the order they were committed

  predicate At(e: Event, stream: string, pos: uint64) {
    e.meta.streamID == stream && e.meta.position == pos
  }

  /** Which commit put something at a position of a stream. */
  function Find(h: seq<Event>, stream: string, pos: uint64): (r: Option<nat>)
    ensures r.Some? ==> r.value < |h| && At(h[r.value], stream, pos)
    ensures r.None? ==> forall i | 0 <= i < |h| :: !At(h[i], stream, pos)
  {
    if h == [] then None
    else
      var n := |h| - 1;
      if At(h[n], stream, pos) then Some(n) else Find(h[..n], stream, pos)
  }

  predicate IsLink(e: Event) {
    e.body.Ptr?
  }

  function Target(h: seq<Event>, i: nat): Option<nat>
    requires i < |h| && IsLink(h[i])
  {
    Find(h, h[i].body.target, h[i].body.pos)
  }

  /** A link leads to an event committed before it, or to nothing; an entry names its own place as its actual one. */
  predicate GroundedAt(h: seq<Event>, i: nat)
    requires i < |h|
  {
    && h[i].meta.actualStreamID == h[i].meta.streamID && h[i].meta.actualPosition == h[i].meta.position
    && (IsLink(h[i]) && Target(h, i).Some? ==> Target(h, i).value < i)
  }

  predicate Grounded(h: seq<Event>) {
    forall i | 0 <= i < |h| :: GroundedAt(h, i)
  }

  /** Where a chain of links ends: at the first event that is no link, or at a link to nothing. */
  function Final(h: seq<Event>, i: nat): (f: nat)
    requires Grounded(h) && i < |h|
    ensures f < |h|
    decreases i
  {
    assert GroundedAt(h, i);
    if IsLink(h[i]) && Target(h, i).Some? then Final(h, Target(h, i).value) else i
  }

  /** The end of the chain with the place of its outermost link as the actual one. */
  function Resolved(h: seq<Event>, i: nat): Event
    requires Grounded(h) && i < |h|
  {
    Relabel(h[Final(h, i)], h[i].meta)
  }

  /** A resolved event is the one its chain ends at, seen at the place its chain starts from. */
  lemma ResolvedFields(h: seq<Event>, i: nat)
    requires Grounded(h) && i < |h|
    ensures var r, e := Resolved(h, i), h[Final(h, i)];
            && r.body == e.body && r.meta.eventID == e.meta.eventID
            && r.meta.streamID == e.meta.streamID && r.meta.position == e.meta.position
            && r.meta.actualStreamID == h[i].meta.streamID && r.meta.actualPosition == h[i].meta.position
    ensures var f := Final(h, i); IsLink(h[f]) ==> Target(h, f).None?
  {
    assert GroundedAt(h, i);
    FinalIsLast(h, i);
  }

  lemma {:induction false} FinalIsLast(h: seq<Event>, i: nat)
    requires Grounded(h) && i < |h|
    ensures var f := Final(h, i); IsLink(h[f]) ==> Target(h, f).None?
    ensures exists n: nat :: After(h, i, n) == Some(Final(h, i))
    decreases i
  {
    assert GroundedAt(h, i);
    if IsLink(h[i]) && Target(h, i).Some? {
      var j := Target(h, i).value;
      FinalIsLast(h, j);
      var n: nat :| After(h, j, n) == Some(Final(h, j));
      assert After(h, i, 1) == Some(j) by {
        assert After(h, i, 0) == Some(i);
      }
      AfterAfter(h, i, 1, n);
    } else {
      assert After(h, i, 0) == Some(i);
    }
  }

  /** What is no link resolves to itself. */
  lemma NoLinkResolves(h: seq<Event>, rs: seq<nat>, k: nat)
    requires Grounded(h) && k <= |rs| && forall i | k <= i < |rs| :: rs[i] < |h| && !IsLink(h[rs[i]])
    ensures forall i | k <= i < |rs| :: Resolved(h, rs[i]) == h[rs[i]]
  {
    forall i | k <= i < |rs|
      ensures Resolved(h, rs[i]) == h[rs[i]]
    {
      assert GroundedAt(h, rs[i]);
    }
  }

  lemma OneStep(h: seq<Event>, i: nat, target: nat)
    requires Grounded(h) && i < |h| && IsLink(h[i]) && Target(h, i) == Some(target) && !IsLink(h[target])
    ensures Resolved(h, i) == Relabel(h[target], h[i].meta)
  {
    assert Final(h, target) == target;
  }

  function Relabel(e: Event, actual: Meta): (r: Event)
    ensures r.body == e.body && r.meta.eventID == e.meta.eventID
    ensures r.meta.streamID == e.meta.streamID && r.meta.position == e.meta.position
    ensures r.meta.actualStreamID == actual.actualStreamID && r.meta.actualPosition == actual.position
  {
    Event(e.meta.(actualPosition := actual.position, actualStreamID := actual.actualStreamID), e.body)
  }

  // Which batches the code resolves

  predicate Within(h: seq<Event>, rs: seq<nat>, bound: nat) {
    bound <= |h| && forall i | 0 <= i < |rs| :: rs[i] < bound
  }

  /** How many links a batch starts with. */
  function Lead(h: seq<Event>, rs: seq<nat>): (k: nat)
    requires Within(h, rs, |h|)
    ensures k <= |rs| && (k < |rs| ==> !IsLink(h[rs[k]]))
    ensures forall i | 0 <= i < k :: IsLink(h[rs[i]])
  {
    if rs == [] || !IsLink(h[rs[0]]) then 0 else 1 + Lead(h, rs[1..])
  }

  /** All links come first and point into one stream. */
  predicate OneBlock(h: seq<Event>, rs: seq<nat>)
    requires Within(h, rs, |h|)
  {
    var k := Lead(h, rs);
    && (forall i | k <= i < |rs| :: !IsLink(h[rs[i]]))
    && (forall i | 0 <= i < k :: h[rs[i]].body.target == h[rs[0]].body.target)
  }

  predicate Reachable(h: seq<Event>, rs: seq<nat>, k: nat)
    requires Within(h, rs, |h|) && k <= |rs|
  {
    forall i | 0 <= i < k :: IsLink(h[rs[i]]) && Target(h, rs[i]).Some?
  }

  function Targets(h: seq<Event>, rs: seq<nat>, k: nat): (ts: seq<nat>)
    requires Within(h, rs, |h|) && k <= |rs| && Reachable(h, rs, k)
    ensures |ts| == k && forall i | 0 <= i < k :: Some(ts[i]) == Target(h, rs[i])
    ensures Within(h, ts, |h|)
  {
    seq(k, i requires 0 <= i < k => Target(h, rs[i]).value)
  }

  lemma TargetsBelow(h: seq<Event>, rs: seq<nat>, k: nat, bound: nat)
    requires Grounded(h) && Within(h, rs, bound) && bound > 0 && k <= |rs| && Reachable(h, rs, k)
    ensures Within(h, Targets(h, rs, k), bound - 1)
  {
    var ts := Targets(h, rs, k);
    forall i | 0 <= i < k
      ensures ts[i] < bound - 1
    {
      assert GroundedAt(h, rs[i]) && Some(ts[i]) == Target(h, rs[i]);
    }
  }

  /** Level by level: the links of the batch form one block, lead somewhere, and so do those they lead to. */
  ghost predicate Orderly(h: seq<Event>, rs: seq<nat>, bound: nat)
    requires Grounded(h) && Within(h, rs, bound)
    decreases bound
  {
    var k := Lead(h, rs);
    bound > 0 ==>
      && OneBlock(h, rs)
      && Reachable(h, rs, k)
      && (TargetsBelow(h, rs, k, bound); Orderly(h, Targets(h, rs, k), bound - 1))
  }

  lemma {:induction false} OrderlyEnds(h: seq<Event>, rs: seq<nat>, bound: nat, i: nat)
    requires Grounded(h) && Within(h, rs, bound) && Orderly(h, rs, bound) && i < |rs|
    ensures !IsLink(h[Final(h, rs[i])]) && !IsLink(Resolved(h, rs[i]))
    decreases bound
  {
    var k := Lead(h, rs);
    if i < k {
      TargetsBelow(h, rs, k, bound);
      OrderlyEnds(h, Targets(h, rs, k), bound - 1, i);
    }
  }

  /** A single event is orderly exactly when its chain, however long, ends at something else than a link. */
  lemma {:induction false} SingleOrderly(h: seq<Event>, r: nat, bound: nat)
    requires Grounded(h) && r < bound <= |h|
    ensures Orderly(h, [r], bound) <==> !IsLink(h[Final(h, r)])
    decreases bound
  {
    if IsLink(h[r]) {
      assert Lead(h, [r]) == 1 && GroundedAt(h, r);
      if Target(h, r).Some? {
        assert Targets(h, [r], 1) == [Target(h, r).value];
        SingleOrderly(h, Target(h, r).value, bound - 1);
      } else {
        assert [r][0] == r;
      }
    } else {
      assert Lead(h, [r]) == 0 && Targets(h, [r], 0) == [];
      NoneOrderly(h, bound - 1);
    }
  }

  lemma {:induction false} NoneOrderly(h: seq<Event>, bound: nat)
    requires Grounded(h) && bound <= |h|
    ensures Orderly(h, [], bound)
    decreases bound
  {
    if bound > 0 {
      assert Targets(h, [], 0) == [];
      NoneOrderly(h, bound - 1);
    }
  }

  /** The slots among the first n that hold links. */
  function LinkSlots(h: seq<Event>, rs: seq<nat>, n: nat): (s: seq<nat>)
    requires Within(h, rs, |h|) && n <= |rs|
    ensures |s| <= n && Slots(s, n) && Increasing(s)
    ensures forall j :: j in s <==> 0 <= j < n && IsLink(h[rs[j]])
  {
    if n == 0 then []
    else LinkSlots(h, rs, n - 1) + if IsLink(h[rs[n - 1]]) then [n - 1] else []
  }

  /** The links of a batch without the other events. */
  function LinksOf(h: seq<Event>, rs: seq<nat>): (ls: seq<nat>)
    requires Within(h, rs, |h|)
    ensures |ls| == |LinkSlots(h, rs, |rs|)|
    ensures forall m | 0 <= m < |ls| :: ls[m] == rs[LinkSlots(h, rs, |rs|)[m]]
  {
    var s := LinkSlots(h, rs, |rs|);
    seq(|s|, m requires 0 <= m < |s| => rs[s[m]])
  }

  /** The resolved links in the first slots, wherever in the batch they were, and behind them the batch as it was. */
  ghost predicate Shifted(h: seq<Event>, rs: seq<nat>, es: seq<Event>)
    requires Grounded(h) && Within(h, rs, |h|)
  {
    var ls := LinksOf(h, rs);
    && |es| == |rs|
    && (forall m | 0 <= m < |ls| :: es[m] == Resolved(h, ls[m]))
    && (forall j | |ls| <= j < |rs| :: es[j] == h[rs[j]])
  }

  /**
   Every slot holds the end of its chain under the outermost link's place when the batch is orderly, and some
   slot still holds a link when it is not.
   */
  ghost predicate Settled(h: seq<Event>, rs: seq<nat>, bound: nat, es: seq<Event>)
    requires Grounded(h) && Within(h, rs, bound)
  {
    && |es| == |rs|
    && (Orderly(h, rs, bound) ==> forall i | 0 <= i < |rs| :: es[i] == Resolved(h, rs[i]))
    && (!Orderly(h, rs, bound) ==> exists i | 0 <= i < |es| :: IsLink(es[i]))
  }

  /**
   What resolving a batch ends in. When just the links of the batch are orderly, they are resolved but written
   over the first slots, whatever these held.
   */
  ghost predicate Answer(h: seq<Event>, rs: seq<nat>, bound: nat, es: seq<Event>)
    requires Grounded(h) && Within(h, rs, bound)
  {
    && Settled(h, rs, bound, es)
    && (Orderly(h, LinksOf(h, rs), bound) ==> Shifted(h, rs, es))
  }

  /** A caller can tell from what it got: the batch was orderly exactly when no slot holds a link. */
  lemma AnswerTells(h: seq<Event>, rs: seq<nat>, bound: nat, es: seq<Event>)
    requires Grounded(h) && Within(h, rs, bound) && Settled(h, rs, bound, es)
    ensures Orderly(h, rs, bound) <==> forall i | 0 <= i < |es| :: !IsLink(es[i])
  {
    if Orderly(h, rs, bound) {
      forall i | 0 <= i < |es|
        ensures !IsLink(es[i])
      {
        OrderlyEnds(h, rs, bound, i);
      }
    }
  }

  // Growing the store

  /** Every link leads to an event committed before it. */
  predicate Closed(h: seq<Event>) {
    Grounded(h) && forall i | 0 <= i < |h| && IsLink(h[i]) :: Target(h, i).Some?
  }

  /** An entry at a new place, leading back if it is a link, keeps the store closed and all links as they were. */
  lemma {:induction false} Grows(h: seq<Event>, e: Event)
    requires Closed(h) && Find(h, e.meta.streamID, e.meta.position).None?
    requires e.meta.actualStreamID == e.meta.streamID && e.meta.actualPosition == e.meta.position
    requires IsLink(e) ==> Find(h, e.body.target, e.body.pos).Some?
    ensures Closed(h + [e])
    ensures forall i | 0 <= i < |h| :: Resolved(h + [e], i) == Resolved(h, i)
  {
    var h' := h + [e];
    assert h'[..|h|] == h;
    forall i | 0 <= i < |h'| && IsLink(h'[i])
      ensures Target(h', i).Some? && Target(h', i).value < i
      ensures i < |h| ==> Target(h', i) == Target(h, i)
    {
      assert i < |h| ==>
          GroundedAt(h, i) && Target(h, i).Some? && At(h[Target(h, i).value], h'[i].body.target, h'[i].body.pos);
      assert Find(h', h'[i].body.target, h'[i].body.pos) == Find(h, h'[i].body.target, h'[i].body.pos);
    }
    forall i | 0 <= i < |h'|
      ensures GroundedAt(h', i)
    {
      assert i < |h| ==> GroundedAt(h, i);
    }
    forall i | 0 <= i < |h|
      ensures Resolved(h', i) == Resolved(h, i)
    {
      SameFinal(h, h', i);
    }
  }

  lemma {:induction false} SameFinal(h: seq<Event>, h': seq<Event>, i: nat)
    requires Closed(h) && Closed(h') && h <= h' && i < |h|
    requires forall j | 0 <= j < |h| && IsLink(h[j]) :: Target(h', j) == Target(h, j)
    ensures Final(h', i) == Final(h, i)
    decreases i
  {
    if IsLink(h[i]) {
      assert GroundedAt(h, i);
      SameFinal(h, h', Target(h, i).value);
    }
  }

  // Chains in any store, with links to anywhere

  /** The entry n links on; none when the chain ended before. A ReadN of one index calls itself once for each. */
  function After(h: seq<Event>, i: nat, n: nat): (r: Option<nat>)
    requires i < |h|
    ensures r.Some? ==> r.value < |h|
  {
    if n == 0 then Some(i)
    else
      var j := After(h, i, n - 1);
      if j.Some? && IsLink(h[j.value]) then Target(h, j.value) else None
  }

  lemma {:induction false} AfterAfter(h: seq<Event>, i: nat, m: nat, n: nat)
    requires i < |h|
    ensures After(h, i, m + n) == if After(h, i, m).Some? then After(h, After(h, i, m).value, n) else None
  {
    if n > 0 {
      AfterAfter(h, i, m, n - 1);
    }
  }

  /** A chain that comes back to an entry goes on for ever. */
  lemma {:induction false} RoundAndRound(h: seq<Event>, i: nat, m: nat, n: nat, x: nat)
    requires i < |h| && m < n && After(h, i, n).Some? && After(h, i, m) == After(h, i, n)
    ensures After(h, i, x).Some?
    decreases x
  {
    if x <= n {
      AfterAfter(h, i, x, n - x);
    } else {
      RoundAndRound(h, i, m, n, x - (n - m));
      AfterAfter(h, i, n, x - n);
      AfterAfter(h, i, m, x - n);
    }
  }

  lemma {:induction false} Pigeonhole(s: seq<nat>, n: nat)
    requires (forall k | 0 <= k < |s| :: s[k] < n) && forall j, k | 0 <= j < k < |s| :: s[j] != s[k]
    ensures |s| <= n
    decreases n
  {
    if s != [] {
      var first := s[0];
      if k :| 0 <= k < |s| && s[k] == n - 1 {
        var rest := s[..k] + s[k + 1..];
        forall j | 0 <= j < |rest|
          ensures rest[j] == s[if j < k then j else j + 1] && rest[j] < n - 1
        {
        }
        Pigeonhole(rest, n - 1);
      } else {
        Pigeonhole(s, n - 1);
      }
    }
  }

  predicate Ends(h: seq<Event>, i: nat, n: nat)
    requires i < |h|
  {
    After(h, i, n).None?
  }

  predicate Returns(h: seq<Event>, i: nat, m: nat, n: nat)
    requires i < |h|
  {
    m < n && After(h, i, n).Some? && After(h, i, m) == After(h, i, n)
  }

  /** A chain ends, and with it the recursion, exactly when it never comes back to an entry. */
  lemma ChainEndsIff(h: seq<Event>, i: nat)
    requires i < |h|
    ensures (exists n: nat :: Ends(h, i, n)) <==> !exists m: nat, n: nat :: Returns(h, i, m, n)
  {
    if m: nat, n: nat :| Returns(h, i, m, n) {
      forall x: nat
        ensures !Ends(h, i, x)
      {
        RoundAndRound(h, i, m, n, x);
      }
    } else if forall n: nat :: !Ends(h, i, n) {
      assert forall n: nat :: !Ends(h, i, n) && After(h, i, n).Some?;
      var s := seq(|h| + 1, n requires 0 <= n => assert !Ends(h, i, n); After(h, i, n).value);
      forall j, k | 0 <= j < k < |s|
        ensures s[j] != s[k]
      {
        assert !Returns(h, i, j, k);
      }
      Pigeonhole(s, |h|);
      assert false;
    }
  }

  /** Links that lead back end their chain at the latest where the store begins. */
  lemma {:induction false} GroundedEnds(h: seq<Event>, i: nat, n: nat)
    requires Grounded(h) && i < |h|
    ensures After(h, i, n).Some? ==> After(h, i, n).value + n <= i
  {
    if n > 0 {
      GroundedEnds(h, i, n - 1);
      assert After(h, i, n - 1).Some? ==> GroundedAt(h, After(h, i, n - 1).value);
    }
  }

  /** A link to itself is the simplest chain that never ends. */
  lemma {:induction false} SelfLink(h: seq<Event>, i: nat, n: nat)
    requires i < |h| && IsLink(h[i]) && Target(h, i) == Some(i)
    ensures After(h, i, n) == Some(i)
  {
    if n > 0 {
      SelfLink(h, i, n - 1);
    }
  }

  // Increasing slots

  predicate Increasing(s: seq<nat>) {
    forall m, m' | 0 <= m < m' < |s| :: s[m] < s[m']
  }

  predicate Slots(s: seq<nat>, n: nat) {
    forall m | 0 <= m < |s| :: s[m] < n
  }

  predicate Identity(s: seq<nat>) {
    forall m | 0 <= m < |s| :: s[m] == m
  }

  lemma {:induction false} IncreasingAbove(s: seq<nat>, n: nat)
    requires Increasing(s) && forall m | 0 <= m < |s| :: s[m] < n
    ensures |s| <= n
    ensures |s| == n ==> Identity(s)
    ensures forall m | 0 <= m < |s| :: m <= s[m]
  {
    if s != [] {
      var k := |s| - 1;
      IncreasingAbove(s[..k], s[k]);
      assert forall m | 0 <= m < k :: s[m] == s[..k][m];
    }
  }

  lemma {:induction false} IncreasingAll(s: seq<nat>, n: nat)
    requires Increasing(s) && (forall m | 0 <= m < |s| :: s[m] < n) && forall j | 0 <= j < n :: j in s
    ensures |s| == n && Identity(s)
  {
    IncreasingAbove(s, n);
    if n > 0 {
      assert n - 1 in s;
      var k := |s| - 1;
      assert s[k] == n - 1;
      assert s == s[..k] + [s[k]];
      assert forall j | 0 <= j < n - 1 :: j in s && j in s[..k];
      IncreasingAll(s[..k], n - 1);
    }
  }

  // The code

  /** The links into one stream: the positions to read, and the slots they came from. */
  ghost predicate GroupOf(es: seq<Event>, n: nat, t: string, ids: seq<uint64>, ptr: seq<nat>)
    requires n <= |es|
  {
    && |ids| == |ptr| > 0
    && Slots(ptr, n)
    && (forall m | 0 <= m < |ptr| :: es[ptr[m]].body == Ptr(t, ids[m]))
    && Increasing(ptr)
  }

  /** The links among the first n slots by the stream they point into. */
  ghost predicate Grouped(es: seq<Event>, n: nat, idx: map<string, seq<uint64>>, ptrs: map<string, seq<nat>>)
    requires n <= |es|
  {
    && idx.Keys == ptrs.Keys
    && (forall t <- ptrs.Keys :: GroupOf(es, n, t, idx[t], ptrs[t]))
    && (forall j | 0 <= j < n && IsLink(es[j]) :: es[j].body.target in ptrs && j in ptrs[es[j].body.target])
  }

  function Push<T>(m: map<string, seq<T>>, t: string, x: T): map<string, seq<T>> {
    m[t := (if t in m then m[t] else []) + [x]]
  }

  lemma GroupOfPush(es: seq<Event>, n: nat, t: string, ids: seq<uint64>, ptr: seq<nat>)
    requires n < |es| && IsLink(es[n]) && es[n].body.target == t
    requires (ids == [] && ptr == []) || GroupOf(es, n, t, ids, ptr)
    ensures GroupOf(es, n + 1, t, ids + [es[n].body.pos], ptr + [n])
  {
  }

  lemma GroupedPush(es: seq<Event>, n: nat, idx: map<string, seq<uint64>>, ptrs: map<string, seq<nat>>)
    requires n < |es| && IsLink(es[n]) && Grouped(es, n, idx, ptrs)
    ensures Grouped(es, n + 1, Push(idx, es[n].body.target, es[n].body.pos), Push(ptrs, es[n].body.target, n))
  {
    var t := es[n].body.target;
    GroupOfPush(es, n, t, if t in idx then idx[t] else [], if t in ptrs then ptrs[t] else []);
    assert forall u <- ptrs.Keys | u != t :: GroupOf(es, n + 1, u, idx[u], ptrs[u]);
  }

  method Group(events: array<Event>) returns (idx: map<string, seq<uint64>>, ptrs: map<string, seq<nat>>)
    ensures Grouped(events[..], events.Length, idx, ptrs)
  {
    idx, ptrs := map[], map[];
    ghost var es := events[..];
    for i := 0 to events.Length
      invariant Grouped(es, i, idx, ptrs)
    {
      var e := events[i];
      assert e == es[i];
      if e.body.Ptr? {
        GroupedPush(es, i, idx, ptrs);
        idx := Push(idx, e.body.target, e.body.pos);
        ptrs := Push(ptrs, e.body.target, i);
      } else {
        assert forall u <- ptrs.Keys :: GroupOf(es, i + 1, u, idx[u], ptrs[u]);
      }
    }
  }

  predicate Present(h: seq<Event>, stream: string, ids: seq<uint64>) {
    forall n | 0 <= n < |ids| :: Find(h, stream, ids[n]).Some?
  }

  function Found(h: seq<Event>, stream: string, ids: seq<uint64>): (rs: seq<nat>)
    requires Present(h, stream, ids)
    ensures |rs| == |ids| && Within(h, rs, |h|)
    ensures forall n | 0 <= n < |ids| :: Some(rs[n]) == Find(h, stream, ids[n])
  {
    seq(|ids|, n requires 0 <= n < |ids| => Find(h, stream, ids[n]).value)
  }

  predicate Below(h: seq<Event>, stream: string, ids: seq<uint64>, bound: nat) {
    bound <= |h| && forall n | 0 <= n < |ids| :: Find(h, stream, ids[n]).Some? ==> Find(h, stream, ids[n]).value < bound
  }

  /** The wrapper's ReadN: nothing when a position is missing, else the entries, resolved. */
  method ReadN(h: seq<Event>, stream: string, ids: seq<uint64>, ghost bound: nat) returns (lis: Option<array<Event>>)
    requires Grounded(h) && Below(h, stream, ids, bound)
    ensures lis.Some? <==> Present(h, stream, ids)
    ensures lis.Some? ==> fresh(lis.value) && Answer(h, Found(h, stream, ids), bound, lis.value[..])
    decreases bound, 1
  {
    var missing := exists n | 0 <= n < |ids| :: Find(h, stream, ids[n]).None?;
    if missing {
      return None;
    }
    var rs := Found(h, stream, ids);
    var events := new Event[|ids|](n requires 0 <= n < |ids| => h[rs[n]]);
    ResolveLinks(h, events, rs, bound);
    return Some(events);
  }

  /** What was read is in the first slots, each with the place of the link it replaces, and the rest is as it was. */
  predicate Overwrote(was: seq<Event>, es: seq<Event>, read: seq<Event>, ptr: seq<nat>)
    requires |read| == |ptr| && Slots(ptr, |was|)
  {
    && |es| == |was| && |ptr| <= |was|
    && (forall j | |ptr| <= j < |was| :: es[j] == was[j])
    && (forall j | 0 <= j < |ptr| ::
          && es[j].body == read[j].body && es[j].meta.eventID == read[j].meta.eventID
          && es[j].meta.streamID == read[j].meta.streamID && es[j].meta.position == read[j].meta.position
          && es[j].meta.actualStreamID == was[ptr[j]].meta.actualStreamID
          && es[j].meta.actualPosition == was[ptr[j]].meta.position)
  }

  /** The inner loop: it writes slot i, and looks up the link it replaces in slot ptr[i]. */
  method Patch(events: array<Event>, lis: array<Event>, ptr: seq<nat>)
    requires events != lis && lis.Length == |ptr| <= events.Length
    requires Slots(ptr, events.Length) && Increasing(ptr)
    modifies events
    ensures Overwrote(old(events[..]), events[..], lis[..], ptr)
  {
    ghost var was := events[..];
    IncreasingAbove(ptr, events.Length);
    for i := 0 to lis.Length
      invariant forall j | i <= j < events.Length :: events[j] == was[j]
      invariant forall j | 0 <= j < i :: events[j] == Relabel(lis[j], was[ptr[j]].meta)
    {
      var meta := lis[i].meta;
      var actual := events[ptr[i]].meta;
      meta := meta.(actualPosition := actual.position);
      meta := meta.(actualStreamID := actual.actualStreamID);
      events[i] := Event(meta, lis[i].body);
    }
  }

  /** The state of the slots when the one stream all links point into has been dealt with. */
  ghost predicate SoleDone(h: seq<Event>, bound: nat, orig: seq<Event>, es: seq<Event>, t: string, ids: seq<uint64>,
                           ptr: seq<nat>)
    requires Grounded(h) && Below(h, t, ids, bound) && Slots(ptr, |orig|)
  {
    && |es| == |orig| && 0 < |ids| == |ptr| <= |orig|
    && (forall j | |ids| <= j < |orig| :: es[j] == orig[j])
    && if Present(h, t, ids) && Orderly(h, Found(h, t, ids), bound)
       then forall j | 0 <= j < |ids| :: es[j] == Relabel(Resolved(h, Found(h, t, ids)[j]), orig[ptr[j]].meta)
       else exists j | 0 <= j < |es| :: IsLink(es[j])
  }

  lemma Patched(h: seq<Event>, bound: nat, orig: seq<Event>, es: seq<Event>, read: seq<Event>, t: string,
                ids: seq<uint64>, ptr: seq<nat>)
    requires Grounded(h) && Below(h, t, ids, bound) && Present(h, t, ids)
    requires Answer(h, Found(h, t, ids), bound, read)
    requires 0 < |ids| == |ptr| == |read| && Slots(ptr, |orig|) && Overwrote(orig, es, read, ptr)
    ensures SoleDone(h, bound, orig, es, t, ids, ptr)
  {
    if !Orderly(h, Found(h, t, ids), bound) {
      var i :| 0 <= i < |read| && IsLink(read[i]);
      assert IsLink(es[i]);
    }
  }

  /** What one round leaves: slots behind the group as they were, and the slots of a group of links dealt with. */
  ghost predicate RoundDone(h: seq<Event>, bound: nat, was: seq<Event>, es: seq<Event>, t: string, ids: seq<uint64>,
                            ptr: seq<nat>)
    requires Grounded(h) && Below(h, t, ids, bound)
  {
    && |ptr| <= |was| == |es| && Slots(ptr, |was|)
    && (forall j | |ptr| <= j < |was| :: es[j] == was[j])
    && ((forall m | 0 <= m < |ptr| :: IsLink(was[ptr[m]])) ==> SoleDone(h, bound, was, es, t, ids, ptr))
  }

  /** One round of the outer loop: read what the links into t point at, and patch the slots with it. */
  method ResolveGroup(h: seq<Event>, events: array<Event>, t: string, ids: seq<uint64>, ptr: seq<nat>, ghost bound: nat)
    requires Grounded(h) && Below(h, t, ids, bound)
    requires 0 < |ids| == |ptr| <= events.Length && Slots(ptr, events.Length) && Increasing(ptr)
    modifies events
    ensures RoundDone(h, bound, old(events[..]), events[..], t, ids, ptr)
    decreases bound, 2
  {
    ghost var orig := events[..];
    var lis := ReadN(h, t, ids, bound);
    if lis.Some? {
      ghost var read := lis.value[..];
      Patch(events, lis.value, ptr);
      assert lis.value[..] == read;
      Patched(h, bound, orig, events[..], read, t, ids, ptr);
    } else {
      assert events[..] == orig;
      assert IsLink(orig[ptr[0]]) ==> IsLink(events[..][ptr[0]]);
    }
  }

  /** No group reaches slot j, so no round of the loop writes it. */
  ghost predicate Untouched(ptrs: map<string, seq<nat>>, j: nat) {
    forall t <- ptrs.Keys :: |ptrs[t]| <= j
  }

  /** The slots while the streams in todo are still to be read. */
  ghost predicate Progress(h: seq<Event>, bound: nat, orig: seq<Event>, es: seq<Event>, idx: map<string, seq<uint64>>,
                           ptrs: map<string, seq<nat>>, todo: set<string>)
    requires Grounded(h) && idx.Keys == ptrs.Keys
  {
    && |es| == |orig|
    && (forall j | 0 <= j < |orig| && Untouched(ptrs, j) :: es[j] == orig[j])
    && (todo == ptrs.Keys ==> es == orig)
    && (forall t <- ptrs.Keys | ptrs.Keys == {t} && t !in todo ::
          && bound > 0 && Below(h, t, idx[t], bound - 1) && Slots(ptrs[t], |orig|)
          && SoleDone(h, bound - 1, orig, es, t, idx[t], ptrs[t]))
  }

  predicate Batch(h: seq<Event>, rs: seq<nat>, orig: seq<Event>)
    requires Within(h, rs, |h|)
  {
    |orig| == |rs| && forall i | 0 <= i < |rs| :: orig[i] == h[rs[i]]
  }

  /** The group can be read: it leads further back than the batch, and is made of slots of the batch that hold links. */
  ghost predicate Readable(h: seq<Event>, bound: nat, orig: seq<Event>, t: string, ids: seq<uint64>, ptr: seq<nat>) {
    && bound > 0 && Below(h, t, ids, bound - 1)
    && 0 < |ids| == |ptr| <= |orig| && Slots(ptr, |orig|) && Increasing(ptr)
    && forall m | 0 <= m < |ptr| :: IsLink(orig[ptr[m]])
  }

  ghost predicate AllReadable(h: seq<Event>, bound: nat, orig: seq<Event>, idx: map<string, seq<uint64>>,
                              ptrs: map<string, seq<nat>>)
  {
    idx.Keys == ptrs.Keys && forall t <- ptrs.Keys :: Readable(h, bound, orig, t, idx[t], ptrs[t])
  }

  /** resolvelinks. */
  method ResolveLinks(h: seq<Event>, events: array<Event>, ghost rs: seq<nat>, ghost bound: nat)
    requires Grounded(h) && Within(h, rs, bound) && Batch(h, rs, events[..])
    modifies events
    ensures Answer(h, rs, bound, events[..])
    decreases bound, 0, 2
  {
    ghost var orig := events[..];
    var idx, ptrs := Group(events);
    forall t <- ptrs.Keys
      ensures Readable(h, bound, orig, t, idx[t], ptrs[t])
    {
      GroupReadable(h, rs, bound, orig, t, idx[t], ptrs[t]);
    }
    ResolveGroups(h, events, idx, ptrs, bound);
    Conclude(h, rs, bound, orig, events[..], idx, ptrs);
  }

  /** The outer loop: the streams are taken in no particular order. */
  method ResolveGroups(h: seq<Event>, events: array<Event>, idx: map<string, seq<uint64>>, ptrs: map<string, seq<nat>>,
                       ghost bound: nat)
    requires Grounded(h) && AllReadable(h, bound, events[..], idx, ptrs)
    modifies events
    ensures Progress(h, bound, old(events[..]), events[..], idx, ptrs, {})
    decreases bound, 0, 1
  {
    ghost var orig := events[..];
    var todo := idx.Keys;
    while todo != {}
      invariant todo <= ptrs.Keys
      invariant Progress(h, bound, orig, events[..], idx, ptrs, todo)
      decreases todo
    {
      var t :| t in todo;
      ResolveNext(h, events, idx, ptrs, bound, orig, todo, t);
      todo := todo - {t};
    }
  }

  method ResolveNext(h: seq<Event>, events: array<Event>, idx: map<string, seq<uint64>>, ptrs: map<string, seq<nat>>,
                     ghost bound: nat, ghost orig: seq<Event>, ghost todo: set<string>, t: string)
    requires Grounded(h) && AllReadable(h, bound, orig, idx, ptrs) && todo <= ptrs.Keys && t in todo
    requires Progress(h, bound, orig, events[..], idx, ptrs, todo)
    modifies events
    ensures Progress(h, bound, orig, events[..], idx, ptrs, todo - {t})
    decreases bound, 0, 0
  {
    var ids, ptr := idx[t], ptrs[t];
    ghost var was := events[..];
    ResolveGroup(h, events, t, ids, ptr, bound - 1);
    Round(h, bound, orig, was, events[..], idx, ptrs, todo, t, ids, ptr);
  }

  lemma Round(h: seq<Event>, bound: nat, orig: seq<Event>, was: seq<Event>, es: seq<Event>,
              idx: map<string, seq<uint64>>, ptrs: map<string, seq<nat>>, todo: set<string>, t: string,
              ids: seq<uint64>, ptr: seq<nat>)
    requires Grounded(h) && idx.Keys == ptrs.Keys && todo <= ptrs.Keys && t in todo && ids == idx[t] && ptr == ptrs[t]
    requires Progress(h, bound, orig, was, idx, ptrs, todo)
    requires Readable(h, bound, orig, t, ids, ptr) && RoundDone(h, bound - 1, was, es, t, ids, ptr)
    ensures Progress(h, bound, orig, es, idx, ptrs, todo - {t})
  {
    if ptrs.Keys == {t} {
      assert forall u <- todo :: u == t;
      assert was == orig;
    }
  }

  lemma GroupReadable(h: seq<Event>, rs: seq<nat>, bound: nat, orig: seq<Event>, t: string, ids: seq<uint64>,
                      ptr: seq<nat>)
    requires Grounded(h) && Within(h, rs, bound) && Batch(h, rs, orig)
    requires GroupOf(orig, |orig|, t, ids, ptr)
    ensures Readable(h, bound, orig, t, ids, ptr)
  {
    IncreasingAbove(ptr, |orig|);
    assert rs[ptr[0]] < bound;
    forall n | 0 <= n < |ids| && Find(h, t, ids[n]).Some?
      ensures Find(h, t, ids[n]).value < bound - 1
    {
      var r := rs[ptr[n]];
      assert orig[ptr[n]].body == Ptr(t, ids[n]) && h[r].body == Ptr(t, ids[n]) && GroundedAt(h, r);
      assert Target(h, r) == Find(h, t, ids[n]);
    }
  }

  lemma Conclude(h: seq<Event>, rs: seq<nat>, bound: nat, orig: seq<Event>, es: seq<Event>,
                 idx: map<string, seq<uint64>>, ptrs: map<string, seq<nat>>)
    requires Grounded(h) && Within(h, rs, bound) && Batch(h, rs, orig)
    requires Grouped(orig, |orig|, idx, ptrs) && Progress(h, bound, orig, es, idx, ptrs, {})
    ensures Answer(h, rs, bound, es)
  {
    if Orderly(h, LinksOf(h, rs), bound) {
      Shifts(h, rs, bound, orig, es, idx, ptrs);
    }
    if !OneBlock(h, rs) {
      NotOneBlock(h, rs, bound, orig, es, idx, ptrs);
    } else if Lead(h, rs) == 0 {
      NoLinks(h, rs, bound, orig, es, idx, ptrs);
    } else {
      Block(h, rs, bound, orig, es, idx, ptrs);
    }
  }

  lemma GroupHasLink(es: seq<Event>, idx: map<string, seq<uint64>>, ptrs: map<string, seq<nat>>, t: string)
    requires Grouped(es, |es|, idx, ptrs) && t in ptrs
    ensures exists j | 0 <= j < |es| :: IsLink(es[j]) && es[j].body.target == t
  {
    assert es[ptrs[t][0]].body == Ptr(t, idx[t][0]);
  }

  lemma NoLinks(h: seq<Event>, rs: seq<nat>, bound: nat, orig: seq<Event>, es: seq<Event>,
                idx: map<string, seq<uint64>>, ptrs: map<string, seq<nat>>)
    requires Grounded(h) && Within(h, rs, bound) && Batch(h, rs, orig)
    requires Grouped(orig, |orig|, idx, ptrs) && Progress(h, bound, orig, es, idx, ptrs, {})
    requires OneBlock(h, rs) && Lead(h, rs) == 0
    ensures Settled(h, rs, bound, es)
  {
    assert forall j | 0 <= j < |orig| :: !IsLink(orig[j]);
    if t :| t in ptrs.Keys {
      GroupHasLink(orig, idx, ptrs, t);
      assert false;
    }
    if bound > 0 {
      assert Targets(h, rs, 0) == [];
      NoneOrderly(h, bound - 1);
    }
    NoLinkResolves(h, rs, 0);
  }

  lemma FullGroup(h: seq<Event>, rs: seq<nat>, orig: seq<Event>, t: string, ids: seq<uint64>, ptr: seq<nat>)
    requires Within(h, rs, |h|) && Batch(h, rs, orig)
    requires GroupOf(orig, |orig|, t, ids, ptr) && Identity(ptr) && |ptr| <= |orig|
    requires forall i | |ptr| <= i < |orig| :: !IsLink(orig[i])
    ensures OneBlock(h, rs)
  {
    forall i | 0 <= i < |ptr|
      ensures h[rs[i]].body == Ptr(t, ids[i])
    {
      assert ptr[i] == i && orig[ptr[i]].body == Ptr(t, ids[i]);
    }
    LeadIs(h, rs, |ptr|);
  }

  /** The last link of a batch that is no block stays where it is: no group is long enough to reach its slot. */
  lemma NotOneBlock(h: seq<Event>, rs: seq<nat>, bound: nat, orig: seq<Event>, es: seq<Event>,
                    idx: map<string, seq<uint64>>, ptrs: map<string, seq<nat>>)
    requires Grounded(h) && Within(h, rs, bound) && Batch(h, rs, orig)
    requires Grouped(orig, |orig|, idx, ptrs) && Progress(h, bound, orig, es, idx, ptrs, {})
    requires !OneBlock(h, rs)
    ensures Settled(h, rs, bound, es)
  {
    var j := LastLink(orig, h, rs);
    forall t <- ptrs.Keys
      ensures |ptrs[t]| <= j
    {
      assert GroupOf(orig, |orig|, t, idx[t], ptrs[t]);
      assert forall m | 0 <= m < |ptrs[t]| :: IsLink(orig[ptrs[t][m]]);
      IncreasingAbove(ptrs[t], j + 1);
      if |ptrs[t]| == j + 1 {
        FullGroup(h, rs, orig, t, idx[t], ptrs[t]);
        assert false;
      }
    }
    assert Untouched(ptrs, j);
    assert IsLink(es[j]);
    assert rs[j] < bound;
  }

  lemma LastLink(orig: seq<Event>, h: seq<Event>, rs: seq<nat>) returns (j: nat)
    requires Within(h, rs, |h|) && Batch(h, rs, orig) && !OneBlock(h, rs)
    ensures j < |orig| && IsLink(orig[j]) && forall i | j < i < |orig| :: !IsLink(orig[i])
  {
    if forall i | 0 <= i < |orig| :: !IsLink(orig[i]) {
      LeadIs(h, rs, 0);
    }
    var i :| 0 <= i < |orig| && IsLink(orig[i]);
    j := i;
    var n := i + 1;
    while n < |orig|
      invariant i <= j < n <= |orig| && IsLink(orig[j]) && forall k | j < k < n :: !IsLink(orig[k])
    {
      if IsLink(orig[n]) {
        j := n;
      }
      n := n + 1;
    }
  }

  lemma {:induction false} LeadIs(h: seq<Event>, rs: seq<nat>, k: nat)
    requires Within(h, rs, |h|) && k <= |rs|
    requires (forall i | 0 <= i < k :: IsLink(h[rs[i]])) && (k < |rs| ==> !IsLink(h[rs[k]]))
    ensures Lead(h, rs) == k
  {
    if k > 0 {
      LeadIs(h, rs[1..], k - 1);
    }
  }

  /** A batch of one block has one group, and its slots are 0..k. */
  lemma SoleGroup(h: seq<Event>, rs: seq<nat>, orig: seq<Event>, idx: map<string, seq<uint64>>,
                  ptrs: map<string, seq<nat>>, k: nat, t: string)
    requires Within(h, rs, |h|) && Batch(h, rs, orig)
    requires Grouped(orig, |orig|, idx, ptrs) && OneBlock(h, rs)
    requires k == Lead(h, rs) > 0 && t == h[rs[0]].body.target
    ensures ptrs.Keys == {t} && Identity(ptrs[t]) && |ptrs[t]| == k
    ensures forall i | 0 <= i < k :: h[rs[i]].body == Ptr(t, idx[t][i])
  {
    assert IsLink(orig[0]);
    assert t in ptrs;
    forall t' <- ptrs.Keys
      ensures t' == t
    {
      GroupHasLink(orig, idx, ptrs, t');
      var j :| 0 <= j < |orig| && IsLink(orig[j]) && orig[j].body.target == t';
      assert orig[j] == h[rs[j]];
    }
    forall m | 0 <= m < |ptrs[t]|
      ensures ptrs[t][m] < k
    {
      assert IsLink(orig[ptrs[t][m]]);
    }
    forall j | 0 <= j < k
      ensures j in ptrs[t]
    {
      assert IsLink(orig[j]) && orig[j].body.target == t;
    }
    IncreasingAll(ptrs[t], k);
    assert forall i | 0 <= i < k :: orig[ptrs[t][i]].body == Ptr(t, idx[t][i]);
  }

  /** What was read for the one group is what its slots now hold. */
  lemma Block(h: seq<Event>, rs: seq<nat>, bound: nat, orig: seq<Event>, es: seq<Event>,
              idx: map<string, seq<uint64>>, ptrs: map<string, seq<nat>>)
    requires Grounded(h) && Within(h, rs, bound) && Batch(h, rs, orig)
    requires Grouped(orig, |orig|, idx, ptrs) && Progress(h, bound, orig, es, idx, ptrs, {})
    requires OneBlock(h, rs) && Lead(h, rs) > 0
    ensures Settled(h, rs, bound, es)
  {
    var k := Lead(h, rs);
    var t := h[rs[0]].body.target;
    SoleGroup(h, rs, orig, idx, ptrs, k, t);
    FoundTargets(h, rs, bound, k, t, idx[t]);
    if Reachable(h, rs, k) {
      ChainsGoOn(h, rs, k);
    }
    NoLinkResolves(h, rs, k);
  }

  lemma FoundTargets(h: seq<Event>, rs: seq<nat>, bound: nat, k: nat, t: string, ids: seq<uint64>)
    requires Grounded(h) && Within(h, rs, bound) && bound > 0 && OneBlock(h, rs) && k == Lead(h, rs) == |ids|
    requires forall i | 0 <= i < k :: h[rs[i]].body == Ptr(t, ids[i])
    requires Below(h, t, ids, bound - 1)
    ensures Present(h, t, ids) <==> Reachable(h, rs, k)
    ensures Present(h, t, ids) ==> Found(h, t, ids) == Targets(h, rs, k)
    ensures Orderly(h, rs, bound) <==> Present(h, t, ids) && Orderly(h, Found(h, t, ids), bound - 1)
  {
    assert forall i | 0 <= i < k :: Target(h, rs[i]) == Find(h, t, ids[i]);
  }

  lemma SomeMember(s: seq<nat>)
    ensures s == [] || s[0] in s
  {
  }

  lemma {:induction false} SameSlots(a: seq<nat>, b: seq<nat>)
    requires Increasing(a) && Increasing(b) && forall j :: j in a <==> j in b
    ensures a == b
  {
    SomeMember(a);
    SomeMember(b);
    if a != [] && b != [] {
      var m, n := |a| - 1, |b| - 1;
      assert a[m] in b && b[n] in a;
      assert a[m] == b[n];
      assert a == a[..m] + [a[m]] && b == b[..n] + [b[n]];
      forall j
        ensures j in a[..m] <==> j in b[..n]
      {
        assert j in a <==> j in a[..m] || j == a[m];
        assert j in b <==> j in b[..n] || j == b[n];
      }
      SameSlots(a[..m], b[..n]);
    }
  }

  /** A group that has all links there are has their slots. */
  lemma GroupSlots(h: seq<Event>, rs: seq<nat>, orig: seq<Event>, t: string, ids: seq<uint64>, ptr: seq<nat>)
    requires Within(h, rs, |h|) && Batch(h, rs, orig) && GroupOf(orig, |orig|, t, ids, ptr)
    requires forall j | 0 <= j < |orig| && IsLink(orig[j]) :: j in ptr
    ensures ptr == LinkSlots(h, rs, |rs|)
    ensures forall m | 0 <= m < |LinksOf(h, rs)| :: h[LinksOf(h, rs)[m]].body == Ptr(t, ids[m])
  {
    var s := LinkSlots(h, rs, |rs|);
    forall j
      ensures j in ptr <==> j in s
    {
      if j in ptr {
        var m :| 0 <= m < |ptr| && ptr[m] == j;
        assert orig[ptr[m]].body == Ptr(t, ids[m]);
      }
    }
    SameSlots(ptr, s);
    assert forall m | 0 <= m < |ptr| :: orig[ptr[m]].body == Ptr(t, ids[m]);
  }

  /** The links of a batch are its only links. */
  lemma LinkTargets(h: seq<Event>, rs: seq<nat>, orig: seq<Event>, t: string)
    requires Within(h, rs, |h|) && Batch(h, rs, orig)
    requires forall l <- LinksOf(h, rs) :: h[l].body.Ptr? && h[l].body.target == t
    ensures forall j | 0 <= j < |orig| && IsLink(orig[j]) :: orig[j].body.target == t
    ensures LinksOf(h, rs) != [] ==> exists j | 0 <= j < |orig| :: IsLink(orig[j])
  {
    var s, ls := LinkSlots(h, rs, |rs|), LinksOf(h, rs);
    forall j | 0 <= j < |orig| && IsLink(orig[j])
      ensures orig[j].body.target == t
    {
      assert j in s;
      var m :| 0 <= m < |s| && s[m] == j;
      assert ls[m] in ls;
    }
    if ls != [] {
      assert s[0] in s && IsLink(orig[s[0]]);
    }
  }

  /** The one group of a batch whose links all point into stream t: its slots are the links'. */
  lemma SoleSlots(h: seq<Event>, rs: seq<nat>, orig: seq<Event>, idx: map<string, seq<uint64>>,
                  ptrs: map<string, seq<nat>>, t: string)
    requires Within(h, rs, |h|) && Batch(h, rs, orig) && Grouped(orig, |orig|, idx, ptrs)
    requires LinksOf(h, rs) != [] && forall l <- LinksOf(h, rs) :: h[l].body.Ptr? && h[l].body.target == t
    ensures ptrs.Keys == {t} && ptrs[t] == LinkSlots(h, rs, |rs|)
    ensures forall m | 0 <= m < |LinksOf(h, rs)| :: h[LinksOf(h, rs)[m]].body == Ptr(t, idx[t][m])
  {
    LinkTargets(h, rs, orig, t);
    assert t in ptrs;
    forall u <- ptrs.Keys
      ensures u == t
    {
      GroupHasLink(orig, idx, ptrs, u);
    }
    GroupSlots(h, rs, orig, t, idx[t], ptrs[t]);
  }

  lemma LinksAre(h: seq<Event>, rs: seq<nat>)
    requires Within(h, rs, |h|)
    ensures forall m | 0 <= m < |LinksOf(h, rs)| :: IsLink(h[LinksOf(h, rs)[m]])
    ensures Lead(h, LinksOf(h, rs)) == |LinksOf(h, rs)|
    ensures forall bound | Within(h, rs, bound) :: Within(h, LinksOf(h, rs), bound)
  {
    var s, ls := LinkSlots(h, rs, |rs|), LinksOf(h, rs);
    assert forall m | 0 <= m < |ls| :: s[m] in s;
    LeadIs(h, ls, |ls|);
  }

  lemma SoleShifted(h: seq<Event>, rs: seq<nat>, bound: nat, orig: seq<Event>, es: seq<Event>, t: string,
                    ids: seq<uint64>)
    requires Grounded(h) && Within(h, rs, bound) && Batch(h, rs, orig) && bound > 0 && Below(h, t, ids, bound - 1)
    requires SoleDone(h, bound - 1, orig, es, t, ids, LinkSlots(h, rs, |rs|))
    requires forall m | 0 <= m < |LinksOf(h, rs)| :: h[LinksOf(h, rs)[m]].body == Ptr(t, ids[m])
    requires Orderly(h, LinksOf(h, rs), bound)
    ensures Shifted(h, rs, es)
  {
    var ls := LinksOf(h, rs);
    LinksAre(h, rs);
    FoundTargets(h, ls, bound, |ls|, t, ids);
    ChainsGoOn(h, ls, |ls|);
  }

  lemma GroupMakesLink(h: seq<Event>, rs: seq<nat>, orig: seq<Event>, idx: map<string, seq<uint64>>,
                       ptrs: map<string, seq<nat>>, t: string)
    requires Within(h, rs, |h|) && Batch(h, rs, orig) && Grouped(orig, |orig|, idx, ptrs) && t in ptrs
    ensures LinksOf(h, rs) != []
  {
    GroupHasLink(orig, idx, ptrs, t);
    var j :| 0 <= j < |orig| && IsLink(orig[j]);
    assert j in LinkSlots(h, rs, |rs|);
  }

  lemma Shifts(h: seq<Event>, rs: seq<nat>, bound: nat, orig: seq<Event>, es: seq<Event>,
               idx: map<string, seq<uint64>>, ptrs: map<string, seq<nat>>)
    requires Grounded(h) && Within(h, rs, bound) && Batch(h, rs, orig)
    requires Grouped(orig, |orig|, idx, ptrs) && Progress(h, bound, orig, es, idx, ptrs, {})
    requires Orderly(h, LinksOf(h, rs), bound)
    ensures Shifted(h, rs, es)
  {
    var ls := LinksOf(h, rs);
    if ls == [] {
      if t :| t in ptrs.Keys {
        GroupMakesLink(h, rs, orig, idx, ptrs, t);
        assert false;
      }
    } else {
      LinksAre(h, rs);
      assert ls[0] < bound;
      var t := h[ls[0]].body.target;
      SoleSlots(h, rs, orig, idx, ptrs, t);
      SoleShifted(h, rs, bound, orig, es, t, idx[t]);
    }
  }

  /** A link resolves to what the entry it leads to resolves to, under its own place. */
  lemma ChainsGoOn(h: seq<Event>, rs: seq<nat>, k: nat)
    requires Grounded(h) && Within(h, rs, |h|) && k <= |rs| && Reachable(h, rs, k)
    ensures forall i | 0 <= i < k :: Relabel(Resolved(h, Targets(h, rs, k)[i]), h[rs[i]].meta) == Resolved(h, rs[i])
  {
    forall i | 0 <= i < k
      ensures Relabel(Resolved(h, Targets(h, rs, k)[i]), h[rs[i]].meta) == Resolved(h, rs[i])
    {
      assert GroundedAt(h, rs[i]) && Target(h, rs[i]) == Some(Targets(h, rs, k)[i]);
    }
  }
}
