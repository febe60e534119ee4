/** One aggregate over any sequence of raises and saves, while others append to its stream. */
module Books {
  import opened Words
  import opened Events
  import opened Codec
  import opened Logs
  import opened Aggregates
  import opened Stores

  datatype Op =
    | RaiseOp(ds: seq<Draft>)
    | SaveOp
    | ElsewhereOp(batch: seq<Event>)

  /** `waiting` is every payload raised since the last Save that wrote. */
  datatype Desk = Desk(log: Log, agg: Agg, waiting: seq<Body>)

  /** The invariant: the committed part of the list is the front of the log, the rest is what waits. */
  ghost predicate Kept(d: Desk) {
    && d.log.Fits() && d.log.removed == 0
    && d.agg.Fits() && d.agg.firstIndex == 0
    && d.agg.lastIndex <= |d.agg.events| && d.agg.lastIndex <= |d.log.entries|
    && Bodies(d.agg.events[..d.agg.lastIndex]) == Bodies(d.log.entries[..d.agg.lastIndex])
    && Bodies(d.agg.events[d.agg.lastIndex..]) == d.waiting
  }

  /** A list that would outgrow what Go can index is not raised or appended. */
  ghost function Do(d: Desk, op: Op): Desk
    requires Kept(d)
  {
    match op
    case RaiseOp(ds) =>
      if |d.agg.events| + |ds| > ALL_EVENTS then d
      else d.(agg := Raise(d.agg, DraftEvents(ds), DraftIDs(ds)), waiting := d.waiting + DraftBodies(ds))
    case SaveOp =>
      var r := Save(d.log, d.agg);
      Desk(r.log, r.agg, if r.outcome.Ok? then [] else d.waiting)
    case ElsewhereOp(batch) =>
      if d.log.LastIndex() + |batch| > ALL_EVENTS then d
      else d.(log := LogAppend(d.log, d.agg.streamID, batch, APPEND_ONLY).0)
  }

  /** The aggregate loaded from a log nobody has truncated, or a new one on an empty log. */
  function Opened(l: Log, streamID: string): Desk
    requires l.Filed(streamID)
  {
    var a := Loaded(Fresh(streamID), l.FirstIndex(), l.entries);
    Desk(l, if a.Some? then a.value else Fresh(streamID), [])
  }

  lemma OpenedKept(l: Log, streamID: string)
    requires l.Filed(streamID) && l.removed == 0
    ensures Kept(Opened(l, streamID))
  {
    LoadedBooks(streamID, l.FirstIndex(), l.entries, 0);
    var d := Opened(l, streamID);
    assert d.agg.events[..|l.entries|] == d.agg.events && d.agg.events[|l.entries|..] == [];
    assert l.entries[..|l.entries|] == l.entries;
  }

  /** What a Save does to kept books: it writes exactly what waits, or it changes nothing. */
  lemma SaveKept(d: Desk)
    requires Kept(d)
    ensures d.agg.Version() == d.agg.StreamVersion() + |d.waiting|
    ensures d.agg.Uncommitted() == Some(d.agg.events[d.agg.lastIndex..])
    ensures Bodies(d.agg.Uncommitted().value) == d.waiting
    ensures var r := Save(d.log, d.agg);
            d.waiting != [] && |d.log.entries| + |d.waiting| <= ALL_EVENTS ==>
              if d.agg.lastIndex == |d.log.entries| then
                && r.outcome == Ok(|d.waiting|)
                && Bodies(r.log.entries) == Bodies(d.log.entries) + d.waiting
                && r.agg.StreamVersion() == r.agg.Version() == r.log.LastIndex()
                && r.agg.State() == Bodies(r.log.entries)
                && r.agg.Uncommitted() == Some([])
              else r == Saved(d.log, d.agg, Err(Store(WrongVersion)))
  {
    var last := d.agg.lastIndex;
    assert d.agg.Cut() == last;
    Halves(d.agg, last);
    var u := d.agg.events[last..];
    if u != [] && last == |d.log.entries| && |d.log.entries| + |u| <= ALL_EVENTS {
      var added := Entries(OwnedAll(u, d.agg.streamID), d.log.LastIndex() + 1);
      BodiesConcat(d.log.entries, added);
      assert Bodies(added) == Bodies(u);
      assert d.log.entries[..last] == d.log.entries;
      assert d.agg.events[|d.agg.events|..] == [];
    }
  }

  lemma DoKeeps(d: Desk, op: Op)
    requires Kept(d)
    ensures Kept(Do(d, op))
  {
    match op
    case RaiseOp(ds) =>
      if |d.agg.events| + |ds| <= ALL_EVENTS {
        RaiseBooks(d.agg, ds, d.agg.lastIndex);
      }
    case SaveOp =>
      SaveKept(d);
      var r := Save(d.log, d.agg);
      if r.outcome.Ok? && d.waiting != [] {
        assert r.agg.events[..r.agg.lastIndex] == r.agg.events && r.agg.events[r.agg.lastIndex..] == [];
        assert r.log.entries[..r.agg.lastIndex] == r.log.entries;
      }
    case ElsewhereOp(batch) =>
      if d.log.LastIndex() + |batch| <= ALL_EVENTS {
        assert Do(d, op).log.entries[..d.agg.lastIndex] == d.log.entries[..d.agg.lastIndex];
      }
  }

  ghost function RunOps(l: Log, streamID: string, ops: seq<Op>): (d: Desk)
    requires l.Filed(streamID) && l.removed == 0
    ensures Kept(d)
  {
    if ops == [] then OpenedKept(l, streamID); Opened(l, streamID)
    else
      var d := RunOps(l, streamID, ops[..|ops| - 1]);
      DoKeeps(d, ops[|ops| - 1]);
      Do(d, ops[|ops| - 1])
  }

  /**
   On a stream nobody truncated, after any raises, saves and appends by others: the version counts the
   committed and the waiting events, `Events(true)` is exactly what waits, and the next Save writes that
   behind a log it has seen in full, or changes nothing at all.
   */
  lemma Bookkeeping(l: Log, streamID: string, ops: seq<Op>)
    requires l.Filed(streamID) && l.removed == 0
    ensures var d := RunOps(l, streamID, ops);
            var r := Save(d.log, d.agg);
            && d.agg.Version() == d.agg.StreamVersion() + |d.waiting|
            && d.agg.Uncommitted().Some? && Bodies(d.agg.Uncommitted().value) == d.waiting
            && (d.waiting == [] ==> r == Saved(d.log, d.agg, Ok(0)))
            && (d.waiting != [] && |d.log.entries| + |d.waiting| <= ALL_EVENTS ==>
                  if d.agg.StreamVersion() == d.log.LastIndex() then
                    && r.outcome == Ok(|d.waiting|)
                    && Bodies(r.log.entries) == Bodies(d.log.entries) + d.waiting
                    && r.agg.StreamVersion() == r.agg.Version() == r.log.LastIndex()
                    && r.agg.State() == Bodies(r.log.entries)
                  else r == Saved(d.log, d.agg, Err(Store(WrongVersion))))
  {
    SaveKept(RunOps(l, streamID, ops));
  }

  lemma ElsewhereIs(d: Desk, batch: seq<Event>)
    requires Kept(d) && |d.log.entries| + |batch| <= ALL_EVENTS
    ensures var d' := Do(d, ElsewhereOp(batch));
            && d'.agg == d.agg && d'.waiting == d.waiting
            && Bodies(d'.log.entries) == Bodies(d.log.entries) + Bodies(batch)
  {
    var added := Entries(OwnedAll(batch, d.agg.streamID), d.log.LastIndex() + 1);
    BodiesConcat(d.log.entries, added);
    assert Bodies(added) == Bodies(batch);
  }

  /** Once somebody else has appended, what waits can no longer be saved, and it goes on waiting. */
  lemma Overtaken(l: Log, streamID: string, ops: seq<Op>, batch: seq<Event>)
    requires l.Filed(streamID) && l.removed == 0 && batch != []
    requires |RunOps(l, streamID, ops).log.entries| + |batch| <= ALL_EVENTS
    ensures var d, d' := RunOps(l, streamID, ops), RunOps(l, streamID, ops + [ElsewhereOp(batch)]);
            && d'.agg == d.agg && d'.waiting == d.waiting
            && Bodies(d'.log.entries) == Bodies(d.log.entries) + Bodies(batch)
            && (d.waiting != [] && |d'.log.entries| + |d.waiting| <= ALL_EVENTS ==>
                  Save(d'.log, d'.agg) == Saved(d'.log, d'.agg, Err(Store(WrongVersion))))
  {
    var d := RunOps(l, streamID, ops);
    assert (ops + [ElsewhereOp(batch)])[..|ops|] == ops;
    ElsewhereIs(d, batch);
    SaveKept(RunOps(l, streamID, ops + [ElsewhereOp(batch)]));
  }

  /**
   On a truncated stream the first Save may well succeed, but its Commit forgets how much was cut: from
   then on no Save goes through, whether more was raised or not and whatever the log has grown by. On an
   uncut stream a second Save has nothing to write and says so.
   */
  lemma SaveTwice(l: Log, a: Agg, l': Log, a': Agg)
    requires l.Fits() && a.Fits() && a.firstIndex == l.removed && Save(l, a).outcome.Ok? && Save(l, a).outcome.value > 0
    requires a.StreamVersion() == l.LastIndex() == l.removed + a.Cut()
    requires var r := Save(l, a);
             && l'.LastIndex() >= r.log.LastIndex()
             && a'.firstIndex == r.agg.firstIndex && a'.lastIndex == r.agg.lastIndex
             && |a'.events| >= |r.agg.events| && a'.Fits() && l'.Fits()
    ensures l.removed == 0 ==> Save(Save(l, a).log, Save(l, a).agg).outcome == Ok(0)
    ensures l.removed > 0 ==> Save(l', a').outcome.Err?
  {
    var r := Save(l, a);
    assert r.agg.StreamVersion() == |a.events|;
    assert r.log.LastIndex() == l.removed + |a.events|;
    if l.removed == 0 {
      assert r.agg.events[r.agg.Cut()..] == [];
    }
  }
}
