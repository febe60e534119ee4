/** Both drivers behave as the one abstract log, over every run of calls. */
module Refinement {
  import opened Words
  import opened Text
  import opened Events
  import opened Codec
  import opened StreamIDs
  import opened Logs
  import MemStore

  datatype Call =
    | Append(batch: seq<Event>, version: uint64)
    | Read(after: int64, count: int64)
    | ReadN(index: seq<uint64>)
    | FirstIndex
    | LastIndex

  /** What a call returns: the count next to the error for an append, a list, or an index. */
  datatype Answer = Wrote(count: nat, err: Option<StoreError>) | Listed(list: Outcome<seq<Event>>) | Index(i: nat)

  function Written(calls: seq<Call>): nat {
    if calls == [] then 0
    else Written(calls[..|calls| - 1]) + match calls[|calls| - 1] case Append(batch, _) => |batch| case _ => 0
  }

  function LogCall(l: Log, streamID: string, call: Call): (r: (Log, Answer))
    requires l.Fits() && (call.Append? ==> l.LastIndex() + |call.batch| <= ALL_EVENTS)
    ensures r.0.Fits() && r.0.removed == l.removed
    ensures |r.0.entries| <= |l.entries| + if call.Append? then |call.batch| else 0
  {
    match call
    case Append(batch, version) =>
      var r := LogAppend(l, streamID, batch, version);
      (r.0, if r.1.Ok? then Wrote(r.1.value, None) else Wrote(0, Some(r.1.error)))
    case Read(after, count) => (l, Listed(LogRead(l, after, count)))
    case ReadN(index) => (l, Listed(LogReadN(l, index)))
    case FirstIndex => (l, Index(l.FirstIndex()))
    case LastIndex => (l, Index(l.LastIndex()))
  }

  function MemCall(k: Coder, stream: seq<Event>, streamID: string, call: Call): (r: (seq<Event>, Answer))
    requires call.Append? ==> |stream| + |call.batch| <= ALL_EVENTS
    ensures |r.0| <= |stream| + if call.Append? then |call.batch| else 0
  {
    match call
    case Append(batch, version) =>
      var r := MemAppend(k, stream, streamID, batch, version);
      (r.0, Wrote(|batch|, r.1))
    case Read(after, count) => (stream, Listed(MemRead(k, stream, streamID, after, count)))
    case ReadN(index) => (stream, Listed(MemReadN(k, stream, index)))
    case FirstIndex => (stream, Index(MemFirst(stream)))
    case LastIndex => (stream, Index(MemLast(stream)))
  }

  function DiskCall(k: Coder, w: Wal, streamID: string, call: Call): (r: (Wal, Answer))
    requires w.Fits()
    ensures r.0.removed == w.removed
    ensures |r.0.records| <= |w.records| + if call.Append? then |call.batch| else 0
  {
    match call
    case Append(batch, version) =>
      var r := DiskAppend(k, w, streamID, batch, version);
      (r.0, Wrote(if r.1.None? then |batch| else 0, r.1))
    case Read(after, count) => (w, Listed(DiskRead(k, w, streamID, after, count)))
    case ReadN(index) => (w, Listed(DiskReadN(k, w, index)))
    case FirstIndex => (w, Index(w.FirstIndex()))
    case LastIndex => (w, Index(w.LastIndex()))
  }

  /**
   Where the mem-store's answer is not the abstract one: it panics instead of reporting a missing entry,
   and it returns the length of the batch next to a version error.
   */
  function MemView(call: Call, a: Answer): Answer {
    match (call, a)
    case (_, Listed(Err(NotFound))) => Listed(Err(Panic))
    case (Append(batch, _), Wrote(_, Some(e))) => Wrote(|batch|, Some(e))
    case _ => a
  }

  /** Every event written survives the codec under the log's stream id. */
  ghost predicate Storable(k: Coder, streamID: string, call: Call) {
    call.Append? ==> forall e <- OwnedAll(call.batch, streamID) :: k.RoundTrips(e)
  }

  /** The wal holds, record by record, what the abstract log holds. */
  ghost predicate Records(k: Coder, l: Log, w: Wal) {
    && w.removed == l.removed
    && |w.records| == |l.entries|
    && w.LastIndex() <= ALL_EVENTS
    && forall j | 0 <= j < |w.records| :: k.unmarshal(w.records[j], l.removed + j + 1) == Ok(l.entries[j])
  }

  /** The invariant of a run: the log is filed and each of its entries can be copied. */
  ghost predicate Sound(k: Coder, l: Log, streamID: string) {
    l.Filed(streamID) && forall e <- l.entries :: k.RoundTrips(e)
  }

  lemma FiledIsEntry(e: Event, streamID: string, pos: uint64)
    requires FiledAt(e, streamID, pos)
    ensures Entry(e, pos) == e
    ensures Event(Owned(e.meta, streamID), e.body) == e
  {
  }

  lemma OwnedFiled(lis: seq<Event>, streamID: string)
    requires forall e <- lis :: e.meta.streamID == e.meta.actualStreamID == streamID
    ensures OwnedAll(lis, streamID) == lis
  {
  }

  /** What an append adds to a filed log is filed, and can be copied in its turn. */
  lemma EntriesSound(k: Coder, l: Log, streamID: string, batch: seq<Event>)
    requires l.LastIndex() + |batch| <= ALL_EVENTS
    requires forall e <- OwnedAll(batch, streamID) :: k.RoundTrips(e)
    ensures var es := Entries(OwnedAll(batch, streamID), l.LastIndex() + 1);
            && |es| == |batch|
            && (forall j | 0 <= j < |es| :: FiledAt(es[j], streamID, l.LastIndex() + j + 1))
            && forall e <- es :: k.RoundTrips(e)
  {
    var owned := OwnedAll(batch, streamID);
    var es := Entries(owned, l.LastIndex() + 1);
    forall j | 0 <= j < |es|
      ensures k.RoundTrips(es[j])
    {
      assert es[j] == Entry(owned[j], l.LastIndex() + 1 + j) && k.RoundTrips(owned[j]);
      assert forall pos: uint64 :: Entry(es[j], pos) == Entry(owned[j], pos);
    }
  }

  lemma MemAppendRefines(k: Coder, l: Log, streamID: string, batch: seq<Event>, version: uint64)
    requires Sound(k, l, streamID) && l.removed == 0
    requires l.LastIndex() + |batch| <= ALL_EVENTS
    requires forall e <- OwnedAll(batch, streamID) :: k.RoundTrips(e)
    ensures var a := LogAppend(l, streamID, batch, version);
            var m := MemAppend(k, l.entries, streamID, batch, version);
            && Sound(k, a.0, streamID)
            && m.0 == a.0.entries
            && m.1 == (if a.1.Ok? then None else Some(a.1.error))
  {
    EntriesSound(k, l, streamID, batch);
    var owned := OwnedAll(batch, streamID);
    var es := Entries(owned, |l.entries| + 1);
    var rs := CloneEach(k, owned, |l.entries|);
    forall j | 0 <= j < |owned|
      ensures rs[j] == Ok(es[j])
    {
      assert k.RoundTrips(owned[j]);
    }
    CollectIs(rs, es);
  }

  lemma DiskAppendRefines(k: Coder, l: Log, w: Wal, streamID: string, batch: seq<Event>, version: uint64)
    requires Sound(k, l, streamID) && Records(k, l, w)
    requires l.LastIndex() + |batch| <= ALL_EVENTS
    requires forall e <- OwnedAll(batch, streamID) :: k.RoundTrips(e)
    ensures var a := LogAppend(l, streamID, batch, version);
            var d := DiskAppend(k, w, streamID, batch, version);
            && Records(k, a.0, d.0)
            && d.1 == (if a.1.Ok? then None else Some(a.1.error))
  {
    var owned := OwnedAll(batch, streamID);
    var rs := EncodeEach(k, owned);
    forall j | 0 <= j < |owned|
      ensures rs[j].Ok? && k.unmarshal(rs[j].value, l.LastIndex() + 1 + j) == Ok(Entry(owned[j], l.LastIndex() + 1 + j))
    {
      assert k.RoundTrips(owned[j]);
    }
    if VersionFits(version, l.LastIndex()) {
      assert All(rs).Ok?;
    }
  }

  /** A read that answers index by index fails as a whole when one index is outside the log. */
  lemma ReadNIs(l: Log, index: seq<uint64>, rs: seq<Outcome<Event>>, missing: StoreError)
    requires |rs| == |index|
    requires forall j | 0 <= j < |index| :: rs[j] == if l.Holds(index[j]) then Ok(l.At(index[j])) else Err(missing)
    ensures All(rs) == if LogReadN(l, index).Ok? then LogReadN(l, index) else Err(missing)
  {
    var a := LogReadN(l, index);
    if a.Ok? {
      CollectIs(rs, a.value);
    } else {
      var j :| 0 <= j < |index| && !l.Holds(index[j]);
      assert rs[j].Err?;
    }
  }

  lemma MemReadNRefines(k: Coder, l: Log, streamID: string, index: seq<uint64>)
    requires Sound(k, l, streamID) && l.removed == 0
    ensures var a := LogReadN(l, index);
            MemReadN(k, l.entries, index) == if a.Ok? then a else Err(Panic)
  {
    var rs := MemAtEach(k, l.entries, index);
    forall j | 0 <= j < |index|
      ensures rs[j] == if l.Holds(index[j]) then Ok(l.At(index[j])) else Err(Panic)
    {
      if l.Holds(index[j]) {
        assert k.RoundTrips(l.At(index[j]));
        FiledIsEntry(l.At(index[j]), streamID, index[j]);
      }
    }
    ReadNIs(l, index, rs, Panic);
  }

  lemma DiskReadNRefines(k: Coder, l: Log, w: Wal, index: seq<uint64>)
    requires Records(k, l, w)
    ensures DiskReadN(k, w, index) == LogReadN(l, index)
  {
    var rs := DiskAtEach(k, w, index);
    ReadNIs(l, index, rs, NotFound);
  }

  lemma ReadOwned(l: Log, streamID: string, index: seq<uint64>)
    requires l.Filed(streamID) && LogReadN(l, index).Ok?
    ensures OwnedAll(LogReadN(l, index).value, streamID) == LogReadN(l, index).value
  {
    forall e <- LogReadN(l, index).value
      ensures e.meta.streamID == e.meta.actualStreamID == streamID
    {
      var j :| 0 <= j < |index| && e == l.At(index[j]);
      FiledIsEntry(e, streamID, index[j]);
    }
    OwnedFiled(LogReadN(l, index).value, streamID);
  }

  lemma MemReadRefines(k: Coder, l: Log, streamID: string, after: int64, count: int64)
    requires Sound(k, l, streamID) && l.removed == 0
    ensures MemFirst(l.entries) == l.FirstIndex() && MemLast(l.entries) == l.LastIndex()
    ensures MemRead(k, l.entries, streamID, after, count) == LogRead(l, after, count)
  {
    var ids := IDs(l.FirstIndex(), l.LastIndex(), after, count);
    MemReadNRefines(k, l, streamID, ids);
    ReadOwned(l, streamID, ids);
  }

  lemma DiskReadRefines(k: Coder, l: Log, w: Wal, streamID: string, after: int64, count: int64)
    requires Sound(k, l, streamID) && Records(k, l, w) && w.Fits()
    ensures DiskRead(k, w, streamID, after, count) == LogRead(l, after, count)
  {
    var ids := IDs(l.FirstIndex(), l.LastIndex(), after, count);
    assert ids == IDs(w.FirstIndex(), w.LastIndex(), after, count);
    calc {
      DiskRead(k, w, streamID, after, count);
      { DiskReadNRefines(k, l, w, ids); }
      if LogReadN(l, ids).Ok? then Ok(OwnedAll(LogReadN(l, ids).value, streamID)) else LogReadN(l, ids);
      { if LogReadN(l, ids).Ok? { ReadOwned(l, streamID, ids); } }
      LogReadN(l, ids);
    }
  }

  /** Cutting the disk-store's log at the front cuts the abstract log at the same place. */
  lemma TruncateRefines(k: Coder, l: Log, w: Wal, streamID: string, i: uint64)
    requires Sound(k, l, streamID) && Records(k, l, w) && w.Fits()
    ensures w.TruncateFront(i).1 == l.TruncateFront(i).1
    ensures Sound(k, l.TruncateFront(i).0, streamID)
    ensures Records(k, l.TruncateFront(i).0, w.TruncateFront(i).0) && w.TruncateFront(i).0.Fits()
  {
  }

  /** One call: the same answer, and logs that still correspond. */
  lemma CallRefines(k: Coder, l: Log, w: Wal, streamID: string, call: Call)
    requires Sound(k, l, streamID) && l.removed == 0 && Records(k, l, w) && w.Fits()
    requires call.Append? ==> l.LastIndex() + |call.batch| <= ALL_EVENTS
    requires Storable(k, streamID, call)
    ensures var (l', a) := LogCall(l, streamID, call);
            var (stream', m) := MemCall(k, l.entries, streamID, call);
            var (w', d) := DiskCall(k, w, streamID, call);
            && Sound(k, l', streamID) && Records(k, l', w')
            && stream' == l'.entries
            && m == MemView(call, a)
            && d == a
  {
    match call
    case Append(batch, version) =>
      MemAppendRefines(k, l, streamID, batch, version);
      DiskAppendRefines(k, l, w, streamID, batch, version);
    case Read(after, count) =>
      MemReadRefines(k, l, streamID, after, count);
      DiskReadRefines(k, l, w, streamID, after, count);
    case ReadN(index) =>
      MemReadNRefines(k, l, streamID, index);
      DiskReadNRefines(k, l, w, index);
    case FirstIndex =>
    case LastIndex =>
  }

  // Runs

  function LogRun(streamID: string, calls: seq<Call>): (r: (Log, seq<Answer>))
    requires Written(calls) <= ALL_EVENTS
    ensures r.0.Fits() && r.0.removed == 0 && |r.0.entries| <= Written(calls)
    ensures |r.1| == |calls|
  {
    if calls == [] then (Log(0, []), [])
    else
      var (l, answers) := LogRun(streamID, calls[..|calls| - 1]);
      var (l', a) := LogCall(l, streamID, calls[|calls| - 1]);
      (l', answers + [a])
  }

  function MemRun(k: Coder, streamID: string, calls: seq<Call>): (r: (seq<Event>, seq<Answer>))
    requires Written(calls) <= ALL_EVENTS
    ensures |r.0| <= Written(calls) && |r.1| == |calls|
  {
    if calls == [] then ([], [])
    else
      var (stream, answers) := MemRun(k, streamID, calls[..|calls| - 1]);
      var (stream', a) := MemCall(k, stream, streamID, calls[|calls| - 1]);
      (stream', answers + [a])
  }

  function DiskRun(k: Coder, streamID: string, calls: seq<Call>): (r: (Wal, seq<Answer>))
    requires Written(calls) <= ALL_EVENTS
    ensures r.0.Fits() && r.0.removed == 0 && |r.0.records| <= Written(calls)
    ensures |r.1| == |calls|
  {
    if calls == [] then (Wal(0, []), [])
    else
      var (w, answers) := DiskRun(k, streamID, calls[..|calls| - 1]);
      var (w', a) := DiskCall(k, w, streamID, calls[|calls| - 1]);
      (w', answers + [a])
  }

  /** The logs correspond, and so do the answers given so far. */
  ghost predicate Agree(k: Coder, streamID: string, calls: seq<Call>, l: (Log, seq<Answer>),
                        m: (seq<Event>, seq<Answer>), d: (Wal, seq<Answer>))
  {
    && Sound(k, l.0, streamID) && m.0 == l.0.entries && Records(k, l.0, d.0)
    && |calls| == |m.1| == |l.1| && d.1 == l.1
    && forall i | 0 <= i < |calls| :: m.1[i] == MemView(calls[i], l.1[i])
  }

  lemma AgreeMore(k: Coder, streamID: string, calls: seq<Call>, l: (Log, seq<Answer>), m: (seq<Event>, seq<Answer>),
                  d: (Wal, seq<Answer>), call: Call)
    requires Agree(k, streamID, calls, l, m, d) && l.0.removed == 0 && d.0.Fits()
    requires call.Append? ==> l.0.LastIndex() + |call.batch| <= ALL_EVENTS
    requires Storable(k, streamID, call)
    ensures var (l', a) := LogCall(l.0, streamID, call);
            var (m', b) := MemCall(k, m.0, streamID, call);
            var (d', c) := DiskCall(k, d.0, streamID, call);
            Agree(k, streamID, calls + [call], (l', l.1 + [a]), (m', m.1 + [b]), (d', d.1 + [c]))
  {
    CallRefines(k, l.0, d.0, streamID, call);
  }

  lemma {:induction false} RunRefines(k: Coder, streamID: string, calls: seq<Call>)
    requires Written(calls) <= ALL_EVENTS
    requires forall call <- calls :: Storable(k, streamID, call)
    ensures Agree(k, streamID, calls, LogRun(streamID, calls), MemRun(k, streamID, calls), DiskRun(k, streamID, calls))
  {
    if calls != [] {
      var init, call := calls[..|calls| - 1], calls[|calls| - 1];
      assert calls == init + [call];
      RunRefines(k, streamID, init);
      AgreeMore(k, streamID, init, LogRun(streamID, init), MemRun(k, streamID, init), DiskRun(k, streamID, init), call);
    }
  }

  /**
   Over every run of calls with events the library's codec can encode, the two drivers return the same
   events, metadata, indices, success counts and version errors; where an answer differs, it is the
   mem-store's panic on an index outside the log and its count next to a version error.
   */
  lemma DriversAgree(c: Codec, streamID: string, calls: seq<Call>)
    requires c.Lawful() && TAB !in streamID
    requires Written(calls) <= ALL_EVENTS
    requires forall call <- calls | call.Append? :: forall e <- call.batch :: EncodableBody(c, e.body)
    ensures var k := CoderOf(c);
            var ms, ds := MemRun(k, streamID, calls).1, DiskRun(k, streamID, calls).1;
            && ds == LogRun(streamID, calls).1
            && forall i | 0 <= i < |calls| :: ms[i] == MemView(calls[i], ds[i])
  {
    CoderLaws(c);
    forall call <- calls
      ensures Storable(CoderOf(c), streamID, call)
    {
      if call.Append? {
        forall e <- OwnedAll(call.batch, streamID)
          ensures CoderOf(c).RoundTrips(e)
        {
          assert Encodable(c, e);
        }
      }
    }
    RunRefines(CoderOf(c), streamID, calls);
  }

  /**
   The mem-store's log is filed in every reachable state: also for events that cannot be decoded and for
   appends that fail half-way, as long as the stream id holds no tab.
   */
  lemma {:induction false} MemAlwaysFiled(c: Codec, streamID: string, calls: seq<Call>)
    requires TAB !in streamID && Written(calls) <= ALL_EVENTS
    ensures Log(0, MemRun(CoderOf(c), streamID, calls).0).Filed(streamID)
  {
    if calls != [] {
      var n := |calls| - 1;
      MemAlwaysFiled(c, streamID, calls[..n]);
      CoderLaws(c);
      if calls[n].Append? {
        MemStore.AppendKeepsFiled(CoderOf(c), MemRun(CoderOf(c), streamID, calls[..n]).0, streamID,
                                  calls[n].batch, calls[n].version);
      }
    }
  }
}
