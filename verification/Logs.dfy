/**
 What one event log does, as functions on values: the abstract log of driver.EventLog, and the two
 drivers as their code computes them.
 */
module Logs {
  import opened Words
  import opened Text
  import opened Events
  import opened Codec
  import opened StreamIDs

  datatype StoreError = WrongVersion | NotFound | Panic | BadEvent(error: CodecError)

  type Outcome<T> = Result<T, StoreError>

  /** A log that has lost its first `removed` entries to front truncation. */
  datatype Log = Log(removed: nat, entries: seq<Event>) {

    function FirstIndex(): nat {
      if entries == [] then 0 else removed + 1
    }

    function LastIndex(): nat {
      removed + |entries|
    }

    /** The log can be indexed by Go's int and keeps at least one entry when truncated. */
    predicate Fits() {
      LastIndex() <= ALL_EVENTS && (entries == [] ==> removed == 0)
    }

    predicate Holds(i: uint64) {
      removed < i <= LastIndex()
    }

    function At(i: uint64): Event
      requires Holds(i)
    {
      entries[i - removed - 1]
    }

    /** Keeps i..last; an index outside the log is refused and so is emptying it. */
    function TruncateFront(i: uint64): (Log, bool) {
      if Holds(i) then (Log(i - 1, entries[i - removed - 1..]), true) else (this, false)
    }

    /** Entry i sits at position i of its stream, and says so in all four fields. */
    predicate Filed(streamID: string) {
      && Fits()
      && forall k | 0 <= k < |entries| :: FiledAt(entries[k], streamID, removed + k + 1)
    }
  }

  predicate FiledAt(e: Event, streamID: string, pos: int) {
    && e.meta.streamID == e.meta.actualStreamID == streamID
    && e.meta.position == e.meta.actualPosition == pos
  }

  // The abstract log

  function VersionFits(version: uint64, last: nat): bool {
    version == APPEND_ONLY || version == last
  }

  function Appended(l: Log, streamID: string, batch: seq<Event>): Log
    requires l.LastIndex() + |batch| <= ALL_EVENTS
  {
    l.(entries := l.entries + Entries(OwnedAll(batch, streamID), l.LastIndex() + 1))
  }

  function LogAppend(l: Log, streamID: string, batch: seq<Event>, version: uint64): (r: (Log, Outcome<nat>))
    requires l.LastIndex() + |batch| <= ALL_EVENTS
  {
    if !VersionFits(version, l.LastIndex()) then (l, Err(WrongVersion))
    else (Appended(l, streamID, batch), Ok(|batch|))
  }

  function LogReadN(l: Log, index: seq<uint64>): Outcome<seq<Event>> {
    if exists k | 0 <= k < |index| :: !l.Holds(index[k]) then Err(NotFound)
    else Ok(seq(|index|, k requires 0 <= k < |index| => l.At(index[k])))
  }

  function LogRead(l: Log, after: int64, count: int64): (r: Outcome<seq<Event>>)
    requires l.Fits()
    ensures r.Ok?
  {
    LogReadN(l, IDs(l.FirstIndex(), l.LastIndex(), after, count))
  }

  /** Read(0, AllEvents) returns the whole log. */
  lemma ReadAll(l: Log)
    requires l.Fits()
    ensures LogRead(l, 0, ALL_EVENTS) == Ok(l.entries)
  {
    if l.entries != [] {
      WholeLog(l.FirstIndex(), l.LastIndex());
      ReadLine(l, Line(l.removed + 1, 1, |l.entries|));
    } else {
      ReadLine(l, []);
    }
  }

  /** What a forward read returns: the entries behind `after`, cut at `count` and at the end of the log. */
  lemma ReadForward(l: Log, after: int64, count: int64)
    requires l.Fits() && 0 <= after && 0 <= count
    ensures var from := Min(|l.entries|, Max(0, after - l.removed));
            LogRead(l, after, count) == Ok(l.entries[from..Min(|l.entries|, from + count)])
  {
    var first, last := l.FirstIndex(), l.LastIndex();
    var from := Min(|l.entries|, Max(0, after - l.removed));
    var ids := IDs(first, last, after, count);
    var page := l.entries[from..Min(|l.entries|, from + count)];
    assert |ids| == |page|;
    forall k | 0 <= k < |ids|
      ensures l.Holds(ids[k]) && l.At(ids[k]) == page[k]
    {
      assert ids[k] == l.removed + from + 1 + k;
    }
    assert seq(|ids|, k requires 0 <= k < |ids| => l.At(ids[k])) == page;
  }

  /** What a read returns that the box makes a backward one: the entries from start down, newest first. */
  lemma ReadBackward(l: Log, after: int64, count: int64, start: uint64, n: int64)
    requires l.Fits() && l.entries != [] && n < 0
    requires PagerBox(l.FirstIndex(), l.LastIndex(), after, count) == (start, n)
    ensures var r := LogRead(l, after, count);
            && r.Ok? && |r.value| == Min(Abs(n), start - l.removed)
            && forall k | 0 <= k < |r.value| :: r.value[k] == l.At(start - k)
  {
    var ids := IDs(l.FirstIndex(), l.LastIndex(), after, count);
    PageOrder(l.FirstIndex(), l.LastIndex(), after, count, start, n);
    var r := LogRead(l, after, count);
    assert |r.value| == |ids|;
    forall k | 0 <= k < |r.value|
      ensures r.value[k] == l.At(start - k)
    {
      assert ids[k] == start - k;
    }
  }

  /** An append goes through exactly on the log's own last index or on the version that skips the check. */
  lemma AppendAnswers(l: Log, streamID: string, batch: seq<Event>, version: uint64)
    requires l.Fits() && l.LastIndex() + |batch| <= ALL_EVENTS
    ensures var (l', r) := LogAppend(l, streamID, batch, version);
            if version == 0xFFFF_FFFF_FFFF_FFFF || version == l.LastIndex()
            then
              && r == Ok(|batch|) && l'.removed == l.removed && l.entries <= l'.entries
              && |l'.entries| == |l.entries| + |batch|
              && forall k | 0 <= k < |batch| ::
                   var e := l'.entries[|l.entries| + k];
                   && e.body == batch[k].body && e.meta.eventID == batch[k].meta.eventID
                   && FiledAt(e, streamID, l.LastIndex() + k + 1)
            else l' == l && r == Err(WrongVersion)
  {
  }

  lemma ReadLine(l: Log, index: seq<uint64>)
    requires |index| == |l.entries| && forall k | 0 <= k < |index| :: index[k] == l.removed + 1 + k
    ensures LogReadN(l, index) == Ok(l.entries)
  {
    var r := seq(|index|, k requires 0 <= k < |index| => l.At(index[k]));
    assert r == l.entries;
  }

  // The codec as the drivers call it

  /** event.MarshalBinary and event.UnmarshalBinary. */
  datatype Coder = Coder(
    marshal: Event -> Result<string, CodecError>,
    unmarshal: (string, uint64) -> Result<Event, CodecError>)
  {
    /** What is written under a stream id comes back under it, at the position asked for. */
    ghost predicate KeepsHeader() {
      forall e: Event, pos: uint64 | TAB !in e.meta.streamID && marshal(e).Ok? ::
        var r := unmarshal(marshal(e).value, pos);
        r.Ok? ==> r.value.meta == Entry(e, pos).meta.(eventID := r.value.meta.eventID)
    }

    /** All of the event comes back, at the position asked for, and the entry it became is written the same way. */
    ghost predicate RoundTrips(e: Event) {
      && marshal(e).Ok?
      && (forall pos :: unmarshal(marshal(e).value, pos) == Ok(Entry(e, pos)))
      && (forall pos :: marshal(Entry(e, pos)) == marshal(e))
    }
  }

  function CoderOf(c: Codec): Coder {
    Coder(e => Marshal(c, e), (txt, pos: uint64) => Unmarshal(c, txt, pos))
  }

  /** The library's own codec keeps every header, and all of an encodable event. */
  lemma CoderLaws(c: Codec)
    ensures CoderOf(c).KeepsHeader()
    ensures c.Lawful() ==> forall e | Encodable(c, e) :: CoderOf(c).RoundTrips(e)
  {
    forall e: Event, pos: uint64 | TAB !in e.meta.streamID && Marshal(c, e).Ok?
      ensures var r := Unmarshal(c, Marshal(c, e).value, pos);
              r.Ok? ==> r.value.meta == Entry(e, pos).meta.(eventID := r.value.meta.eventID)
    {
      HeaderDecodes(c, e, pos);
    }
    if c.Lawful() {
      forall e: Event, pos: uint64 | Encodable(c, e)
        ensures Marshal(c, e).Ok? && Unmarshal(c, Marshal(c, e).value, pos) == Ok(Entry(e, pos))
      {
        RecordRoundTrip(c, e, pos);
      }
    }
  }

  // The mem-store

  /** The round trip through the codec that stands for a copy of the event. */
  function Copy(k: Coder, e: Event): Outcome<Event> {
    match k.marshal(e)
    case Err(x) => Err(BadEvent(x))
    case Ok(b) => Decoded(k.unmarshal(b, e.meta.position))
  }

  function Decoded(r: Result<Event, CodecError>): Outcome<Event> {
    match r
    case Err(x) => Err(BadEvent(x))
    case Ok(e) => Ok(e)
  }

  /** The copy the append loop stores, at its position in the stream. */
  function Clone(k: Coder, e: Event, pos: uint64): Outcome<Event> {
    match Copy(k, e)
    case Err(x) => Err(x)
    case Ok(e') => Ok(Event(Placed(e'.meta, pos), e'.body))
  }

  function CloneEach(k: Coder, lis: seq<Event>, last: nat): (r: seq<Outcome<Event>>)
    requires last + |lis| < TWO64
    ensures |r| == |lis| && forall j | 0 <= j < |lis| :: r[j] == Clone(k, lis[j], last + j + 1)
  {
    seq(|lis|, j requires 0 <= j < |lis| => Clone(k, lis[j], last + j + 1))
  }

  /** A failure in the middle of a batch leaves the clones made so far in the stream. */
  function MemAppend(k: Coder, stream: seq<Event>, streamID: string, batch: seq<Event>, version: uint64)
    : (r: (seq<Event>, Option<StoreError>))
    requires |stream| + |batch| <= ALL_EVENTS
  {
    if !VersionFits(version, |stream|) then (stream, Some(WrongVersion))
    else
      Grown(stream, Collect(CloneEach(k, OwnedAll(batch, streamID), |stream|)))
  }

  /** The clones made so far, and what stopped the loop. */
  function Grown(stream: seq<Event>, r: (seq<Event>, Option<StoreError>)): (seq<Event>, Option<StoreError>) {
    (stream + r.0, r.1)
  }

  /** `stream[index - 1]`, where index 0 wraps and an index past the end panics too. */
  function MemAt(k: Coder, stream: seq<Event>, i: uint64): Outcome<Event> {
    if Sub(i, 1) < |stream| then Copy(k, stream[Sub(i, 1)]) else Err(Panic)
  }

  function MemAtEach(k: Coder, stream: seq<Event>, index: seq<uint64>): (r: seq<Outcome<Event>>)
    ensures |r| == |index| && forall j | 0 <= j < |index| :: r[j] == MemAt(k, stream, index[j])
  {
    seq(|index|, j requires 0 <= j < |index| => MemAt(k, stream, index[j]))
  }

  function MemReadN(k: Coder, stream: seq<Event>, index: seq<uint64>): Outcome<seq<Event>> {
    All(MemAtEach(k, stream, index))
  }

  function MemFirst(stream: seq<Event>): uint64 {
    if stream == [] then 0 else stream[0].meta.position
  }

  function MemLast(stream: seq<Event>): uint64 {
    if stream == [] then 0 else stream[|stream| - 1].meta.position
  }

  function MemRead(k: Coder, stream: seq<Event>, streamID: string, after: int64, count: int64): (r: Outcome<seq<Event>>)
    ensures r.Ok? ==> |r.value| <= Abs(count)
  {
    OwnedRead(MemReadN(k, stream, IDs(MemFirst(stream), MemLast(stream), after, count)), streamID)
  }

  /** Both drivers stamp the stream id on the events a Read returns. */
  function OwnedRead(r: Outcome<seq<Event>>, streamID: string): Outcome<seq<Event>> {
    if r.Ok? then Ok(OwnedAll(r.value, streamID)) else r
  }

  // The disk-store, over a write-ahead log of records

  datatype Wal = Wal(removed: nat, records: seq<string>) {
    function FirstIndex(): nat {
      if records == [] then 0 else removed + 1
    }

    function LastIndex(): nat {
      removed + |records|
    }

    predicate Fits() {
      LastIndex() <= ALL_EVENTS && (records == [] ==> removed == 0)
    }

    function Read(i: uint64): Option<string> {
      if removed < i <= LastIndex() then Some(records[i - removed - 1]) else None
    }

    /** Keeps i..last; an index outside the log is refused and so is emptying it. */
    function TruncateFront(i: uint64): (Wal, bool) {
      if removed < i <= LastIndex() then (Wal(i - 1, records[i - removed - 1..]), true) else (this, false)
    }
  }

  function EncodeEach(k: Coder, lis: seq<Event>): (r: seq<Result<string, CodecError>>)
    ensures |r| == |lis| && forall j | 0 <= j < |lis| :: r[j] == k.marshal(lis[j])
  {
    seq(|lis|, j requires 0 <= j < |lis| => k.marshal(lis[j]))
  }

  /** All of the batch is encoded before any of it is written. */
  function DiskAppend(k: Coder, w: Wal, streamID: string, batch: seq<Event>, version: uint64)
    : (r: (Wal, Option<StoreError>))
  {
    if !VersionFits(version, w.LastIndex()) then (w, Some(WrongVersion))
    else
      match All(EncodeEach(k, OwnedAll(batch, streamID)))
      case Err(x) => (w, Some(BadEvent(x)))
      case Ok(txts) => (w.(records := w.records + txts), None)
  }

  function DiskAt(k: Coder, w: Wal, i: uint64): Outcome<Event> {
    match w.Read(i)
    case None => Err(NotFound)
    case Some(b) => Decoded(k.unmarshal(b, i))
  }

  function DiskAtEach(k: Coder, w: Wal, index: seq<uint64>): (r: seq<Outcome<Event>>)
    ensures |r| == |index| && forall j | 0 <= j < |index| :: r[j] == DiskAt(k, w, index[j])
  {
    seq(|index|, j requires 0 <= j < |index| => DiskAt(k, w, index[j]))
  }

  function DiskReadN(k: Coder, w: Wal, index: seq<uint64>): Outcome<seq<Event>> {
    All(DiskAtEach(k, w, index))
  }

  function DiskRead(k: Coder, w: Wal, streamID: string, after: int64, count: int64): Outcome<seq<Event>>
    requires w.Fits()
  {
    OwnedRead(DiskReadN(k, w, IDs(w.FirstIndex(), w.LastIndex(), after, count)), streamID)
  }

  // A batch that cannot be encoded

  /**
   The mem-store is left with part of a batch exactly when the version fits, the first event can be copied
   and a later one cannot; the disk-store never is.
   */
  lemma HalfWritten(k: Coder, stream: seq<Event>, w: Wal, streamID: string, batch: seq<Event>, version: uint64)
    requires |stream| + |batch| <= ALL_EVENTS
    ensures var owned := OwnedAll(batch, streamID);
            var r := MemAppend(k, stream, streamID, batch, version);
            r.1.Some? && r.0 != stream <==>
              && VersionFits(version, |stream|)
              && (batch != [] && Copy(k, owned[0]).Ok?)
              && (exists j | 0 <= j < |batch| :: Copy(k, owned[j]).Err?)
    ensures var r := DiskAppend(k, w, streamID, batch, version); r.1.Some? ==> r.0 == w
  {
    var owned := OwnedAll(batch, streamID);
    var rs := CloneEach(k, owned, |stream|);
    assert forall j | 0 <= j < |batch| :: rs[j].Err? <==> Copy(k, owned[j]).Err?;
    if VersionFits(version, |stream|) {
      var r := Collect(rs);
      assert |stream + r.0| == |stream| + |r.0|;
      assert forall j | 0 <= j < |r.0| :: rs[j].Ok?;
    }
  }

  /** Such a batch: a pointer, and behind it an event whose payload the codec cannot write. */
  lemma HalfBatch(c: Codec, streamID: string, target: Body, bad: Body, w: Wal)
    requires c.Lawful() && TAB !in streamID && target.Ptr? && EncodeBody(c, bad).None?
    ensures var k, batch := CoderOf(c), [Event(ZERO_META, target), Event(ZERO_META, bad)];
            var r := MemAppend(k, [], streamID, batch, APPEND_ONLY);
            && |r.0| == 1 && r.0[0].body == target && r.1 == Some(BadEvent(NoPayload))
            && DiskAppend(k, w, streamID, batch, APPEND_ONLY) == (w, Some(BadEvent(NoPayload)))
  {
    var k, batch := CoderOf(c), [Event(ZERO_META, target), Event(ZERO_META, bad)];
    var owned := OwnedAll(batch, streamID);
    RecordRoundTrip(c, owned[0], owned[0].meta.position);
    var rs := CloneEach(k, owned, 0);
    assert rs[0].Ok? && rs[1] == Err(BadEvent(NoPayload));
    CollectIs(rs, [rs[0].value]);
    var es := EncodeEach(k, owned);
    assert es[0].Ok? && es[1] == Err(NoPayload);
    CollectIs(es, [es[0].value]);
  }
}
