/** The on-disk driver: records in a write-ahead log (driver/disk-store). */
module DiskStore {
  import opened Words
  import opened Events
  import opened Codec
  import opened StreamIDs
  import opened Logs

  /** The caller's list after the append loop has stamped its first n events. */
  function Stamped(lis: seq<Event>, n: nat, last: nat): (r: seq<Event>)
    requires n <= |lis| && last + |lis| < TWO64
    ensures |r| == |lis|
    ensures forall i | 0 <= i < |lis| ::
      r[i] == if i < n then Event(Placed(lis[i].meta, last + i + 1), lis[i].body) else lis[i]
  {
    seq(|lis|, i requires 0 <= i < |lis| =>
      if i < n then Event(Placed(lis[i].meta, last + i + 1), lis[i].body) else lis[i])
  }

  /** How many of the caller's events an append stamps with a position: those in front of the first it cannot encode. */
  function StampCount(k: Coder, w: Wal, owned: seq<Event>, version: uint64): (n: nat)
    ensures n <= |owned|
  {
    if VersionFits(version, w.LastIndex()) then |Collect(EncodeEach(k, owned)).0| else 0
  }

  class EventLog {
    const streamID: string
    var wal: Wal

    constructor (streamID: string)
      ensures this.streamID == streamID && wal == Wal(0, [])
    {
      this.streamID := streamID;
      wal := Wal(0, []);
    }

    method Append(k: Coder, events: seq<EventRef>, version: uint64) returns (count: nat, err: Option<StoreError>)
      requires Distinct(events)
      requires wal.LastIndex() + |events| <= ALL_EVENTS
      modifies this, events
      ensures (wal, err) == DiskAppend(k, old(wal), streamID, old(Values(events)), version)
      ensures count == if err.None? then |events| else 0
      ensures var owned := OwnedAll(old(Values(events)), streamID);
              Values(events) == Stamped(owned, StampCount(k, old(wal), owned, version), old(wal).LastIndex())
      ensures err == Some(WrongVersion) <==> version != 0xFFFF_FFFF_FFFF_FFFF && version != old(wal).LastIndex()
      ensures err.None? ==>
                && wal.removed == old(wal).removed && |wal.records| == |old(wal).records| + |events|
                && forall i | 0 <= i < |events| ::
                     && events[i].meta.position == events[i].meta.actualPosition == old(wal).LastIndex() + i + 1
                     && events[i].meta.streamID == streamID
      ensures err == Some(WrongVersion) ==>
                && wal == old(wal)
                && forall i | 0 <= i < |events| ::
                     && events[i].meta.position == old(events[i].meta.position)
                     && events[i].meta.actualPosition == old(events[i].meta.actualPosition)
    {
      SetStreamID(streamID, events);
      ghost var owned := Values(events);
      count := 0;
      var last := wal.LastIndex();
      if version != APPEND_ONLY && version != last {
        return count, Some(WrongVersion);
      }
      var batch, x := Encode(k, events, last);
      if x.Some? {
        return count, Some(BadEvent(x.value));
      }
      count := |events|;
      wal := wal.(records := wal.records + batch);
      return count, None;
    }

    /** The append loop: each event is encoded, then stamped with its position. */
    static method Encode(k: Coder, events: seq<EventRef>, last: nat)
      returns (batch: seq<string>, err: Option<CodecError>)
      requires Distinct(events) && last + |events| <= ALL_EVENTS
      modifies events
      ensures (batch, err) == Collect(EncodeEach(k, old(Values(events))))
      ensures Values(events) == Stamped(old(Values(events)), |batch|, last)
    {
      batch := [];
      ghost var owned := Values(events);
      ghost var rs := EncodeEach(k, owned);
      for i := 0 to |events|
        invariant |batch| == i && forall j | 0 <= j < i :: rs[j] == Ok(batch[j])
        invariant forall j | 0 <= j < i ::
            events[j].Value() == Event(Placed(owned[j].meta, last + j + 1), owned[j].body)
        invariant forall j | i <= j < |events| :: events[j].Value() == owned[j]
      {
        var b := k.marshal(events[i].Value());
        if b.Err? {
          CollectIs(rs, batch);
          return batch, Some(b.error);
        }
        SetPosition(events[i], last + i + 1);
        batch := batch + [b.value];
      }
      CollectIs(rs, batch);
      return batch, None;
    }

    method ReadN(k: Coder, index: seq<uint64>) returns (r: Outcome<seq<EventRef>>)
      ensures match DiskReadN(k, wal, index)
              case Ok(all) => r.Ok? && fresh(r.value) && Distinct(r.value) && Values(r.value) == all
              case Err(e) => r == Err(e)
    {
      var events: seq<EventRef> := [];
      ghost var rs := DiskAtEach(k, wal, index);
      for i := 0 to |index|
        invariant |events| == i && fresh(events) && Distinct(events)
        invariant forall j | 0 <= j < i :: rs[j] == Ok(events[j].Value())
      {
        var b := wal.Read(index[i]);
        if b.None? {
          CollectIs(rs, Values(events));
          return Err(NotFound);
        }
        var e := k.unmarshal(b.value, index[i]);
        if e.Err? {
          CollectIs(rs, Values(events));
          return Err(BadEvent(e.error));
        }
        var o := new EventRef(e.value);
        events := events + [o];
      }
      CollectIs(rs, Values(events));
      return Ok(events);
    }

    method Read(k: Coder, after: int64, count: int64) returns (r: Outcome<seq<EventRef>>)
      requires wal.Fits()
      ensures match DiskRead(k, wal, streamID, after, count)
              case Ok(all) => r.Ok? && fresh(r.value) && Distinct(r.value) && Values(r.value) == all
              case Err(e) => r == Err(e)
    {
      var streamIDs := GenerateStreamIDs(wal.FirstIndex(), wal.LastIndex(), after, count);
      var events := ReadN(k, streamIDs);
      if events.Err? {
        return Err(events.error);
      }
      SetStreamID(streamID, events.value);
      return events;
    }

    /** Truncate with a positive index; back-truncation is not part of this model. */
    method TruncateFront(index: int64) returns (ok: bool)
      requires 0 <= index
      modifies this
      ensures index == 0 ==> ok && wal == old(wal)
      ensures index > 0 ==> (wal, ok) == old(wal).TruncateFront(index)
      ensures old(wal.Fits()) ==> wal.Fits()
      ensures wal.LastIndex() == old(wal).LastIndex()
      ensures index > 0 ==> (ok <==> old(wal).removed < index <= old(wal).LastIndex())
      ensures index > 0 && ok ==> wal.FirstIndex() == index
      ensures !ok ==> wal == old(wal)
      ensures forall i: uint64 | index <= i :: wal.Read(i) == old(wal).Read(i)
    {
      if index == 0 {
        return true;
      }
      var r := wal.TruncateFront(index);
      wal := r.0;
      return r.1;
    }
  }
}
