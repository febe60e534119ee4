/** The in-memory driver: one stream of event objects the log keeps to itself (driver/mem-store). */
module MemStore {
  import opened Words
  import opened Text
  import opened Events
  import opened StreamIDs
  import opened Logs

  /** Every append keeps the log filed, also one that fails half-way or carries events nobody can decode. */
  lemma AppendKeepsFiled(k: Coder, stream: seq<Event>, streamID: string, batch: seq<Event>, version: uint64)
    requires k.KeepsHeader() && TAB !in streamID
    requires |stream| + |batch| <= ALL_EVENTS
    requires Log(0, stream).Filed(streamID)
    ensures Log(0, MemAppend(k, stream, streamID, batch, version).0).Filed(streamID)
  {
    var owned := OwnedAll(batch, streamID);
    forall j | 0 <= j < |owned|
      ensures var r := Clone(k, owned[j], |stream| + j + 1);
              r.Ok? ==> FiledAt(r.value, streamID, |stream| + j + 1)
    {
    }
  }

  /** An event copied through the codec into an object of its own. */
  method CloneEvent(k: Coder, e: EventRef) returns (r: Outcome<EventRef>)
    ensures match Copy(k, e.Value())
            case Ok(v) => r.Ok? && fresh(r.value) && r.value.Value() == v
            case Err(x) => r == Err(x)
  {
    var b := k.marshal(e.Value());
    if b.Err? {
      return Err(BadEvent(b.error));
    }
    var e' := k.unmarshal(b.value, e.meta.position);
    if e'.Err? {
      return Err(BadEvent(e'.error));
    }
    var o := new EventRef(e'.value);
    return Ok(o);
  }

  /** The copy the append loop stores, at its new position. */
  method CloneAt(k: Coder, e: EventRef, pos: uint64) returns (r: Outcome<EventRef>)
    ensures match Clone(k, e.Value(), pos)
            case Ok(v) => r.Ok? && fresh(r.value) && r.value.Value() == v
            case Err(x) => r == Err(x)
  {
    r := CloneEvent(k, e);
    if r.Ok? {
      SetPosition(r.value, pos);
    }
  }

  function ValuesOf(r: Outcome<seq<EventRef>>): Outcome<seq<Event>>
    reads Handed(r)
  {
    match r
    case Ok(lis) => Ok(Values(lis))
    case Err(e) => Err(e)
  }

  function Handed(r: Outcome<seq<EventRef>>): seq<EventRef> {
    if r.Ok? then r.value else []
  }

  class EventLog {
    const streamID: string
    var stream: seq<EventRef>
    ghost var Repr: set<object>

    ghost predicate Valid()
      reads this, Repr
      ensures Valid() ==> this in Repr
    {
      && this in Repr
      && (forall e <- stream :: e in Repr)
    }

    ghost function Contents(): seq<Event>
      requires Valid()
      reads this, Repr
    {
      Values(stream)
    }

    constructor (streamID: string)
      ensures Valid() && fresh(Repr)
      ensures this.streamID == streamID && Contents() == []
    {
      this.streamID := streamID;
      stream := [];
      Repr := {this};
    }

    method Append(k: Coder, events: seq<EventRef>, version: uint64) returns (count: nat, err: Option<StoreError>)
      requires Valid() && forall e <- events :: e !in Repr
      requires |stream| + |events| <= ALL_EVENTS
      modifies this, events
      ensures Valid() && fresh(Repr - old(Repr))
      ensures Values(events) == OwnedAll(old(Values(events)), streamID)
      ensures count == |events|
      ensures forall e <- events :: e !in Repr
      ensures (Contents(), err) == MemAppend(k, old(Contents()), streamID, old(Values(events)), version)
    {
      ghost var was := Contents();
      SetStreamID(streamID, events);
      assert Contents() == was;
      count := |events|;
      err := Add(k, events, version, CloneEach(k, Values(events), |stream|));
    }

    /** What Append does under the lock. */
    method Add(k: Coder, events: seq<EventRef>, version: uint64, ghost rs: seq<Outcome<Event>>)
      returns (err: Option<StoreError>)
      requires Valid() && |stream| + |events| <= ALL_EVENTS
      requires rs == CloneEach(k, Values(events), |stream|)
      modifies this
      ensures Valid() && old(Repr) <= Repr && fresh(Repr - old(Repr))
      ensures VersionFits(version, |old(stream)|) ==> (Contents(), err) == Grown(old(Contents()), Collect(rs))
      ensures !VersionFits(version, |old(stream)|) ==> Contents() == old(Contents()) && err == Some(WrongVersion)
    {
      var last := |stream|;
      if version != APPEND_ONLY && version != last {
        return Some(WrongVersion);
      }
      ghost var init, was := stream, Contents();
      err := Push(k, events, rs);
      ValuesSplit(stream, last);
      assert stream[..last] == init && Values(init) == was;
    }

    /** The append loop: what it pushed are the clones in front of the first error. */
    method Push(k: Coder, events: seq<EventRef>, ghost rs: seq<Outcome<Event>>) returns (err: Option<StoreError>)
      requires |stream| + |events| <= ALL_EVENTS
      requires rs == CloneEach(k, Values(events), |stream|)
      requires Valid()
      modifies this
      ensures old(stream) <= stream && old(Repr) <= Repr && fresh(Repr - old(Repr))
      ensures Valid()
      ensures (Values(stream[|old(stream)|..]), err) == Collect(rs)
    {
      var last := |stream|;
      ghost var pushed: seq<EventRef> := [];
      for i := 0 to |events|
        invariant |pushed| == i && stream == old(stream) + pushed
        invariant Valid() && old(Repr) <= Repr && fresh(Repr - old(Repr))
        invariant forall j | 0 <= j < i :: rs[j] == Ok(pushed[j].Value())
      {
        assert rs[i] == Clone(k, events[i].Value(), last + i + 1);
        var e := CloneAt(k, events[i], last + i + 1);
        if e.Err? {
          CollectIs(rs, Values(pushed));
          assert stream[last..] == pushed;
          return Some(e.error);
        }
        stream := stream + [e.value];
        Repr := Repr + {e.value};
        pushed := pushed + [e.value];
      }
      CollectIs(rs, Values(pushed));
      assert stream[last..] == pushed;
      return None;
    }

    method ReadN(k: Coder, index: seq<uint64>) returns (r: Outcome<seq<EventRef>>)
      requires Valid()
      ensures ValuesOf(r) == MemReadN(k, Contents(), index)
      ensures fresh(Handed(r)) && Distinct(Handed(r))
    {
      var events: seq<EventRef> := [];
      ghost var rs := MemAtEach(k, Contents(), index);
      for i := 0 to |index|
        invariant |events| == i && fresh(events) && Distinct(events)
        invariant forall j | 0 <= j < i :: rs[j] == Ok(events[j].Value())
      {
        var at := Sub(index[i], 1);
        if at >= |stream| {
          CollectIs(rs, Values(events));
          return Err(Panic);
        }
        var e := CloneEvent(k, stream[at]);
        if e.Err? {
          CollectIs(rs, Values(events));
          return Err(e.error);
        }
        events := events + [e.value];
      }
      CollectIs(rs, Values(events));
      return Ok(events);
    }

    method Read(k: Coder, after: int64, count: int64) returns (r: Outcome<seq<EventRef>>)
      requires Valid()
      ensures ValuesOf(r) == MemRead(k, Contents(), streamID, after, count)
      ensures fresh(Handed(r)) && Distinct(Handed(r)) && forall e <- Handed(r) :: e !in Repr
    {
      var first := FirstIndex();
      var last := LastIndex();
      var streamIDs := GenerateStreamIDs(first, last, after, count);
      r := ReadOwned(k, streamIDs);
    }

    /** Copies of the entries asked for, under the stream id. */
    method ReadOwned(k: Coder, index: seq<uint64>) returns (r: Outcome<seq<EventRef>>)
      requires Valid()
      ensures ValuesOf(r) == OwnedRead(MemReadN(k, Contents(), index), streamID)
      ensures fresh(Handed(r)) && Distinct(Handed(r)) && forall e <- Handed(r) :: e !in Repr
    {
      ghost var was := Contents();
      r := ReadN(k, index);
      if r.Ok? {
        SetStreamID(streamID, r.value);
        assert Contents() == was;
      }
    }

    method FirstIndex() returns (i: uint64)
      requires Valid()
      ensures i == MemFirst(Contents())
    {
      if stream == [] {
        return 0;
      }
      return stream[0].meta.position;
    }

    method LastIndex() returns (i: uint64)
      requires Valid()
      ensures i == MemLast(Contents())
    {
      if stream == [] {
        return 0;
      }
      return stream[|stream| - 1].meta.position;
    }
  }

  /** Overwrites event objects that are not the log's own. */
  method Scribble(log: EventLog, lis: seq<EventRef>, noise: Event)
    requires log.Valid() && forall e <- lis :: e !in log.Repr
    modifies lis
    ensures log.Valid() && log.Contents() == old(log.Contents())
    ensures forall e <- lis :: e.Value() == noise
  {
    for i := 0 to |lis|
      invariant log.Valid() && log.Contents() == old(log.Contents())
      invariant forall j | 0 <= j < i :: lis[j].Value() == noise
    {
      lis[i].meta, lis[i].body := noise.meta, noise.body;
    }
  }

  /** What a Read and a ReadN of a stream return. */
  function Reads(k: Coder, stream: seq<Event>, streamID: string, after: int64, count: int64, index: seq<uint64>)
    : (Outcome<seq<Event>>, Outcome<seq<Event>>)
  {
    (MemRead(k, stream, streamID, after, count), MemReadN(k, stream, index))
  }

  /** Hands out copies of a page and of single entries. */
  method HandOut(k: Coder, log: EventLog, after: int64, count: int64, index: seq<uint64>)
    returns (page: Outcome<seq<EventRef>>, picked: Outcome<seq<EventRef>>)
    requires log.Valid()
    ensures fresh(Handed(page)) && forall e <- Handed(page) :: e !in log.Repr
    ensures fresh(Handed(picked)) && forall e <- Handed(picked) :: e !in log.Repr
    ensures (ValuesOf(page), ValuesOf(picked)) == Reads(k, log.Contents(), log.streamID, after, count, index)
  {
    page := log.Read(k, after, count);
    ghost var was := ValuesOf(page);
    picked := log.ReadN(k, index);
    assert ValuesOf(page) == was;
  }

  /** Overwrites the objects given and all that a Read and a ReadN hand out; `was` is what these held. */
  method Spoil(k: Coder, log: EventLog, given: seq<EventRef>, after: int64, count: int64, index: seq<uint64>,
               noise: Event)
    returns (ghost was: (Outcome<seq<Event>>, Outcome<seq<Event>>), outside: seq<EventRef>)
    requires log.Valid() && forall e <- given :: e !in log.Repr
    modifies given
    ensures log.Valid() && log.Contents() == old(log.Contents())
    ensures was == Reads(k, log.Contents(), log.streamID, after, count, index)
    ensures given <= outside && |outside| == |given| + Size(was.0) + Size(was.1)
    ensures forall e <- outside :: e.Value() == noise
  {
    var page, picked := HandOut(k, log, after, count, index);
    was := (ValuesOf(page), ValuesOf(picked));
    outside := given + Handed(page) + Handed(picked);
    Scribble(log, outside, noise);
  }

  /**
   Nobody outside can change the log through an event object: after a Read and a ReadN, overwriting every object
   that came out, and any others that are not the log's own, leaves all later reads as they were.
   */
  method Isolation(k: Coder, log: EventLog, given: seq<EventRef>, after: int64, count: int64, index: seq<uint64>,
                   noise: Event)
    returns (ghost was: (Outcome<seq<Event>>, Outcome<seq<Event>>), outside: seq<EventRef>,
             page: Outcome<seq<EventRef>>, picked: Outcome<seq<EventRef>>)
    requires log.Valid() && forall e <- given :: e !in log.Repr
    modifies given
    ensures log.Valid() && log.Contents() == old(log.Contents())
    ensures was == Reads(k, log.Contents(), log.streamID, after, count, index)
    ensures given <= outside && |outside| == |given| + Size(was.0) + Size(was.1)
    ensures forall e <- outside :: e.Value() == noise
    ensures (ValuesOf(page), ValuesOf(picked)) == was
  {
    was, outside := Spoil(k, log, given, after, count, index, noise);
    page, picked := HandOut(k, log, after, count, index);
  }

  function Size(r: Outcome<seq<Event>>): nat {
    if r.Ok? then |r.value| else 0
  }

  /** The objects that were appended are among those that can do no harm. */
  method AppendIsolated(k: Coder, log: EventLog, events: seq<EventRef>, version: uint64, after: int64, count: int64,
                        index: seq<uint64>, noise: Event)
    returns (ghost stream: seq<Event>, page: Outcome<seq<EventRef>>, picked: Outcome<seq<EventRef>>)
    requires log.Valid() && forall e <- events :: e !in log.Repr
    requires |log.stream| + |events| <= ALL_EVENTS
    modifies log, events
    ensures stream == MemAppend(k, old(log.Contents()), log.streamID, old(Values(events)), version).0
    ensures log.Valid() && log.Contents() == stream
    ensures forall e <- events :: e.Value() == noise
    ensures (ValuesOf(page), ValuesOf(picked)) == Reads(k, stream, log.streamID, after, count, index)
  {
    var n, err := log.Append(k, events, version);
    stream := log.Contents();
    ghost var was;
    var outside;
    was, outside, page, picked := Isolation(k, log, events, after, count, index, noise);
    assert forall i | 0 <= i < |events| :: events[i] == outside[i];
  }
}
