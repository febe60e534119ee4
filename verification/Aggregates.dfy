/** The bookkeeping of an aggregate (event/aggregate.go). */
module Aggregates {
  import opened Words
  import opened Events

  /** The fields of IsAggregate. Its state is a fold of the payloads in `events`, applied in their order. */
  datatype Agg = Agg(streamID: string, events: seq<Event>, firstIndex: uint64, lastIndex: uint64) {

    /** A Go slice is no longer than an int can count. */
    predicate Fits() {
      |events| <= ALL_EVENTS
    }

    function StreamVersion(): uint64 {
      lastIndex
    }

    function Version(): uint64
      requires Fits()
    {
      Add(firstIndex, |events|)
    }

    /** Where `Events(true)` cuts the list; beyond its end the slice expression panics. */
    function Cut(): uint64 {
      Sub(lastIndex, firstIndex)
    }

    function Uncommitted(): (r: Option<seq<Event>>)
    {
      if Cut() <= |events| then Some(events[Cut()..]) else None
    }

    function State(): seq<Body> {
      Bodies(events)
    }
  }

  function Fresh(streamID: string): Agg {
    Agg(streamID, [], 0, 0)
  }

  /** posStartAt: positions count on from lastIndex, on wrapping integers. */
  function PosStartAt(last: uint64, lis: seq<Event>): (r: seq<Event>)
    requires |lis| <= ALL_EVENTS
    ensures |r| == |lis|
    ensures forall i | 0 <= i < |lis| ::
      r[i] == Event(lis[i].meta.(position := Add(Add(last, i), 1)), lis[i].body)
  {
    seq(|lis|, i requires 0 <= i < |lis| => Event(lis[i].meta.(position := Add(Add(last, i), 1)), lis[i].body))
  }

  function Start(a: Agg, i: uint64): Agg {
    a.(firstIndex := i, lastIndex := i)
  }

  /** Committed events: appended, and counted by lastIndex. */
  function Append(a: Agg, lis: seq<Event>): Agg
    requires |lis| <= ALL_EVENTS
  {
    a.(events := a.events + PosStartAt(a.lastIndex, lis), lastIndex := Add(a.lastIndex, |lis|))
  }

  function Raise(a: Agg, lis: seq<Event>, ids: seq<Ulid>): Agg
    requires |ids| == |lis| <= ALL_EVENTS
  {
    a.(events := a.events + PosStartAt(a.lastIndex, OwnedAll(NumberedAll(lis, ids), a.streamID)))
  }

  /** Commit takes the number of events held for the version, whatever firstIndex says. */
  function Commit(a: Agg): Agg
    requires a.Fits()
  {
    a.(lastIndex := |a.events|)
  }

  /** A raised event has the id drawn for it, the aggregate's stream, the next position and the payload given. */
  lemma RaisedFields(a: Agg, lis: seq<Event>, ids: seq<Ulid>, i: nat)
    requires |ids| == |lis| <= ALL_EVENTS && i < |lis|
    ensures var b := Raise(a, lis, ids);
            && |b.events| == |a.events| + |lis| && b.events[..|a.events|] == a.events
            && b.firstIndex == a.firstIndex && b.lastIndex == a.lastIndex
            && var e := b.events[|a.events| + i];
               && e.body == lis[i].body && e.meta.eventID == ids[i] && e.meta.streamID == a.streamID
               && e.meta.position == (a.lastIndex + i + 1) % TWO64
               && e.meta.actualStreamID == (if lis[i].meta.actualStreamID == "" then a.streamID
                                            else lis[i].meta.actualStreamID)
               && e.meta.actualPosition == (if lis[i].meta.actualPosition == 0 then i else lis[i].meta.actualPosition)
  {
    var raised := PosStartAt(a.lastIndex, OwnedAll(NumberedAll(lis, ids), a.streamID));
    assert (a.events + raised)[|a.events| + i] == raised[i];
  }

  // Where the bookkeeping is not what its names promise

  /** A commit brings the stream version to the aggregate's exactly when the stream was never cut at the front. */
  lemma CommitExact(a: Agg)
    requires a.Fits()
    ensures Commit(a).StreamVersion() == a.Version() <==> a.firstIndex == 0
  {
  }

  /**
   A raised event gets the position behind the aggregate's version exactly when nothing was waiting to be
   committed: a second Raise counts from the stream version again.
   */
  lemma RaisePositions(a: Agg, lis: seq<Event>, ids: seq<Ulid>, i: nat)
    requires |ids| == |lis| && i < |lis| && |a.events| + |lis| <= ALL_EVENTS
    ensures Raise(a, lis, ids).events[|a.events| + i].meta.position == Add(Add(a.Version(), i), 1) <==>
            a.Uncommitted() == Some([])
  {
    AddCancels(a.lastIndex, a.Version(), i);
    var cut, n := a.Cut(), |a.events|;
    assert a.lastIndex == a.Version() <==> cut == n;
    assert cut <= n ==> |a.events[cut..]| == n - cut;
  }

  lemma AddCancels(a: uint64, b: uint64, i: uint64)
    ensures Add(Add(a, i), 1) == Add(Add(b, i), 1) <==> a == b
  {
  }
}

/** The aggregate as the object its methods update. */
module AggregateRoot {
  import opened Words
  import opened Events
  import Aggregates

  class IsAggregate {
    var events: seq<EventRef>
    var streamID: string
    var firstIndex: uint64
    var lastIndex: uint64

    constructor (streamID: string)
      ensures Model() == Aggregates.Fresh(streamID) && events == []
    {
      this.streamID := streamID;
      events := [];
      firstIndex, lastIndex := 0, 0;
    }

    function Model(): Aggregates.Agg
      reads this, events
    {
      Aggregates.Agg(streamID, Values(events), firstIndex, lastIndex)
    }

    method Start(i: uint64)
      modifies this
      ensures events == old(events) && Model() == Aggregates.Start(old(Model()), i)
    {
      firstIndex, lastIndex := i, i;
    }

    method Commit()
      requires |events| <= ALL_EVENTS
      modifies this
      ensures events == old(events) && Model() == Aggregates.Commit(old(Model()))
    {
      lastIndex := |events|;
    }

    method PosStartAt(lis: seq<EventRef>)
      requires Distinct(lis) && |lis| <= ALL_EVENTS
      modifies lis
      ensures Values(lis) == Aggregates.PosStartAt(lastIndex, old(Values(lis)))
    {
      for i := 0 to |lis|
        invariant forall j | 0 <= j < i ::
            lis[j].Value() == Event(old(lis[j].meta).(position := Add(Add(lastIndex, j), 1)), old(lis[j].body))
        invariant forall j | i <= j < |lis| :: lis[j].Value() == old(lis[j].Value())
      {
        lis[i].meta := lis[i].meta.(position := Add(Add(lastIndex, i), 1));
      }
    }

    /** The event objects given are the ones the aggregate keeps. */
    method Append(lis: seq<EventRef>)
      requires Distinct(lis) && |lis| <= ALL_EVENTS
      requires forall e <- lis :: e !in events
      modifies this, lis
      ensures events == old(events) + lis
      ensures Model() == Aggregates.Append(old(Model()), old(Values(lis)))
    {
      ghost var kept := Values(events);
      assert forall i | 0 <= i < |events| :: events[i] in events && events[i] !in lis;
      PosStartAt(lis);
      assert Values(events) == kept;
      Keep(lis);
      lastIndex := Add(lastIndex, |lis|);
    }

    /** What Raise does to the metadata of the events given. */
    method Stamp(lis: seq<EventRef>, ids: seq<Ulid>)
      requires Distinct(lis) && |ids| == |lis| <= ALL_EVENTS
      modifies lis
      ensures Values(lis) == Aggregates.PosStartAt(lastIndex, OwnedAll(NumberedAll(old(Values(lis)), ids), streamID))
    {
      NewEvents(lis, ids);
      SetStreamID(streamID, lis);
      PosStartAt(lis);
    }

    /** Raise: numbers, stamps and keeps new events; the ids drawn are an argument. */
    method Raise(lis: seq<EventRef>, ids: seq<Ulid>)
      requires Distinct(lis) && |ids| == |lis| <= ALL_EVENTS
      requires forall e <- lis :: e !in events
      modifies this, lis
      ensures events == old(events) + lis
      ensures Model() == Aggregates.Raise(old(Model()), old(Values(lis)), ids)
      ensures forall i | 0 <= i < |lis| :: lis[i].meta.eventID == ids[i] && lis[i].meta.streamID == streamID
    {
      ghost var kept := Values(events);
      assert forall i | 0 <= i < |events| :: events[i] in events && events[i] !in lis;
      Stamp(lis, ids);
      assert Values(events) == kept;
      Keep(lis);
    }

    /** The slice append under the lock. */
    method Keep(lis: seq<EventRef>)
      modifies this
      ensures events == old(events) + lis && Values(events) == old(Values(events)) + Values(lis)
      ensures streamID == old(streamID) && firstIndex == old(firstIndex) && lastIndex == old(lastIndex)
    {
      events := events + lis;
    }

    /** A copy of the list, of the whole of it or of what is not committed yet. */
    method Events(uncommitted: bool) returns (r: Option<seq<EventRef>>)
      ensures !uncommitted ==> r == Some(events)
      ensures uncommitted ==> r.Some? == Model().Uncommitted().Some?
      ensures uncommitted && r.Some? ==> Model().Cut() <= |events| && r.value == events[Model().Cut()..]
    {
      if !uncommitted {
        return Some(events);
      }
      var cut := Sub(lastIndex, firstIndex);
      if cut > |events| {
        return None;
      }
      return Some(events[cut..]);
    }
  }
}
