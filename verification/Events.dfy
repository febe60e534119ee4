/** Events, their metadata and the helpers that stamp it (event/events.go). */
module Events {
  import opened Words

  /** An event id: 16 bytes, read as a number. */
  type Ulid = x: int | 0 <= x < 0x1_0000_0000_0000_0000_0000_0000_0000_0000

  datatype Meta = Meta(
    eventID: Ulid,
    streamID: string,
    position: uint64,
    actualStreamID: string,
    actualPosition: uint64)

  /**
   What an event carries besides its metadata. `Ptr` is an EventPtr, `Nil` the nilEvent, `Plain` a
   value of some application type, `Unknown` the container for a type nobody registered.
   */
  datatype Body =
    | Ptr(target: string, pos: uint64)
    | Nil
    | Plain(name: string, value: string)
    | Unknown(name: string, values: map<string, string>)

  datatype Event = Event(meta: Meta, body: Body)

  const ZERO_META := Meta(0, "", 0, "", 0)

  const PTR_TYPE := "event.EventPtr"

  /** The name EventPtr was once stored under; it is still registered. */
  const LEGACY_PTR_TYPE := "event.eventPtr"

  const NIL_TYPE := "event.nilEvent"

  function TypeOf(body: Body): string {
    match body
    case Ptr(_, _) => PTR_TYPE
    case Nil => NIL_TYPE
    case Plain(name, _) => name
    case Unknown(name, _) => name
  }

  function Bodies(lis: seq<Event>): (r: seq<Body>)
    ensures |r| == |lis|
    ensures forall i | 0 <= i < |lis| :: r[i] == lis[i].body
  {
    seq(|lis|, i requires 0 <= i < |lis| => lis[i].body)
  }

  lemma BodiesConcat(a: seq<Event>, b: seq<Event>)
    ensures Bodies(a + b) == Bodies(a) + Bodies(b)
  {
  }

  /** `lis.First().EventMeta().ActualPosition`, which of an empty list is the nil event's 0. */
  function FirstActual(lis: seq<Event>): uint64 {
    if lis == [] then 0 else lis[0].meta.actualPosition
  }

  function LastActual(lis: seq<Event>): uint64 {
    if lis == [] then 0 else lis[|lis| - 1].meta.actualPosition
  }

  // What one round of the loops in NewEvents, SetStreamID and SetPosition does to the metadata.

  function Numbered(m: Meta, i: uint64, id: Ulid): Meta {
    m.(position := i, actualPosition := if m.actualPosition == 0 then i else m.actualPosition, eventID := id)
  }

  function Owned(m: Meta, id: string): Meta {
    m.(streamID := id, actualStreamID := if m.actualStreamID == "" then id else m.actualStreamID)
  }

  function Placed(m: Meta, i: uint64): Meta {
    m.(position := i, actualPosition := i)
  }

  function NumberedAll(lis: seq<Event>, ids: seq<Ulid>): (r: seq<Event>)
    requires |ids| == |lis| <= TWO63
    ensures |r| == |lis|
  {
    seq(|lis|, i requires 0 <= i < |lis| => Event(Numbered(lis[i].meta, i, ids[i]), lis[i].body))
  }

  function OwnedAll(lis: seq<Event>, id: string): (r: seq<Event>)
    ensures |r| == |lis|
  {
    seq(|lis|, i requires 0 <= i < |lis| => Event(Owned(lis[i].meta, id), lis[i].body))
  }

  /** An event object. Every holder of the reference sees a change of its metadata. */
  class EventRef {
    var meta: Meta
    var body: Body

    constructor (e: Event)
      ensures Value() == e
    {
      meta, body := e.meta, e.body;
    }

    function Value(): Event
      reads this
    {
      Event(meta, body)
    }
  }

  function Values(lis: seq<EventRef>): (r: seq<Event>)
    reads lis
    ensures |r| == |lis|
    ensures forall i | 0 <= i < |lis| :: r[i] == lis[i].Value()
  {
    seq(|lis|, i requires 0 <= i < |lis| reads lis => lis[i].Value())
  }

  lemma ValuesSplit(lis: seq<EventRef>, n: nat)
    requires n <= |lis|
    ensures Values(lis) == Values(lis[..n]) + Values(lis[n..])
  {
  }

  predicate Distinct(lis: seq<EventRef>) {
    forall i, j | 0 <= i < j < |lis| :: lis[i] != lis[j]
  }

  /** Numbers a list and gives every event its id; the ids drawn are an argument. */
  method NewEvents(lis: seq<EventRef>, ids: seq<Ulid>)
    requires Distinct(lis) && |ids| == |lis| <= TWO63
    modifies lis
    ensures Values(lis) == NumberedAll(old(Values(lis)), ids)
    ensures forall i | 0 <= i < |lis| ::
              && lis[i].meta.position == i && lis[i].meta.eventID == ids[i]
              && lis[i].meta.actualPosition == (if old(lis[i].meta.actualPosition) == 0 then i
                                                else old(lis[i].meta.actualPosition))
              && lis[i].meta.streamID == old(lis[i].meta.streamID)
              && lis[i].meta.actualStreamID == old(lis[i].meta.actualStreamID)
              && lis[i].body == old(lis[i].body)
  {
    for i := 0 to |lis|
      invariant forall k | 0 <= k < i ::
          lis[k].Value() == Event(Numbered(old(lis[k].meta), k, ids[k]), old(lis[k].body))
      invariant forall k | i <= k < |lis| :: lis[k].Value() == old(lis[k].Value())
    {
      var meta := lis[i].meta;
      meta := meta.(position := i);
      if meta.actualPosition == 0 {
        meta := meta.(actualPosition := i);
      }
      lis[i].meta := meta.(eventID := ids[i]);
    }
  }

  method SetStreamID(id: string, lis: seq<EventRef>)
    modifies lis
    ensures Values(lis) == OwnedAll(old(Values(lis)), id)
    ensures forall e <- lis ::
              && e.meta.streamID == id
              && e.meta.actualStreamID == (if old(e.meta.actualStreamID) == "" then id
                                           else old(e.meta.actualStreamID))
              && e.meta.position == old(e.meta.position) && e.meta.actualPosition == old(e.meta.actualPosition)
              && e.meta.eventID == old(e.meta.eventID) && e.body == old(e.body)
  {
    for i := 0 to |lis|
      invariant forall k | 0 <= k < |lis| :: lis[k].body == old(lis[k].body)
      invariant forall k | 0 <= k < |lis| ::
          lis[k].meta == old(lis[k].meta) || lis[k].meta == Owned(old(lis[k].meta), id)
      invariant forall k | 0 <= k < i :: lis[k].meta == Owned(old(lis[k].meta), id)
    {
      var meta := lis[i].meta;
      meta := meta.(streamID := id);
      if meta.actualStreamID == "" {
        meta := meta.(actualStreamID := id);
      }
      lis[i].meta := meta;
    }
  }

  method SetPosition(e: EventRef, i: uint64)
    modifies e
    ensures e.Value() == Event(Placed(old(e.meta), i), old(e.body))
    ensures e.meta.position == e.meta.actualPosition == i && e.meta.eventID == old(e.meta.eventID)
    ensures e.meta.streamID == old(e.meta.streamID) && e.meta.actualStreamID == old(e.meta.actualStreamID)
  {
    e.meta := e.meta.(position := i, actualPosition := i);
  }
}
