/** Load, Save and the calls built from them (ev.go), on the objects they update, over the mem-store. */
module EventStore {
  import opened Words
  import opened Events
  import opened Codec
  import StreamIDs
  import opened Logs
  import opened Stores
  import opened MemStore
  import opened AggregateRoot
  import Aggregates
  import Refinement

  /** What Load makes of an aggregate and of what its reads returned. */
  function LoadedFrom(a: Aggregates.Agg, first: uint64, read: Outcome<seq<Event>>): (Aggregates.Agg, Option<Failure>)
    requires read.Ok? ==> |read.value| <= ALL_EVENTS
  {
    match read
    case Err(e) => (a, Some(Store(e)))
    case Ok(events) =>
      match Loaded(a, first, events)
      case None => (a, Some(Store(NotFound)))
      case Some(b) => (b, None)
  }

  /** What Save makes of the stream and of the aggregate: the driver stamps its stream id on what it is given. */
  function SavedTo(k: Coder, stream: seq<Event>, streamID: string, a: Aggregates.Agg)
    : (seq<Event>, Aggregates.Agg, Result<nat, Failure>)
    requires a.Fits()
  {
    match a.Uncommitted()
    case None => (stream, a, Err(Store(Panic)))
    case Some(u) =>
      if u == [] then (stream, a, Ok(0))
      else if |stream| + |u| > ALL_EVENTS then (stream, a, Err(Store(Panic)))
      else
        var r := MemAppend(k, stream, streamID, u, a.StreamVersion());
        var b := a.(events := a.events[..a.Cut()] + OwnedAll(u, streamID));
        match r.1
        case Some(e) => (r.0, b, Err(Store(e)))
        case None => (r.0, Aggregates.Commit(b), Ok(|u|))
  }

  /** A whole Create, Update or Upsert. */
  function Performed(k: Coder, stream: seq<Event>, streamID: string, p: Program)
    : (seq<Event>, Result<Aggregates.Agg, Failure>)
  {
    match MemRead(k, stream, streamID, 0, ALL_EVENTS)
    case Err(e) => (stream, Err(Store(e)))
    case Ok(read) =>
      match Prepare(p, streamID, MemFirst(stream), read)
      case Err(e) => (stream, Err(e))
      case Ok(a) =>
        PrepareFits(p, streamID, MemFirst(stream), read);
        var r := SavedTo(k, stream, streamID, a);
        (r.0, if r.2.Ok? then Ok(r.1) else Err(r.2.error))
  }

  /** The log keeps its own copies: none of them is an event of the aggregate. */
  ghost predicate Apart(l: EventLog, agg: IsAggregate)
    reads l, agg
  {
    agg !in l.Repr && Distinct(agg.events) && forall e <- agg.events :: e !in l.Repr
  }

  lemma DistinctMore(a: seq<EventRef>, b: seq<EventRef>)
    requires Distinct(a) && Distinct(b) && forall e <- b :: e !in a
    ensures Distinct(a + b)
  {
    assert forall i | 0 <= i < |a| :: a[i] in a;
    assert forall i | 0 <= i < |b| :: b[i] in b;
  }

  /** Start and Append, as Load calls them; the log has no part in it. */
  method Apply(ghost l: EventLog, agg: IsAggregate, first: uint64, events: seq<EventRef>)
    requires l.Valid() && Apart(l, agg)
    requires 0 < |events| <= ALL_EVENTS && Distinct(events) && forall e <- events :: e !in agg.events && e !in l.Repr
    modifies agg, events
    ensures l.Valid() && Apart(l, agg) && l.Contents() == old(l.Contents())
    ensures agg.events == old(agg.events) + events
    ensures Some(agg.Model()) == Loaded(old(agg.Model()), first, old(Values(events)))
  {
    ghost var contents, held := l.Contents(), agg.events;
    agg.Start(Sub(first, 1));
    agg.Append(events);
    assert l.Contents() == contents;
    DistinctMore(held, events);
  }

  method Load(k: Coder, l: EventLog, agg: IsAggregate) returns (err: Option<Failure>)
    requires l.Valid() && Apart(l, agg)
    modifies agg
    ensures l.Valid() && Apart(l, agg) && l.Contents() == old(l.Contents())
    ensures forall e <- agg.events :: e in old(agg.events) || fresh(e)
    ensures (agg.Model(), err) == LoadedFrom(old(agg.Model()), MemFirst(l.Contents()),
                                             MemRead(k, l.Contents(), l.streamID, 0, ALL_EVENTS))
  {
    ghost var contents := l.Contents();
    var first := l.FirstIndex();
    var events := l.Read(k, 0, ALL_EVENTS);
    if events.Err? {
      return Some(Store(events.error));
    }
    if |events.value| == 0 {
      return Some(Store(NotFound));
    }
    assert MemRead(k, contents, l.streamID, 0, ALL_EVENTS) == Ok(Values(events.value));
    Apply(l, agg, first, events.value);
    return None;
  }

  /** The append inside Save: the driver stamps the events behind the cut and no others. */
  method Write(k: Coder, l: EventLog, agg: IsAggregate, cut: nat) returns (err: Option<StoreError>)
    requires l.Valid() && Apart(l, agg) && cut <= |agg.events|
    requires |l.stream| + |agg.events| - cut <= ALL_EVENTS
    modifies agg.events, l
    ensures l.Valid() && Apart(l, agg)
    ensures Values(agg.events) == old(Values(agg.events[..cut])) + OwnedAll(old(Values(agg.events[cut..])), l.streamID)
    ensures (l.Contents(), err) ==
            MemAppend(k, old(l.Contents()), l.streamID, old(Values(agg.events[cut..])), agg.lastIndex)
  {
    var front, events := agg.events[..cut], agg.events[cut..];
    ghost var kept := Values(front);
    assert forall e <- front :: e !in events by {
      assert forall j | 0 <= j < |events| :: events[j] == agg.events[cut + j];
    }
    var count;
    count, err := l.Append(k, events, agg.lastIndex);
    assert Values(front) == kept;
    ValuesSplit(agg.events, cut);
  }

  method Save(k: Coder, l: EventLog, agg: IsAggregate) returns (r: Result<nat, Failure>)
    requires l.Valid() && Apart(l, agg) && |agg.events| <= ALL_EVENTS
    modifies agg, agg.events, l
    ensures l.Valid() && Apart(l, agg) && agg.events == old(agg.events)
    ensures (l.Contents(), agg.Model(), r) == SavedTo(k, old(l.Contents()), l.streamID, old(agg.Model()))
  {
    var events := agg.Events(true);
    if events.None? {
      return Err(Store(Panic));
    }
    if |events.value| == 0 {
      return Ok(0);
    }
    if |l.stream| + |events.value| > ALL_EVENTS {
      return Err(Store(Panic));
    }
    var cut := Sub(agg.lastIndex, agg.firstIndex);
    ValuesSplit(agg.events, cut);
    var err := Write(k, l, agg, cut);
    if err.Some? {
      return Err(Store(err.value));
    }
    agg.Commit();
    return Ok(|events.value|);
  }

  /** New event objects for the drafts a client's function raises. */
  method Draw(ds: seq<Draft>) returns (lis: seq<EventRef>)
    ensures fresh(lis) && Distinct(lis) && Values(lis) == DraftEvents(ds)
  {
    lis := [];
    for i := 0 to |ds|
      invariant |lis| == i && fresh(lis) && Distinct(lis)
      invariant forall j | 0 <= j < i :: lis[j].Value() == Event(ZERO_META, ds[j].body)
    {
      var e := new EventRef(Event(ZERO_META, ds[i].body));
      lis := lis + [e];
    }
  }

  /** The client's function: it raises its lists one after the other. */
  method RaiseEach(agg: IsAggregate, raises: seq<seq<Draft>>)
    requires Distinct(agg.events) && |agg.events| + Total(raises) <= ALL_EVENTS
    modifies agg
    ensures Distinct(agg.events)
    ensures forall e <- agg.events :: e in old(agg.events) || fresh(e)
    ensures agg.Model() == RaiseAll(old(agg.Model()), raises)
  {
    ghost var was, n := agg.Model(), |agg.events|;
    for i := 0 to |raises|
      invariant Distinct(agg.events)
      invariant Total(raises[..i]) <= Total(raises)
      invariant forall e <- agg.events :: e in old(agg.events) || fresh(e)
      invariant |agg.events| == n + Total(raises[..i])
      invariant agg.Model() == RaiseAll(was, raises[..i])
    {
      TotalPrefix(raises, i + 1);
      assert raises[..i + 1][..i] == raises[..i];
      RaiseList(agg, raises[i]);
    }
    assert raises[..|raises|] == raises;
  }

  method RaiseList(agg: IsAggregate, ds: seq<Draft>)
    requires Distinct(agg.events) && |agg.events| + |ds| <= ALL_EVENTS
    modifies agg
    ensures Distinct(agg.events)
    ensures forall e <- agg.events :: e in old(agg.events) || fresh(e)
    ensures agg.Model() == Aggregates.Raise(old(agg.Model()), DraftEvents(ds), DraftIDs(ds))
  {
    var lis := Draw(ds);
    agg.Raise(lis, DraftIDs(ds));
  }

  lemma {:induction false} TotalPrefix(raises: seq<seq<Draft>>, n: nat)
    requires n <= |raises|
    ensures Total(raises[..n]) <= Total(raises)
  {
    if n < |raises| {
      TotalPrefix(raises[..|raises| - 1], n);
      assert raises[..|raises| - 1][..n] == raises[..n];
    } else {
      assert raises[..n] == raises;
    }
  }

  /**
   The checks of Create, Update and Upsert around the client's function; only Create and Upsert put up with a
   missing stream.
   */
  method Decided(agg: IsAggregate, p: Program, found: bool) returns (err: Option<Failure>)
    requires Distinct(agg.events) && |agg.events| <= ALL_EVENTS
    modifies agg
    ensures Distinct(agg.events)
    ensures forall e <- agg.events :: e in old(agg.events) || fresh(e)
    ensures match Decide(p, old(agg.Model()), found)
            case Err(e) => err == Some(e)
            case Ok(a) => err == None && agg.Model() == a && a.Fits()
  {
    if p.kind.Update? && !found {
      return Some(Store(NotFound));
    }
    if p.kind.Create? && agg.Model().Version() != 0 {
      return Some(ShouldNotExist);
    }
    if p.kind.Update? && agg.Model().Version() == 0 {
      return Some(ShouldExist);
    }
    var raises := p.decide(agg.Model().State());
    if raises.None? {
      return Some(Refused);
    }
    if |agg.events| + Total(raises.value) > ALL_EVENTS {
      return Some(Store(Panic));
    }
    RaiseEach(agg, raises.value);
    if p.kind.Upsert? && agg.Model().Version() == 0 {
      return Some(ShouldExist);
    }
    return None;
  }

  /** The mem-store's Read never reports a missing entry. */
  lemma NeverMissing(k: Coder, stream: seq<Event>, streamID: string, after: int64, count: int64)
    ensures MemRead(k, stream, streamID, after, count) != Err(NotFound)
  {
    var ids := StreamIDs.IDs(MemFirst(stream), MemLast(stream), after, count);
    assert forall j | 0 <= j < |ids| :: MemAtEach(k, stream, ids)[j] != Err(NotFound);
  }

  /** A call goes on with what Load left, unless Load failed for another reason than an empty stream. */
  lemma LoadThenDecide(p: Program, streamID: string, first: uint64, read: Outcome<seq<Event>>)
    requires read.Ok? ==> |read.value| <= ALL_EVENTS
    requires read != Err(NotFound)
    ensures var (a, err) := LoadedFrom(Aggregates.Fresh(streamID), first, read);
            && a.Fits()
            && (read.Err? <==> err.Some? && err.value != Store(NotFound))
            && (read.Err? ==> err == Some(Store(read.error)))
            && (read.Ok? ==> Prepare(p, streamID, first, read.value) == Decide(p, a, err.None?))
  {
  }

  method Prepared(k: Coder, l: EventLog, p: Program) returns (agg: IsAggregate, err: Option<Failure>)
    requires l.Valid()
    ensures l.Valid() && fresh(agg) && (forall e <- agg.events :: fresh(e)) && Apart(l, agg)
    ensures l.Contents() == old(l.Contents())
    ensures match MemRead(k, l.Contents(), l.streamID, 0, ALL_EVENTS)
            case Err(e) => err == Some(Store(e))
            case Ok(read) =>
              match Prepare(p, l.streamID, MemFirst(l.Contents()), read)
              case Err(e) => err == Some(e)
              case Ok(a) => err == None && agg.Model() == a && a.Fits()
  {
    agg := new IsAggregate(l.streamID);
    ghost var stream := l.Contents();
    ghost var read := MemRead(k, stream, l.streamID, 0, ALL_EVENTS);
    NeverMissing(k, stream, l.streamID, 0, ALL_EVENTS);
    LoadThenDecide(p, l.streamID, MemFirst(stream), read);
    err := Load(k, l, agg);
    if err.Some? && err.value != Store(NotFound) {
      return agg, err;
    }
    err := Decided(agg, p, err.None?);
  }

  /** Create, Update and Upsert: a new aggregate is loaded, checked, handed to the client's function and saved. */
  method Perform(k: Coder, l: EventLog, p: Program) returns (agg: IsAggregate, r: Result<nat, Failure>)
    requires l.Valid()
    modifies l
    ensures l.Valid() && fresh(agg) && Apart(l, agg)
    ensures var (stream, done) := Performed(k, old(l.Contents()), l.streamID, p);
            && l.Contents() == stream
            && match done
               case Err(e) => r == Err(e)
               case Ok(a) => r.Ok? && agg.Model() == a
  {
    var err;
    agg, err := Prepared(k, l, p);
    if err.Some? {
      return agg, Err(err.value);
    }
    assert fresh(agg.events) by {
      assert forall i | 0 <= i < |agg.events| :: agg.events[i] in agg.events;
    }
    r := Save(k, l, agg);
  }

  lemma {:induction false} RaisedOwned(a: Aggregates.Agg, raises: seq<seq<Draft>>)
    requires |a.events| + Total(raises) <= ALL_EVENTS
    ensures var b := RaiseAll(a, raises);
            forall i | |a.events| <= i < |b.events| ::
              b.events[i].meta.streamID == b.events[i].meta.actualStreamID == a.streamID
  {
    if raises != [] {
      RaiseAllBooks(a, raises[..|raises| - 1]);
      RaisedOwned(a, raises[..|raises| - 1]);
    }
  }

  /** A Save of events that are stamped already and survive the codec is the Save of the abstract log. */
  lemma SavedToIsSave(k: Coder, l: Log, streamID: string, a: Aggregates.Agg)
    requires Refinement.Sound(k, l, streamID) && l.removed == 0 && a.Fits() && a.streamID == streamID
    requires a.Uncommitted().Some? ==>
               && OwnedAll(a.Uncommitted().value, streamID) == a.Uncommitted().value
               && forall e <- a.Uncommitted().value :: k.RoundTrips(e)
    ensures var r := Stores.Save(l, a); SavedTo(k, l.entries, streamID, a) == (r.log.entries, r.agg, r.outcome)
  {
    if a.Uncommitted().Some? {
      var u := a.Uncommitted().value;
      assert a.events[..a.Cut()] + u == a.events;
      if |l.entries| + |u| <= ALL_EVENTS {
        Refinement.MemAppendRefines(k, l, streamID, u, a.StreamVersion());
      }
    }
  }

  /** Events with one of these payloads survive the codec under the stream id. */
  ghost predicate Carries(k: Coder, streamID: string, bodies: seq<Body>) {
    forall e: Event | e.meta.streamID == streamID && e.body in bodies :: k.RoundTrips(e)
  }

  lemma EncodableCarries(c: Codec, streamID: string, bodies: seq<Body>)
    requires c.Lawful() && '\t' !in streamID && forall b <- bodies :: EncodableBody(c, b)
    ensures Carries(CoderOf(c), streamID, bodies)
  {
    CoderLaws(c);
    forall e: Event | e.meta.streamID == streamID && e.body in bodies
      ensures CoderOf(c).RoundTrips(e)
    {
      assert Encodable(c, e);
    }
  }

  /** A prepared call is a loaded or a new aggregate with the client's drafts raised on it. */
  lemma PreparedIs(p: Program, streamID: string, first: uint64, read: seq<Event>)
    requires |read| <= ALL_EVENTS && Prepare(p, streamID, first, read).Ok?
    ensures var loaded := Loaded(Aggregates.Fresh(streamID), first, read);
            var a := if loaded.Some? then loaded.value else Aggregates.Fresh(streamID);
            && p.decide(a.State()).Some?
            && |a.events| + Total(p.decide(a.State()).value) <= ALL_EVENTS
            && Prepare(p, streamID, first, read).value == RaiseAll(a, p.decide(a.State()).value)
  {
  }

  /** Stamped events with carried payloads are stored as they are. */
  lemma StampedStorable(k: Coder, streamID: string, bodies: seq<Body>, u: seq<Event>)
    requires Carries(k, streamID, bodies) && Bodies(u) == bodies
    requires forall i | 0 <= i < |u| :: u[i].meta.streamID == u[i].meta.actualStreamID == streamID
    ensures OwnedAll(u, streamID) == u && forall e <- u :: k.RoundTrips(e)
  {
    forall e <- u
      ensures k.RoundTrips(e) && e.meta.streamID == e.meta.actualStreamID == streamID
    {
      var i :| 0 <= i < |u| && u[i] == e;
      assert Bodies(u)[i] == e.body;
    }
    Refinement.OwnedFiled(u, streamID);
  }

  lemma DraftsStorable(k: Coder, streamID: string, p: Program, first: uint64, read: seq<Event>)
    requires ReadOf(first, read, 0) && Prepare(p, streamID, first, read).Ok?
    requires var d := p.decide(Bodies(read)); d.Some? ==> Carries(k, streamID, Raised(d.value))
    ensures var a := Prepare(p, streamID, first, read).value;
            var u := a.Uncommitted();
            && a.Fits() && a.streamID == streamID
            && u.Some? && OwnedAll(u.value, streamID) == u.value && forall e <- u.value :: k.RoundTrips(e)
  {
    LoadedBooks(streamID, first, read, 0);
    PreparedIs(p, streamID, first, read);
    var loaded := Loaded(Aggregates.Fresh(streamID), first, read);
    var a := if loaded.Some? then loaded.value else Aggregates.Fresh(streamID);
    var d := p.decide(a.State()).value;
    var b := Prepare(p, streamID, first, read).value;
    RaiseAllBooks(a, d);
    assert b.Cut() == |a.events| && b.Uncommitted() == Some(b.events[|a.events|..]);
    RaisedOwned(a, d);
    StampedStorable(k, streamID, Raised(d), b.events[|a.events|..]);
  }

  /**
   On a stream whose entries and for drafts that survive the codec, a Create, Update or Upsert over the
   mem-store does exactly what the call does to the abstract log.
   */
  lemma PerformIsCall(k: Coder, stream: seq<Event>, streamID: string, p: Program)
    requires Refinement.Sound(k, Log(0, stream), streamID)
    requires var d := p.decide(Bodies(stream)); d.Some? ==> Carries(k, streamID, Raised(d.value))
    ensures var r := Call(p, Log(0, stream), streamID);
            Performed(k, stream, streamID, p) == (r.0.entries, r.1)
  {
    var l := Log(0, stream);
    Refinement.MemReadRefines(k, l, streamID, 0, ALL_EVENTS);
    ReadAll(l);
    if Prepare(p, streamID, l.FirstIndex(), stream).Ok? {
      DraftsStorable(k, streamID, p, l.FirstIndex(), stream);
      SavedToIsSave(k, l, streamID, Prepare(p, streamID, l.FirstIndex(), stream).value);
    }
  }
}
