/** Save, Load and the Create/Update/Upsert calls built from them (ev.go), as functions on values. */
module Stores {
  import opened Words
  import opened Events
  import opened Codec
  import opened Logs
  import opened Aggregates

  datatype Kind = Create | Update | Upsert

  /** An event as the client hands it to Raise, with the id NewEvents will draw for it. */
  datatype Draft = Draft(id: Ulid, body: Body)

  /**
   One Create, Update or Upsert call. The client's function sees the aggregate's state, which is a fold of
   the payloads applied so far, so it is given those payloads; it refuses, or raises lists of events.
   */
  datatype Program = Program(kind: Kind, decide: seq<Body> -> Option<seq<seq<Draft>>>)

  datatype Failure = Store(error: StoreError) | ShouldExist | ShouldNotExist | Refused

  function Total(raises: seq<seq<Draft>>): nat {
    if raises == [] then 0 else Total(raises[..|raises| - 1]) + |raises[|raises| - 1]|
  }

  /** The payloads a client's function raises, in order. */
  function Raised(raises: seq<seq<Draft>>): (r: seq<Body>)
    ensures |r| == Total(raises)
  {
    if raises == [] then [] else Raised(raises[..|raises| - 1]) + DraftBodies(raises[|raises| - 1])
  }

  function DraftBodies(ds: seq<Draft>): (r: seq<Body>)
    ensures |r| == |ds|
  {
    seq(|ds|, i requires 0 <= i < |ds| => ds[i].body)
  }

  function DraftEvents(ds: seq<Draft>): (r: seq<Event>)
    ensures |r| == |ds|
  {
    seq(|ds|, i requires 0 <= i < |ds| => Event(ZERO_META, ds[i].body))
  }

  function DraftIDs(ds: seq<Draft>): (r: seq<Ulid>)
    ensures |r| == |ds|
  {
    seq(|ds|, i requires 0 <= i < |ds| => ds[i].id)
  }

  function RaiseAll(a: Agg, raises: seq<seq<Draft>>): (b: Agg)
    requires |a.events| + Total(raises) <= ALL_EVENTS
    ensures |b.events| == |a.events| + Total(raises)
  {
    if raises == [] then a
    else
      var n := |raises| - 1;
      Raise(RaiseAll(a, raises[..n]), DraftEvents(raises[n]), DraftIDs(raises[n]))
  }

  /** Load with the first index and the events its two calls returned; nothing when there are none. */
  function Loaded(a: Agg, first: uint64, read: seq<Event>): Option<Agg>
    requires |read| <= ALL_EVENTS
  {
    if read == [] then None else Some(Append(Start(a, Sub(first, 1)), read))
  }

  /** What a call does with the aggregate it loaded, or with the new one it started when nothing was found. */
  function Decide(p: Program, a: Agg, found: bool): Result<Agg, Failure>
    requires a.Fits()
  {
    if p.kind.Update? && !found then Err(Store(NotFound))
    else if p.kind.Create? && a.Version() != 0 then Err(ShouldNotExist)
    else if p.kind.Update? && a.Version() == 0 then Err(ShouldExist)
    else
      match p.decide(a.State())
      case None => Err(Refused)
      case Some(d) =>
        if |a.events| + Total(d) > ALL_EVENTS then Err(Store(Panic))
        else
          var b := RaiseAll(a, d);
          if p.kind.Upsert? && b.Version() == 0 then Err(ShouldExist) else Ok(b)
  }

  /** Everything a call does between its reads and its Save. */
  function Prepare(p: Program, streamID: string, first: uint64, read: seq<Event>): Result<Agg, Failure>
    requires |read| <= ALL_EVENTS
  {
    match Loaded(Fresh(streamID), first, read)
    case None => Decide(p, Fresh(streamID), false)
    case Some(a) => Decide(p, a, true)
  }

  datatype Saved = Saved(log: Log, agg: Agg, outcome: Result<nat, Failure>)

  function Save(l: Log, a: Agg): Saved
    requires a.Fits()
  {
    var events := a.Uncommitted();
    if events.None? then Saved(l, a, Err(Store(Panic)))
    else if events.value == [] then Saved(l, a, Ok(0))
    else if l.LastIndex() + |events.value| > ALL_EVENTS then Saved(l, a, Err(Store(Panic)))
    else
      var r := LogAppend(l, a.streamID, events.value, a.StreamVersion());
      match r.1
      case Err(e) => Saved(l, a, Err(Store(e)))
      case Ok(n) => Saved(r.0, Commit(a), Ok(n))
  }

  /** A whole call with nobody else at the log in between. */
  function Call(p: Program, l: Log, streamID: string): (Log, Result<Agg, Failure>)
    requires l.Fits()
  {
    match Prepare(p, streamID, l.FirstIndex(), l.entries)
    case Err(e) => (l, Err(e))
    case Ok(a) =>
      PrepareFits(p, streamID, l.FirstIndex(), l.entries);
      var r := Save(l, a);
      (r.log, if r.outcome.Ok? then Ok(r.agg) else Err(r.outcome.error))
  }

  lemma PrepareFits(p: Program, streamID: string, first: uint64, read: seq<Event>)
    requires |read| <= ALL_EVENTS && Prepare(p, streamID, first, read).Ok?
    ensures Prepare(p, streamID, first, read).value.Fits()
  {
  }

  // What raising and loading do to the books

  lemma {:induction false} RaiseAllBooks(a: Agg, raises: seq<seq<Draft>>)
    requires |a.events| + Total(raises) <= ALL_EVENTS
    ensures var b := RaiseAll(a, raises);
            && b.streamID == a.streamID && b.firstIndex == a.firstIndex && b.lastIndex == a.lastIndex
            && b.events[..|a.events|] == a.events
            && Bodies(b.events[|a.events|..]) == Raised(raises)
            && b.State() == a.State() + Raised(raises)
  {
    if raises == [] {
      assert a.events[|a.events|..] == [];
    } else {
      var n := |raises| - 1;
      RaiseAllBooks(a, raises[..n]);
      RaiseBooks(RaiseAll(a, raises[..n]), raises[n], |a.events|);
      Halves(RaiseAll(a, raises), |a.events|);
    }
  }

  lemma Halves(a: Agg, k: nat)
    requires k <= |a.events|
    ensures a.State() == Bodies(a.events[..k]) + Bodies(a.events[k..])
  {
    BodiesConcat(a.events[..k], a.events[k..]);
    assert a.events == a.events[..k] + a.events[k..];
  }

  lemma RaiseBooks(a: Agg, ds: seq<Draft>, k: nat)
    requires k <= |a.events| && |a.events| + |ds| <= ALL_EVENTS
    ensures var b := Raise(a, DraftEvents(ds), DraftIDs(ds));
            && b.streamID == a.streamID && b.firstIndex == a.firstIndex && b.lastIndex == a.lastIndex
            && b.events[..k] == a.events[..k]
            && Bodies(b.events[k..]) == Bodies(a.events[k..]) + DraftBodies(ds)
  {
    var b := Raise(a, DraftEvents(ds), DraftIDs(ds));
    var more := b.events[|a.events|..];
    assert b.events == a.events + more;
    assert b.events[k..] == a.events[k..] + more;
    BodiesConcat(a.events[k..], more);
    assert Bodies(more) == DraftBodies(ds);
  }

  /** A log read at one moment: the entries behind `from` removed ones, and the first index seen before it. */
  ghost predicate ReadOf(first: uint64, read: seq<Event>, from: nat) {
    && from + |read| <= ALL_EVENTS
    && (read == [] ==> from == 0)
    && (first == 0 || 1 <= first <= from + 1)
  }

  /** The two reads of a Load saw the same front of the log. */
  predicate Clean(first: uint64, read: seq<Event>, from: nat) {
    read == [] || first == from + 1
  }

  /**
   What a prepared call is about to save, and on which version. When the front of the log moved between
   the two reads of the Load, the version is below the last index the read saw: also when it wrapped.
   */
  lemma PrepareBooks(p: Program, streamID: string, first: uint64, read: seq<Event>, from: nat)
    requires ReadOf(first, read, from) && Prepare(p, streamID, first, read).Ok?
    ensures var a := Prepare(p, streamID, first, read).value;
            var d := p.decide(Bodies(read));
            && a.Fits() && a.streamID == streamID
            && d.Some?
            && a.Uncommitted().Some? && Bodies(a.Uncommitted().value) == Raised(d.value)
            && a.State() == Bodies(read) + Raised(d.value)
            && (Clean(first, read, from) ==> a.StreamVersion() == from + |read| && a.firstIndex == from)
            && (!Clean(first, read, from) ==> a.StreamVersion() < from + |read|)
            && (p.kind.Create? && Clean(first, read, from) ==> from + |read| == 0)
            && (p.kind.Update? ==> read != [])
  {
    var loaded := Loaded(Fresh(streamID), first, read);
    var a0 := if loaded.Some? then loaded.value else Fresh(streamID);
    LoadedBooks(streamID, first, read, from);
    var d := p.decide(a0.State()).value;
    RaiseAllBooks(a0, d);
  }

  /** A loaded aggregate has applied exactly what was read and has nothing left to commit. */
  lemma LoadedBooks(streamID: string, first: uint64, read: seq<Event>, from: nat)
    requires ReadOf(first, read, from)
    ensures var loaded := Loaded(Fresh(streamID), first, read);
            var a := if loaded.Some? then loaded.value else Fresh(streamID);
            && a.streamID == streamID && |a.events| == |read| == a.Cut() && a.State() == Bodies(read)
            && a.Version() == a.StreamVersion()
            && (Clean(first, read, from) ==> a.StreamVersion() == from + |read| && a.firstIndex == from)
            && (!Clean(first, read, from) ==> a.StreamVersion() < from + |read|)
  {
  }

  /** Renumbering from `first - 1` gives entry i the position i behind first, on wrapping integers. */
  lemma Renumbered(l: Log, streamID: string, first: uint64, i: nat)
    requires l.Filed(streamID) && i < |l.entries|
    ensures var e := Loaded(Fresh(streamID), first, l.entries).value.events[i];
            && e == Event(l.entries[i].meta.(position := Add(Add(Sub(first, 1), i), 1)), l.entries[i].body)
            && (first == l.FirstIndex() ==> e == l.entries[i])
  {
    assert FiledAt(l.entries[i], streamID, l.removed + i + 1);
  }

  /** Load's renumbering gives every entry its own position back exactly when the first index it started from fits. */
  lemma LoadRenumbers(l: Log, streamID: string, first: uint64)
    requires l.Filed(streamID) && l.entries != []
    ensures Loaded(Fresh(streamID), first, l.entries).value.events == l.entries <==> first == l.FirstIndex()
  {
    var es := Loaded(Fresh(streamID), first, l.entries).value.events;
    Renumbered(l, streamID, first, 0);
    assert es[0].meta.position == first && FiledAt(l.entries[0], streamID, l.FirstIndex());
    if first == l.FirstIndex() {
      forall i | 0 <= i < |es|
        ensures es[i] == l.entries[i]
      {
        Renumbered(l, streamID, first, i);
      }
    }
  }

  // What each kind of call answers

  /** The version of an aggregate that was loaded from what two reads returned, or is new. */
  function VersionOf(first: uint64, read: seq<Event>): nat {
    if read == [] then 0 else (first - 1 + |read|) % TWO64
  }

  /** A call that was let through: refused by the client's function, too long, or ready to save what was raised. */
  ghost predicate Answers(state: seq<Body>, d: Option<seq<seq<Draft>>>, r: Result<Agg, Failure>) {
    match d
    case None => r == Err(Refused)
    case Some(raises) =>
      if |state| + Total(raises) > ALL_EVENTS then r == Err(Store(Panic))
      else r.Ok? && r.value.State() == state + Raised(raises)
  }

  /** What a call answers that has found events or not, and has come to this version and state. */
  ghost predicate Decides(p: Program, found: bool, v: nat, state: seq<Body>, r: Result<Agg, Failure>) {
    var d := p.decide(state);
    match p.kind
    case Create => if v != 0 then r == Err(ShouldNotExist) else Answers(state, d, r)
    case Update =>
      if !found then r == Err(Store(NotFound))
      else if v == 0 then r == Err(ShouldExist)
      else Answers(state, d, r)
    case Upsert =>
      if d.Some? && |state| + Total(d.value) <= ALL_EVENTS && (v + Total(d.value)) % TWO64 == 0
      then r == Err(ShouldExist) else Answers(state, d, r)
  }

  /**
   A Create goes on from version 0 only, an Update from events read and another version, an Upsert from anything.
   Then the client's function decides, and an Upsert that leaves the version at 0 is refused after all.
   */
  lemma PrepareAnswers(p: Program, streamID: string, first: uint64, read: seq<Event>)
    requires |read| <= ALL_EVENTS
    ensures Decides(p, read != [], VersionOf(first, read), Bodies(read), Prepare(p, streamID, first, read))
  {
    var loaded := Loaded(Fresh(streamID), first, read);
    VersionIs(streamID, first, read);
    DecideAnswers(p, if loaded.Some? then loaded.value else Fresh(streamID), read != []);
  }

  lemma DecideAnswers(p: Program, a: Agg, found: bool)
    requires a.Fits()
    ensures Decides(p, found, a.Version(), a.State(), Decide(p, a, found))
  {
    var d := p.decide(a.State());
    if d.Some? && |a.events| + Total(d.value) <= ALL_EVENTS {
      RaisedVersion(a, d.value);
    }
  }

  lemma RaisedVersion(a: Agg, raises: seq<seq<Draft>>)
    requires |a.events| + Total(raises) <= ALL_EVENTS
    ensures var b := RaiseAll(a, raises);
            b.Fits() && b.Version() == (a.Version() + Total(raises)) % TWO64 && b.State() == a.State() + Raised(raises)
  {
    var b := RaiseAll(a, raises);
    RaiseAllBooks(a, raises);
    assert |b.events| == |b.State()| == |a.events| + Total(raises);
    AddedVersion(a, b);
  }

  lemma VersionIs(streamID: string, first: uint64, read: seq<Event>)
    requires |read| <= ALL_EVENTS
    ensures var loaded := Loaded(Fresh(streamID), first, read);
            var a := if loaded.Some? then loaded.value else Fresh(streamID);
            |a.events| == |read| && a.Version() == VersionOf(first, read) && a.State() == Bodies(read)
  {
  }

  lemma AddedVersion(a: Agg, b: Agg)
    requires a.Fits() && b.Fits() && b.firstIndex == a.firstIndex && |a.events| <= |b.events|
    ensures b.Version() == (a.Version() + |b.events| - |a.events|) % TWO64
  {
  }

  /** Which streams a call of this kind works on. */
  predicate WorksOn(kind: Kind, read: seq<Event>) {
    match kind
    case Create => read == []
    case Update => read != []
    case Upsert => true
  }

  /** Room for what the client's function raises, and something to make of an empty stream. */
  predicate Writable(kind: Kind, l: Log, raises: seq<seq<Draft>>) {
    && l.LastIndex() + Total(raises) <= ALL_EVENTS
    && (kind.Upsert? && l.entries == [] ==> Total(raises) > 0)
  }

  /**
   With nobody else at the log, also when its front was cut: Create refuses a stream with events, Update one
   without; the client's function may refuse the rest; and a call that goes through has what was raised behind
   the events there were, in the log and in the aggregate it returns.
   */
  lemma CallAnswers(p: Program, l: Log, streamID: string)
    requires l.Fits()
    ensures var (l', r), d := Call(p, l, streamID), p.decide(Bodies(l.entries));
            && (!WorksOn(p.kind, l.entries) ==>
                  l' == l && r == Err(if p.kind.Create? then ShouldNotExist else Store(NotFound)))
            && (WorksOn(p.kind, l.entries) && d.None? ==> l' == l && r == Err(Refused))
            && (WorksOn(p.kind, l.entries) && d.Some? && !Writable(p.kind, l, d.value) ==>
                  l' == l && r == Err(if Total(d.value) == 0 then ShouldExist else Store(Panic)))
            && (WorksOn(p.kind, l.entries) && d.Some? && Writable(p.kind, l, d.value) ==>
                  && r.Ok? && l'.removed == l.removed && l.entries <= l'.entries
                  && Bodies(l'.entries) == Bodies(l.entries) + Raised(d.value)
                  && r.value.State() == Bodies(l'.entries))
  {
    var read, first, d := l.entries, l.FirstIndex(), p.decide(Bodies(l.entries));
    PrepareAnswers(p, streamID, first, read);
    assert VersionOf(first, read) == l.LastIndex();
    if Prepare(p, streamID, first, read).Ok? {
      SavesRaised(p, l, streamID);
    }
  }

  /** What a prepared call of a clean read has its Save do. */
  lemma SavesRaised(p: Program, l: Log, streamID: string)
    requires l.Fits() && Prepare(p, streamID, l.FirstIndex(), l.entries).Ok?
    requires p.decide(Bodies(l.entries)).Some?
    ensures var a, raises := Prepare(p, streamID, l.FirstIndex(), l.entries).value, p.decide(Bodies(l.entries)).value;
            && a.Fits()
            && var r := Save(l, a);
               if Total(raises) > 0 && l.LastIndex() + Total(raises) > ALL_EVENTS
               then r == Saved(l, a, Err(Store(Panic)))
               else
                 && r.outcome == Ok(Total(raises)) && r.log.removed == l.removed && l.entries <= r.log.entries
                 && Bodies(r.log.entries) == Bodies(l.entries) + Raised(raises)
                 && r.agg.State() == Bodies(r.log.entries)
  {
    PrepareBooks(p, streamID, l.FirstIndex(), l.entries, l.removed);
    var a := Prepare(p, streamID, l.FirstIndex(), l.entries).value;
    var u := a.Uncommitted().value;
    assert |u| == |Bodies(u)|;
    if u != [] && l.LastIndex() + |u| <= ALL_EVENTS {
      var added := Entries(OwnedAll(u, a.streamID), l.LastIndex() + 1);
      BodiesConcat(l.entries, added);
      assert Bodies(added) == Bodies(u);
    }
  }
}
