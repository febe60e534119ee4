/**
 The projecter over the disk-store (driver/projecter): every append by a client starts a background task
 that appends the events derived from it, one at a time, in any interleaving with clients and other tasks.
 */
module Projection {
  import opened Words
  import opened Events
  import opened Codec
  import opened Logs
  import DiskStore
  import Text

  type Projector = Event -> seq<Event>

  // What is derived

  function Derived(fns: seq<Projector>, e: Event): seq<Event> {
    if fns == [] then [] else Derived(fns[..|fns| - 1], e) + fns[|fns| - 1](e)
  }

  /** For each event in turn, what each projection in turn makes of it. */
  function DerivedAll(fns: seq<Projector>, lis: seq<Event>): seq<Event> {
    if lis == [] then [] else DerivedAll(fns, lis[..|lis| - 1]) + Derived(fns, lis[|lis| - 1])
  }

  /** The loops at the start of a background task. */
  method Derive(fns: seq<Projector>, events: seq<Event>) returns (pevents: seq<Event>)
    ensures pevents == DerivedAll(fns, events)
  {
    pevents := [];
    for i := 0 to |events|
      invariant pevents == DerivedAll(fns, events[..i])
    {
      ghost var before := pevents;
      for j := 0 to |fns|
        invariant pevents == before + Derived(fns[..j], events[i])
      {
        assert fns[..j + 1][..j] == fns[..j];
        pevents := pevents + fns[j](events[i]);
      }
      assert fns[..|fns|] == fns;
      assert events[..i + 1][..i] == events[..i];
    }
    assert events[..|events|] == events;
  }

  /** The part of a type name in front of its first dot. */
  function Package(typeName: string): string {
    typeName[..Text.IndexOf(typeName, '.')]
  }

  /** A fresh pointer, stamped with the stream it goes to. */
  function Pointer(dest: string, target: string, pos: uint64): Event {
    Event(Owned(ZERO_META, dest), Ptr(target, pos))
  }

  function Destinations(typeName: string): seq<string> {
    ["$all", "$type-" + typeName, "$pkg-" + Package(typeName)]
  }

  function DefaultProjection(e: Event): seq<Event> {
    var d := Destinations(TypeOf(e.body));
    [Pointer(d[0], e.meta.streamID, e.meta.position),
     Pointer(d[1], e.meta.streamID, e.meta.position),
     Pointer(d[2], e.meta.streamID, e.meta.position)]
  }

  /** The first n letters of a type name are its package. */
  predicate PackageEnds(typeName: string, n: nat)
    requires n <= |typeName|
  {
    '.' !in typeName[..n] && (n == |typeName| || typeName[n] == '.')
  }

  /** The streams that get a pointer to each event of a type. */
  predicate Receives(dest: string, typeName: string) {
    || dest == "$all"
    || dest == "$type-" + typeName
    || exists n: nat | n <= |typeName| :: PackageEnds(typeName, n) && dest == "$pkg-" + typeName[..n]
  }

  /** All that is derived from an event comes in front of what is derived from the next. */
  lemma {:induction false} DerivedInOrder(fns: seq<Projector>, e: Event, lis: seq<Event>)
    ensures DerivedAll(fns, [e] + lis) == Derived(fns, e) + DerivedAll(fns, lis)
  {
    if lis == [] {
      assert [e] + lis == [] + [e] && DerivedAll(fns, []) == [];
      DerivedSnoc(fns, [], e);
    } else {
      var init, x := lis[..|lis| - 1], lis[|lis| - 1];
      assert [e] + lis == ([e] + init) + [x] && lis == init + [x];
      DerivedSnoc(fns, [e] + init, x);
      DerivedSnoc(fns, init, x);
      DerivedInOrder(fns, e, init);
      assert (Derived(fns, e) + DerivedAll(fns, init)) + Derived(fns, x) ==
             Derived(fns, e) + (DerivedAll(fns, init) + Derived(fns, x));
    }
  }

  /** And of one event what the first projection makes of it in front of what the others do. */
  lemma {:induction false} ProjectedInOrder(f: Projector, fns: seq<Projector>, e: Event)
    ensures Derived([f] + fns, e) == f(e) + Derived(fns, e)
  {
    if fns == [] {
      assert ([f] + fns)[..0] == [] && Derived([], e) == [] && [f] + fns == [f];
      assert [] + f(e) == f(e) + [];
    } else {
      var n := |fns| - 1;
      assert ([f] + fns)[..n + 1] == [f] + fns[..n];
      ProjectedInOrder(f, fns[..n], e);
      assert (f(e) + Derived(fns[..n], e)) + fns[n](e) == f(e) + (Derived(fns[..n], e) + fns[n](e));
    }
  }

  // The stores, and the tasks at work on them

  datatype Author = Client | Task

  /** One event in a stream: what is stored, and the caller's event as the append left it. */
  datatype Record = Record(stream: string, entry: Event, given: Event, author: Author)

  /** Every record in the order of the commits, and what each task still has to append. */
  datatype State = State(history: seq<Record>, tasks: seq<seq<Event>>)

  datatype Action =
    | ClientAppend(stream: string, batch: seq<Event>, version: uint64)
    | TaskAppend(t: nat, id: Ulid)

  function LogOf(h: seq<Record>, stream: string): (l: seq<Event>)
    ensures |l| <= |h|
  {
    if h == [] then []
    else
      var l, r := LogOf(h[..|h| - 1], stream), h[|h| - 1];
      if r.stream == stream then l + [r.entry] else l
  }

  /** The caller's events of all appends by clients, or by tasks. */
  function Givens(h: seq<Record>, author: Author): (l: seq<Event>)
    ensures |l| <= |h|
  {
    if h == [] then []
    else
      var l, r := Givens(h[..|h| - 1], author), h[|h| - 1];
      if r.author == author then l + [r.given] else l
  }

  function Times(lis: seq<Event>, e: Event): nat {
    multiset(lis)[e]
  }

  /** How often the tasks still have to append e. */
  function Pending(tasks: seq<seq<Event>>, e: Event): nat {
    if tasks == [] then 0 else Pending(tasks[..|tasks| - 1], e) + Times(tasks[|tasks| - 1], e)
  }

  function Records(stream: string, entries: seq<Event>, givens: seq<Event>, author: Author): (r: seq<Record>)
    requires |entries| == |givens|
    ensures |r| == |entries|
  {
    seq(|entries|, i requires 0 <= i < |entries| => Record(stream, entries[i], givens[i], author))
  }

  /** The event a task hands to the store: numbered by NewEvents as a list of one. */
  function Handed(e: Event, id: Ulid): Event {
    Event(Numbered(e.meta, 0, id), e.body)
  }

  function Next(fns: seq<Projector>, s: State, a: Action): State {
    match a
    case ClientAppend(stream, batch, version) =>
      var l := Log(0, LogOf(s.history, stream));
      if l.LastIndex() + |batch| > ALL_EVENTS || LogAppend(l, stream, batch, version).1.Err? then s
      else
        var owned := OwnedAll(batch, stream);
        var stamped := DiskStore.Stamped(owned, |batch|, l.LastIndex());
        State(s.history + Records(stream, Entries(owned, l.LastIndex() + 1), stamped, Client),
              s.tasks + [DerivedAll(fns, stamped)])
    case TaskAppend(t, id) =>
      if t >= |s.tasks| || s.tasks[t] == [] then s
      else
        var e := s.tasks[t][0];
        var l := Log(0, LogOf(s.history, e.meta.streamID));
        if l.LastIndex() + 1 > ALL_EVENTS then s
        else
          var entry := Entries(OwnedAll([Handed(e, id)], e.meta.streamID), l.LastIndex() + 1)[0];
          State(s.history + [Record(e.meta.streamID, entry, e, Task)], s.tasks[t := s.tasks[t][1..]])
  }

  function Run(fns: seq<Projector>, actions: seq<Action>): State {
    if actions == [] then State([], []) else Next(fns, Run(fns, actions[..|actions| - 1]), actions[|actions| - 1])
  }

  /** A client's append that goes through: what it stores, and the task it leaves behind. */
  lemma {:induction false} ClientNextIs(fns: seq<Projector>, s: State, stream: string, batch: seq<Event>,
                                        version: uint64)
    ensures var s', last := Next(fns, s, ClientAppend(stream, batch, version)), |LogOf(s.history, stream)|;
            if last + |batch| <= ALL_EVENTS && VersionFits(version, last) then
              var owned := OwnedAll(batch, stream);
              var stamped := DiskStore.Stamped(owned, |batch|, last);
              s' == State(s.history + Records(stream, Entries(owned, last + 1), stamped, Client),
                          s.tasks + [DerivedAll(fns, stamped)])
            else s' == s
  {
  }

  lemma {:induction false} RecordIs(stream: string, batch: seq<Event>, last: nat, i: nat)
    requires last + |batch| <= ALL_EVENTS && i < |batch|
    ensures var owned := OwnedAll(batch, stream);
            var r := Records(stream, Entries(owned, last + 1), DiskStore.Stamped(owned, |batch|, last), Client)[i];
            && r.stream == stream && r.author.Client?
            && r.entry.body == r.given.body == batch[i].body
            && r.entry.meta.eventID == r.given.meta.eventID == batch[i].meta.eventID
            && FiledAt(r.entry, stream, last + i + 1)
            && r.given.meta.streamID == stream && r.given.meta.position == last + i + 1
  {
  }

  /** The client's events lie behind the last of the stream, and its own copies say so. */
  lemma {:induction false} ClientWrites(fns: seq<Projector>, s: State, stream: string, batch: seq<Event>,
                                        version: uint64, i: nat)
    requires var last := |LogOf(s.history, stream)|;
             last + |batch| <= ALL_EVENTS && (version == 0xFFFF_FFFF_FFFF_FFFF || version == last) && i < |batch|
    ensures var h', last := Next(fns, s, ClientAppend(stream, batch, version)).history, |LogOf(s.history, stream)|;
            && |h'| == |s.history| + |batch| && s.history <= h'
            && var r := h'[|s.history| + i];
               && r.stream == stream && r.author.Client?
               && r.entry.body == r.given.body == batch[i].body
               && r.entry.meta.eventID == r.given.meta.eventID == batch[i].meta.eventID
               && FiledAt(r.entry, stream, last + i + 1)
               && r.given.meta.streamID == stream && r.given.meta.position == last + i + 1
  {
    RecordIs(stream, batch, |LogOf(s.history, stream)|, i);
  }

  /** The task a client's append leaves behind is given the events as that append left them. */
  lemma {:induction false} ClientTask(fns: seq<Projector>, s: State, stream: string, batch: seq<Event>,
                                      version: uint64)
    requires var last := |LogOf(s.history, stream)|;
             last + |batch| <= ALL_EVENTS && (version == 0xFFFF_FFFF_FFFF_FFFF || version == last)
    ensures var s' := Next(fns, s, ClientAppend(stream, batch, version));
            && |s.history| <= |s'.history|
            && s'.tasks == s.tasks + [DerivedAll(fns, Givens(s'.history[|s.history|..], Client))]
  {
    var last, owned := |LogOf(s.history, stream)|, OwnedAll(batch, stream);
    ClientNextIs(fns, s, stream, batch, version);
    GivenBehind(s.history, stream, Entries(owned, last + 1), DiskStore.Stamped(owned, |batch|, last));
  }

  lemma {:induction false} GivenBehind(h: seq<Record>, stream: string, entries: seq<Event>, givens: seq<Event>)
    requires |entries| == |givens|
    ensures Givens((h + Records(stream, entries, givens, Client))[|h|..], Client) == givens
  {
    var rs := Records(stream, entries, givens, Client);
    GivensOf(stream, entries, givens, Client, Client);
    assert (h + rs)[|h|..] == rs;
  }

  /** A task appends the first of what it holds to that event's stream, with the id drawn for it. */
  lemma {:induction false} TaskWrites(fns: seq<Projector>, s: State, t: nat, id: Ulid)
    requires t < |s.tasks| && s.tasks[t] != []
    requires |LogOf(s.history, s.tasks[t][0].meta.streamID)| < ALL_EVENTS
    ensures var s', e := Next(fns, s, TaskAppend(t, id)), s.tasks[t][0];
            && |s'.history| == |s.history| + 1 && s.history <= s'.history && s'.tasks == s.tasks[t := s.tasks[t][1..]]
            && var r := s'.history[|s.history|];
               && r.stream == e.meta.streamID && r.author.Task? && r.given == e
               && r.entry.body == e.body && r.entry.meta.eventID == id
               && FiledAt(r.entry, e.meta.streamID, |LogOf(s.history, e.meta.streamID)| + 1)
  {
  }

  // Conservation, for any projections

  /** Each derived event is owed as often as it is stored or pending. */
  ghost predicate Conserved(fns: seq<Projector>, s: State) {
    forall e ::
      Times(Givens(s.history, Task), e) + Pending(s.tasks, e) == Times(DerivedAll(fns, Givens(s.history, Client)), e)
  }

  lemma TimesMore(a: seq<Event>, b: seq<Event>, e: Event)
    ensures Times(a + b, e) == Times(a, e) + Times(b, e)
  {
  }

  lemma GivensSnoc(h: seq<Record>, r: Record, author: Author)
    ensures Givens(h + [r], author) == Givens(h, author) + if r.author == author then [r.given] else []
  {
    assert (h + [r])[..|h|] == h;
  }

  lemma {:induction false} GivensMore(h: seq<Record>, more: seq<Record>, author: Author)
    ensures Givens(h + more, author) == Givens(h, author) + Givens(more, author)
  {
    if more == [] {
      assert h + more == h;
    } else {
      var init, r := more[..|more| - 1], more[|more| - 1];
      var last := if r.author == author then [r.given] else [];
      calc {
        Givens(h + more, author);
        { assert h + more == h + init + [r]; }
        Givens(h + init + [r], author);
        { GivensSnoc(h + init, r, author); }
        Givens(h + init, author) + last;
        { GivensMore(h, init, author); }
        Givens(h, author) + Givens(init, author) + last;
        Givens(h, author) + (Givens(init, author) + last);
        { GivensSnoc(init, r, author); assert more == init + [r]; }
        Givens(h, author) + Givens(more, author);
      }
    }
  }

  lemma {:induction false} GivensOf(stream: string, entries: seq<Event>, givens: seq<Event>, author: Author,
                                    other: Author)
    requires |entries| == |givens|
    ensures Givens(Records(stream, entries, givens, author), other) == if other == author then givens else []
  {
    if entries != [] {
      var n := |entries| - 1;
      GivensOf(stream, entries[..n], givens[..n], author, other);
      assert Records(stream, entries, givens, author)[..n] == Records(stream, entries[..n], givens[..n], author);
      assert givens == givens[..n] + [givens[n]];
    }
  }

  lemma {:induction false} Assoc<T>(a: seq<T>, b: seq<T>, c: seq<T>)
    ensures a + b + c == a + (b + c)
  {
  }

  lemma DerivedSnoc(fns: seq<Projector>, a: seq<Event>, e: Event)
    ensures DerivedAll(fns, a + [e]) == DerivedAll(fns, a) + Derived(fns, e)
  {
    assert (a + [e])[..|a|] == a;
  }

  lemma {:induction false} DerivedMore(fns: seq<Projector>, a: seq<Event>, b: seq<Event>)
    ensures DerivedAll(fns, a + b) == DerivedAll(fns, a) + DerivedAll(fns, b)
  {
    if b == [] {
      assert a + b == a;
    } else {
      var init, e := b[..|b| - 1], b[|b| - 1];
      calc {
        DerivedAll(fns, a + b);
        { assert b == init + [e]; Assoc(a, init, [e]); }
        DerivedAll(fns, a + init + [e]);
        { DerivedSnoc(fns, a + init, e); }
        DerivedAll(fns, a + init) + Derived(fns, e);
        { DerivedMore(fns, a, init); }
        DerivedAll(fns, a) + DerivedAll(fns, init) + Derived(fns, e);
        { Assoc(DerivedAll(fns, a), DerivedAll(fns, init), Derived(fns, e)); }
        DerivedAll(fns, a) + (DerivedAll(fns, init) + Derived(fns, e));
        { DerivedSnoc(fns, init, e); assert b == init + [e]; }
        DerivedAll(fns, a) + DerivedAll(fns, b);
      }
    }
  }

  lemma {:induction false} PendingUpdate(tasks: seq<seq<Event>>, t: nat, x: seq<Event>, e: Event)
    requires t < |tasks|
    ensures Pending(tasks[t := x], e) + Times(tasks[t], e) == Pending(tasks, e) + Times(x, e)
  {
    var n := |tasks| - 1;
    if t < n {
      PendingUpdate(tasks[..n], t, x, e);
      assert tasks[t := x][..n] == tasks[..n][t := x];
    } else {
      assert tasks[t := x][..n] == tasks[..n];
    }
  }

  lemma ClientConserves(fns: seq<Projector>, s: State, stream: string, entries: seq<Event>, givens: seq<Event>)
    requires Conserved(fns, s) && |entries| == |givens|
    ensures Conserved(fns, State(s.history + Records(stream, entries, givens, Client),
                                 s.tasks + [DerivedAll(fns, givens)]))
  {
    var rs := Records(stream, entries, givens, Client);
    GivensMore(s.history, rs, Client);
    GivensMore(s.history, rs, Task);
    GivensOf(stream, entries, givens, Client, Client);
    GivensOf(stream, entries, givens, Client, Task);
    DerivedMore(fns, Givens(s.history, Client), givens);
    assert (s.tasks + [DerivedAll(fns, givens)])[..|s.tasks|] == s.tasks;
    assert Givens(s.history, Task) + [] == Givens(s.history, Task);
    forall e
      ensures Times(DerivedAll(fns, Givens(s.history, Client) + givens), e) ==
              Times(DerivedAll(fns, Givens(s.history, Client)), e) + Times(DerivedAll(fns, givens), e)
    {
      TimesMore(DerivedAll(fns, Givens(s.history, Client)), DerivedAll(fns, givens), e);
    }
  }

  /** One event more is stored, one less is pending. */
  lemma TaskTimes(stored: seq<Event>, tasks: seq<seq<Event>>, t: nat, rest: seq<Event>, g: Event, e: Event)
    requires t < |tasks| && tasks[t] == [g] + rest
    ensures Times(stored + [g], e) + Pending(tasks[t := rest], e) == Times(stored, e) + Pending(tasks, e)
  {
    PendingUpdate(tasks, t, rest, e);
    TimesMore([g], rest, e);
    TimesMore(stored, [g], e);
  }

  lemma TaskConserves(fns: seq<Projector>, s: State, t: nat, r: Record)
    requires Conserved(fns, s) && t < |s.tasks| && s.tasks[t] != []
    requires r.author == Task && r.given == s.tasks[t][0]
    ensures Conserved(fns, State(s.history + [r], s.tasks[t := s.tasks[t][1..]]))
  {
    var rest, s' := s.tasks[t][1..], State(s.history + [r], s.tasks[t := s.tasks[t][1..]]);
    var stored, owed := Givens(s.history, Task), DerivedAll(fns, Givens(s.history, Client));
    GivensSnoc(s.history, r, Task);
    GivensSnoc(s.history, r, Client);
    assert Givens(s.history, Client) + [] == Givens(s.history, Client);
    assert s.tasks[t] == [r.given] + rest;
    forall e
      ensures Times(Givens(s'.history, Task), e) + Pending(s'.tasks, e) == Times(owed, e)
    {
      TaskTimes(stored, s.tasks, t, rest, r.given, e);
    }
  }

  lemma ClientNextConserves(fns: seq<Projector>, s: State, stream: string, batch: seq<Event>, version: uint64)
    requires Conserved(fns, s)
    ensures Conserved(fns, Next(fns, s, ClientAppend(stream, batch, version)))
  {
    var last := |LogOf(s.history, stream)|;
    if last + |batch| <= ALL_EVENTS {
      var owned := OwnedAll(batch, stream);
      ClientNextIs(fns, s, stream, batch, version);
      ClientConserves(fns, s, stream, Entries(owned, last + 1), DiskStore.Stamped(owned, |batch|, last));
    }
  }

  lemma TaskNextConserves(fns: seq<Projector>, s: State, t: nat, id: Ulid)
    requires Conserved(fns, s)
    ensures Conserved(fns, Next(fns, s, TaskAppend(t, id)))
  {
    var s' := Next(fns, s, TaskAppend(t, id));
    if s' != s {
      TaskConserves(fns, s, t, s'.history[|s.history|]);
    }
  }

  lemma NextConserves(fns: seq<Projector>, s: State, a: Action)
    requires Conserved(fns, s)
    ensures Conserved(fns, Next(fns, s, a))
  {
    match a
    case ClientAppend(stream, batch, version) => ClientNextConserves(fns, s, stream, batch, version);
    case TaskAppend(t, id) => TaskNextConserves(fns, s, t, id);
  }

  /** In every reachable state, what clients' appends owe is what tasks have stored and what they still hold. */
  lemma {:induction false} RunConserves(fns: seq<Projector>, actions: seq<Action>)
    ensures Conserved(fns, Run(fns, actions))
  {
    if actions != [] {
      RunConserves(fns, actions[..|actions| - 1]);
      NextConserves(fns, Run(fns, actions[..|actions| - 1]), actions[|actions| - 1]);
    }
  }

  // Where records lie

  /** Record i is where it says: behind the earlier records of its stream, in the store and in the caller's event. */
  ghost predicate SitedAt(h: seq<Record>, i: nat)
    requires i < |h|
  {
    && h[i].given.meta.streamID == h[i].stream
    && h[i].entry.body == h[i].given.body
    && FiledAt(h[i].entry, h[i].stream, |LogOf(h[..i], h[i].stream)| + 1)
    && (h[i].author.Client? ==> h[i].given.meta.position == h[i].entry.meta.position)
  }

  ghost predicate Sited(h: seq<Record>) {
    forall i | 0 <= i < |h| :: SitedAt(h, i)
  }

  lemma LogSnoc(h: seq<Record>, r: Record, stream: string)
    ensures LogOf(h + [r], stream) == LogOf(h, stream) + if r.stream == stream then [r.entry] else []
  {
    assert (h + [r])[..|h|] == h;
  }

  lemma SitedSnoc(h: seq<Record>, r: Record)
    requires Sited(h)
    requires r.given.meta.streamID == r.stream && r.entry.body == r.given.body
    requires FiledAt(r.entry, r.stream, |LogOf(h, r.stream)| + 1)
    requires r.author.Client? ==> r.given.meta.position == r.entry.meta.position
    ensures Sited(h + [r])
  {
    forall i | 0 <= i < |h + [r]|
      ensures SitedAt(h + [r], i)
    {
      assert (h + [r])[..i] == h[..i];
      assert i < |h| ==> SitedAt(h, i);
      assert h[..|h|] == h;
    }
  }

  lemma {:induction false} SitedMore(h: seq<Record>, stream: string, entries: seq<Event>, givens: seq<Event>)
    requires Sited(h) && |entries| == |givens|
    requires forall i | 0 <= i < |entries| ::
               && FiledAt(entries[i], stream, |LogOf(h, stream)| + i + 1)
               && givens[i].meta.streamID == stream && givens[i].meta.position == entries[i].meta.position
               && entries[i].body == givens[i].body
    ensures Sited(h + Records(stream, entries, givens, Client))
    ensures LogOf(h + Records(stream, entries, givens, Client), stream) == LogOf(h, stream) + entries
  {
    if entries == [] {
      assert h + Records(stream, entries, givens, Client) == h;
    } else {
      var n := |entries| - 1;
      SitedMore(h, stream, entries[..n], givens[..n]);
      var h' := h + Records(stream, entries[..n], givens[..n], Client);
      var r := Record(stream, entries[n], givens[n], Client);
      SitedSnoc(h', r);
      LogSnoc(h', r, stream);
      assert h + Records(stream, entries, givens, Client) == h' + [r];
      assert entries == entries[..n] + [entries[n]];
    }
  }

  lemma {:induction false} RunSited(fns: seq<Projector>, actions: seq<Action>)
    ensures Sited(Run(fns, actions).history)
  {
    if actions != [] {
      var s, a := Run(fns, actions[..|actions| - 1]), actions[|actions| - 1];
      RunSited(fns, actions[..|actions| - 1]);
      var s' := Next(fns, s, a);
      if s' != s {
        match a
        case ClientAppend(stream, batch, _) =>
          var last, owned := |LogOf(s.history, stream)|, OwnedAll(batch, stream);
          SitedMore(s.history, stream, Entries(owned, last + 1), DiskStore.Stamped(owned, |batch|, last));
        case TaskAppend(_, _) =>
          SitedSnoc(s.history, s'.history[|s.history|]);
      }
    }
  }

  lemma {:induction false} LogPrefix(h: seq<Record>, n: nat, stream: string)
    requires n <= |h|
    ensures LogOf(h[..n], stream) <= LogOf(h, stream)
    decreases |h| - n
  {
    if n < |h| {
      LogPrefix(h, n + 1, stream);
      assert h[..n + 1][..n] == h[..n];
    } else {
      assert h[..n] == h;
    }
  }

  /** Reading a record's stream at its position finds it. */
  lemma LogAt(h: seq<Record>, i: nat)
    requires Sited(h) && i < |h|
    ensures var p := h[i].entry.meta.position;
            1 <= p <= |LogOf(h, h[i].stream)| && LogOf(h, h[i].stream)[p - 1] == h[i].entry
  {
    assert SitedAt(h, i);
    LogPrefix(h, i + 1, h[i].stream);
    assert h[..i + 1][..i] == h[..i];
  }

  /** Two records of a stream are never at the same position. */
  lemma SitesDiffer(h: seq<Record>, i: nat, j: nat)
    requires Sited(h) && i < j < |h| && h[i].stream == h[j].stream
    ensures h[i].entry.meta.position < h[j].entry.meta.position
  {
    assert SitedAt(h, i) && SitedAt(h, j);
    LogPrefix(h[..j], i + 1, h[i].stream);
    assert h[..j][..i + 1] == h[..i + 1] && h[..i + 1][..i] == h[..i];
  }

  // The default projection

  const DEFAULT: seq<Projector> := [DefaultProjection]

  lemma DerivedDefault(e: Event)
    ensures Derived(DEFAULT, e) == DefaultProjection(e)
  {
    assert DEFAULT[..0] == [];
    assert Derived([], e) == [];
  }

  /** How often e is derived from clients' events. */
  function Owed(h: seq<Record>, e: Event): nat {
    Times(DerivedAll(DEFAULT, Givens(h, Client)), e)
  }

  lemma OwedSnoc(h: seq<Record>, r: Record, e: Event)
    ensures Owed(h + [r], e) == Owed(h, e) + if r.author.Client? then Times(DefaultProjection(r.given), e) else 0
  {
    GivensSnoc(h, r, Client);
    if r.author.Client? {
      var g := Givens(h, Client);
      DerivedSnoc(DEFAULT, g, r.given);
      DerivedDefault(r.given);
      TimesMore(DerivedAll(DEFAULT, g), DefaultProjection(r.given), e);
    } else {
      assert Givens(h, Client) + [] == Givens(h, Client);
    }
  }

  lemma TimesDefault(e: Event, dest: string, stream: string, pos: uint64)
    ensures Times(DefaultProjection(e), Pointer(dest, stream, pos)) ==
            if e.meta.streamID == stream && e.meta.position == pos && Receives(dest, TypeOf(e.body)) then 1 else 0
  {
    DestinationsDiffer(TypeOf(e.body));
    Receiving(TypeOf(e.body), dest);
    var ps := DefaultProjection(e);
    assert multiset(ps) == multiset{ps[0], ps[1], ps[2]};
  }

  lemma DestinationsDiffer(typeName: string)
    ensures var d := Destinations(typeName);
            |d| == 3 && d[0] != d[1] && d[1] != d[2] && d[0] != d[2] && forall x <- d :: System(x)
  {
    var d := Destinations(typeName);
    assert d[0][1] == 'a' && d[1][1] == 't' && d[2][1] == 'p';
  }

  lemma PackageIs(typeName: string, n: nat)
    requires n <= |typeName| && '.' !in typeName[..n] && (n == |typeName| || typeName[n] == '.')
    ensures Package(typeName) == typeName[..n]
  {
    var i := Text.IndexOf(typeName, '.');
    assert forall j | 0 <= j < n :: typeName[j] == typeName[..n][j];
    assert i == n;
  }

  lemma Receiving(typeName: string, dest: string)
    ensures dest in Destinations(typeName) <==> Receives(dest, typeName)
  {
    var i := Text.IndexOf(typeName, '.');
    var pkg := typeName[..i];
    assert '.' !in pkg;
    PackageIs(typeName, i);
    if n: nat :| n <= |typeName| && PackageEnds(typeName, n) && dest == "$pkg-" + typeName[..n] {
      PackageIs(typeName, n);
    }
    assert PackageEnds(typeName, i);
  }

  /**
   The three pointers the default projection makes: for `$all`, for the stream of the type, and for the stream
   of the part of the type's name in front of its first dot, or of all of it when it has none.
   */
  lemma DefaultNames(e: Event, p: string, rest: string)
    requires '.' !in p && (TypeOf(e.body) == p || TypeOf(e.body) == p + "." + rest)
    ensures var ps := DefaultProjection(e);
            && |ps| == 3
            && ps[0].meta.streamID == "$all"
            && ps[1].meta.streamID == "$type-" + TypeOf(e.body)
            && ps[2].meta.streamID == "$pkg-" + p
            && forall k | 0 <= k < 3 :: ps[k].body == Ptr(e.meta.streamID, e.meta.position)
  {
    assert TypeOf(e.body)[..|p|] == p;
    PackageIs(TypeOf(e.body), |p|);
  }

  /** One more of the pointer is owed for the record it leads to. */
  function Owes(r: Record, dest: string, stream: string, pos: uint64): nat {
    if && r.author.Client?
       && r.stream == stream && r.entry.meta.position == pos
       && Receives(dest, TypeOf(r.entry.body)) then 1 else 0
  }

  /** What the last record adds to what is owed. */
  lemma OwedLast(h: seq<Record>, h': seq<Record>, r: Record, dest: string, stream: string, pos: uint64)
    requires Sited(h) && h == h' + [r]
    ensures Owed(h, Pointer(dest, stream, pos)) == Owed(h', Pointer(dest, stream, pos)) + Owes(r, dest, stream, pos)
  {
    assert SitedAt(h, |h'|);
    OwedSnoc(h', r, Pointer(dest, stream, pos));
    TimesDefault(r.given, dest, stream, pos);
  }

  lemma SitedInit(h: seq<Record>)
    requires Sited(h) && h != []
    ensures Sited(h[..|h| - 1])
  {
    var h' := h[..|h| - 1];
    forall i | 0 <= i < |h'|
      ensures SitedAt(h', i)
    {
      assert SitedAt(h, i);
      assert h'[..i] == h[..i];
    }
  }

  /** One pointer for each record it leads to. */
  function Claims(h: seq<Record>, dest: string, stream: string, pos: uint64): nat {
    if h == [] then 0 else Claims(h[..|h| - 1], dest, stream, pos) + Owes(h[|h| - 1], dest, stream, pos)
  }

  lemma OwedNone(e: Event)
    ensures Owed([], e) == 0
  {
    assert Givens([], Client) == [] && DerivedAll(DEFAULT, []) == [];
  }

  lemma OwedStep(h: seq<Record>, dest: string, stream: string, pos: uint64)
    requires Sited(h) && h != []
    ensures Owed(h, Pointer(dest, stream, pos)) ==
            Owed(h[..|h| - 1], Pointer(dest, stream, pos)) + Owes(h[|h| - 1], dest, stream, pos)
  {
    var h', r := h[..|h| - 1], h[|h| - 1];
    assert h == h' + [r];
    OwedLast(h, h', r, dest, stream, pos);
  }

  lemma {:induction false} OwedIsClaimed(h: seq<Record>, dest: string, stream: string, pos: uint64)
    requires Sited(h)
    ensures Owed(h, Pointer(dest, stream, pos)) == Claims(h, dest, stream, pos)
  {
    if h == [] {
      OwedNone(Pointer(dest, stream, pos));
    } else {
      SitedInit(h);
      OwedIsClaimed(h[..|h| - 1], dest, stream, pos);
      OwedStep(h, dest, stream, pos);
    }
  }

  lemma {:induction false} ClaimedNever(h: seq<Record>, dest: string, stream: string, pos: uint64)
    requires forall i | 0 <= i < |h| :: !(h[i].stream == stream && h[i].entry.meta.position == pos)
    ensures Claims(h, dest, stream, pos) == 0
  {
    if h != [] {
      ClaimedNever(h[..|h| - 1], dest, stream, pos);
    }
  }

  lemma {:induction false} ClaimedOnce(h: seq<Record>, i: nat, dest: string)
    requires Sited(h) && i < |h| && h[i].author.Client? && Receives(dest, TypeOf(h[i].entry.body))
    ensures Claims(h, dest, h[i].stream, h[i].entry.meta.position) == 1
  {
    var n := |h| - 1;
    if i < n {
      SitedInit(h);
      ClaimedOnce(h[..n], i, dest);
      if h[n].stream == h[i].stream {
        SitesDiffer(h, i, n);
      }
    } else {
      forall j | 0 <= j < n
        ensures !(h[j].stream == h[n].stream && h[j].entry.meta.position == h[n].entry.meta.position)
      {
        if h[j].stream == h[n].stream {
          SitesDiffer(h, j, n);
        }
      }
      ClaimedNever(h[..n], dest, h[n].stream, h[n].entry.meta.position);
    }
  }

  /**
   In every reachable state each event a client appended has exactly one pointer for `$all`, one for its
   type and one for its package: stored already, or still in the hands of its task, and never both.
   */
  lemma ExactlyOnce(actions: seq<Action>, i: nat, dest: string)
    requires var h := Run(DEFAULT, actions).history;
             i < |h| && h[i].author.Client? && Receives(dest, TypeOf(h[i].entry.body))
    ensures var s := Run(DEFAULT, actions);
            var ptr := Pointer(dest, s.history[i].stream, s.history[i].entry.meta.position);
            Times(Givens(s.history, Task), ptr) + Pending(s.tasks, ptr) == 1
  {
    RunConserves(DEFAULT, actions);
    RunSited(DEFAULT, actions);
    var h := Run(DEFAULT, actions).history;
    OwedIsClaimed(h, dest, h[i].stream, h[i].entry.meta.position);
    ClaimedOnce(h, i, dest);
  }

  lemma {:induction false} GivenFrom(h: seq<Record>, author: Author, e: Event) returns (i: nat)
    requires e in Givens(h, author)
    ensures i < |h| && h[i].author == author && h[i].given == e
  {
    var n := |h| - 1;
    if h[n].author == author && h[n].given == e {
      i := n;
    } else {
      i := GivenFrom(h[..n], author, e);
    }
  }

  lemma {:induction false} DerivedFrom(fns: seq<Projector>, lis: seq<Event>, e: Event) returns (k: nat)
    requires e in DerivedAll(fns, lis)
    ensures k < |lis| && e in Derived(fns, lis[k])
  {
    var n := |lis| - 1;
    if e in Derived(fns, lis[n]) {
      k := n;
    } else {
      k := DerivedFrom(fns, lis[..n], e);
    }
  }

  /** Record r is a pointer to record i: in one of the streams for its type, and leading to it when followed. */
  ghost predicate Leads(h: seq<Record>, r: Record, i: nat)
    requires i < |h|
  {
    var pos := h[i].entry.meta.position;
    && h[i].author.Client?
    && Receives(r.stream, TypeOf(h[i].entry.body))
    && r.entry.body == Ptr(h[i].stream, pos)
    && 1 <= pos <= |LogOf(h, h[i].stream)| && LogOf(h, h[i].stream)[pos - 1] == h[i].entry
  }

  /** What a task still holds was made for an event a client appended. */
  lemma PendingFrom(actions: seq<Action>, e: Event) returns (i: nat)
    requires Pending(Run(DEFAULT, actions).tasks, e) > 0
    ensures var h := Run(DEFAULT, actions).history; i < |h| && h[i].author.Client? && e in DefaultProjection(h[i].given)
  {
    var h := Run(DEFAULT, actions).history;
    RunConserves(DEFAULT, actions);
    assert Times(DerivedAll(DEFAULT, Givens(h, Client)), e) > 0;
    var k := DerivedFrom(DEFAULT, Givens(h, Client), e);
    DerivedDefault(Givens(h, Client)[k]);
    i := GivenFrom(h, Client, Givens(h, Client)[k]);
  }

  lemma {:induction false} TaskGiven(actions: seq<Action>, j: nat) returns (i: nat)
    requires var h := Run(DEFAULT, actions).history; j < |h| && h[j].author.Task?
    ensures var h := Run(DEFAULT, actions).history;
            i < j && h[i].author.Client? && h[j].given in DefaultProjection(h[i].given)
  {
    var init := actions[..|actions| - 1];
    var s, a := Run(DEFAULT, init), actions[|actions| - 1];
    if j < |s.history| {
      i := TaskGiven(init, j);
    } else {
      assert a.TaskAppend?;
      var e := s.tasks[a.t][0];
      PendingUpdate(s.tasks, a.t, [], e);
      assert e in s.tasks[a.t];
      i := PendingFrom(init, e);
    }
  }

  /**
   Everything a task ever stored is a pointer, and following it finds the client's event it was made for,
   stored before it: no pointer is itself projected.
   */
  lemma PointersLead(actions: seq<Action>, j: nat)
    requires var h := Run(DEFAULT, actions).history; j < |h| && h[j].author.Task?
    ensures var h := Run(DEFAULT, actions).history;
            exists i | 0 <= i < j :: Leads(h, h[j], i)
  {
    var h := Run(DEFAULT, actions).history;
    var i := TaskGiven(actions, j);
    RunSited(DEFAULT, actions);
    assert SitedAt(h, i) && SitedAt(h, j);
    LogAt(h, i);
    assert Leads(h, h[j], i);
  }

  // Drained: every task is done

  predicate System(stream: string) {
    stream != "" && stream[0] == '$'
  }

  /** Clients keep out of the `$` streams. */
  predicate OwnStreams(actions: seq<Action>) {
    forall a <- actions :: a.ClientAppend? ==> !System(a.stream)
  }

  predicate Drained(s: State) {
    forall t | 0 <= t < |s.tasks| :: s.tasks[t] == []
  }

  /** The pointers that belong in stream d: one for each client's event it is a destination of. */
  function Sites(h: seq<Record>, d: string): seq<Body> {
    if h == [] then []
    else
      var l, r := Sites(h[..|h| - 1], d), h[|h| - 1];
      if r.author.Client? && Receives(d, TypeOf(r.entry.body)) then l + [Ptr(r.stream, r.entry.meta.position)]
      else l
  }

  lemma {:induction false} DrainedNothing(tasks: seq<seq<Event>>, e: Event)
    requires forall t | 0 <= t < |tasks| :: tasks[t] == []
    ensures Pending(tasks, e) == 0
  {
    if tasks != [] {
      DrainedNothing(tasks[..|tasks| - 1], e);
    }
  }

  lemma {:induction false} ClientsOwn(actions: seq<Action>)
    requires OwnStreams(actions)
    ensures forall r <- Run(DEFAULT, actions).history | r.author.Client? :: !System(r.stream)
  {
    if actions != [] {
      ClientsOwn(actions[..|actions| - 1]);
    }
  }

  /** Stream d holds the pointers made for it and nothing else. */
  ghost predicate OnlyPointers(h: seq<Record>, d: string) {
    forall r <- h | r.stream == d ::
      r.author.Task? && exists s, p :: r.given == Pointer(d, s, p) && r.entry.body == Ptr(s, p)
  }

  ghost predicate PointersGoHome(h: seq<Record>, d: string) {
    forall r <- h | r.author.Task? && r.given.meta.streamID == d :: r.stream == d
  }

  /** How often stream d holds b. */
  function Held(h: seq<Record>, d: string, b: Body): nat {
    multiset(Bodies(LogOf(h, d)))[b]
  }

  lemma HeldSnoc(h: seq<Record>, r: Record, d: string, b: Body)
    ensures Held(h + [r], d, b) == Held(h, d, b) + if r.stream == d && r.entry.body == b then 1 else 0
  {
    LogSnoc(h, r, d);
    if r.stream == d {
      BodiesConcat(LogOf(h, d), [r.entry]);
      assert Bodies([r.entry]) == [r.entry.body];
    } else {
      assert LogOf(h, d) + [] == LogOf(h, d);
    }
  }

  lemma GivenSnoc(h: seq<Record>, r: Record, e: Event)
    ensures Times(Givens(h + [r], Task), e) ==
            Times(Givens(h, Task), e) + if r.author.Task? && r.given == e then 1 else 0
  {
    GivensSnoc(h, r, Task);
  }

  lemma {:induction false} StoredInLog(h: seq<Record>, d: string, s: string, p: uint64)
    requires OnlyPointers(h, d) && PointersGoHome(h, d)
    ensures Held(h, d, Ptr(s, p)) == Times(Givens(h, Task), Pointer(d, s, p))
  {
    if h != [] {
      var h', r := h[..|h| - 1], h[|h| - 1];
      StoredInLog(h', d, s, p);
      HeldSnoc(h', r, d, Ptr(s, p));
      GivenSnoc(h', r, Pointer(d, s, p));
      assert h == h' + [r];
      assert r in h;
    }
  }

  lemma SitesSnoc(h: seq<Record>, r: Record, d: string, b: Body)
    ensures multiset(Sites(h + [r], d))[b] == multiset(Sites(h, d))[b] +
            if r.author.Client? && Receives(d, TypeOf(r.entry.body)) && b == Ptr(r.stream, r.entry.meta.position)
            then 1 else 0
  {
    assert (h + [r])[..|h|] == h;
  }

  lemma {:induction false} SitesAreClaims(h: seq<Record>, d: string, s: string, p: uint64)
    ensures multiset(Sites(h, d))[Ptr(s, p)] == Claims(h, d, s, p)
  {
    if h != [] {
      var n := |h| - 1;
      assert h == h[..n] + [h[n]];
      SitesAreClaims(h[..n], d, s, p);
      SitesSnoc(h[..n], h[n], d, Ptr(s, p));
    }
  }

  lemma {:induction false} SitesArePointers(h: seq<Record>, d: string, b: Body)
    requires b in Sites(h, d)
    ensures b.Ptr?
  {
    if h != [] && b in Sites(h[..|h| - 1], d) {
      SitesArePointers(h[..|h| - 1], d, b);
    }
  }

  lemma {:induction false} LogFrom(h: seq<Record>, d: string, e: Event)
    requires e in LogOf(h, d)
    ensures exists r <- h :: r.stream == d && r.entry == e
  {
    var n := |h| - 1;
    if h[n].stream == d && h[n].entry == e {
      assert h[n] in h;
    } else {
      LogFrom(h[..n], d, e);
      assert forall r <- h[..n] :: r in h;
    }
  }

  lemma SystemStreams(actions: seq<Action>, d: string)
    requires OwnStreams(actions) && System(d)
    ensures OnlyPointers(Run(DEFAULT, actions).history, d) && PointersGoHome(Run(DEFAULT, actions).history, d)
  {
    var h := Run(DEFAULT, actions).history;
    ClientsOwn(actions);
    RunSited(DEFAULT, actions);
    forall j | 0 <= j < |h|
      ensures h[j].given.meta.streamID == h[j].stream
      ensures h[j].author.Task? ==>
                exists s, p :: h[j].given == Pointer(h[j].stream, s, p) && h[j].entry.body == Ptr(s, p)
    {
      assert SitedAt(h, j);
      if h[j].author.Task? {
        var i := TaskGiven(actions, j);
        var s, p := h[i].given.meta.streamID, h[i].given.meta.position;
        assert h[j].given == Pointer(h[j].stream, s, p) && h[j].entry.body == Ptr(s, p);
      }
    }
  }

  /**
   Once the tasks are done, each `$` stream holds exactly one pointer to each client's event it is for and
   nothing else: `$all` has them all, `$type-T` those of type T, `$pkg-P` those of package P.
   */
  lemma DrainedStreams(actions: seq<Action>, d: string)
    requires OwnStreams(actions) && System(d) && Drained(Run(DEFAULT, actions))
    ensures var h := Run(DEFAULT, actions).history;
            multiset(Bodies(LogOf(h, d))) == multiset(Sites(h, d))
  {
    var s := Run(DEFAULT, actions);
    var h := s.history;
    RunConserves(DEFAULT, actions);
    RunSited(DEFAULT, actions);
    SystemStreams(actions, d);
    forall b: Body
      ensures multiset(Bodies(LogOf(h, d)))[b] == multiset(Sites(h, d))[b]
    {
      if b.Ptr? {
        StoredInLog(h, d, b.target, b.pos);
        OwedIsClaimed(h, d, b.target, b.pos);
        SitesAreClaims(h, d, b.target, b.pos);
        DrainedNothing(s.tasks, Pointer(d, b.target, b.pos));
      } else {
        OnlyPtrs(h, d, b);
      }
    }
  }

  lemma OnlyPtrs(h: seq<Record>, d: string, b: Body)
    requires OnlyPointers(h, d) && !b.Ptr?
    ensures b !in Bodies(LogOf(h, d)) && b !in Sites(h, d)
  {
    if b in Sites(h, d) {
      SitesArePointers(h, d, b);
    }
    if b in Bodies(LogOf(h, d)) {
      var i :| 0 <= i < |LogOf(h, d)| && LogOf(h, d)[i].body == b;
      LogFrom(h, d, LogOf(h, d)[i]);
    }
  }
}
