/**
 Any number of clients on one stream. FirstIndex, Read and Append are separate atomic steps, so the calls
 of different clients interleave between them in any order; appends without a version check and front
 truncations may come in between as well.
 */
module Protocol {
  import opened Words
  import opened Events
  import opened Codec
  import opened Logs
  import opened Aggregates
  import opened Stores

  /**
   Where a client is inside its call. `from` and `seen` are the entries removed and the entries ever
   written at its Read; `end` is the number ever written right after its Save.
   */
  datatype Client =
    | Idle
    | Starting(p: Program)
    | Reading(p: Program, first: uint64)
    | Saving(p: Program, agg: Agg, first: uint64, from: nat, seen: nat)
    | Wrote(p: Program, agg: Agg, from: nat, end: nat)
    | WroteNothing(p: Program, agg: Agg)
    | Failed(p: Program, failure: Failure)
  {
    predicate Busy() {
      Starting? || Reading? || Saving?
    }
  }

  /** A batch that went into the log: by a client's call, which had read from..at, or by a plain Append. */
  datatype Commit = Commit(author: Option<Program>, from: nat, at: nat, batch: seq<Body>) {
    function End(): nat {
      at + |batch|
    }
  }

  /** `history` is every entry ever written, also those truncated since; `commits` is how they got there. */
  datatype State = State(
    streamID: string,
    log: Log,
    clients: map<nat, Client>,
    history: seq<Event>,
    commits: seq<Commit>)
  {
    function Client(c: nat): Client {
      if c in clients then clients[c] else Idle
    }
  }

  datatype Action =
    | Begin(c: nat, p: Program)
    | Advance(c: nat)
    | PlainAppend(batch: seq<Event>)
    | Truncate(index: uint64)

  function Init(streamID: string): State {
    State(streamID, Log(0, []), map[], [], [])
  }

  function Become(s: State, c: nat, x: Client): State {
    s.(clients := s.clients[c := x])
  }

  /** The state after an append that made the log l out of it by adding some entries. */
  function Write(s: State, l: Log, added: seq<Event>, author: Option<Program>, from: nat): State {
    s.(log := l, history := s.history + added,
       commits := s.commits + [Commit(author, from, |s.history|, Bodies(added))])
  }

  /** What an append put behind the entries of the log. */
  function Added(was: Log, l: Log): seq<Event> {
    if |was.entries| <= |l.entries| then l.entries[|was.entries|..] else []
  }

  // The invariant

  /** The log is the tail of the history that truncation has left. */
  ghost predicate Grounded(s: State) {
    && s.log.Filed(s.streamID)
    && |s.history| == s.log.LastIndex()
    && s.log.entries == s.history[s.log.removed..]
  }

  ghost predicate TileAt(h: seq<Event>, ks: seq<Commit>, i: nat)
    requires i < |ks|
  {
    && ks[i].at == (if i == 0 then 0 else ks[i - 1].End())
    && ks[i].batch != []
    && ks[i].End() <= |h|
    && Bodies(h[ks[i].at..ks[i].End()]) == ks[i].batch
  }

  /** The history is the committed batches, one after the other in the order they were committed. */
  ghost predicate Tiled(h: seq<Event>, ks: seq<Commit>) {
    && (forall i | 0 <= i < |ks| :: TileAt(h, ks, i))
    && |h| == if ks == [] then 0 else ks[|ks| - 1].End()
  }

  /**
   A call's batch is what its function makes of the fold over exactly the history in front of the batch,
   less what had been truncated when it read; a Create found no history at all, an Update found some.
   */
  ghost predicate Justified(h: seq<Event>, removed: nat, k: Commit) {
    k.author.Some? ==>
      && k.from <= k.at <= |h| && k.from <= removed
      && (var d := k.author.value.decide(Bodies(h[k.from..k.at])); d.Some? && k.batch == Raised(d.value))
      && (k.author.value.kind.Create? ==> k.at == 0)
      && (k.author.value.kind.Update? ==> k.from < k.at)
  }

  /** What the books of a client say about the history. */
  ghost predicate Fits(streamID: string, h: seq<Event>, removed: nat, x: Client) {
    match x
    case Idle => true
    case Starting(_) => true
    case Reading(_, first) => first <= removed + 1
    case Saving(p, agg, first, from, seen) =>
      && from <= seen <= |h| <= ALL_EVENTS && from <= removed
      && ReadOf(first, h[from..seen], from)
      && Prepare(p, streamID, first, h[from..seen]) == Ok(agg)
    case Wrote(_, agg, from, end) =>
      && from < end <= |h| <= ALL_EVENTS && from <= removed
      && agg.Fits() && agg.State() == Bodies(h[from..end])
      && agg.firstIndex == from && agg.Version() == end
      && agg.StreamVersion() == end - from
    case WroteNothing(_, _) => true
    case Failed(_, _) => true
  }

  ghost predicate AllJustified(h: seq<Event>, removed: nat, ks: seq<Commit>) {
    forall i | 0 <= i < |ks| :: Justified(h, removed, ks[i])
  }

  ghost predicate AllFit(streamID: string, h: seq<Event>, removed: nat, clients: map<nat, Client>) {
    forall c | c in clients :: Fits(streamID, h, removed, clients[c])
  }

  ghost predicate Inv(s: State) {
    && Grounded(s)
    && Tiled(s.history, s.commits)
    && AllJustified(s.history, s.log.removed, s.commits)
    && AllFit(s.streamID, s.history, s.log.removed, s.clients)
  }

  lemma SavingBooks(streamID: string, h: seq<Event>, removed: nat, x: Client)
    requires x.Saving? && Fits(streamID, h, removed, x)
    ensures var read, a := h[x.from..x.seen], x.agg;
            var d := x.p.decide(Bodies(read));
            && a.Fits() && a.streamID == streamID
            && d.Some?
            && a.Uncommitted().Some? && Bodies(a.Uncommitted().value) == Raised(d.value)
            && a.State() == Bodies(read) + Raised(d.value)
            && (Clean(x.first, read, x.from) ==> a.StreamVersion() == x.seen && a.firstIndex == x.from)
            && (!Clean(x.first, read, x.from) ==> a.StreamVersion() < x.seen)
            && (x.p.kind.Create? && Clean(x.first, read, x.from) ==> x.seen == 0)
            && (x.p.kind.Update? ==> x.from < x.seen)
  {
    PrepareBooks(x.p, streamID, x.first, h[x.from..x.seen], x.from);
  }

  /** Read, and what the call computes from it before it saves. */
  ghost function AfterRead(s: State, p: Program, first: uint64): Client
    requires Inv(s)
  {
    ReadAll(s.log);
    match Prepare(p, s.streamID, first, LogRead(s.log, 0, ALL_EVENTS).value)
    case Err(e) => Failed(p, e)
    case Ok(agg) => Saving(p, agg, first, s.log.removed, |s.history|)
  }

  ghost function AfterSave(s: State, c: nat, x: Client): State
    requires Inv(s) && x.Saving? && Fits(s.streamID, s.history, s.log.removed, x)
  {
    SavingBooks(s.streamID, s.history, s.log.removed, x);
    Told(s, c, x, Save(s.log, x.agg))
  }

  /** What a client does with the outcome of its Save. */
  function Told(s: State, c: nat, x: Client, r: Saved): State
    requires x.Saving?
  {
    match r.outcome
    case Err(e) => Become(s, c, Failed(x.p, e))
    case Ok(n) =>
      if n == 0 then Become(s, c, WroteNothing(x.p, r.agg))
      else
        Become(Write(s, r.log, Added(s.log, r.log), Some(x.p), x.from), c, Wrote(x.p, r.agg, x.from, |s.history| + n))
  }

  /** The next step of a client's call, on the log as it is now. */
  ghost function Step(s: State, c: nat): State
    requires Inv(s)
  {
    match s.Client(c)
    case Starting(p) => Become(s, c, Reading(p, s.log.FirstIndex()))
    case Reading(p, first) => Become(s, c, AfterRead(s, p, first))
    case Saving(_, _, _, _, _) => AfterSave(s, c, s.Client(c))
    case _ => s
  }

  ghost function Next(s: State, a: Action): State
    requires Inv(s)
  {
    match a
    case Begin(c, p) => if s.Client(c).Busy() then s else Become(s, c, Starting(p))
    case Advance(c) => Step(s, c)
    case PlainAppend(batch) =>
      if batch == [] || s.log.LastIndex() + |batch| > ALL_EVENTS then s
      else
        var l := LogAppend(s.log, s.streamID, batch, APPEND_ONLY).0;
        Write(s, l, Added(s.log, l), None, 0)
    case Truncate(i) => s.(log := s.log.TruncateFront(i).0)
  }

  // Every step keeps the invariant

  lemma SliceStays(h: seq<Event>, more: seq<Event>, lo: nat, hi: nat)
    requires lo <= hi <= |h|
    ensures (h + more)[lo..hi] == h[lo..hi]
  {
  }

  lemma TailGrows(h: seq<Event>, more: seq<Event>, lo: nat)
    requires lo <= |h|
    ensures (h + more)[lo..] == h[lo..] + more
    ensures (h + more)[lo..|h + more|] == h[lo..|h|] + more
  {
  }

  /** What is known of a client stays known when the history grows and the log is cut at the front. */
  lemma FitsStays(streamID: string, h: seq<Event>, more: seq<Event>, removed: nat, removed': nat, x: Client)
    requires Fits(streamID, h, removed, x) && removed <= removed' && |h + more| <= ALL_EVENTS
    ensures Fits(streamID, h + more, removed', x)
  {
    match x
    case Saving(_, _, _, from, seen) => SliceStays(h, more, from, seen);
    case Wrote(_, _, from, end) => SliceStays(h, more, from, end);
    case _ =>
  }

  lemma JustifiedStays(h: seq<Event>, more: seq<Event>, removed: nat, removed': nat, k: Commit)
    requires Justified(h, removed, k) && removed <= removed'
    ensures Justified(h + more, removed', k)
  {
    if k.author.Some? {
      SliceStays(h, more, k.from, k.at);
    }
  }

  lemma AllStay(s: State, more: seq<Event>, removed': nat)
    requires Inv(s) && s.log.removed <= removed' && |s.history + more| <= ALL_EVENTS
    ensures AllJustified(s.history + more, removed', s.commits)
    ensures AllFit(s.streamID, s.history + more, removed', s.clients)
  {
    forall i | 0 <= i < |s.commits|
      ensures Justified(s.history + more, removed', s.commits[i])
    {
      JustifiedStays(s.history, more, s.log.removed, removed', s.commits[i]);
    }
    forall c | c in s.clients
      ensures Fits(s.streamID, s.history + more, removed', s.clients[c])
    {
      FitsStays(s.streamID, s.history, more, s.log.removed, removed', s.clients[c]);
    }
  }

  lemma TileMore(h: seq<Event>, ks: seq<Commit>, more: seq<Event>, k: Commit)
    requires Tiled(h, ks) && more != [] && k.at == |h| && k.batch == Bodies(more)
    ensures Tiled(h + more, ks + [k])
  {
    var h', ks' := h + more, ks + [k];
    forall i | 0 <= i < |ks'|
      ensures TileAt(h', ks', i)
    {
      if i < |ks| {
        assert TileAt(h, ks, i);
        SliceStays(h, more, ks[i].at, ks[i].End());
      } else {
        assert h'[|h|..|h'|] == more;
      }
    }
  }

  /** What an append of a batch adds to the log. */
  function NewEntries(s: State, batch: seq<Event>): (r: seq<Event>)
    requires s.log.LastIndex() + |batch| <= ALL_EVENTS
    ensures |r| == |batch|
  {
    Entries(OwnedAll(batch, s.streamID), s.log.LastIndex() + 1)
  }

  /** An append of a batch adds entries with the batch's payloads, and the log stays the tail of the history. */
  lemma AppendGrounded(s: State, batch: seq<Event>)
    requires Grounded(s) && batch != [] && s.log.LastIndex() + |batch| <= ALL_EVENTS
    ensures var l, added := Appended(s.log, s.streamID, batch), NewEntries(s, batch);
            && Bodies(added) == Bodies(batch)
            && Added(s.log, l) == added
            && l.Filed(s.streamID) && l.removed == s.log.removed
            && l.entries == (s.history + added)[l.removed..]
            && |s.history + added| == l.LastIndex() <= ALL_EVENTS
  {
    var l, added := Appended(s.log, s.streamID, batch), NewEntries(s, batch);
    assert Bodies(added) == Bodies(batch);
    TailGrows(s.history, added, s.log.removed);
    FiledMore(s.log, s.streamID, batch);
  }

  lemma FiledMore(l: Log, streamID: string, batch: seq<Event>)
    requires l.Filed(streamID) && l.LastIndex() + |batch| <= ALL_EVENTS && batch != []
    ensures Appended(l, streamID, batch).Filed(streamID)
  {
  }

  lemma TruncateKeeps(s: State, i: uint64)
    requires Inv(s)
    ensures Inv(Next(s, Truncate(i)))
  {
    var t := Next(s, Truncate(i));
    AllStay(s, [], t.log.removed);
    assert s.history + [] == s.history;
  }

  lemma WriteKeeps(s: State, batch: seq<Event>, author: Option<Program>, from: nat)
    requires Inv(s) && batch != [] && s.log.LastIndex() + |batch| <= ALL_EVENTS
    requires var added := NewEntries(s, batch);
             Justified(s.history + added, s.log.removed, Commit(author, from, |s.history|, Bodies(added)))
    ensures Inv(Write(s, Appended(s.log, s.streamID, batch), NewEntries(s, batch), author, from))
  {
    var added := NewEntries(s, batch);
    AppendGrounded(s, batch);
    AllStay(s, added, s.log.removed);
    TileMore(s.history, s.commits, added, Commit(author, from, |s.history|, Bodies(added)));
  }

  lemma BecomeKeeps(s: State, c: nat, x: Client)
    requires Inv(s) && Fits(s.streamID, s.history, s.log.removed, x)
    ensures Inv(Become(s, c, x))
  {
  }

  lemma ReadingKeeps(s: State, p: Program, first: uint64)
    requires Inv(s) && first <= s.log.removed + 1
    ensures Fits(s.streamID, s.history, s.log.removed, AfterRead(s, p, first))
  {
    ReadAll(s.log);
    assert s.history[s.log.removed..|s.history|] == s.log.entries;
  }

  /** A prepared call goes into the log exactly when both its reads agree and nothing was written since. */
  lemma SaveSucceeds(s: State, x: Client)
    requires Grounded(s) && x.Saving? && Fits(s.streamID, s.history, s.log.removed, x)
    ensures x.agg.Fits() && x.agg.Uncommitted().Some?
    ensures var batch, r := x.agg.Uncommitted().value, Save(s.log, x.agg);
            batch != [] && |s.history| + |batch| <= ALL_EVENTS ==>
              if Clean(x.first, s.history[x.from..x.seen], x.from) && x.seen == |s.history|
              then r == Saved(Appended(s.log, s.streamID, batch), Aggregates.Commit(x.agg), Ok(|batch|))
              else r == Saved(s.log, x.agg, Err(Store(WrongVersion)))
  {
    SavingBooks(s.streamID, s.history, s.log.removed, x);
  }

  /** The client and the commit after a Save that wrote. */
  lemma SavedFits(s: State, x: Client, added: seq<Event>)
    requires x.Saving? && Fits(s.streamID, s.history, s.log.removed, x)
    requires && x.seen == |s.history| && Clean(x.first, s.history[x.from..x.seen], x.from)
             && x.agg.Uncommitted().Some? && Bodies(added) == Bodies(x.agg.Uncommitted().value)
             && added != [] && |s.history + added| <= ALL_EVENTS && x.agg.Fits()
    ensures var h := s.history + added;
            && Fits(s.streamID, h, s.log.removed, Wrote(x.p, Aggregates.Commit(x.agg), x.from, |h|))
            && Justified(h, s.log.removed, Commit(Some(x.p), x.from, |s.history|, Bodies(added)))
  {
    SavingBooks(s.streamID, s.history, s.log.removed, x);
    SliceStays(s.history, added, x.from, x.seen);
    TailGrows(s.history, added, x.from);
    BodiesConcat(s.history[x.from..x.seen], added);
  }

  /** The Save that will write: something to save, both reads of one mind, nothing written in between. */
  ghost predicate Writes(s: State, x: Client)
    requires x.Saving? && Fits(s.streamID, s.history, s.log.removed, x)
  {
    && x.agg.Uncommitted().Some? && x.agg.Uncommitted().value != []
    && |s.history| + |x.agg.Uncommitted().value| <= ALL_EVENTS
    && Clean(x.first, s.history[x.from..x.seen], x.from)
    && x.seen == |s.history|
  }

  lemma SaveWrites(s: State, c: nat, x: Client)
    requires Inv(s) && x.Saving? && Fits(s.streamID, s.history, s.log.removed, x) && Writes(s, x)
    ensures x.agg.Fits()
    ensures AfterSave(s, c, x) == Written(s, c, x, x.agg.Uncommitted().value)
  {
    SaveSucceeds(s, x);
    AppendGrounded(s, x.agg.Uncommitted().value);
  }

  /** Any other Save changes nothing but what the client knows. */
  lemma SaveOnlyTells(s: State, c: nat, x: Client) returns (y: Client)
    requires Inv(s) && x.Saving? && Fits(s.streamID, s.history, s.log.removed, x) && !Writes(s, x)
    ensures AfterSave(s, c, x) == Become(s, c, y)
    ensures x.agg.Uncommitted().Some?
    ensures y == if x.agg.Uncommitted().value == [] then WroteNothing(x.p, x.agg)
                 else if |s.history| + |x.agg.Uncommitted().value| > ALL_EVENTS then Failed(x.p, Store(Panic))
                 else Failed(x.p, Store(WrongVersion))
  {
    SaveSucceeds(s, x);
    y := if x.agg.Uncommitted().value == [] then WroteNothing(x.p, x.agg)
         else if |s.history| + |x.agg.Uncommitted().value| > ALL_EVENTS then Failed(x.p, Store(Panic))
         else Failed(x.p, Store(WrongVersion));
  }

  /** The state after a Save that wrote the batch. */
  ghost function Written(s: State, c: nat, x: Client, batch: seq<Event>): State
    requires x.Saving? && x.agg.Fits() && s.log.LastIndex() + |batch| <= ALL_EVENTS
  {
    Become(Write(s, Appended(s.log, s.streamID, batch), NewEntries(s, batch), Some(x.p), x.from),
           c, Wrote(x.p, Aggregates.Commit(x.agg), x.from, |s.history| + |batch|))
  }

  /** The log after the Save keeps the invariant, and the client that saved fits it. */
  lemma WrittenFits(s: State, x: Client, batch: seq<Event>)
    requires Inv(s) && x.Saving? && Fits(s.streamID, s.history, s.log.removed, x) && Writes(s, x)
    requires x.agg.Fits() && batch == x.agg.Uncommitted().value
    ensures var w := Write(s, Appended(s.log, s.streamID, batch), NewEntries(s, batch), Some(x.p), x.from);
            && Inv(w)
            && Fits(w.streamID, w.history, w.log.removed,
                    Wrote(x.p, Aggregates.Commit(x.agg), x.from, |s.history| + |batch|))
  {
    var added := NewEntries(s, batch);
    AppendGrounded(s, batch);
    assert |s.history + added| == |s.history| + |batch|;
    SavedFits(s, x, added);
    WriteKeeps(s, batch, Some(x.p), x.from);
  }

  lemma WritingKeeps(s: State, c: nat, x: Client, batch: seq<Event>)
    requires Inv(s) && x.Saving? && Fits(s.streamID, s.history, s.log.removed, x) && Writes(s, x)
    requires x.agg.Fits() && batch == x.agg.Uncommitted().value
    ensures Inv(Written(s, c, x, batch))
  {
    WrittenFits(s, x, batch);
    BecomeKeeps(Write(s, Appended(s.log, s.streamID, batch), NewEntries(s, batch), Some(x.p), x.from),
                c, Wrote(x.p, Aggregates.Commit(x.agg), x.from, |s.history| + |batch|));
  }

  lemma SavingKeeps(s: State, c: nat, x: Client)
    requires Inv(s) && x.Saving? && Fits(s.streamID, s.history, s.log.removed, x)
    ensures Inv(AfterSave(s, c, x))
  {
    if Writes(s, x) {
      SaveWrites(s, c, x);
      WritingKeeps(s, c, x, x.agg.Uncommitted().value);
    } else {
      var y := SaveOnlyTells(s, c, x);
      BecomeKeeps(s, c, y);
    }
  }

  lemma NextKeeps(s: State, a: Action)
    requires Inv(s)
    ensures Inv(Next(s, a))
  {
    match a
    case Begin(c, p) => BecomeKeeps(s, c, Starting(p));
    case Advance(c) =>
      match s.Client(c) {
        case Starting(p) => BecomeKeeps(s, c, Reading(p, s.log.FirstIndex()));
        case Reading(p, first) =>
          ReadingKeeps(s, p, first);
          BecomeKeeps(s, c, AfterRead(s, p, first));
        case Saving(_, _, _, _, _) => SavingKeeps(s, c, s.Client(c));
        case _ =>
      }
    case PlainAppend(batch) =>
      if batch != [] && s.log.LastIndex() + |batch| <= ALL_EVENTS {
        AppendGrounded(s, batch);
        WriteKeeps(s, batch, None, 0);
      }
    case Truncate(i) => TruncateKeeps(s, i);
  }

  /** The state after a run of actions, whatever their order. */
  ghost function Run(streamID: string, actions: seq<Action>): (s: State)
    ensures Inv(s)
  {
    if actions == [] then Init(streamID)
    else
      var s := Run(streamID, actions[..|actions| - 1]);
      NextKeeps(s, actions[|actions| - 1]);
      Next(s, actions[|actions| - 1])
  }

  // What every run keeps to

  function Flat(ks: seq<Commit>): seq<Body> {
    if ks == [] then [] else Flat(ks[..|ks| - 1]) + ks[|ks| - 1].batch
  }

  lemma {:induction false} TiledIsFlat(h: seq<Event>, ks: seq<Commit>)
    requires Tiled(h, ks)
    ensures Bodies(h) == Flat(ks)
  {
    if ks != [] {
      var n := |ks| - 1;
      var k, h' := ks[n], h[..ks[n].at];
      assert TileAt(h, ks, n);
      forall i | 0 <= i < n
        ensures TileAt(h', ks[..n], i)
      {
        assert TileAt(h, ks, i) && TileAt(h, ks, i + 1);
        EndsGrow(h, ks, i, n);
        SliceStays(h', h[k.at..], ks[i].at, ks[i].End());
        assert h == h' + h[k.at..];
      }
      TiledIsFlat(h', ks[..n]);
      BodiesConcat(h', h[k.at..]);
      assert h == h' + h[k.at..] && h[k.at..k.End()] == h[k.at..];
    }
  }

  lemma {:induction false} EndsGrow(h: seq<Event>, ks: seq<Commit>, i: nat, j: nat)
    requires (forall i | 0 <= i < |ks| :: TileAt(h, ks, i)) && i < j < |ks|
    ensures ks[i].End() <= ks[j].at
    decreases j
  {
    assert TileAt(h, ks, j);
    if i < j - 1 {
      EndsGrow(h, ks, i, j - 1);
    }
  }

  lemma NextFrame(s: State, a: Action)
    requires Inv(s)
    ensures Next(s, a).streamID == s.streamID
    ensures !a.Truncate? ==> Next(s, a).log.removed == s.log.removed
  {
    if a.Advance? && s.Client(a.c).Saving? {
      var x := s.Client(a.c);
      if Writes(s, x) {
        SaveWrites(s, a.c, x);
      } else {
        var y := SaveOnlyTells(s, a.c, x);
      }
    }
  }

  lemma {:induction false} RunFrame(streamID: string, actions: seq<Action>)
    ensures Run(streamID, actions).streamID == streamID
    ensures (forall a <- actions :: !a.Truncate?) ==> Run(streamID, actions).log.removed == 0
  {
    if actions != [] {
      var n := |actions| - 1;
      RunFrame(streamID, actions[..n]);
      NextFrame(Run(streamID, actions[..n]), actions[n]);
    }
  }

  /**
   Whatever the interleaving, the stream's whole history is the committed batches in commit order, and each
   batch of a Create, Update or Upsert is what its function makes of the fold over exactly the history in
   front of it: all of that history when the stream was never truncated, else what was left at its Read.
   */
  lemma Serializable(streamID: string, actions: seq<Action>)
    ensures var s := Run(streamID, actions);
            && Bodies(s.history) == Flat(s.commits)
            && s.log.entries == s.history[s.log.removed..]
            && (forall i | 0 <= i < |s.commits| :: s.commits[i].at == |Flat(s.commits[..i])|)
            && (forall k <- s.commits | k.author.Some? ::
                  && k.from <= k.at <= |s.history|
                  && var d := k.author.value.decide(Bodies(s.history[k.from..k.at]));
                     d.Some? && k.batch == Raised(d.value))
            && ((forall a <- actions :: !a.Truncate?) ==> forall k <- s.commits | k.author.Some? :: k.from == 0)
  {
    var s := Run(streamID, actions);
    TiledIsFlat(s.history, s.commits);
    forall i | 0 <= i < |s.commits|
      ensures s.commits[i].at == |Flat(s.commits[..i])|
    {
      FlatLength(s.history, s.commits, i);
    }
    forall k <- s.commits | k.author.Some?
      ensures Justified(s.history, s.log.removed, k)
    {
    }
    RunFrame(streamID, actions);
  }

  lemma {:induction false} FlatLength(h: seq<Event>, ks: seq<Commit>, i: nat)
    requires Tiled(h, ks) && i < |ks|
    ensures |Flat(ks[..i])| == ks[i].at
  {
    assert TileAt(h, ks, i);
    if i > 0 {
      assert TileAt(h, ks, i - 1);
      FlatLength(h, ks, i - 1);
      assert ks[..i][..i - 1] == ks[..i - 1];
    }
  }

  /**
   A call whose Load saw two different fronts of the log never writes: its version is below the last index,
   also when the subtraction wrapped, and so it is neither the current version nor the one that skips the check.
   */
  lemma TornNeverWrites(streamID: string, actions: seq<Action>, c: nat)
    requires var s := Run(streamID, actions);
             var x := s.Client(c);
             x.Saving? && !Clean(x.first, s.history[x.from..x.seen], x.from)
    ensures var s := Run(streamID, actions);
            var x, t := s.Client(c), Step(s, c);
            && x.agg.StreamVersion() < s.log.LastIndex() && x.agg.StreamVersion() != APPEND_ONLY
            && x.agg.Uncommitted().Some?
            && t == Become(s, c,
                      if x.agg.Uncommitted().value == [] then WroteNothing(x.p, x.agg)
                      else if |s.history| + |x.agg.Uncommitted().value| > ALL_EVENTS then Failed(x.p, Store(Panic))
                      else Failed(x.p, Store(WrongVersion)))
  {
    var s := Run(streamID, actions);
    var x := s.Client(c);
    SavingBooks(s.streamID, s.history, s.log.removed, x);
    var y := SaveOnlyTells(s, c, x);
  }

  lemma RunMore(streamID: string, actions: seq<Action>, a: Action) returns (s: State)
    ensures Inv(Run(streamID, actions)) && s == Next(Run(streamID, actions), a) == Run(streamID, actions + [a])
  {
    s := Next(Run(streamID, actions), a);
    assert (actions + [a])[..|actions|] == actions;
  }

  /** What comes between calls: a plain append that fits goes in behind the history, a cut inside the log is made. */
  lemma Between(s: State, batch: seq<Event>, i: uint64)
    requires Inv(s)
    ensures var t := Next(s, PlainAppend(batch));
            && t.clients == s.clients && s.history <= t.history && t.log.removed == s.log.removed
            && (|s.history| + |batch| <= ALL_EVENTS ==>
                  |t.history| == |s.history| + |batch| && Bodies(t.history[|s.history|..]) == Bodies(batch))
    ensures var t := Next(s, Truncate(i));
            && t.clients == s.clients && t.history == s.history
            && t.log.removed == if s.log.removed < i <= |s.history| then i - 1 else s.log.removed
  {
    if batch != [] && |s.history| + |batch| <= ALL_EVENTS {
      AppendGrounded(s, batch);
    }
  }

  /** The four steps of a call that nothing comes between. */
  ghost function Alone(s: State, c: nat, p: Program): (t: State)
    requires Inv(s)
    ensures Inv(t)
  {
    Advanced(Advanced(Advanced(Begun(s, c, p), c), c), c)
  }

  ghost function Begun(s: State, c: nat, p: Program): (t: State)
    requires Inv(s)
    ensures Inv(t)
  {
    NextKeeps(s, Begin(c, p));
    Next(s, Begin(c, p))
  }

  ghost function Advanced(s: State, c: nat): (t: State)
    requires Inv(s)
    ensures Inv(t)
  {
    NextKeeps(s, Advance(c));
    Next(s, Advance(c))
  }

  /** How a client stands after a call that answered r. */
  ghost predicate Stands(x: Client, p: Program, r: Result<Agg, Failure>) {
    match r
    case Err(e) => x == Failed(p, e)
    case Ok(agg) => (x.Wrote? || x.WroteNothing?) && x.p == p && x.agg == agg
  }

  /** How a client stands that has read the log and computed what to save. */
  ghost predicate Computed(x: Client, p: Program, l: Log, streamID: string, seen: nat)
    requires l.Fits()
  {
    match Prepare(p, streamID, l.FirstIndex(), l.entries)
    case Err(e) => x == Failed(p, e)
    case Ok(agg) => x == Saving(p, agg, l.FirstIndex(), l.removed, seen)
  }

  /** A step of a client's that leaves the log alone. */
  ghost predicate Quiet(s: State, t: State) {
    t.streamID == s.streamID && t.log == s.log && t.history == s.history
  }

  lemma Starts(s: State, c: nat, p: Program)
    requires Inv(s) && !s.Client(c).Busy()
    ensures Quiet(s, Begun(s, c, p)) && Begun(s, c, p).Client(c) == Starting(p)
  {
  }

  /** The call asks for the first index. */
  lemma AsksFirst(s: State, c: nat, p: Program)
    requires Inv(s) && s.Client(c) == Starting(p)
    ensures Quiet(s, Advanced(s, c)) && Advanced(s, c).Client(c) == Reading(p, s.log.FirstIndex())
  {
  }

  /** It reads the log and computes what to save. */
  lemma Computes(s: State, c: nat, p: Program)
    requires Inv(s) && s.Client(c) == Reading(p, s.log.FirstIndex())
    ensures var t := Advanced(s, c); Quiet(s, t) && Computed(t.Client(c), p, s.log, s.streamID, |s.history|)
  {
    ReadAll(s.log);
  }

  lemma Saves(s: State, c: nat)
    requires Inv(s) && s.Client(c).Saving?
    ensures var x, t := s.Client(c), Step(s, c);
            && x.agg.Fits()
            && var r := Save(s.log, x.agg);
               && t.log == r.log
               && Stands(t.Client(c), x.p, if r.outcome.Ok? then Ok(r.agg) else Err(r.outcome.error))
  {
    var x := s.Client(c);
    SavingBooks(s.streamID, s.history, s.log.removed, x);
    SaveOrStays(s.log, x.agg);
  }

  lemma SaveOrStays(l: Log, a: Agg)
    requires a.Fits()
    ensures var r := Save(l, a); r.outcome.Err? || r.outcome.value == 0 ==> r.log == l && r.agg == a
  {
  }

  lemma CallIs(p: Program, l: Log, streamID: string)
    requires l.Fits()
    ensures match Prepare(p, streamID, l.FirstIndex(), l.entries)
            case Err(e) => Call(p, l, streamID) == (l, Err(e))
            case Ok(a) =>
              && a.Fits()
              && var r := Save(l, a);
                 Call(p, l, streamID) == (r.log, if r.outcome.Ok? then Ok(r.agg) else Err(r.outcome.error))
  {
  }

  lemma Finishes(s: State, c: nat, p: Program)
    requires Inv(s) && Computed(s.Client(c), p, s.log, s.streamID, |s.history|)
    ensures var t, r := Advanced(s, c), Call(p, s.log, s.streamID); t.log == r.0 && Stands(t.Client(c), p, r.1)
  {
    CallIs(p, s.log, s.streamID);
    if s.Client(c).Saving? {
      Saves(s, c);
    }
  }

  /** In every reachable state, a call that nothing comes between leaves the log and answers as Call does. */
  lemma Undisturbed(streamID: string, actions: seq<Action>, c: nat, p: Program)
    requires !Run(streamID, actions).Client(c).Busy()
    ensures var s := Run(streamID, actions);
            var t, r := Alone(s, c, p), Call(p, s.log, streamID);
            t.log == r.0 && Stands(t.Client(c), p, r.1)
  {
    RunFrame(streamID, actions);
    UndisturbedFrom(Run(streamID, actions), c, p);
  }

  lemma UndisturbedFrom(s: State, c: nat, p: Program)
    requires Inv(s) && !s.Client(c).Busy()
    ensures var t, r := Alone(s, c, p), Call(p, s.log, s.streamID); t.log == r.0 && Stands(t.Client(c), p, r.1)
  {
    var s1 := Begun(s, c, p);
    var s2 := Advanced(s1, c);
    Starts(s, c, p);
    AsksFirst(s1, c, p);
    Computes(s2, c, p);
    Finishes(Advanced(s2, c), c, p);
  }

  /** A Create whose function raises one event, whatever it finds. */
  function CreateOf(d: Draft): Program {
    Program(Create, _ => Some([[d]]))
  }

  /** A stream that gets its first event between the two reads of a Create. */
  function TornRun(d: Draft, e: Event): seq<Action> {
    [Begin(0, CreateOf(d)), Advance(0), PlainAppend([e]), Advance(0)]
  }

  lemma TornSteps(d: Draft, e: Event)
    ensures var one, two := [Begin(0, CreateOf(d))], [Begin(0, CreateOf(d)), Advance(0)];
            var three := [Begin(0, CreateOf(d)), Advance(0), PlainAppend([e])];
            && [] + one == one && one + [Advance(0)] == two && two + [PlainAppend([e])] == three
            && three + [Advance(0)] == TornRun(d, e)
  {
  }

  /** In front of its second read: FirstIndex was asked on an empty stream, which now has an event. */
  lemma TornHalfway(streamID: string, d: Draft, e: Event)
    ensures var s := Run(streamID, [Begin(0, CreateOf(d)), Advance(0), PlainAppend([e])]);
            && s.streamID == streamID && s.Client(0) == Reading(CreateOf(d), 0)
            && s.log.removed == 0 && |s.log.entries| == |s.history| == 1
  {
    var p := CreateOf(d);
    TornSteps(d, e);
    var s1 := RunMore(streamID, [], Begin(0, p));
    Starts(Init(streamID), 0, p);
    var s2 := RunMore(streamID, [Begin(0, p)], Advance(0));
    AsksFirst(s1, 0, p);
    var s3 := RunMore(streamID, [Begin(0, p), Advance(0)], PlainAppend([e]));
    Between(s2, [e], 0);
    RunFrame(streamID, [Begin(0, p), Advance(0), PlainAppend([e])]);
  }

  /** The Create passes its check on a stream that is not empty, on version 0 and about to save an event. */
  lemma TornReached(streamID: string, d: Draft, e: Event)
    ensures var s := Run(streamID, TornRun(d, e));
            var x := s.Client(0);
            && x.Saving? && x.p == CreateOf(d)
            && x.first == 0 && x.from == 0 && x.seen == |s.history| == 1
            && !Clean(x.first, s.history[x.from..x.seen], x.from)
            && x.agg.StreamVersion() == 0 && x.agg.Uncommitted().Some? && |x.agg.Uncommitted().value| == 1
  {
    var three := [Begin(0, CreateOf(d)), Advance(0), PlainAppend([e])];
    TornHalfway(streamID, d, e);
    var s4 := RunMore(streamID, three, Advance(0));
    TornSteps(d, e);
    var s3 := Run(streamID, three);
    ReadAll(s3.log);
    TornPrepares(streamID, d, s3.log.entries);
  }

  /** And its Save is refused. */
  lemma TornRefused(streamID: string, d: Draft, e: Event)
    ensures var s := Run(streamID, TornRun(d, e));
            Step(s, 0) == Become(s, 0, Failed(CreateOf(d), Store(WrongVersion)))
  {
    TornReached(streamID, d, e);
    TornNeverWrites(streamID, TornRun(d, e), 0);
  }

  lemma TornPrepares(streamID: string, d: Draft, read: seq<Event>)
    requires |read| == 1
    ensures var r := Prepare(CreateOf(d), streamID, 0, read);
            r.Ok? && r.value.StreamVersion() == 0 && r.value.Uncommitted().Some? && |r.value.Uncommitted().value| == 1
  {
    TornCreate(CreateOf(d), streamID, 0, read, 0);
    LoadedBooks(streamID, 0, read, 0);
    assert [[d]][..0] == [];
    assert Total([]) == 0 && Total([[d]]) == 1;
    assert CreateOf(d).decide(Bodies(read)) == Some([[d]]);
    PrepareBooks(CreateOf(d), streamID, 0, read, 0);
  }

  /** What a torn Load hides from Create: the check passes on exactly one event read behind an empty front. */
  lemma TornCreate(p: Program, streamID: string, first: uint64, read: seq<Event>, from: nat)
    requires p.kind.Create? && ReadOf(first, read, from) && read != []
    ensures Prepare(p, streamID, first, read) != Err(ShouldNotExist) <==> first == 0 && |read| == 1
  {
    LoadedBooks(streamID, first, read, from);
  }

  /** However calls interleave, at most one Create ever writes, and what it writes comes first in the stream. */
  lemma CreateOnce(streamID: string, actions: seq<Action>, i: nat)
    requires var ks := Run(streamID, actions).commits;
             i < |ks| && ks[i].author.Some? && ks[i].author.value.kind.Create?
    ensures i == 0 && Run(streamID, actions).commits[i].at == 0
  {
    var s := Run(streamID, actions);
    assert Justified(s.history, s.log.removed, s.commits[i]);
    assert TileAt(s.history, s.commits, i);
    assert i > 0 ==> TileAt(s.history, s.commits, i - 1);
  }

  lemma LastWriterMatchesLoad(s: State, x: Client)
    requires Inv(s) && x.Wrote? && Fits(s.streamID, s.history, s.log.removed, x) && x.end == |s.history|
    ensures var l := Loaded(Fresh(s.streamID), s.log.FirstIndex(), s.log.entries);
            && l.Some?
            && l.value.events == s.log.entries
            && l.value.Version() == l.value.StreamVersion() == x.agg.Version() == |s.history|
            && (s.log.removed == x.from ==> l.value.State() == x.agg.State())
  {
    assert s.log.entries != [];
    LoadRenumbers(s.log, s.streamID, s.log.FirstIndex());
    LoadedBooks(s.streamID, s.log.FirstIndex(), s.log.entries, s.log.removed);
    assert s.history[s.log.removed..|s.history|] == s.log.entries;
  }

  /**
   The aggregate the last writer got back agrees with a fresh Load: the same version, the same state when
   nothing was truncated in between, and the same stream version exactly when it had read an uncut stream.
   */
  lemma ReplayIsWritePath(streamID: string, actions: seq<Action>, c: nat)
    requires var s := Run(streamID, actions);
             s.Client(c).Wrote? && s.Client(c).end == |s.history|
    ensures var s := Run(streamID, actions);
            var x, l := s.Client(c), Loaded(Fresh(streamID), s.log.FirstIndex(), s.log.entries);
            && l.Some?
            && l.value.events == s.log.entries
            && l.value.Version() == x.agg.Version() == |s.history|
            && (s.log.removed == x.from ==> l.value.State() == x.agg.State())
            && (l.value.StreamVersion() == x.agg.StreamVersion() <==> x.from == 0)
  {
    var s := Run(streamID, actions);
    RunFrame(streamID, actions);
    LastWriterMatchesLoad(s, s.Client(c));
  }
}
