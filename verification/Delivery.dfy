/**
 What one subscriber is given: Recv and Events by turns (the loop of gql's EventAdded), with appends to the
 stream, each one step with its Send, anywhere in between.
 */
module Delivery {
  import opened Words
  import opened Events
  import opened Codec
  import opened Logs
  import opened Streamer
  import DiskStore

  /** The subscriber is about to call Recv, waits in it, or is about to call Events. */
  datatype Phase = Idle | Blocked | Ready

  datatype State = State(log: Log, cursor: Cursor, phase: Phase, delivered: seq<Event>, notes: Notes)

  /**
   What a run is remembered by. `lost` holds what the next Events can no longer return: a Send of events that
   finds the subscriber idle loses every position not delivered by then, and `slips` counts such Sends.
   `strayed` says that Recv or Events was called out of step, `backward` that Events read backwards, and
   `replays` counts the calls of Events that started the stream over.
   */
  datatype Notes = Notes(lost: set<nat>, slips: nat, strayed: bool, backward: bool, replays: nat)

  datatype Action = Append(batch: seq<Event>, version: uint64) | Recv | Events

  predicate Got(delivered: seq<Event>, p: int) {
    exists e <- delivered :: e.meta.actualPosition == p
  }

  /** Where the subscriber's part of the stream starts. */
  function Floor(start: int64, l: Log): int {
    Max(start, l.removed)
  }

  function Missed(start: int64, l: Log, delivered: seq<Event>): set<nat> {
    set p: nat | Floor(start, l) < p <= l.LastIndex() && !Got(delivered, p)
  }

  function Initial(l: Log, start: int64): State {
    State(l, Started(start), Idle, [], Notes({}, 0, false, false, 0))
  }

  /**
   The cursor expects the log to end elsewhere than it does: the last Send was one of no events, on a log
   that has some, and told it of position 0.
   */
  predicate OutOfStep(s: State) {
    s.cursor.size != ALL_EVENTS && s.cursor.idx + s.cursor.size != s.log.LastIndex()
  }

  /** Events is about to read the stream from its start, for one that was given events or asked for later ones. */
  predicate Replaying(start: int64, s: State) {
    && s.cursor.idx == 0 && 0 < s.cursor.size && s.log.entries != []
    && (s.delivered != [] || s.log.removed < start)
  }

  function Next(topic: string, start: int64, s: State, a: Action): (s': State)
    requires s.log.Fits()
    ensures s'.log.Fits() && s'.log.removed == s.log.removed
  {
    match a
    case Append(batch, version) =>
      var last := s.log.LastIndex();
      if last + |batch| >= ALL_EVENTS || LogAppend(s.log, topic, batch, version).1.Err? then s
      else
        var log := LogAppend(s.log, topic, batch, version).0;
        var stamped := DiskStore.Stamped(OwnedAll(batch, topic), |batch|, last);
        var told := s.(log := log, cursor := Sent(s.cursor, LastActual(stamped)));
        if s.phase.Blocked? && !s.cursor.waiting then told
        else if !s.phase.Idle? then told.(phase := Ready)
        else if batch == [] then told
        else
          told.(notes := s.notes.(lost := s.notes.lost + Missed(start, log, s.delivered), slips := s.notes.slips + 1))
    case Recv =>
      if !s.phase.Idle? then s
      else
        var (c, ready) := Received(s.cursor);
        s.(cursor := c, phase := if ready then Ready else Blocked,
           notes := s.notes.(strayed := s.notes.strayed || OutOfStep(s)))
    case Events =>
      if !s.phase.Ready? then s
      else
        ReadFits(s.log, s.cursor.idx, s.cursor.size);
        Given(start, s, LogRead(s.log, s.cursor.idx, s.cursor.size).value)
  }

  /** After Events, with what it read. */
  function Given(start: int64, s: State, es: seq<Event>): State
    requires |es| <= ALL_EVENTS
  {
    s.(cursor := Fetched(s.cursor, es), phase := Idle, delivered := s.delivered + es,
       notes := s.notes.(
         strayed := s.notes.strayed || OutOfStep(s),
         backward := s.notes.backward || s.cursor.size < 0,
         replays := s.notes.replays + if Replaying(start, s) then 1 else 0))
  }

  function RunFrom(topic: string, start: int64, s: State, actions: seq<Action>): (s': State)
    requires s.log.Fits()
    ensures s'.log.Fits() && s'.log.removed == s.log.removed
  {
    if actions == [] then s
    else Next(topic, start, RunFrom(topic, start, s, actions[..|actions| - 1]), actions[|actions| - 1])
  }

  function Run(topic: string, start: int64, l: Log, actions: seq<Action>): (s: State)
    requires l.Fits()
    ensures s.log.Fits() && s.log.removed == l.removed
  {
    RunFrom(topic, start, Initial(l, start), actions)
  }

  /** Up to where everything has been delivered or lost. */
  function Mark(start: int64, s: State): int {
    if s.cursor.size == ALL_EVENTS then Floor(start, s.log)
    else if !s.phase.Idle? then Max(Floor(start, s.log), s.cursor.idx)
    else if OutOfStep(s) && s.delivered == [] && s.notes.lost == {} then Floor(start, s.log)
    else s.log.LastIndex()
  }

  /** The cursor and what it expects span the log to its end, or, after a Send of no events, back to its start. */
  predicate Spans(start: int64, s: State) {
    && 0 <= start <= s.cursor.idx <= s.log.LastIndex() < ALL_EVENTS
    && (OutOfStep(s) ==> s.cursor.idx + s.cursor.size == 0 && !s.phase.Blocked?)
    && (s.cursor.size == ALL_EVENTS ==> Untold(start, s))
    && (s.phase.Blocked? ==> s.cursor.size == 0 && s.cursor.waiting)
  }

  /** Nothing has been sent or read yet. */
  predicate Untold(start: int64, s: State) {
    s.cursor.idx == start && !s.phase.Blocked? && s.delivered == [] && s.notes.lost == {} && s.notes.slips == 0
  }

  predicate Stored(l: Log, e: Event) {
    l.Holds(e.meta.actualPosition) && e == l.At(e.meta.actualPosition)
  }

  /** Behind the floor, in the order of the stream, and nothing twice. */
  ghost predicate Ordered(floor: int, delivered: seq<Event>) {
    && (forall e <- delivered :: floor < e.meta.actualPosition)
    && (forall j, k | 0 <= j < k < |delivered| ::
          delivered[j].meta.actualPosition < delivered[k].meta.actualPosition)
  }

  ghost predicate InOrder(l: Log, floor: int, delivered: seq<Event>) {
    && (forall e <- delivered :: Stored(l, e))
    && Ordered(floor, delivered)
  }

  /** Up to the mark each position has been delivered or lost, and not both; behind it neither. */
  ghost predicate Accounted(floor: int, mark: int, delivered: seq<Event>, lost: set<nat>) {
    && (forall p: nat | floor < p <= mark :: Got(delivered, p) != (p in lost))
    && (forall p: nat | !(floor < p <= mark) :: !Got(delivered, p) && p !in lost)
  }

  function Segment(l: Log, floor: int, mark: int): seq<Event>
    requires l.removed <= floor <= mark <= l.LastIndex()
  {
    l.entries[floor - l.removed..mark - l.removed]
  }

  ghost predicate Kept(l: Log, floor: int, mark: int, delivered: seq<Event>, lost: set<nat>, slips: nat) {
    && l.removed <= floor <= mark <= l.LastIndex()
    && InOrder(l, floor, delivered)
    && Accounted(floor, mark, delivered, lost)
    && (slips == 0 ==> lost == {} && delivered == Segment(l, floor, mark))
    && (slips > 0 ==> lost != {})
  }

  ghost predicate Inv(topic: string, start: int64, s: State) {
    && s.log.Filed(topic)
    && Spans(start, s)
    && Kept(s.log, Floor(start, s.log), Mark(start, s), s.delivered, s.notes.lost, s.notes.slips)
    && !s.notes.backward && s.notes.replays == 0
  }

  // Every step keeps the invariant

  lemma AppendedFiled(l: Log, topic: string, batch: seq<Event>)
    requires l.Filed(topic) && l.LastIndex() + |batch| <= ALL_EVENTS
    ensures var l' := Appended(l, topic, batch);
            && l'.Filed(topic) && l'.removed == l.removed && l'.LastIndex() == l.LastIndex() + |batch|
            && l.entries <= l'.entries && forall p: uint64 | l.Holds(p) :: l'.Holds(p) && l'.At(p) == l.At(p)
  {
  }

  /** What a Send tells is the end of the log the append just made, or 0 when it appended nothing. */
  function Told(l: Log, batch: seq<Event>): int {
    if batch == [] then 0 else l.LastIndex() + |batch|
  }

  lemma SentTells(topic: string, s: State, batch: seq<Event>)
    requires s.log.Fits() && s.log.LastIndex() + |batch| < ALL_EVENTS && 0 <= s.cursor.idx <= s.log.LastIndex()
    ensures var stamped := DiskStore.Stamped(OwnedAll(batch, topic), |batch|, s.log.LastIndex());
            Sent(s.cursor, LastActual(stamped)) == Cursor(s.cursor.idx, Told(s.log, batch) - s.cursor.idx, false)
  {
  }

  /** The state after an append that went through. */
  lemma AppendIs(topic: string, start: int64, s: State, batch: seq<Event>, version: uint64)
    requires s.log.Fits() && 0 <= s.cursor.idx <= s.log.LastIndex() && (s.phase.Blocked? ==> s.cursor.waiting)
    ensures var s' := Next(topic, start, s, Append(batch, version));
            s' == s || (
            && s.log.LastIndex() + |batch| < ALL_EVENTS && s'.log == Appended(s.log, topic, batch)
            && s'.cursor == Cursor(s.cursor.idx, Told(s.log, batch) - s.cursor.idx, false)
            && s'.delivered == s.delivered
            && s'.phase == (if s.phase.Idle? then Idle else Ready)
            && s'.notes == (if !s.phase.Idle? || batch == [] then s.notes
                            else s.notes.(lost := s.notes.lost + Missed(start, s'.log, s.delivered),
                                          slips := s.notes.slips + 1)))
  {
    if s.log.LastIndex() + |batch| < ALL_EVENTS {
      SentTells(topic, s, batch);
    }
  }

  lemma KeptLonger(l: Log, l': Log, floor: int, mark: int, delivered: seq<Event>, lost: set<nat>, slips: nat)
    requires Kept(l, floor, mark, delivered, lost, slips)
    requires l'.removed == l.removed && l.entries <= l'.entries
    ensures Kept(l', floor, mark, delivered, lost, slips)
  {
  }

  /** A Send that finds the subscriber idle moves the mark to the end of the log. */
  lemma KeptLost(start: int64, l: Log, mark: int, delivered: seq<Event>, lost: set<nat>, slips: nat)
    requires Kept(l, Floor(start, l), mark, delivered, lost, slips) && mark < l.LastIndex()
    ensures Kept(l, Floor(start, l), l.LastIndex(), delivered, lost + Missed(start, l, delivered), slips + 1)
  {
    var last: nat := l.LastIndex();
    assert !Got(delivered, last);
    assert last in Missed(start, l, delivered);
  }

  lemma AppendKeeps(topic: string, start: int64, s: State, batch: seq<Event>, version: uint64)
    requires Inv(topic, start, s) && batch != []
    ensures Inv(topic, start, Next(topic, start, s, Append(batch, version)))
  {
    var s' := Next(topic, start, s, Append(batch, version));
    AppendIs(topic, start, s, batch, version);
    if s' != s {
      AppendedFiled(s.log, topic, batch);
      KeptLonger(s.log, s'.log, Floor(start, s.log), Mark(start, s), s.delivered, s.notes.lost, s.notes.slips);
      if s.phase.Idle? {
        KeptLost(start, s'.log, Mark(start, s), s.delivered, s.notes.lost, s.notes.slips);
      }
    }
  }

  lemma EmptyAppend(topic: string, l: Log, version: uint64)
    requires l.Fits()
    ensures LogAppend(l, topic, [], version).0 == l
  {
    assert l.entries + Entries(OwnedAll([], topic), l.LastIndex() + 1) == l.entries;
  }

  /** A Send of no events changes the cursor alone, and nothing is lost by it. */
  lemma EmptyAppendKeeps(topic: string, start: int64, s: State, version: uint64)
    requires Inv(topic, start, s)
    ensures Inv(topic, start, Next(topic, start, s, Append([], version)))
  {
    var s' := Next(topic, start, s, Append([], version));
    if s' != s {
      EmptyAppend(topic, s.log, version);
      SentTells(topic, s, []);
      assert s'.log == s.log && s'.cursor == Cursor(s.cursor.idx, -s.cursor.idx, false);
      var floor, mark := Floor(start, s.log), Mark(start, s);
      if s.phase.Idle? && s.delivered == [] && s.notes.lost == {} {
        assert floor < mark ==> Got(s.delivered, mark) || mark in s.notes.lost;
      }
      assert Mark(start, s') == mark;
    }
  }

  lemma RecvKeeps(topic: string, start: int64, s: State)
    requires Inv(topic, start, s) && !OutOfStep(s)
    ensures Inv(topic, start, Next(topic, start, s, Recv))
  {
    assert Mark(start, Next(topic, start, s, Recv)) == Mark(start, s);
  }

  lemma ReadsRest(start: int64, s: State)
    requires s.log.Fits() && Spans(start, s) && s.phase.Ready? && !OutOfStep(s)
    requires s.log.removed <= Mark(start, s) <= s.log.LastIndex()
    ensures LogRead(s.log, s.cursor.idx, s.cursor.size) == Ok(s.log.entries[Mark(start, s) - s.log.removed..])
  {
    ReadForward(s.log, s.cursor.idx, s.cursor.size);
    var from, n := Mark(start, s) - s.log.removed, |s.log.entries|;
    assert from == Min(n, Max(0, s.cursor.idx - s.log.removed));
    assert Min(n, from + s.cursor.size) == n && s.log.entries[from..n] == s.log.entries[from..];
  }

  /** Having read from `from` to the end, the cursor is at `from` and spans the log. */
  lemma FetchedSpans(topic: string, l: Log, c: Cursor, from: nat)
    requires l.Filed(topic) && from <= |l.entries| && l.LastIndex() < ALL_EVENTS && 0 <= c.idx <= l.LastIndex()
    requires from == |l.entries| ==> c.idx == l.LastIndex()
    ensures var c' := Fetched(c, l.entries[from..]);
            && c'.idx + c'.size == l.LastIndex() && 0 <= c'.size < ALL_EVENTS
            && c'.idx == if from < |l.entries| then l.removed + from else c.idx
  {
    if from < |l.entries| {
      assert FiledAt(l.entries[from], topic, l.removed + from + 1);
    }
  }

  /** Events takes the log from the mark to its end. */
  lemma Fetches(topic: string, start: int64, s: State)
    requires Inv(topic, start, s) && s.phase.Ready? && !OutOfStep(s)
    ensures Next(topic, start, s, Action.Events) == Given(start, s, s.log.entries[Mark(start, s) - s.log.removed..])
  {
    ReadsRest(start, s);
  }

  lemma FetchesInStep(topic: string, start: int64, s: State)
    requires Inv(topic, start, s) && s.phase.Ready? && !OutOfStep(s)
    ensures var s' := Given(start, s, s.log.entries[Mark(start, s) - s.log.removed..]);
            s'.notes == s.notes && Spans(start, s') && !OutOfStep(s') && Mark(start, s') == s.log.LastIndex()
  {
    FetchedSpans(topic, s.log, s.cursor, Mark(start, s) - s.log.removed);
    NotReplaying(start, s);
  }

  lemma NotReplaying(start: int64, s: State)
    requires Spans(start, s) && s.phase.Ready?
    requires Kept(s.log, Floor(start, s.log), Mark(start, s), s.delivered, s.notes.lost, s.notes.slips)
    ensures !Replaying(start, s)
  {
    if s.delivered != [] {
      var p: nat := s.delivered[0].meta.actualPosition;
      assert s.delivered[0] in s.delivered && Got(s.delivered, p);
      assert Floor(start, s.log) < p <= Mark(start, s);
    }
  }

  /** What a read from the mark adds: entries at the positions behind it. */
  lemma Adds(l: Log, topic: string, mark: int, delivered: seq<Event>, k: nat)
    requires l.Filed(topic) && l.removed <= mark <= l.LastIndex()
    requires k < |delivered| + l.LastIndex() - mark
    ensures var e := (delivered + l.entries[mark - l.removed..])[k];
            if k < |delivered| then e == delivered[k] && e in delivered
            else e.meta.actualPosition == mark + k - |delivered| + 1 && Stored(l, e)
  {
    if k >= |delivered| {
      var i := mark - l.removed + k - |delivered|;
      assert FiledAt(l.entries[i], topic, l.removed + i + 1);
    }
  }

  lemma InOrderMore(l: Log, topic: string, floor: int, mark: int, delivered: seq<Event>)
    requires l.Filed(topic) && l.removed <= floor <= mark <= l.LastIndex() && InOrder(l, floor, delivered)
    requires forall e <- delivered :: e.meta.actualPosition <= mark
    ensures InOrder(l, floor, delivered + l.entries[mark - l.removed..])
  {
    var all := delivered + l.entries[mark - l.removed..];
    forall k | 0 <= k < |all|
      ensures floor < all[k].meta.actualPosition && Stored(l, all[k])
    {
      Adds(l, topic, mark, delivered, k);
    }
    forall j, k | 0 <= j < k < |all|
      ensures all[j].meta.actualPosition < all[k].meta.actualPosition
    {
      Adds(l, topic, mark, delivered, j);
      Adds(l, topic, mark, delivered, k);
    }
  }

  /** Delivering the rest of the log moves the mark to its end too. */
  lemma KeptMore(l: Log, topic: string, floor: int, mark: int, delivered: seq<Event>, lost: set<nat>, slips: nat)
    requires l.Filed(topic) && Kept(l, floor, mark, delivered, lost, slips)
    ensures Kept(l, floor, l.LastIndex(), delivered + l.entries[mark - l.removed..], lost, slips)
  {
    var all := delivered + l.entries[mark - l.removed..];
    forall e <- delivered
      ensures e.meta.actualPosition <= mark
    {
      var p: nat := e.meta.actualPosition;
      assert Got(delivered, p);
    }
    InOrderMore(l, topic, floor, mark, delivered);
    forall p: nat
      ensures Got(all, p) <==> Got(delivered, p) || mark < p <= l.LastIndex()
    {
      GotMore(l, topic, mark, delivered, p);
    }
    assert Accounted(floor, l.LastIndex(), all, lost);
  }

  lemma GotMore(l: Log, topic: string, mark: int, delivered: seq<Event>, p: nat)
    requires l.Filed(topic) && l.removed <= mark <= l.LastIndex()
    ensures Got(delivered + l.entries[mark - l.removed..], p) <==> Got(delivered, p) || mark < p <= l.LastIndex()
  {
    var es := l.entries[mark - l.removed..];
    if mark < p <= l.LastIndex() {
      assert es[p - mark - 1].meta.actualPosition == p;
      assert es[p - mark - 1] in delivered + es;
    }
    if Got(delivered, p) {
      var e :| e in delivered && e.meta.actualPosition == p;
      assert e in delivered + es;
    }
    if Got(delivered + es, p) && !Got(delivered, p) {
      var e :| e in delivered + es && e.meta.actualPosition == p;
      assert e in es;
    }
  }

  lemma EventsKeep(topic: string, start: int64, s: State)
    requires Inv(topic, start, s) && s.phase.Ready? && !OutOfStep(s)
    ensures Inv(topic, start, Given(start, s, s.log.entries[Mark(start, s) - s.log.removed..]))
  {
    FetchesInStep(topic, start, s);
    KeptMore(s.log, topic, Floor(start, s.log), Mark(start, s), s.delivered, s.notes.lost, s.notes.slips);
  }

  lemma NextKeeps(topic: string, start: int64, s: State, a: Action)
    requires Inv(topic, start, s)
    requires !Next(topic, start, s, a).notes.strayed
    ensures Inv(topic, start, Next(topic, start, s, a))
  {
    match a
    case Append(batch, version) =>
      if batch == [] {
        EmptyAppendKeeps(topic, start, s, version);
      } else {
        AppendKeeps(topic, start, s, batch, version);
      }
    case Recv =>
      if s.phase.Idle? {
        RecvKeeps(topic, start, s);
      }
    case Events =>
      if s.phase.Ready? {
        Fetches(topic, start, s);
        EventsKeep(topic, start, s);
      }
  }

  lemma NotesStay(topic: string, start: int64, s: State, a: Action)
    requires s.log.Fits()
    ensures s.notes.strayed ==> Next(topic, start, s, a).notes.strayed
    ensures s.notes.backward ==> Next(topic, start, s, a).notes.backward
  {
  }

  /** As long as neither Recv nor Events is called out of step. */
  lemma {:induction false} RunKeeps(topic: string, start: int64, l: Log, actions: seq<Action>)
    requires l.Filed(topic) && 0 <= start <= l.LastIndex() < ALL_EVENTS
    requires !Run(topic, start, l, actions).notes.strayed
    ensures Inv(topic, start, Run(topic, start, l, actions))
  {
    if actions != [] {
      var init, a := actions[..|actions| - 1], actions[|actions| - 1];
      NotesStay(topic, start, Run(topic, start, l, init), a);
      RunKeeps(topic, start, l, init);
      NextKeeps(topic, start, Run(topic, start, l, init), a);
    }
  }

  // Who waits can be woken, in every run

  /** A subscriber is blocked only on nothing to read and with a wake-up channel set. */
  lemma {:induction false} BlockedWaits(topic: string, start: int64, l: Log, actions: seq<Action>)
    requires l.Fits()
    ensures var s := Run(topic, start, l, actions); s.phase.Blocked? ==> s.cursor.size == 0 && s.cursor.waiting
  {
    if actions != [] {
      BlockedWaits(topic, start, l, actions[..|actions| - 1]);
    }
  }

  /** The next append that goes through wakes a blocked subscriber and uses the channel up. */
  lemma SendWakes(topic: string, start: int64, l: Log, actions: seq<Action>, batch: seq<Event>, version: uint64)
    requires l.Fits() && Run(topic, start, l, actions).phase.Blocked?
    requires var last := Run(topic, start, l, actions).log.LastIndex();
             last + |batch| < ALL_EVENTS && (version == 0xFFFF_FFFF_FFFF_FFFF || version == last)
    ensures var s := Run(topic, start, l, actions + [Append(batch, version)]);
            s.phase.Ready? && !s.cursor.waiting
  {
    BlockedWaits(topic, start, l, actions);
    var s := RunMore(topic, start, l, actions, Append(batch, version));
  }

  // What the subscriber can rely on while it is in step

  /** Wherever the Sends land, what is delivered lies behind start, in the order of the stream and never twice. */
  lemma DeliveredInOrder(topic: string, start: int64, l: Log, actions: seq<Action>)
    requires l.Filed(topic) && 0 <= start <= l.LastIndex() < ALL_EVENTS
    requires !Run(topic, start, l, actions).notes.strayed
    ensures var s := Run(topic, start, l, actions);
            (forall e <- s.delivered :: Stored(s.log, e)) && Ordered(start, s.delivered)
  {
    RunKeeps(topic, start, l, actions);
  }

  /** When the subscriber waits, each event behind start has been delivered or was lost to a Send that found it idle. */
  lemma WaitingMeansAccounted(topic: string, start: int64, l: Log, actions: seq<Action>, p: uint64)
    requires l.Filed(topic) && 0 <= start <= l.LastIndex() < ALL_EVENTS
    requires var s := Run(topic, start, l, actions);
             !s.notes.strayed && s.phase.Blocked? && start < p && s.log.Holds(p)
    ensures var s := Run(topic, start, l, actions); Got(s.delivered, p) <==> p !in s.notes.lost
  {
    RunKeeps(topic, start, l, actions);
  }

  /**
   The delivered events are the stream behind start without a gap exactly when no Send of events found the
   subscriber idle.
   */
  lemma ContiguousIff(topic: string, start: int64, l: Log, actions: seq<Action>)
    requires l.Filed(topic) && 0 <= start <= l.LastIndex() < ALL_EVENTS
    requires !Run(topic, start, l, actions).notes.strayed
    ensures var s := Run(topic, start, l, actions);
            && s.log.removed <= Floor(start, s.log) <= Mark(start, s) <= s.log.LastIndex()
            && (s.delivered == Segment(s.log, Floor(start, s.log), Mark(start, s)) <==> s.notes.slips == 0)
  {
    RunKeeps(topic, start, l, actions);
    var s := Run(topic, start, l, actions);
    if s.notes.slips > 0 {
      LostMakesGap(s.log, topic, Floor(start, s.log), Mark(start, s), s.delivered, s.notes.lost, s.notes.slips);
    }
  }

  lemma LostMakesGap(l: Log, topic: string, floor: int, mark: int, delivered: seq<Event>, lost: set<nat>, slips: nat)
    requires l.Filed(topic) && Kept(l, floor, mark, delivered, lost, slips) && slips > 0
    ensures delivered != Segment(l, floor, mark)
  {
    var p :| p in lost;
    assert !Got(delivered, p);
    var e := Segment(l, floor, mark)[p - floor - 1];
    assert e == l.entries[p - l.removed - 1] && FiledAt(e, topic, p);
  }

  // Out of step: every run in which Events never reads backwards

  /** Up to where a cursor accounts for what lies in front of it. */
  function Reach(start: int64, s: State): int {
    if s.cursor.size == ALL_EVENTS then Floor(start, s.log)
    else if s.phase.Idle? then s.cursor.idx + s.cursor.size
    else s.cursor.idx
  }

  ghost predicate Covered(floor: int, reach: int, delivered: seq<Event>, lost: set<nat>) {
    forall p: nat | floor < p <= reach :: Got(delivered, p) || p in lost
  }

  /** The cursor expects the log to end where it does or at its start. */
  predicate Expects(start: int64, s: State) {
    && 0 <= start <= s.log.LastIndex() < ALL_EVENTS && 0 <= s.cursor.idx <= s.log.LastIndex()
    && (OutOfStep(s) ==> s.cursor.idx + s.cursor.size == 0)
    && (s.cursor.size == ALL_EVENTS ==> s.cursor.idx == start && !s.phase.Blocked? && s.delivered == [])
    && (s.phase.Blocked? ==> s.cursor.size == 0 && s.cursor.waiting)
  }

  /** The next read starts behind what was delivered, or at the start of the stream. */
  ghost predicate Ahead(start: int64, s: State) {
    && (s.cursor.idx == 0 || start <= s.cursor.idx)
    && (!s.phase.Idle? && s.cursor.idx != 0 ==>
          forall e <- s.delivered :: e.meta.actualPosition <= Max(s.log.removed, s.cursor.idx))
  }

  ghost predicate Forward(topic: string, start: int64, s: State) {
    && s.log.Filed(topic)
    && Expects(start, s)
    && (forall e <- s.delivered :: Stored(s.log, e))
    && Covered(Floor(start, s.log), Reach(start, s), s.delivered, s.notes.lost)
    && (s.notes.replays == 0 ==> Ordered(Floor(start, s.log), s.delivered) && Ahead(start, s))
    && (s.notes.replays > 0 ==> !Ordered(Floor(start, s.log), s.delivered))
  }

  lemma AppendedStored(l: Log, topic: string, batch: seq<Event>, delivered: seq<Event>)
    requires l.Filed(topic) && l.LastIndex() + |batch| <= ALL_EVENTS && forall e <- delivered :: Stored(l, e)
    ensures forall e <- delivered :: Stored(Appended(l, topic, batch), e)
  {
    AppendedFiled(l, topic, batch);
  }

  lemma MissedCovers(start: int64, l: Log, delivered: seq<Event>, lost: set<nat>)
    ensures Covered(Floor(start, l), l.LastIndex(), delivered, lost + Missed(start, l, delivered))
  {
    forall p: nat | Floor(start, l) < p <= l.LastIndex()
      ensures Got(delivered, p) || p in Missed(start, l, delivered)
    {
    }
  }

  lemma AppendForward(topic: string, start: int64, s: State, batch: seq<Event>, version: uint64)
    requires Forward(topic, start, s)
    ensures Forward(topic, start, Next(topic, start, s, Append(batch, version)))
  {
    var s' := Next(topic, start, s, Append(batch, version));
    AppendIs(topic, start, s, batch, version);
    if s' != s {
      AppendedFiled(s.log, topic, batch);
      AppendedStored(s.log, topic, batch, s.delivered);
      if batch == [] {
        EmptyAppend(topic, s.log, version);
      } else if s.phase.Idle? {
        MissedCovers(start, s'.log, s.delivered, s.notes.lost);
      }
      assert Expects(start, s') && Floor(start, s'.log) == Floor(start, s.log);
      assert Covered(Floor(start, s.log), Reach(start, s'), s.delivered, s'.notes.lost);
    }
  }

  lemma RecvForward(topic: string, start: int64, s: State)
    requires Forward(topic, start, s)
    ensures Forward(topic, start, Next(topic, start, s, Recv))
  {
  }

  /** A read that is not backward: all behind the cursor when it is in step, else nothing. */
  lemma ReadsOn(topic: string, start: int64, s: State)
    requires s.log.Filed(topic) && Expects(start, s) && s.phase.Ready? && 0 <= s.cursor.size
    ensures LogRead(s.log, s.cursor.idx, s.cursor.size) == Ok(s.log.entries[ReadFrom(s)..])
  {
    ReadForward(s.log, s.cursor.idx, s.cursor.size);
    var n := |s.log.entries|;
    var from := Min(n, Max(0, s.cursor.idx - s.log.removed));
    if OutOfStep(s) {
      assert s.log.entries[from..Min(n, from + 0)] == [] == s.log.entries[n..];
    } else {
      assert Min(n, from + s.cursor.size) == n && s.log.entries[from..n] == s.log.entries[from..];
    }
  }

  lemma DisorderStays(floor: int, delivered: seq<Event>, more: seq<Event>)
    ensures Ordered(floor, delivered + more) ==> Ordered(floor, delivered)
  {
    var all := delivered + more;
    assert forall k | 0 <= k < |delivered| :: all[k] == delivered[k] && all[k] in all;
  }

  /** Starting the stream over repeats an event, or delivers one the subscriber did not ask for. */
  lemma ReplayDisorders(topic: string, start: int64, s: State)
    requires s.log.Filed(topic) && Replaying(start, s) && forall e <- s.delivered :: Stored(s.log, e)
    ensures !Ordered(Floor(start, s.log), s.delivered + s.log.entries)
  {
    var all := s.delivered + s.log.entries;
    var k := |s.delivered|;
    assert all[k] == s.log.entries[0] && FiledAt(all[k], topic, s.log.removed + 1) && all[k] in all;
    if k > 0 {
      assert s.delivered[0] in s.delivered && all[0] == s.delivered[0];
    }
  }

  /** Any other read goes on behind what was delivered. */
  lemma ReadOnOrders(topic: string, start: int64, s: State, from: nat)
    requires Forward(topic, start, s) && s.notes.replays == 0 && s.phase.Ready? && !Replaying(start, s)
    requires from <= |s.log.entries| && (from < |s.log.entries| ==> !OutOfStep(s) && 0 < s.cursor.size)
    requires from < |s.log.entries| ==> from == Max(0, s.cursor.idx - s.log.removed)
    ensures Ordered(Floor(start, s.log), s.delivered + s.log.entries[from..])
    ensures from < |s.log.entries| ==> start <= s.log.removed + from
  {
    if from < |s.log.entries| {
      forall e <- s.delivered
        ensures e.meta.actualPosition <= s.log.removed + from
      {
      }
      InOrderMore(s.log, topic, Floor(start, s.log), s.log.removed + from, s.delivered);
    } else {
      assert s.delivered + s.log.entries[from..] == s.delivered;
    }
  }

  /** The index of the first entry a read that is not backward returns. */
  function ReadFrom(s: State): nat {
    var n := |s.log.entries|;
    if OutOfStep(s) then n else Min(n, Max(0, s.cursor.idx - s.log.removed))
  }

  lemma FetchedForward(topic: string, start: int64, s: State)
    requires s.log.Filed(topic) && Expects(start, s) && s.phase.Ready? && 0 <= s.cursor.size
    ensures Next(topic, start, s, Action.Events) == Given(start, s, s.log.entries[ReadFrom(s)..])
  {
    ReadsOn(topic, start, s);
  }

  /** The cursor after a read that is not backward. */
  lemma GivenForward(topic: string, start: int64, s: State)
    requires s.log.Filed(topic) && Expects(start, s) && s.phase.Ready? && 0 <= s.cursor.size
    ensures var s', from := Given(start, s, s.log.entries[ReadFrom(s)..]), ReadFrom(s);
            && Expects(start, s') && Reach(start, s') == (if OutOfStep(s) then 0 else s.log.LastIndex())
            && s'.cursor.idx == (if from < |s.log.entries| then s.log.removed + from else s.cursor.idx)
  {
    if !OutOfStep(s) {
      FetchedSpans(topic, s.log, s.cursor, ReadFrom(s));
    } else {
      assert s.log.entries[|s.log.entries|..] == [];
    }
  }

  lemma CoveredMore(l: Log, topic: string, floor: int, reach: int, from: nat, delivered: seq<Event>, lost: set<nat>)
    requires l.Filed(topic) && Covered(floor, reach, delivered, lost)
    requires from <= |l.entries| && l.removed + from <= Max(floor, reach)
    ensures Covered(floor, l.LastIndex(), delivered + l.entries[from..], lost)
  {
    var all := delivered + l.entries[l.removed + from - l.removed..];
    forall p: nat | floor < p <= l.LastIndex()
      ensures Got(all, p) || p in lost
    {
      GotMore(l, topic, l.removed + from, delivered, p);
    }
  }

  /** Replays are the disorder. */
  lemma ReadOrders(topic: string, start: int64, s: State)
    requires Forward(topic, start, s) && s.phase.Ready? && 0 <= s.cursor.size
    ensures var es, floor := s.log.entries[ReadFrom(s)..], Floor(start, s.log);
            Ordered(floor, s.delivered + es) <==> s.notes.replays == 0 && !Replaying(start, s)
  {
    DisorderStays(Floor(start, s.log), s.delivered, s.log.entries[ReadFrom(s)..]);
    if Replaying(start, s) {
      if !OutOfStep(s) {
        assert s.log.entries[ReadFrom(s)..] == s.log.entries;
        ReplayDisorders(topic, start, s);
      }
    } else if s.notes.replays == 0 {
      ReadOnOrders(topic, start, s, ReadFrom(s));
    }
  }

  lemma ReadStored(l: Log, topic: string, delivered: seq<Event>, from: nat)
    requires l.Filed(topic) && from <= |l.entries| && forall e <- delivered :: Stored(l, e)
    ensures forall e <- delivered + l.entries[from..] :: Stored(l, e)
  {
    forall k | from <= k < |l.entries|
      ensures Stored(l, l.entries[k])
    {
      assert FiledAt(l.entries[k], topic, l.removed + k + 1);
    }
    forall e <- delivered + l.entries[from..]
      ensures Stored(l, e)
    {
      if e !in delivered {
        var k :| from <= k < |l.entries| && l.entries[k] == e;
      }
    }
  }

  lemma EventsForward(topic: string, start: int64, s: State)
    requires Forward(topic, start, s) && s.phase.Ready? && 0 <= s.cursor.size
    ensures Forward(topic, start, Given(start, s, s.log.entries[ReadFrom(s)..]))
  {
    var from := ReadFrom(s);
    var s' := Given(start, s, s.log.entries[from..]);
    GivenForward(topic, start, s);
    ReadStored(s.log, topic, s.delivered, from);
    ReadOrders(topic, start, s);
    if !OutOfStep(s) {
      CoveredMore(s.log, topic, Floor(start, s.log), Reach(start, s), from, s.delivered, s.notes.lost);
    }
    if s'.notes.replays == 0 {
      ReadOnOrders(topic, start, s, from);
    }
  }

  /** As long as Events never reads backwards. */
  lemma {:induction false} RunForward(topic: string, start: int64, l: Log, actions: seq<Action>)
    requires l.Filed(topic) && 0 <= start <= l.LastIndex() < ALL_EVENTS
    requires !Run(topic, start, l, actions).notes.backward
    ensures Forward(topic, start, Run(topic, start, l, actions))
  {
    if actions != [] {
      var init, a := actions[..|actions| - 1], actions[|actions| - 1];
      var s := Run(topic, start, l, init);
      NotesStay(topic, start, s, a);
      RunForward(topic, start, l, init);
      match a
      case Append(batch, version) => AppendForward(topic, start, s, batch, version);
      case Recv => RecvForward(topic, start, s);
      case Events =>
        if s.phase.Ready? {
          FetchedForward(topic, start, s);
          EventsForward(topic, start, s);
        }
    }
  }

  /**
   Over every run in which Events never reads backwards, what is delivered is in order exactly when Events is
   never called with the cursor back at the start of a stream the subscriber had been given events of or had
   asked for a later part of.
   */
  lemma InOrderIff(topic: string, start: int64, l: Log, actions: seq<Action>)
    requires l.Filed(topic) && 0 <= start <= l.LastIndex() < ALL_EVENTS
    requires !Run(topic, start, l, actions).notes.backward
    ensures var s := Run(topic, start, l, actions);
            && (forall e <- s.delivered :: Stored(s.log, e))
            && (Ordered(start, s.delivered) <==> s.notes.replays == 0)
  {
    RunForward(topic, start, l, actions);
  }

  /**
   Over every such run a subscriber that waits does so at the end of the log, and then each event behind start
   was delivered or lost, or it waits out of step at the start of the stream.
   */
  lemma WaitingWhere(topic: string, start: int64, l: Log, actions: seq<Action>)
    requires l.Filed(topic) && 0 <= start <= l.LastIndex() < ALL_EVENTS
    requires var s := Run(topic, start, l, actions); !s.notes.backward && s.phase.Blocked?
    ensures var s := Run(topic, start, l, actions);
            && s.cursor.idx == (if OutOfStep(s) then 0 else s.log.LastIndex())
            && (!OutOfStep(s) ==>
                  forall p: uint64 | start < p && s.log.Holds(p) :: Got(s.delivered, p) || p in s.notes.lost)
  {
    RunForward(topic, start, l, actions);
  }

  // A Send of no events

  /** An append of no events succeeds and is sent: that puts a cursor out of step exactly when the log has events. */
  lemma EmptySend(topic: string, start: int64, s: State)
    requires s.log.Filed(topic) && Expects(start, s)
    ensures var s' := Next(topic, start, s, Append([], APPEND_ONLY));
            && s'.log == s.log && s'.delivered == s.delivered && s'.notes == s.notes
            && (OutOfStep(s') <==> s.log.LastIndex() > 0)
  {
    EmptyAppend(topic, s.log, APPEND_ONLY);
    SentTells(topic, s, []);
  }

  lemma RunMore(topic: string, start: int64, l: Log, actions: seq<Action>, a: Action) returns (s: State)
    requires l.Fits()
    ensures s == Next(topic, start, Run(topic, start, l, actions), a) == Run(topic, start, l, actions + [a])
  {
    s := Next(topic, start, Run(topic, start, l, actions), a);
    assert (actions + [a])[..|actions|] == actions;
  }

  /** The state but for what is remembered of the run. */
  predicate At(s: State, l: Log, c: Cursor, phase: Phase, delivered: seq<Event>) {
    s.log == l && s.cursor == c && s.phase == phase && s.delivered == delivered
  }

  /** On an uncut log a read in step takes what lies behind the cursor, which stays where it is. */
  lemma ReadsBehind(topic: string, s: State)
    requires s.log.Filed(topic) && s.log.removed == 0 && Expects(0, s) && s.phase.Ready? && !OutOfStep(s)
    requires 0 <= s.cursor.size
    ensures At(Next(topic, 0, s, Action.Events), s.log,
               Cursor(s.cursor.idx, s.log.LastIndex() - s.cursor.idx, s.cursor.waiting), Idle,
               s.delivered + s.log.entries[s.cursor.idx..])
  {
    FetchedForward(topic, 0, s);
    assert ReadFrom(s) == s.cursor.idx;
    FetchedIs(topic, s.log, s.cursor);
  }

  lemma FetchedIs(topic: string, l: Log, c: Cursor)
    requires l.Filed(topic) && l.removed == 0 && 0 <= c.idx <= l.LastIndex() < ALL_EVENTS
    ensures Fetched(c, l.entries[c.idx..]) == Cursor(c.idx, l.LastIndex() - c.idx, c.waiting)
  {
    FetchedSpans(topic, l, c, c.idx);
  }

  const SEND_NOTHING := Append([], APPEND_ONLY)

  const READ_ALL := [Recv, Action.Events, Recv, Action.Events]

  /** A new subscriber reads all there is and is caught up. */
  lemma ReadsAll(topic: string, l: Log)
    requires l.Filed(topic) && l.removed == 0 && 0 < l.LastIndex() < ALL_EVENTS
    ensures At(Run(topic, 0, l, READ_ALL), l, Cursor(l.LastIndex(), 0, false), Idle, l.entries)
  {
    var n := l.LastIndex();
    var s1 := RunMore(topic, 0, l, [], Recv);
    var s2 := RunMore(topic, 0, l, [Recv], Action.Events);
    assert [] + [Recv] == [Recv];
    ReadsBehind(topic, s1);
    assert At(s2, l, Cursor(0, n, false), Idle, l.entries);
    var s3 := RunMore(topic, 0, l, [Recv, Action.Events], Recv);
    assert [Recv] + [Action.Events] == [Recv, Action.Events];
    assert At(s3, l, Cursor(n, 0, false), Ready, l.entries);
    var s4 := RunMore(topic, 0, l, [Recv, Action.Events, Recv], Action.Events);
    assert [Recv, Action.Events] + [Recv] == [Recv, Action.Events, Recv];
    assert [Recv, Action.Events, Recv] + [Action.Events] == READ_ALL;
    ReadsBehind(topic, s3);
    assert l.entries + l.entries[n..] == l.entries;
  }

  /** Told of nothing when it is caught up, it reads nothing, waits, and waits at the start of the stream. */
  lemma Rewinds(topic: string, l: Log, before: seq<Action>)
    requires l.Filed(topic) && l.removed == 0 && 0 < l.LastIndex() < ALL_EVENTS
    requires At(Run(topic, 0, l, before), l, Cursor(l.LastIndex(), 0, false), Idle, l.entries)
    ensures At(Run(topic, 0, l, before + [SEND_NOTHING] + [Recv] + [Action.Events] + [Recv]),
               l, Cursor(0, 0, true), Blocked, l.entries)
  {
    var last: int := l.LastIndex();
    var s1 := RunMore(topic, 0, l, before, SEND_NOTHING);
    EmptyAppend(topic, l, APPEND_ONLY);
    SentTells(topic, Run(topic, 0, l, before), []);
    assert At(s1, l, Cursor(last, -last, false), Idle, l.entries);
    var s2 := RunMore(topic, 0, l, before + [SEND_NOTHING], Recv);
    assert At(s2, l, Cursor(0, 0, false), Ready, l.entries);
    var s3 := RunMore(topic, 0, l, before + [SEND_NOTHING] + [Recv], Action.Events);
    FetchedForward(topic, 0, s2);
    assert l.entries + l.entries[last..] == l.entries;
    var s4 := RunMore(topic, 0, l, before + [SEND_NOTHING] + [Recv] + [Action.Events], Recv);
  }

  /** The next append wakes it, and it reads the whole stream. */
  lemma StartsOver(topic: string, l: Log, before: seq<Action>, e: Event, delivered: seq<Event>)
    requires l.Filed(topic) && l.removed == 0 && l.LastIndex() + 1 < ALL_EVENTS
    requires At(Run(topic, 0, l, before), l, Cursor(0, 0, true), Blocked, delivered)
    ensures Run(topic, 0, l, before + [Append([e], APPEND_ONLY)] + [Action.Events]).delivered ==
            delivered + Appended(l, topic, [e]).entries
  {
    var l' := Appended(l, topic, [e]);
    var s1 := RunMore(topic, 0, l, before, Append([e], APPEND_ONLY));
    AppendedFiled(l, topic, [e]);
    SentTells(topic, Run(topic, 0, l, before), [e]);
    assert At(s1, l', Cursor(0, l'.LastIndex(), false), Ready, delivered);
    var s2 := RunMore(topic, 0, l, before + [Append([e], APPEND_ONLY)], Action.Events);
    ReadsBehind(topic, s1);
    assert l'.entries[0..] == l'.entries;
  }

  /** From a fresh subscription: each event of the stream is delivered, and after one Send of nothing again. */
  lemma DeliveredTwice(topic: string, l: Log, e: Event)
    requires l.Filed(topic) && l.removed == 0 && 0 < l.LastIndex() && l.LastIndex() + 1 < ALL_EVENTS
    ensures var lull := READ_ALL + [SEND_NOTHING] + [Recv] + [Action.Events] + [Recv];
            Run(topic, 0, l, lull + [Append([e], APPEND_ONLY)] + [Action.Events]).delivered ==
            l.entries + (l.entries + Entries(OwnedAll([e], topic), l.LastIndex() + 1))
  {
    ReadsAll(topic, l);
    Rewinds(topic, l, READ_ALL);
    StartsOver(topic, l, READ_ALL + [SEND_NOTHING] + [Recv] + [Action.Events] + [Recv], e, l.entries);
  }

  /** A Send of nothing before its first Recv leaves a subscriber waiting in front of a stream it was given none of. */
  lemma WaitsUnread(topic: string, l: Log)
    requires l.Filed(topic) && l.removed == 0 && 0 < l.LastIndex() < ALL_EVENTS
    ensures At(Run(topic, 0, l, [SEND_NOTHING, Recv]), l, Cursor(0, 0, true), Blocked, [])
  {
    var s1 := RunMore(topic, 0, l, [], SEND_NOTHING);
    assert [] + [SEND_NOTHING] == [SEND_NOTHING] && [SEND_NOTHING] + [Recv] == [SEND_NOTHING, Recv];
    EmptyAppend(topic, l, APPEND_ONLY);
    SentTells(topic, Initial(l, 0), []);
    var s2 := RunMore(topic, 0, l, [SEND_NOTHING], Recv);
  }

  /**
   A caught-up subscriber that hears of an append before it calls Recv twice with Events between, and then of one
   more event, is given nothing twice exactly when that first append was not empty.
   */
  lemma CaughtUpIff(topic: string, l: Log, batch: seq<Event>, e: Event)
    requires l.Filed(topic) && l.removed == 0 && 0 < l.LastIndex() && l.LastIndex() + |batch| + 1 < ALL_EVENTS
    ensures var lull := READ_ALL + [Append(batch, APPEND_ONLY)] + [Recv] + [Action.Events] + [Recv];
            Ordered(0, Run(topic, 0, l, lull + [Append([e], APPEND_ONLY)] + [Action.Events]).delivered) <==> batch != []
  {
    var lull := READ_ALL + [Append(batch, APPEND_ONLY)] + [Recv] + [Action.Events] + [Recv];
    var all := lull + [Append([e], APPEND_ONLY)] + [Action.Events];
    if batch == [] {
      DeliveredTwice(topic, l, e);
      var d := Run(topic, 0, l, all).delivered;
      assert d[0] == l.entries[0] && d[|l.entries|] == l.entries[0];
    } else {
      StaysInStep(topic, l, batch, e);
      DeliveredInOrder(topic, 0, l, all);
    }
  }

  lemma StaysInStep(topic: string, l: Log, batch: seq<Event>, e: Event)
    requires l.Filed(topic) && l.removed == 0 && 0 < l.LastIndex() && l.LastIndex() + |batch| + 1 < ALL_EVENTS
    requires batch != []
    ensures var lull := READ_ALL + [Append(batch, APPEND_ONLY)] + [Recv] + [Action.Events] + [Recv];
            !Run(topic, 0, l, lull + [Append([e], APPEND_ONLY)] + [Action.Events]).notes.strayed
  {
    var lull := READ_ALL + [Append(batch, APPEND_ONLY)] + [Recv] + [Action.Events] + [Recv];
    NeverStrays(topic, 0, l, lull + [Append([e], APPEND_ONLY)] + [Action.Events]);
  }

  /** When every append has events nothing is ever called out of step. */
  lemma {:induction false} NeverStrays(topic: string, start: int64, l: Log, actions: seq<Action>)
    requires l.Filed(topic) && 0 <= start <= l.LastIndex() < ALL_EVENTS
    requires forall a <- actions | a.Append? :: a.batch != []
    ensures var s := Run(topic, start, l, actions); !s.notes.strayed && !OutOfStep(s)
  {
    if actions != [] {
      var init, a := actions[..|actions| - 1], actions[|actions| - 1];
      var s := Run(topic, start, l, init);
      assert a in actions;
      NeverStrays(topic, start, l, init);
      RunKeeps(topic, start, l, init);
      match a
      case Append(batch, version) =>
        AppendIs(topic, start, s, batch, version);
      case Recv =>
      case Events =>
        if s.phase.Ready? {
          Fetches(topic, start, s);
          FetchesInStep(topic, start, s);
        }
    }
  }
}
