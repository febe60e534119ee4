/** Which subscriptions are told of a Send, over any sequence of Subscribe, Close and Send (driver/streamer). */
module Registry {
  import opened Words
  import opened Streamer

  /** A subscription by its number: `told` counts the updates of its cursor, `once` says that Close was called. */
  datatype Sub = Sub(topic: string, cursor: Cursor, told: nat, once: bool)

  datatype State = State(lists: map<string, seq<nat>>, subs: seq<Sub>) {
    function Of(topic: string): seq<nat> {
      if topic in lists then lists[topic] else []
    }
  }

  datatype Action =
    | Subscribe(topic: string, start: int64)
    | Close(id: nat, live: bool)
    | Send(topic: string, last: uint64)

  /** The loop of Send: every number in the list has its cursor updated, as often as it is there. */
  function Tell(list: seq<nat>, subs: seq<Sub>, last: uint64): (r: seq<Sub>)
    ensures |r| == |subs|
  {
    if list == [] then subs
    else
      var told, id := Tell(list[..|list| - 1], subs, last), list[|list| - 1];
      if id < |told|
      then told[id := told[id].(cursor := Sent(told[id].cursor, last), told := told[id].told + 1)]
      else told
  }

  function Next(s: State, a: Action): State {
    match a
    case Subscribe(topic, start) =>
      State(s.lists[topic := s.Of(topic) + [|s.subs|]], s.subs + [Sub(topic, Started(start), 0, false)])
    case Close(id, live) =>
      if id >= |s.subs| || s.subs[id].once then s
      else
        var topic := s.subs[id].topic;
        State(if live && id in s.Of(topic) then s.lists[topic := Removed(s.Of(topic), id)] else s.lists,
              s.subs[id := s.subs[id].(once := true)])
    case Send(topic, last) => s.(subs := Tell(s.Of(topic), s.subs, last))
  }

  function Run(actions: seq<Action>): State {
    if actions == [] then State(map[], []) else Next(Run(actions[..|actions| - 1]), actions[|actions| - 1])
  }

  /** How the first Close of a subscription was called, if there was one: with a live context or a dead one. */
  function FirstClose(actions: seq<Action>, id: nat): Option<bool> {
    if actions == [] then None
    else
      var init, a := actions[..|actions| - 1], actions[|actions| - 1];
      if FirstClose(init, id).None? && a.Close? && a.id == id && id < |Run(init).subs| then Some(a.live)
      else FirstClose(init, id)
  }

  /** Subscribed to the topic, and not yet closed by a Close that came first and had a live context. */
  predicate Live(actions: seq<Action>, topic: string, id: nat) {
    id < |Run(actions).subs| && Run(actions).subs[id].topic == topic && FirstClose(actions, id) != Some(true)
  }

  lemma {:induction false} TellEach(list: seq<nat>, subs: seq<Sub>, last: uint64, id: nat)
    requires id < |subs|
    ensures var sub := Tell(list, subs, last)[id];
            && sub.topic == subs[id].topic && sub.once == subs[id].once
            && sub.told == subs[id].told + multiset(list)[id]
            && sub.cursor == if id in list then Sent(subs[id].cursor, last) else subs[id].cursor
  {
    if list != [] {
      var n := |list| - 1;
      TellEach(list[..n], subs, last, id);
      assert list == list[..n] + [list[n]];
    }
  }

  lemma {:induction false} OnceIsClosed(actions: seq<Action>, id: nat)
    ensures id < |Run(actions).subs| ==> (Run(actions).subs[id].once <==> FirstClose(actions, id).Some?)
    ensures id >= |Run(actions).subs| ==> FirstClose(actions, id).None?
  {
    if actions != [] {
      var init, a := actions[..|actions| - 1], actions[|actions| - 1];
      OnceIsClosed(init, id);
      if a.Send? && id < |Run(init).subs| {
        TellEach(Run(init).Of(a.topic), Run(init).subs, a.last, id);
      }
    }
  }

  /** What one step does to the number of times a topic lists a subscription. */
  lemma SubscribeStep(s: State, topic: string, start: int64, t: string, id: nat)
    ensures multiset(Next(s, Subscribe(topic, start)).Of(t))[id] ==
            multiset(s.Of(t))[id] + if topic == t && id == |s.subs| then 1 else 0
  {
    var n := |s.subs|;
    assert multiset(s.Of(topic) + [n]) == multiset(s.Of(topic)) + multiset{n};
    assert Next(s, Subscribe(topic, start)).Of(t) == if topic == t then s.Of(topic) + [n] else s.Of(t);
  }

  /** A Close that removes. */
  predicate Leaves(s: State, i: nat, live: bool) {
    live && i < |s.subs| && !s.subs[i].once
  }

  lemma CloseStep(s: State, i: nat, live: bool, t: string, id: nat)
    ensures var was := multiset(s.Of(t))[id];
            multiset(Next(s, Close(i, live)).Of(t))[id] ==
            if Leaves(s, i, live) && i == id && s.subs[i].topic == t && was > 0 then was - 1 else was
  {
    if Leaves(s, i, live) {
      var topic := s.subs[i].topic;
      assert Next(s, Close(i, live)).Of(t) == if topic == t then Removed(s.Of(t), i) else s.Of(t);
      RemovedCounts(s.Of(t), i);
    }
  }

  lemma TopicStays(s: State, a: Action, id: nat)
    requires id < |s.subs|
    ensures id < |Next(s, a).subs| && Next(s, a).subs[id].topic == s.subs[id].topic
  {
    if a.Send? {
      TellEach(s.Of(a.topic), s.subs, a.last, id);
    }
  }

  /** Each topic lists its live subscriptions once, and no other: neither a stranger nor one that is closed. */
  lemma {:induction false} ListsAreLive(actions: seq<Action>, topic: string, id: nat)
    ensures multiset(Run(actions).Of(topic))[id] == if Live(actions, topic, id) then 1 else 0
  {
    if actions != [] {
      var init, a := actions[..|actions| - 1], actions[|actions| - 1];
      ListsAreLive(init, topic, id);
      OnceIsClosed(init, id);
      match a {
        case Subscribe(t, start) => SubscribeStep(Run(init), t, start, topic, id);
        case Close(i, live) => CloseStep(Run(init), i, live, topic, id);
        case Send(_, _) =>
      }
      if id < |Run(init).subs| {
        TopicStays(Run(init), a, id);
      }
    }
  }

  /** A Send updates the cursor of every live subscription to its topic once, and no other cursor. */
  lemma LiveAreTold(actions: seq<Action>, topic: string, last: uint64, id: nat)
    requires id < |Run(actions).subs|
    ensures var was, now := Run(actions).subs[id], Next(Run(actions), Send(topic, last)).subs[id];
            && now.told == was.told + (if Live(actions, topic, id) then 1 else 0)
            && now.cursor == (if Live(actions, topic, id) then Sent(was.cursor, last) else was.cursor)
  {
    ListsAreLive(actions, topic, id);
    TellEach(Run(actions).Of(topic), Run(actions).subs, last, id);
  }

  /** A new subscription starts where it was asked to, and the next Send to its topic is the first it is told of. */
  lemma JoinedIsTold(actions: seq<Action>, topic: string, start: int64, last: uint64)
    ensures var id, joined := |Run(actions).subs|, Run(actions + [Subscribe(topic, start)]);
            var told := Run(actions + [Subscribe(topic, start)] + [Send(topic, last)]);
            && |joined.subs| == id + 1 && joined.subs[..id] == Run(actions).subs
            && joined.subs[id] == Sub(topic, Cursor(start, 0x7FFF_FFFF_FFFF_FFFF, false), 0, false)
            && |told.subs| == id + 1 && told.subs[id].told == 1
            && told.subs[id].cursor == Sent(Cursor(start, 0x7FFF_FFFF_FFFF_FFFF, false), last)
  {
    var id, more := |Run(actions).subs|, actions + [Subscribe(topic, start)];
    assert more[..|actions|] == actions && (more + [Send(topic, last)])[..|more|] == more;
    OnceIsClosed(more, id);
    LiveAreTold(more, topic, last, id);
  }

  /** A subscription whose first Close came with a dead context can never leave. */
  lemma {:induction false} DeadCloseStays(actions: seq<Action>, more: seq<Action>, id: nat)
    requires FirstClose(actions, id) == Some(false)
    ensures FirstClose(actions + more, id) == Some(false)
    ensures id < |Run(actions + more).subs| && id in Run(actions + more).Of(Run(actions + more).subs[id].topic)
  {
    StaysClosed(actions, more, id);
    OnceIsClosed(actions + more, id);
    ListsAreLive(actions + more, Run(actions + more).subs[id].topic, id);
  }

  lemma {:induction false} StaysClosed(actions: seq<Action>, more: seq<Action>, id: nat)
    requires FirstClose(actions, id).Some?
    ensures FirstClose(actions + more, id) == FirstClose(actions, id)
  {
    if more == [] {
      assert actions + more == actions;
    } else {
      StaysClosed(actions, more[..|more| - 1], id);
      assert (actions + more)[..|actions + more| - 1] == actions + more[..|more| - 1];
    }
  }

  // The objects and their numbers

  /** Two lists have the same shape: they repeat elements at the same places. */
  ghost predicate Alike<T, U>(a: seq<T>, b: seq<U>) {
    |a| == |b| && forall i, j | 0 <= i < |a| && 0 <= j < |a| :: a[i] == a[j] <==> b[i] == b[j]
  }

  lemma FirstIs<T>(s: seq<T>, x: T, i: nat)
    requires i < |s| && s[i] == x && forall j | 0 <= j < i :: s[j] != x
    ensures x in s && First(s, x) == i
  {
  }

  /**
   Removal does to a list of subscriptions what it does to the list of their numbers, so the lists of
   `Subscribers` and those of a run stay alike.
   */
  lemma RemovedAlike<T, U>(a: seq<T>, b: seq<U>, k: nat)
    requires Alike(a, b) && k < |a|
    ensures Alike(Removed(a, a[k]), Removed(b, b[k]))
  {
    assert a[k] in a && b[k] in b;
    var i := First(a, a[k]);
    assert a[i] == a[k];
    FirstIs(b, b[k], i);
    var a', b' := Removed(a, a[k]), Removed(b, b[k]);
    forall j | 0 <= j < |a'|
      ensures a'[j] == a[if j == i then |a| - 1 else j] && b'[j] == b[if j == i then |a| - 1 else j]
    {
    }
  }

  /** So does adding one that is new to both. */
  lemma AddedAlike<T, U>(a: seq<T>, b: seq<U>, x: T, y: U)
    requires Alike(a, b) && x !in a && y !in b
    ensures Alike(a + [x], b + [y])
  {
    assert forall i | 0 <= i < |a| :: a[i] in a && b[i] in b;
  }
}
