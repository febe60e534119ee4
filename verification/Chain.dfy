/** The drivers an EventStore is built of (ev.go, the middleware's Apply), outermost first over the base driver. */
module Chain {
  import opened Words

  /** A streamer by its number, a link resolver, or a projector with its projections, by their numbers. */
  datatype Driver = Streamer(id: nat) | Resolver | Projector(fns: seq<nat>)

  /** The first projector of a chain, or its length. */
  function FirstProjector(ds: seq<Driver>): (i: nat)
    ensures i <= |ds| && (i < |ds| ==> ds[i].Projector?)
    ensures forall j | 0 <= j < i :: !ds[j].Projector?
  {
    if ds == [] || ds[0].Projector? then 0 else 1 + FirstProjector(ds[1..])
  }

  /** A projector joins the one that is there already; any other option goes on top. */
  function Applied(ds: seq<Driver>, d: Driver): seq<Driver> {
    var i := FirstProjector(ds);
    if d.Projector? && i < |ds| then ds[i := Projector(ds[i].fns + d.fns)] else [d] + ds
  }

  function Built(options: seq<Driver>): seq<Driver> {
    if options == [] then [] else Applied(Built(options[..|options| - 1]), options[|options| - 1])
  }

  function FirstStreamer(ds: seq<Driver>): Option<nat> {
    if ds == [] then None else if ds[0].Streamer? then Some(ds[0].id) else FirstStreamer(ds[1..])
  }

  class EventStore {
    var drivers: seq<Driver>

    constructor (options: seq<Driver>)
      ensures drivers == Built(options)
    {
      drivers := [];
      new;
      for i := 0 to |options|
        invariant drivers == Built(options[..i])
      {
        assert options[..i + 1][..i] == options[..i];
        Apply(options[i]);
      }
      assert options[..|options|] == options;
    }

    method Apply(d: Driver)
      modifies this
      ensures drivers == Applied(old(drivers), d)
    {
      if d.Projector? {
        var up := 0;
        while up < |drivers|
          invariant up <= FirstProjector(drivers)
          invariant drivers == old(drivers)
        {
          if drivers[up].Projector? {
            assert up == FirstProjector(drivers);
            drivers := drivers[up := Projector(drivers[up].fns + d.fns)];
            return;
          }
          up := up + 1;
        }
      }
      drivers := [d] + drivers;
    }

    method EventStream() returns (s: Option<nat>)
      ensures s == FirstStreamer(drivers)
    {
      var d := drivers;
      while d != []
        invariant FirstStreamer(d) == FirstStreamer(drivers)
        decreases |d|
      {
        if d[0].Streamer? {
          return Some(d[0].id);
        }
        d := d[1..];
      }
      return None;
    }
  }

  // What a store built from any options is like

  function Projections(ds: seq<Driver>): seq<nat> {
    if ds == [] then []
    else Projections(ds[..|ds| - 1]) + (if ds[|ds| - 1].Projector? then ds[|ds| - 1].fns else [])
  }

  function LastStreamer(options: seq<Driver>): Option<nat> {
    if options == [] then None
    else
      var d := options[|options| - 1];
      if d.Streamer? then Some(d.id) else LastStreamer(options[..|options| - 1])
  }

  /** The chain has one projector with these projections, or, when there is none to be, none. */
  predicate Projects(ds: seq<Driver>, present: bool, fns: seq<nat>) {
    var i := FirstProjector(ds);
    && (i < |ds| <==> present)
    && (forall j | 0 <= j < |ds| && ds[j].Projector? :: j == i)
    && fns == if i < |ds| then ds[i].fns else []
  }

  lemma FirstIs(ds: seq<Driver>, i: nat)
    requires i <= |ds| && (i < |ds| ==> ds[i].Projector?) && forall j | 0 <= j < i :: !ds[j].Projector?
    ensures FirstProjector(ds) == i
  {
  }

  lemma AppliedProjects(ds: seq<Driver>, present: bool, fns: seq<nat>, d: Driver)
    requires Projects(ds, present, fns)
    ensures Projects(Applied(ds, d), present || d.Projector?, fns + if d.Projector? then d.fns else [])
  {
    var i, ds' := FirstProjector(ds), Applied(ds, d);
    if !d.Projector? {
      FirstIs(ds', i + 1);
      assert fns + [] == fns;
    } else if i < |ds| {
      FirstIs(ds', i);
    } else {
      FirstIs(ds', 0);
      assert fns + d.fns == d.fns;
    }
  }

  /** There is a projector when an option was one, the only one, with all the projections in the order given. */
  lemma {:induction false} OneProjector(options: seq<Driver>)
    ensures Projects(Built(options), exists d <- options :: d.Projector?, Projections(options))
  {
    if options != [] {
      var init, d := options[..|options| - 1], options[|options| - 1];
      OneProjector(init);
      AppliedProjects(Built(init), exists x <- init :: x.Projector?, Projections(init), d);
      assert options == init + [d];
      assert (exists x <- options :: x.Projector?) == ((exists x <- init :: x.Projector?) || d.Projector?);
    }
  }

  lemma {:induction false} SameStreamer(a: seq<Driver>, b: seq<Driver>)
    requires |a| == |b| && forall i | 0 <= i < |a| :: a[i] == b[i] || (a[i].Projector? && b[i].Projector?)
    ensures FirstStreamer(a) == FirstStreamer(b)
  {
    if a != [] {
      SameStreamer(a[1..], b[1..]);
    }
  }

  /** Subscribers go to the streamer that was given last, whatever was put on top of it. */
  lemma {:induction false} StreamsFromTheLast(options: seq<Driver>)
    ensures FirstStreamer(Built(options)) == LastStreamer(options)
  {
    if options != [] {
      var init, d := options[..|options| - 1], options[|options| - 1];
      StreamsFromTheLast(init);
      if d.Projector? && FirstProjector(Built(init)) < |Built(init)| {
        SameStreamer(Built(options), Built(init));
      } else {
        assert Built(options)[1..] == Built(init);
      }
    }
  }

  // The chain in full

  /** All but the projectors, in their order. */
  function Others(ds: seq<Driver>): (r: seq<Driver>)
    ensures forall d <- r :: !d.Projector?
  {
    if ds == [] then []
    else Others(ds[..|ds| - 1]) + (if ds[|ds| - 1].Projector? then [] else [ds[|ds| - 1]])
  }

  function Backward(ds: seq<Driver>): (r: seq<Driver>)
    ensures |r| == |ds| && forall d <- r :: d in ds
  {
    if ds == [] then [] else [ds[|ds| - 1]] + Backward(ds[..|ds| - 1])
  }

  lemma {:induction false} BackwardMore(ds: seq<Driver>, d: Driver)
    ensures Backward(ds + [d]) == [d] + Backward(ds)
  {
    assert (ds + [d])[..|ds|] == ds;
  }

  lemma {:induction false} BackwardAt(ds: seq<Driver>, i: nat)
    requires i < |ds|
    ensures |Backward(ds)| == |ds| && Backward(ds)[i] == ds[|ds| - 1 - i]
  {
    if i > 0 {
      BackwardAt(ds[..|ds| - 1], i - 1);
    } else if |ds| > 1 {
      BackwardAt(ds[..|ds| - 1], 0);
    }
  }

  lemma {:induction false} OthersMore(ds: seq<Driver>, d: Driver)
    ensures Others(ds + [d]) == if d.Projector? then Others(ds) else Others(ds) + [d]
  {
    assert (ds + [d])[..|ds|] == ds;
  }

  lemma {:induction false} ProjectionsMore(ds: seq<Driver>, d: Driver)
    ensures Projections(ds + [d]) == if d.Projector? then Projections(ds) + d.fns else Projections(ds)
  {
    assert (ds + [d])[..|ds|] == ds;
    assert Projections(ds) + [] == Projections(ds);
  }

  lemma {:induction false} NoProjections(ds: seq<Driver>)
    requires forall d <- ds :: !d.Projector?
    ensures Projections(ds) == []
  {
    if ds != [] {
      NoProjections(ds[..|ds| - 1]);
    }
  }

  /** Drivers on top of the projector and below it. */
  function Stack(top: seq<Driver>, fns: seq<nat>, base: seq<Driver>): seq<Driver> {
    top + [Projector(fns)] + base
  }

  lemma {:induction false} AppliedOn(top: seq<Driver>, fns: seq<nat>, base: seq<Driver>, d: Driver)
    requires forall x <- top :: !x.Projector?
    ensures Applied(Stack(top, fns, base), d) ==
            if d.Projector? then Stack(top, fns + d.fns, base) else Stack([d] + top, fns, base)
  {
    var ds := Stack(top, fns, base);
    FirstIs(ds, |top|);
    if d.Projector? {
      assert ds[|top| := Projector(fns + d.fns)] == Stack(top, fns + d.fns, base);
    } else {
      assert [d] + ds == Stack([d] + top, fns, base);
    }
  }

  /** The chain that options given in this order make, with the first projector at p. */
  function Expected(options: seq<Driver>, p: nat): seq<Driver>
    requires p <= |options|
  {
    if p == |options| then Backward(options)
    else Stack(Backward(Others(options[p + 1..])), Projections(options), Backward(options[..p]))
  }

  lemma {:induction false} FirstOfAll(options: seq<Driver>, d: Driver)
    requires d.Projector? && forall x <- options :: !x.Projector?
    ensures Expected(options + [d], |options|) == [d] + Backward(options)
  {
    var all, n := options + [d], |options|;
    NoProjections(options);
    ProjectionsMore(options, d);
    calc {
      Expected(all, n);
      { assert all[n + 1..] == [] && all[..n] == options; }
      Stack(Backward(Others([])), [] + d.fns, Backward(options));
      { assert Projector([] + d.fns) == d && [] + [d] == [d]; }
      [d] + Backward(options);
    }
  }

  lemma {:induction false} BeforeProjector(options: seq<Driver>, d: Driver)
    requires forall x <- options :: !x.Projector?
    ensures Expected(options + [d], if d.Projector? then |options| else |options| + 1) == Applied(Backward(options), d)
  {
    FirstIs(Backward(options), |options|);
    if d.Projector? {
      FirstOfAll(options, d);
    } else {
      BackwardMore(options, d);
    }
  }

  lemma {:induction false} SlicesMore(options: seq<Driver>, d: Driver, p: nat)
    requires p < |options|
    ensures (options + [d])[..p] == options[..p]
    ensures (options + [d])[p + 1..] == options[p + 1..] + [d]
  {
  }

  lemma {:induction false} TopMore(rest: seq<Driver>, d: Driver)
    ensures Backward(Others(rest + [d])) ==
            if d.Projector? then Backward(Others(rest)) else [d] + Backward(Others(rest))
  {
    OthersMore(rest, d);
    if !d.Projector? {
      BackwardMore(Others(rest), d);
    }
  }

  lemma {:induction false} BehindProjector(options: seq<Driver>, d: Driver, p: nat)
    requires p < |options|
    ensures Expected(options + [d], p) == Applied(Expected(options, p), d)
  {
    SlicesMore(options, d, p);
    TopMore(options[p + 1..], d);
    ProjectionsMore(options, d);
    AppliedOn(Backward(Others(options[p + 1..])), Projections(options), Backward(options[..p]), d);
  }

  /**
   What any options make. Whatever is not a projector is in the chain once, the last one given outermost; the one
   projector, with all projections in the order given, sits on top of what was given in front of the first projector.
   */
  lemma {:induction false} ChainIs(options: seq<Driver>, p: nat)
    requires p <= |options| && (p < |options| ==> options[p].Projector?)
    requires forall j | 0 <= j < p :: !options[j].Projector?
    ensures Built(options) ==
            if p == |options| then Backward(options)
            else Backward(Others(options[p + 1..])) + [Projector(Projections(options))] + Backward(options[..p])
  {
    if options != [] {
      var init, d := options[..|options| - 1], options[|options| - 1];
      assert init + [d] == options;
      if p < |init| {
        ChainIs(init, p);
        BehindProjector(init, d, p);
      } else {
        ChainIs(init, |init|);
        BeforeProjector(init, d);
      }
    }
  }

  lemma {:induction false} UpdateHolds(ds: seq<Driver>, i: nat, p: Driver, x: Driver)
    requires i < |ds| && ds[i] != x && p != x
    ensures multiset(ds[i := p])[x] == multiset(ds)[x]
  {
    assert ds[i] in ds;
  }

  lemma {:induction false} AppliedHolds(ds: seq<Driver>, d: Driver, x: Driver)
    requires !x.Projector?
    ensures multiset(Applied(ds, d))[x] == multiset(ds)[x] + if d == x then 1 else 0
  {
    var i := FirstProjector(ds);
    if d.Projector? && i < |ds| {
      UpdateHolds(ds, i, Projector(ds[i].fns + d.fns), x);
    }
  }

  lemma {:induction false} CountLast(ds: seq<Driver>, x: Driver)
    requires ds != []
    ensures multiset(ds)[x] == multiset(ds[..|ds| - 1])[x] + if ds[|ds| - 1] == x then 1 else 0
  {
    assert ds == ds[..|ds| - 1] + [ds[|ds| - 1]];
  }

  /** A streamer or a resolver is in the chain as often as it was given. */
  lemma {:induction false} HoldsEach(options: seq<Driver>, x: Driver)
    requires !x.Projector?
    ensures multiset(Built(options))[x] == multiset(options)[x]
  {
    if options != [] {
      var init, d := options[..|options| - 1], options[|options| - 1];
      HoldsEach(init, x);
      AppliedHolds(Built(init), d, x);
      CountLast(options, x);
    }
  }
}
