/** Reading the `$` streams through resolve-links: what the projecter stored, followed to the events it stands for. */
module Following {
  import opened Words
  import opened Events
  import opened Logs
  import opened Links
  import P = Projection

  function Stored(h: seq<P.Record>): (es: seq<Event>)
    ensures |es| == |h| && forall i | 0 <= i < |h| :: es[i] == h[i].entry
  {
    seq(|h|, i requires 0 <= i < |h| => h[i].entry)
  }

  /** Clients append no pointers of their own. */
  predicate OwnEvents(actions: seq<P.Action>) {
    forall a <- actions | a.ClientAppend? :: forall e <- a.batch :: !IsLink(e)
  }

  lemma {:induction false} ClientsAppendNoLinks(actions: seq<P.Action>)
    requires OwnEvents(actions)
    ensures forall r <- P.Run(P.DEFAULT, actions).history | r.author.Client? :: !IsLink(r.entry)
  {
    if actions != [] {
      var init, a := actions[..|actions| - 1], actions[|actions| - 1];
      ClientsAppendNoLinks(init);
      assert a in actions;
      assert a.ClientAppend? ==> forall i | 0 <= i < |a.batch| :: a.batch[i] in a.batch;
    }
  }

  /** No entry stored before record n is at its place. */
  lemma OwnPlace(h: seq<P.Record>, n: nat)
    requires P.Sited(h) && n < |h|
    ensures Find(Stored(h[..n]), h[n].entry.meta.streamID, h[n].entry.meta.position).None?
  {
    var found := Find(Stored(h[..n]), h[n].entry.meta.streamID, h[n].entry.meta.position);
    assert P.SitedAt(h, n);
    if found.Some? {
      assert P.SitedAt(h, found.value);
      P.SitesDiffer(h, found.value, n);
      assert false;
    }
  }

  /** Find looks an entry up by its place, and places are never shared. */
  lemma FindOwn(h: seq<P.Record>, i: nat, n: nat)
    requires P.Sited(h) && i < n <= |h|
    ensures Find(Stored(h[..n]), h[i].stream, h[i].entry.meta.position) == Some(i)
  {
    var es := Stored(h[..n]);
    assert P.SitedAt(h, i);
    assert At(es[i], h[i].stream, h[i].entry.meta.position);
    var j := Find(es, h[i].stream, h[i].entry.meta.position).value;
    assert P.SitedAt(h, j);
    if i < j {
      P.SitesDiffer(h, i, j);
    } else if j < i {
      P.SitesDiffer(h, j, i);
    }
  }

  /** What the projecter's runs leave: clients' own events, and pointers back to them. */
  ghost predicate Projected(h: seq<P.Record>) {
    && P.Sited(h)
    && (forall j | 0 <= j < |h| :: h[j].author.Client? ==> !IsLink(h[j].entry))
    && (forall j | 0 <= j < |h| && h[j].author.Task? :: exists i | 0 <= i < j :: P.Leads(h, h[j], i))
  }

  lemma RunProjected(actions: seq<P.Action>)
    requires OwnEvents(actions)
    ensures Projected(P.Run(P.DEFAULT, actions).history)
  {
    var h := P.Run(P.DEFAULT, actions).history;
    P.RunSited(P.DEFAULT, actions);
    ClientsAppendNoLinks(actions);
    forall j | 0 <= j < |h| && h[j].author.Task?
      ensures exists i | 0 <= i < j :: P.Leads(h, h[j], i)
    {
      P.PointersLead(actions, j);
    }
  }

  lemma LinkFinds(h: seq<P.Record>, j: nat, n: nat) returns (i: nat)
    requires Projected(h) && j <= n <= |h| && j < |h| && h[j].author.Task?
    ensures i < j && P.Leads(h, h[j], i)
    ensures Find(Stored(h[..n]), h[j].entry.body.target, h[j].entry.body.pos) == Some(i)
  {
    i :| 0 <= i < j && P.Leads(h, h[j], i);
    FindOwn(h, i, n);
  }

  lemma OwnMeta(h: seq<P.Record>, n: nat)
    requires P.Sited(h) && n < |h|
    ensures FiledAt(h[n].entry, h[n].stream, h[n].entry.meta.position)
  {
    assert P.SitedAt(h, n);
  }

  lemma StoredMore(h: seq<P.Record>, n: nat)
    requires n < |h|
    ensures Stored(h[..n + 1]) == Stored(h[..n]) + [h[n].entry]
  {
  }

  /** What record n adds to the store. */
  lemma NextEntry(h: seq<P.Record>, n: nat) returns (e: Event)
    requires Projected(h) && n < |h|
    ensures e == h[n].entry
    ensures Find(Stored(h[..n]), e.meta.streamID, e.meta.position).None?
    ensures e.meta.actualStreamID == e.meta.streamID && e.meta.actualPosition == e.meta.position
    ensures IsLink(e) ==> Find(Stored(h[..n]), e.body.target, e.body.pos).Some?
  {
    e := h[n].entry;
    OwnPlace(h, n);
    OwnMeta(h, n);
    if h[n].author.Task? {
      var i := LinkFinds(h, n, n);
    }
  }

  lemma {:induction false} ClosedUpTo(h: seq<P.Record>, n: nat)
    requires Projected(h) && n <= |h|
    ensures Closed(Stored(h[..n]))
  {
    if n > 0 {
      ClosedUpTo(h, n - 1);
      var e := NextEntry(h, n - 1);
      StoredMore(h, n - 1);
      Grows(Stored(h[..n - 1]), e);
    }
  }

  /** In every reachable state of the projecter every link leads back to an event, so following it ends. */
  lemma ReachableClosed(actions: seq<P.Action>)
    requires OwnEvents(actions)
    ensures Closed(Stored(P.Run(P.DEFAULT, actions).history))
  {
    var h := P.Run(P.DEFAULT, actions).history;
    RunProjected(actions);
    ClosedUpTo(h, |h|);
    assert h[..|h|] == h;
  }

  /** Record j is a pointer, and record i is the client's event it resolves to. */
  ghost predicate ResolvesTo(h: seq<P.Record>, j: nat, i: nat)
    requires j < |h| && Grounded(Stored(h))
  {
    && i < j && h[i].author.Client? && !IsLink(h[i].entry)
    && h[j].entry.body == Ptr(h[i].stream, h[i].entry.meta.position)
    && Target(Stored(h), j) == Some(i)
    && Stands(h, j, i, Resolved(Stored(h), j))
  }

  /** The event e is the client's event of record i, seen at the place of record j. */
  predicate Stands(h: seq<P.Record>, j: nat, i: nat, e: Event)
    requires i < |h| && j < |h|
  {
    && e.body == h[i].entry.body && e.meta.eventID == h[i].entry.meta.eventID
    && e.meta.streamID == h[i].stream && e.meta.position == h[i].entry.meta.position
    && e.meta.actualStreamID == h[j].stream && e.meta.actualPosition == h[j].entry.meta.position
  }

  /** Every pointer resolves to a client's event, under the place the pointer has. */
  lemma PointerResolves(h: seq<P.Record>, j: nat) returns (i: nat)
    requires Projected(h) && j < |h| && h[j].author.Task?
    ensures Closed(Stored(h)) && ResolvesTo(h, j, i)
  {
    ClosedUpTo(h, |h|);
    assert h[..|h|] == h;
    i := LinkFinds(h, j, |h|);
    OneStep(Stored(h), j, i);
    ResolvedFields(Stored(h), j);
    assert P.SitedAt(h, i) && P.SitedAt(h, j);
  }

  /** In the `$` streams there are only pointers. */
  lemma SystemRecord(actions: seq<P.Action>, j: nat)
    requires P.OwnStreams(actions)
    requires var h := P.Run(P.DEFAULT, actions).history; j < |h| && P.System(h[j].stream)
    ensures P.Run(P.DEFAULT, actions).history[j].author.Task?
  {
    P.ClientsOwn(actions);
    assert P.Run(P.DEFAULT, actions).history[j] in P.Run(P.DEFAULT, actions).history;
  }

  /** All pointers of a page are to events of one stream. */
  predicate OneStream(es: seq<Event>, rs: seq<nat>)
    requires Within(es, rs, |es|)
  {
    forall m | 0 <= m < |rs| :: IsLink(es[rs[m]]) && IsLink(es[rs[0]]) && es[rs[m]].body.target == es[rs[0]].body.target
  }

  lemma PointersResolve(h: seq<P.Record>, rs: seq<nat>, es: seq<Event>)
    requires Projected(h) && forall m | 0 <= m < |rs| :: rs[m] < |h| && h[rs[m]].author.Task?
    requires Grounded(Stored(h)) && Settled(Stored(h), rs, |h|, es)
    ensures (forall m | 0 <= m < |es| :: !IsLink(es[m])) <==> OneStream(Stored(h), rs)
    ensures OneStream(Stored(h), rs) ==> forall m | 0 <= m < |rs| :: es[m] == Resolved(Stored(h), rs[m])
  {
    var s := Stored(h);
    AnswerTells(s, rs, |h|, es);
    forall m | 0 <= m < |rs|
      ensures IsLink(s[rs[m]]) && Target(s, rs[m]).Some? && !IsLink(s[Target(s, rs[m]).value])
    {
      var i := PointerResolves(h, rs[m]);
    }
    if rs != [] {
      OneLevel(s, rs, |h|);
    } else {
      NoneOrderly(s, |h|);
    }
  }

  /**
   A page of a `$` stream comes back resolved exactly when its pointers all lead into one stream: each
   slot then holds the client's event. Of a page that mixes streams some slot is still a pointer.
   */
  lemma PagesResolve(actions: seq<P.Action>, d: string, rs: seq<nat>, es: seq<Event>)
    requires OwnEvents(actions) && P.OwnStreams(actions) && P.System(d)
    requires var h := P.Run(P.DEFAULT, actions).history;
             && (forall m | 0 <= m < |rs| :: rs[m] < |h| && h[rs[m]].stream == d)
             && Grounded(Stored(h)) && Answer(Stored(h), rs, |h|, es)
    ensures var s := Stored(P.Run(P.DEFAULT, actions).history);
            && ((forall m | 0 <= m < |es| :: !IsLink(es[m])) <==> OneStream(s, rs))
            && (OneStream(s, rs) ==>
                  forall m | 0 <= m < |rs| ::
                    es[m].meta.actualStreamID == d && StandsForOne(P.Run(P.DEFAULT, actions).history, rs[m], es[m]))
  {
    var h := P.Run(P.DEFAULT, actions).history;
    RunProjected(actions);
    forall m | 0 <= m < |rs|
      ensures h[rs[m]].author.Task?
    {
      SystemRecord(actions, rs[m]);
    }
    PointersResolve(h, rs, es);
    if OneStream(Stored(h), rs) {
      forall m | 0 <= m < |rs|
        ensures es[m].meta.actualStreamID == d && StandsForOne(h, rs[m], es[m])
      {
        var i := PointerResolves(h, rs[m]);
        assert Stands(h, rs[m], i, es[m]);
      }
    }
  }

  /** The event is a client's, committed before the pointer at record j that points to it. */
  ghost predicate StandsForOne(h: seq<P.Record>, j: nat, e: Event)
    requires j < |h|
  {
    exists i | 0 <= i < j ::
      && h[i].author.Client? && h[j].entry.body == Ptr(h[i].stream, h[i].entry.meta.position)
      && Stands(h, j, i, e)
  }

  lemma OneLevel(s: seq<Event>, rs: seq<nat>, bound: nat)
    requires Grounded(s) && Within(s, rs, bound) && rs != []
    requires forall m | 0 <= m < |rs| ::
               IsLink(s[rs[m]]) && Target(s, rs[m]).Some? && !IsLink(s[Target(s, rs[m]).value])
    ensures Orderly(s, rs, bound) <==> OneStream(s, rs)
  {
    LeadIs(s, rs, |rs|);
    var ts := Targets(s, rs, |rs|);
    assert rs[0] < bound;
    TargetsBelow(s, rs, |rs|, bound);
    forall m | 0 <= m < |rs|
      ensures !IsLink(s[ts[m]])
    {
      assert Some(ts[m]) == Target(s, rs[m]);
    }
    LeadIs(s, ts, 0);
    if bound > 1 {
      assert Targets(s, ts, 0) == [];
      NoneOrderly(s, bound - 2);
    }
  }
}
