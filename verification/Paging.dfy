/** Pages of a stream (gql/graph.go), and a client that walks it by asking for the page after the last one. */
module Paging {
  import opened Words
  import opened Events
  import opened Logs

  datatype PageInfo = PageInfo(next: bool, prev: bool, begin: uint64, end: uint64)

  datatype Connection = Connection(paging: PageInfo, edges: seq<Event>)

  /** The log as each of the three calls of a request finds it: clients may append between them. */
  datatype Request = Request(read: Log, first: Log, last: Log, count: int64)

  predicate Extends(l: Log, l': Log) {
    l'.removed == l.removed && l.entries <= l'.entries
  }

  predicate Served(topic: string, l: Log, r: Request) {
    && r.read.Filed(topic) && r.first.Filed(topic) && r.last.Filed(topic)
    && Extends(l, r.read) && Extends(r.read, r.first) && Extends(r.first, r.last)
  }

  /** What a request answers with the page it read. */
  function ConnectionOf(r: Request, lis: seq<Event>): Connection {
    Connection(
      PageInfo(LastActual(lis) < r.last.LastIndex(), FirstActual(lis) > r.first.FirstIndex(),
               FirstActual(lis), LastActual(lis)),
      lis)
  }

  function Connected(r: Request, after: int64): Connection
    requires r.read.Fits()
  {
    ConnectionOf(r, LogRead(r.read, after, r.count).value)
  }

  /** EventStore.Events: the flags compare the ends of the page with what the log holds when it is asked for them. */
  method EventsPage(r: Request, after: int64) returns (c: Connection)
    requires r.read.Fits()
    ensures c == Connected(r, after)
    ensures LogRead(r.read, after, r.count) == Ok(c.edges)
    ensures c.paging.next <==> c.paging.end < r.last.LastIndex()
    ensures c.paging.prev <==> r.first.FirstIndex() < c.paging.begin
    ensures c.edges == [] ==> c.paging.begin == c.paging.end == 0
    ensures c.edges != [] ==>
              && c.paging.begin == c.edges[0].meta.actualPosition
              && c.paging.end == c.edges[|c.edges| - 1].meta.actualPosition
  {
    var lis := LogRead(r.read, after, r.count).value;
    var edges: seq<Event> := [];
    for i := 0 to |lis|
      invariant edges == lis[..i]
    {
      edges := edges + [lis[i]];
    }
    var first := r.first.FirstIndex();
    var last := r.last.LastIndex();
    return Connection(
      PageInfo(LastActual(lis) < last, FirstActual(lis) > first, FirstActual(lis), LastActual(lis)), edges);
  }

  // One page

  /** The entries of the page, by their indices in the log. */
  function From(l: Log, after: int64): nat {
    Min(|l.entries|, Max(0, after - l.removed))
  }

  function To(l: Log, after: int64, count: int64): nat
    requires 0 <= count
  {
    Min(|l.entries|, From(l, after) + count)
  }

  lemma PageEnds(topic: string, l: Log, from: nat, to: nat)
    requires l.Filed(topic) && from <= to <= |l.entries|
    ensures FirstActual(l.entries[from..to]) == (if from < to then l.removed + from + 1 else 0)
    ensures LastActual(l.entries[from..to]) == (if from < to then l.removed + to else 0)
  {
    if from < to {
      assert FiledAt(l.entries[from], topic, l.removed + from + 1);
      assert FiledAt(l.entries[to - 1], topic, l.removed + to);
    }
  }

  lemma PageRead(l: Log, after: int64, count: int64)
    requires l.Fits() && 0 <= after && 0 <= count
    ensures LogRead(l, after, count) == Ok(l.entries[From(l, after)..To(l, after, count)])
  {
    ReadForward(l, after, count);
  }

  lemma PageIs(topic: string, l: Log, r: Request, after: int64)
    requires Served(topic, l, r) && 0 <= after && 0 <= r.count
    ensures var c, from, to := Connected(r, after), From(r.read, after), To(r.read, after, r.count);
            && c == ConnectionOf(r, r.read.entries[from..to])
            && c.paging.begin == (if from < to then r.read.removed + from + 1 else 0)
            && c.paging.end == (if from < to then r.read.removed + to else 0)
  {
    PageRead(r.read, after, r.count);
    PageEnds(topic, r.read, From(r.read, after), To(r.read, after, r.count));
  }

  /** Next says whether the log, when LastIndex was asked, held events behind the page; of an empty page, any at all. */
  lemma NextMeans(topic: string, l: Log, r: Request, after: int64)
    requires Served(topic, l, r) && 0 <= after && 0 <= r.count
    ensures var c := Connected(r, after);
            c.paging.next <==>
              if c.edges == [] then r.last.entries != [] else To(r.read, after, r.count) < |r.last.entries|
  {
    PageIs(topic, l, r, after);
  }

  /** Prev says whether there are events in front of the page, and never of an empty page. */
  lemma PrevMeans(topic: string, l: Log, r: Request, after: int64)
    requires Served(topic, l, r) && 0 <= after && 0 <= r.count
    ensures var c := Connected(r, after);
            c.paging.prev <==> c.edges != [] && From(r.read, after) > 0
  {
    PageIs(topic, l, r, after);
  }

  /** The place to go on from lies further on, or the request was made at the end of the log: then it is 0. */
  lemma EndMoves(topic: string, l: Log, r: Request, after: int64)
    requires Served(topic, l, r) && 0 <= after && 1 <= r.count
    ensures var end := Connected(r, after).paging.end;
            && (end > after <==> after < r.read.LastIndex())
            && (end <= after ==> end == 0)
  {
    PageIs(topic, l, r, after);
  }

  // The walk

  /** What the walk has seen, where it is, whether it was told of more, and the log as it last found it. */
  datatype Trip = Trip(visited: seq<Event>, end: uint64, more: bool, log: Log)

  predicate AllServed(topic: string, l: Log, rs: seq<Request>)
    decreases |rs|
  {
    rs == [] || (Served(topic, l, rs[0]) && rs[0].count >= 1 && AllServed(topic, rs[0].last, rs[1..]))
  }

  /** The walk as a client makes it: each request is for the page after the end of the one before. */
  function Walk(topic: string, l: Log, after: int64, rs: seq<Request>): Trip
    requires 0 <= after && l.Filed(topic) && AllServed(topic, l, rs)
    decreases |rs|
  {
    if rs == [] then Trip([], after, true, l)
    else
      var r := rs[0];
      PageIs(topic, l, r, after);
      var c := Connected(r, after);
      if c.paging.next then
        var rest := Walk(topic, r.last, c.paging.end, rs[1..]);
        rest.(visited := c.edges + rest.visited)
      else Trip(c.edges, c.paging.end, false, r.last)
  }

  lemma SameLength(l: Log, l': Log)
    requires Extends(l, l') && |l.entries| == |l'.entries|
    ensures l == l'
  {
  }

  /** In front of the end of a log a page has events; an empty log has no page. */
  lemma PageBounds(l: Log, after: int64, count: int64)
    requires l.Fits() && 1 <= count && 0 <= after && (after == 0 || after < l.LastIndex())
    ensures From(l, after) == Max(0, after - l.removed) <= To(l, after, count) <= |l.entries|
    ensures if l.entries == [] then l.removed == 0 && To(l, after, count) == 0 else From(l, after) < To(l, after, count)
  {
  }

  lemma OnwardFrom(l: Log, r: Request, c: Connection, from: nat, to: nat)
    requires Extends(l, r.read) && Extends(r.read, r.last) && from <= to <= |r.read.entries|
    requires if r.read.entries == [] then l.removed == to == 0 else from < to
    requires c == ConnectionOf(r, r.read.entries[from..to])
    requires c.paging.end == if from < to then l.removed + to else 0
    ensures c.paging.next ==> c.paging.end < r.last.LastIndex() && to == Max(0, c.paging.end - l.removed)
    ensures !c.paging.next ==> c.edges == r.last.entries[from..]
  {
    if !c.paging.next {
      SameLength(r.read, r.last);
    }
  }

  /** Told of more, the walk goes on where it is; told of no more, it has reached the end of the log. */
  lemma Onward(topic: string, l: Log, r: Request, after: int64)
    requires Served(topic, l, r) && 1 <= r.count && 0 <= after && (after == 0 || after < l.LastIndex())
    ensures var c, from, to := Connected(r, after), Max(0, after - l.removed), To(r.read, after, r.count);
            && from <= to <= |r.read.entries| && c.edges == r.read.entries[from..to]
            && (c.paging.next ==> c.paging.end < r.last.LastIndex() && to == Max(0, c.paging.end - l.removed))
            && (!c.paging.next ==> c.edges == r.last.entries[from..])
  {
    PageIs(topic, l, r, after);
    PageBounds(r.read, after, r.count);
    OnwardFrom(l, r, Connected(r, after), From(r.read, after), To(r.read, after, r.count));
  }

  /** A trip through the events behind `after`: once each and in order, and all there are when there are no more. */
  predicate Visits(l: Log, after: int64, t: Trip) {
    var from := Max(0, after - l.removed);
    && Extends(l, t.log)
    && from <= |t.log.entries|
    && t.visited <= t.log.entries[from..]
    && (!t.more ==> t.visited == t.log.entries[from..])
  }

  lemma Arrive(topic: string, l: Log, r: Request, after: int64)
    requires Served(topic, l, r) && 1 <= r.count && 0 <= after && (after == 0 || after < l.LastIndex())
    requires !Connected(r, after).paging.next
    ensures var c := Connected(r, after); Visits(l, after, Trip(c.edges, c.paging.end, false, r.last))
  {
    Onward(topic, l, r, after);
  }

  lemma GoOn(topic: string, l: Log, r: Request, after: int64, rest: Trip)
    requires Served(topic, l, r) && 1 <= r.count && 0 <= after && (after == 0 || after < l.LastIndex())
    requires var c := Connected(r, after); c.paging.next && c.paging.end < TWO63 && Visits(r.last, c.paging.end, rest)
    ensures Visits(l, after, rest.(visited := Connected(r, after).edges + rest.visited))
  {
    Onward(topic, l, r, after);
    var from, to := Max(0, after - l.removed), To(r.read, after, r.count);
    PrefixThenRest(r.read.entries, rest.log.entries, from, to, rest.visited);
  }

  /** Whatever is appended meanwhile, a walk from the start or from in front of an event visits what it should. */
  lemma {:induction false} WalkVisits(topic: string, l: Log, after: int64, rs: seq<Request>)
    requires 0 <= after && l.Filed(topic) && AllServed(topic, l, rs)
    requires after == 0 || after < l.LastIndex()
    ensures Visits(l, after, Walk(topic, l, after, rs))
    decreases |rs|
  {
    if rs != [] {
      var r := rs[0];
      var c := Connected(r, after);
      if c.paging.next {
        Onward(topic, l, r, after);
        WalkVisits(topic, r.last, c.paging.end, rs[1..]);
        GoOn(topic, l, r, after, Walk(topic, r.last, c.paging.end, rs[1..]));
      } else {
        Arrive(topic, l, r, after);
      }
    }
  }

  lemma PrefixThenRest(a: seq<Event>, b: seq<Event>, from: nat, to: nat, rest: seq<Event>)
    requires from <= to <= |a| && a <= b && rest <= b[to..]
    ensures a[from..to] + rest <= b[from..]
    ensures rest == b[to..] ==> a[from..to] + rest == b[from..]
  {
    assert b[from..] == a[from..to] + b[to..];
  }

  /** While nothing is appended each page leaves fewer events to visit, so the walk ends. */
  lemma {:induction false} WalkEnds(topic: string, l: Log, after: int64, rs: seq<Request>)
    requires 0 <= after && l.Filed(topic) && AllServed(topic, l, rs) && (after == 0 || after < l.LastIndex())
    requires forall r <- rs :: r.last == l
    requires |rs| > l.LastIndex() - after && rs != []
    ensures !Walk(topic, l, after, rs).more
    decreases |rs|
  {
    var r := rs[0];
    EndMoves(topic, l, r, after);
    Onward(topic, l, r, after);
    assert r in rs;
    if Connected(r, after).paging.next {
      WalkEnds(topic, l, Connected(r, after).paging.end, rs[1..]);
    }
  }
}
