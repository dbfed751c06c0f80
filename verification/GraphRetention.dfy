/** What raw purges change of the cluster graph. */
module GraphRetention {
  import opened Wrappers
  import opened Ordering
  import opened TextCodec
  import opened Addresses
  import opened Services
  import opened Observations
  import opened ObservationGroups
  import opened SpellingMerge
  import opened HistoryViews
  import opened HistoryTheorems
  import opened HistoryStore
  import opened StoredHistory
  import opened ClusterGraph
  import opened GraphScoping
  import opened EdgeConnections
  import Topology = ClusterTopology

  /** The same service, sample detail apart. */
  ghost predicate SameRow(a: ServiceRow, b: ServiceRow) { a.key == b.key && SameButDetail(a.service, b.service) }

  ghost predicate SameRows(a: seq<ServiceRow>, b: seq<ServiceRow>) {
    |a| == |b| && forall i | 0 <= i < |a| :: SameRow(a[i], b[i])
  }

  ghost predicate SameDetail(a: Detail, b: Detail) { b == a.(row := b.row) && SameRow(a.row, b.row) }

  /** The same connections in the same order, sample detail apart. */
  ghost predicate SameDetails(a: seq<Detail>, b: seq<Detail>) {
    |a| == |b| && forall i | 0 <= i < |a| :: SameDetail(a[i], b[i])
  }

  ghost predicate SameData(a: Topology.EdgeData, b: Topology.EdgeData) {
    b == a.(connections := b.connections) && SameDetails(a.connections, b.connections)
  }

  ghost predicate SameDatas(a: seq<Topology.EdgeData>, b: seq<Topology.EdgeData>) {
    |a| == |b| && forall i | 0 <= i < |a| :: SameData(a[i], b[i])
  }

  /** The same nodes and edges with the same counts, connections alike but for sample detail;
      the edges' own numbers may differ. */
  ghost predicate SameButNumbers(g: Topology.Graph, h: Topology.Graph) {
    g.nodes == h.nodes && SameDatas(DataOf(g.edges), DataOf(h.edges))
  }

  ghost predicate SameGraph(g: Topology.Graph, h: Topology.Graph) {
    SameButNumbers(g, h) && forall i | 0 <= i < |g.edges| :: i < |h.edges| && g.edges[i].index == h.edges[i].index
  }

  // ------------------------------------------------------- alike, step by step

  lemma ListedAlike(full: map<ServiceKey, Service>, live: map<ServiceKey, Service>, order: (ServiceKey, ServiceKey) -> bool)
    requires StrictTotalOrder(order) && live.Keys == full.Keys && forall k | k in full :: SameButDetail(full[k], live[k])
    ensures SameRows(Listed(full, order), Listed(live, order))
  {
    hide SameButDetail, Ordered;
    var keys := Ordered(full.Keys, order);
    forall i | 0 <= i < |keys| ensures SameRow(Listed(full, order)[i], Listed(live, order)[i]) { assert keys[i] in keys; }
  }

  /** On edge `e` the filter treats both lists alike. */
  ghost predicate PassAlike(ctx: Context, a: seq<ServiceRow>, b: seq<ServiceRow>, p: ServiceRow -> bool, e: Pair)
    requires KnownSources(ctx, a) && |a| == |b|
  {
    forall i | 0 <= i < |a| && Placement(ctx, a[i]) == Some(e) :: p(a[i]) <==> p(b[i])
  }

  lemma DetailsAppend(a: seq<Detail>, b: seq<Detail>, x: Detail, y: Detail)
    requires SameDetails(a, b) && SameDetail(x, y)
    ensures SameDetails(a + [x], b + [y])
  {
    hide SameDetail;
  }

  lemma DetailAlike(ctx: Context, a: ServiceRow, b: ServiceRow)
    requires SameRow(a, b) && a.key.device in ctx.byId
    ensures SameDetail(DetailOf(ctx, a), DetailOf(ctx, b)) && Placement(ctx, a) == Placement(ctx, b)
  {
    hide SameButDetail, EdgeTarget, KeyPlacement;
  }

  lemma KnownAlike(ctx: Context, a: seq<ServiceRow>, b: seq<ServiceRow>)
    requires SameRows(a, b) && KnownSources(ctx, a)
    ensures KnownSources(ctx, b)
  {
    hide SameButDetail;
    forall r | r in b ensures r.key.device in ctx.byId {
      var i :| 0 <= i < |b| && b[i] == r;
      assert a[i] in a && SameRow(a[i], b[i]);
    }
  }

  /** Of two lists that are alike and filtered alike on an edge, that edge has the same connections. */
  lemma {:induction false} EdgeAlike(ctx: Context, a: seq<ServiceRow>, b: seq<ServiceRow>, p: ServiceRow -> bool, e: Pair)
    requires KnownSources(ctx, a) && KnownSources(ctx, b) && SameRows(a, b) && PassAlike(ctx, a, b, p, e)
    ensures KnownSources(ctx, Where(a, p)) && KnownSources(ctx, Where(b, p))
    ensures SameDetails(EdgeRows(ctx, Where(a, p), e), EdgeRows(ctx, Where(b, p), e))
    decreases |a|
  {
    hide SameRow, SameDetails, Placement, DetailOf, Where, EdgeRows;
    if a == [] {
      NoEdgeRows(ctx, p, e);
    } else {
      var n := |a| - 1;
      assert a == a[..n] + [a[n]] && b == b[..n] + [b[n]];
      EdgeAlike(ctx, a[..n], b[..n], p, e);
      DetailAlike(ctx, a[n], b[n]);
      EdgeOfLast(ctx, a[..n], a[n], p, e);
      EdgeOfLast(ctx, b[..n], b[n], p, e);
      if Placement(ctx, a[n]) == Some(e) && p(a[n]) {
        DetailsAppend(EdgeRows(ctx, Where(a[..n], p), e), EdgeRows(ctx, Where(b[..n], p), e), DetailOf(ctx, a[n]), DetailOf(ctx, b[n]));
      }
    }
  }

  lemma NoEdgeRows(ctx: Context, p: ServiceRow -> bool, e: Pair)
    ensures SameDetails(EdgeRows(ctx, Where([], p), e), EdgeRows(ctx, Where([], p), e))
  {
    assert Where<ServiceRow>([], p) == [];
  }

  lemma EdgeOfLast(ctx: Context, front: seq<ServiceRow>, last: ServiceRow, p: ServiceRow -> bool, e: Pair)
    requires KnownSources(ctx, front) && last.key.device in ctx.byId
    ensures KnownSources(ctx, Where(front, p)) && KnownSources(ctx, Where(front + [last], p))
    ensures EdgeRows(ctx, Where(front + [last], p), e)
      == var shown := EdgeRows(ctx, Where(front, p), e);
         if p(last) && Placement(ctx, last) == Some(e) then shown + [DetailOf(ctx, last)] else shown
  {
    hide Placement, DetailOf, Where;
    WhereAppend(front, last, p);
    if p(last) { EdgeRowsAppend(ctx, Where(front, p), last, e); }
  }

  lemma EdgeRowsAppend(ctx: Context, front: seq<ServiceRow>, last: ServiceRow, e: Pair)
    requires KnownSources(ctx, front) && last.key.device in ctx.byId
    ensures EdgeRows(ctx, front + [last], e)
      == if Placement(ctx, last) == Some(e) then EdgeRows(ctx, front, e) + [DetailOf(ctx, last)] else EdgeRows(ctx, front, e)
  {
    hide Placement, DetailOf;
    assert (front + [last])[..|front|] == front;
  }

  lemma {:induction false} CountsAlike(a: seq<Detail>, b: seq<Detail>)
    requires SameDetails(a, b)
    ensures Topology.CurrentIn(a) == Topology.CurrentIn(b) && Topology.ObservationsIn(a) == Topology.ObservationsIn(b)
    decreases |a|
  {
    hide SameDetail;
    if a != [] {
      var n := |a| - 1;
      CountsAlike(a[..n], b[..n]);
      assert SameDetail(a[n], b[n]);
      SameNumbers(a[n], b[n]);
    }
  }

  lemma SameNumbers(a: Detail, b: Detail)
    requires SameDetail(a, b)
    ensures a.row.service.isCurrent == b.row.service.isCurrent && a.row.service.observations == b.row.service.observations
  {
  }

  lemma DetailsLength(a: seq<Detail>, b: seq<Detail>)
    requires SameDetails(a, b)
    ensures |a| == |b|
  {
  }

  /** Edges with the same connections are alike … */
  lemma PairsAlike(ctx: Context, a: seq<ServiceRow>, b: seq<ServiceRow>, ps: seq<Pair>)
    requires KnownSources(ctx, a) && KnownSources(ctx, b)
    requires forall p | p in ps :: SameDetails(EdgeRows(ctx, a, p), EdgeRows(ctx, b, p))
    ensures SameDatas(EdgesOfPairs(ctx, a, ps), EdgesOfPairs(ctx, b, ps))
  {
    hide SameDetails, EdgeRows, Topology.CurrentIn, Topology.ObservationsIn;
    forall i | 0 <= i < |ps| ensures SameData(Topology.EdgeAt(ctx, a, ps[i]), Topology.EdgeAt(ctx, b, ps[i])) {
      assert ps[i] in ps;
      CountsAlike(EdgeRows(ctx, a, ps[i]), EdgeRows(ctx, b, ps[i]));
      DetailsLength(EdgeRows(ctx, a, ps[i]), EdgeRows(ctx, b, ps[i]));
    }
  }

  /** … and edges that are alike are the same pairs, with the same connections. */
  lemma PairsTell(ctx: Context, a: seq<ServiceRow>, b: seq<ServiceRow>, ps: seq<Pair>, qs: seq<Pair>)
    requires KnownSources(ctx, a) && KnownSources(ctx, b) && SameDatas(EdgesOfPairs(ctx, a, ps), EdgesOfPairs(ctx, b, qs))
    ensures ps == qs && forall p | p in ps :: SameDetails(EdgeRows(ctx, a, p), EdgeRows(ctx, b, p))
  {
    hide SameDetails, EdgeRows, Topology.CurrentIn, Topology.ObservationsIn;
    forall i | 0 <= i < |ps| ensures ps[i] == qs[i] && SameDetails(EdgeRows(ctx, a, ps[i]), EdgeRows(ctx, b, ps[i])) {
      assert SameData(EdgesOfPairs(ctx, a, ps)[i], EdgesOfPairs(ctx, b, qs)[i]);
    }
  }

  lemma AllPairs(ctx: Context, a: seq<ServiceRow>)
    requires KnownSources(ctx, a)
    ensures DataOf(Topology.AllEdges(ctx, a)) == EdgesOfPairs(ctx, a, Topology.SortedPairs(ctx, a))
    ensures forall p :: p in Topology.SortedPairs(ctx, a) <==> EdgeRows(ctx, a, p) != []
  {
    hide EdgeRows, PairsOf, Topology.EdgeAt;
    Topology.PairOrder();
    forall p ensures p in Topology.SortedPairs(ctx, a) <==> EdgeRows(ctx, a, p) != [] { RowsOfPair(ctx, a, p); }
  }

  lemma EmptyAlike(a: seq<Detail>, b: seq<Detail>)
    requires a == [] && b == []
    ensures SameDetails(a, b)
  {
  }

  lemma PairsFrom(ctx: Context, a: seq<ServiceRow>, b: seq<ServiceRow>)
    requires KnownSources(ctx, a) && KnownSources(ctx, b) && forall e :: EdgeRows(ctx, a, e) == [] <==> EdgeRows(ctx, b, e) == []
    ensures PairsOf(ctx, a) == PairsOf(ctx, b)
  {
    hide PairsOf, EdgeRows;
    forall e ensures e in PairsOf(ctx, a) <==> e in PairsOf(ctx, b) {
      RowsOfPair(ctx, a, e);
      RowsOfPair(ctx, b, e);
    }
  }

  lemma NodesFrom(ctx: Context, a: seq<ServiceRow>, b: seq<ServiceRow>)
    requires KnownSources(ctx, a) && KnownSources(ctx, b) && PairsOf(ctx, a) == PairsOf(ctx, b)
    ensures Topology.FullGraph(ctx, a).nodes == Topology.FullGraph(ctx, b).nodes && Topology.SortedPairs(ctx, a) == Topology.SortedPairs(ctx, b)
    ensures Topology.FullGraph(ctx, a).edges == Topology.AllEdges(ctx, a) && Topology.FullGraph(ctx, b).edges == Topology.AllEdges(ctx, b)
    ensures var es, fs := Topology.FullGraph(ctx, a).edges, Topology.FullGraph(ctx, b).edges;
      forall i | 0 <= i < |es| :: i < |fs| && es[i].index == fs[i].index
  {
    hide PairsOf, Topology.ManagedNodes, Topology.WithExternals, Topology.ExternalIds, Topology.EdgeAt;
  }

  /** The same connections on every edge, sample detail apart. */
  ghost predicate EdgesAlike(ctx: Context, a: seq<ServiceRow>, b: seq<ServiceRow>)
    requires KnownSources(ctx, a) && KnownSources(ctx, b)
  {
    forall e :: SameDetails(EdgeRows(ctx, a, e), EdgeRows(ctx, b, e))
  }

  /** Two lists have the same graph if and only if they have the same connections on every edge. */
  lemma GraphTells(ctx: Context, a: seq<ServiceRow>, b: seq<ServiceRow>)
    requires KnownSources(ctx, a) && KnownSources(ctx, b)
    ensures SameGraph(Topology.FullGraph(ctx, a), Topology.FullGraph(ctx, b)) <==> EdgesAlike(ctx, a, b)
  {
    hide SameDetails, SameDatas, PairsOf, EdgeRows, EdgesOfPairs, DataOf, Topology.FullGraph, Topology.AllEdges, Topology.SortedPairs;
    AllPairs(ctx, a);
    AllPairs(ctx, b);
    var ps, qs := Topology.SortedPairs(ctx, a), Topology.SortedPairs(ctx, b);
    FullEdges(ctx, a);
    FullEdges(ctx, b);
    if EdgesAlike(ctx, a, b) {
      forall e ensures EdgeRows(ctx, a, e) == [] <==> EdgeRows(ctx, b, e) == [] { DetailsLength(EdgeRows(ctx, a, e), EdgeRows(ctx, b, e)); }
      PairsFrom(ctx, a, b);
      NodesFrom(ctx, a, b);
      PairsAlike(ctx, a, b, ps);
    }
    if SameGraph(Topology.FullGraph(ctx, a), Topology.FullGraph(ctx, b)) {
      PairsTell(ctx, a, b, ps, qs);
      forall e ensures SameDetails(EdgeRows(ctx, a, e), EdgeRows(ctx, b, e)) {
        if e !in ps { EmptyAlike(EdgeRows(ctx, a, e), EdgeRows(ctx, b, e)); }
      }
    }
  }

  lemma FullEdges(ctx: Context, a: seq<ServiceRow>)
    requires KnownSources(ctx, a)
    ensures Topology.FullGraph(ctx, a).edges == Topology.AllEdges(ctx, a)
  {
  }

  // ------------------------------------------------------------ the filters

  /** Only a state filter can tell the services apart, and only by a lost sample row. */
  lemma FilterAlike(f: Filter, a: ServiceRow, b: ServiceRow)
    requires SameRow(a, b) && (a.service.sample.pid.Some? ==> a.service.sample.pid.value in a.service.pids)
    ensures Passes(f, b) <==> Passes(f, a) && (f.state == "" || b.service.sample.state == Some(f.state))
  {
    hide OccursIn;
    SameHaystack(f, a, b);
  }

  lemma SameHaystack(f: Filter, a: ServiceRow, b: ServiceRow)
    requires SameRow(a, b) && (a.service.sample.pid.Some? ==> a.service.sample.pid.value in a.service.pids)
    ensures Haystack(f, a.service) == Haystack(f, b.service)
    ensures a.service.sample.protocol == b.service.sample.protocol
    ensures b.service.sample.state == a.service.sample.state || b.service.sample.state == None
  {
    hide Digits;
    NatOrders();
    var pids := Ordered(a.service.pids, NatLess);
    if pids != [] {
      assert JoinDigits(pids) != "";
    } else {
      assert forall n :: n !in pids;
    }
  }

  // ------------------------------------------------------------- the theorem

  lemma ListedAt(view: map<ServiceKey, Service>, order: (ServiceKey, ServiceKey) -> bool, i: nat)
    requires StrictTotalOrder(order) && i < |Listed(view, order)|
    ensures var r := Listed(view, order)[i]; r.key in view && r == ServiceRow(r.key, view[r.key])
  {
    var keys := Ordered(view.Keys, order);
    assert keys[i] in keys;
  }

  /** What the views over all rows ever stored and over the rows left say of one listed service. */
  lemma RowFacts(s: Source, ctx: Context, t: Table, q: Query, full: map<ServiceKey, Service>, live: map<ServiceKey, Service>, k: ServiceKey)
    requires InStep(s, ctx, t) && IsView(s.(samples := t), q, full) && IsView(s, q, live)
    ensures live.Keys == full.Keys
    ensures k in full ==> SameButDetail(full[k], live[k]) && if full[k].sample.id in s.samples then live[k] == full[k] else live[k].sample.state == None
    ensures k in full && full[k].sample.pid.Some? ==> full[k].sample.pid.value in full[k].pids
  {
    hide Standing, WellFormedTable, KnownSpellings, IsContext, WellFormedInventory, ResolverOk, Coherent, SameButDetail, IsGroupService, PartsOf, SubTable;
    PurgeKeepsHistory(s.rules, t, s.obs, q, s.samples, full, live);
    if k in full { SampleIsSelected(s.rules, t, s.obs, q, k, full[k]); }
  }

  /** The latest raw row of every connection on edge `e` is still there. */
  ghost predicate SamplesLeftOn(s: Source, ctx: Context, rows: seq<ServiceRow>, e: Pair)
    requires KnownSources(ctx, rows)
  {
    forall r | OnEdge(ctx, rows, e, r) :: r.service.sample.id in s.samples
  }

  /** One edge, whatever the query: the connections over the raw rows left are those over all rows
      ever stored, sample detail apart, if and only if there is no state filter or the latest row of
      each of these connections is left. */
  lemma EdgeSurvivesPurge(s: Source, ctx: Context, t: Table, q: Query, f: Filter,
                          full: map<ServiceKey, Service>, live: map<ServiceKey, Service>, e: Pair)
    requires InStep(s, ctx, t) && q.devices <= ctx.byId.Keys
    requires IsView(s.(samples := t), q, full) && IsView(s, q, live)
    ensures KnownSources(ctx, RowsOf(s, full, f)) && KnownSources(ctx, RowsOf(s, live, f))
    ensures SameDetails(EdgeRows(ctx, RowsOf(s, full, f), e), EdgeRows(ctx, RowsOf(s, live, f), e))
      <==> f.state == "" || SamplesLeftOn(s, ctx, RowsOf(s, full, f), e)
  {
    hide InStep, IsView, SameDetails, EdgeRows, RowsOf, SamplesLeftOn, KnownSources, StrictTotalOrder;
    OrderOf(s, ctx, t);
    ViewIsKnown(s.(samples := t), ctx, q, full, f);
    ViewIsKnown(s, ctx, q, live, f);
    RowsWithout(s, t, full, f);
    if f.state == "" || SamplesLeftOn(s, ctx, RowsOf(s, full, f), e) {
      PurgedAlike(s, ctx, t, q, f, full, live, e);
    }
    if SameDetails(EdgeRows(ctx, RowsOf(s, full, f), e), EdgeRows(ctx, RowsOf(s, live, f), e)) && f.state != "" {
      forall r | OnEdge(ctx, RowsOf(s, full, f), e, r) ensures exists o :: o in RowsOf(s, live, f) && o.key == r.key {
        var o := AlsoShown(ctx, RowsOf(s, full, f), RowsOf(s, live, f), e, r);
      }
      AlikeKeepsSamples(s, ctx, t, q, f, full, live, e);
    }
  }

  /** The latest raw row of every connection of the graph is still there. */
  ghost predicate SamplesLeft(s: Source, ctx: Context, rows: seq<ServiceRow>)
    requires KnownSources(ctx, rows)
  {
    forall r | r in rows && Placement(ctx, r).Some? :: r.service.sample.id in s.samples
  }

  lemma LeftEverywhere(s: Source, ctx: Context, rows: seq<ServiceRow>)
    requires KnownSources(ctx, rows)
    ensures SamplesLeft(s, ctx, rows) <==> forall e :: SamplesLeftOn(s, ctx, rows, e)
  {
    hide Placement;
    if SamplesLeft(s, ctx, rows) {
      forall e ensures SamplesLeftOn(s, ctx, rows, e) {}
    }
    if forall e :: SamplesLeftOn(s, ctx, rows, e) {
      forall r | r in rows && Placement(ctx, r).Some? ensures r.service.sample.id in s.samples {
        assert SamplesLeftOn(s, ctx, rows, Placement(ctx, r).value) && OnEdge(ctx, rows, Placement(ctx, r).value, r);
      }
    }
  }

  /** Whatever raw rows have been purged, the graph is the one over all rows ever stored, the
      sample detail of its connections apart, if and only if it is not filtered by state or the
      latest row of each of its connections is left. */
  lemma GraphSurvivesPurge(s: Source, ctx: Context, t: Table, q: Query, f: Filter,
                           full: map<ServiceKey, Service>, live: map<ServiceKey, Service>)
    requires InStep(s, ctx, t) && q.devices <= ctx.byId.Keys
    requires IsView(s.(samples := t), q, full) && IsView(s, q, live)
    ensures KnownSources(ctx, RowsOf(s, full, f)) && KnownSources(ctx, RowsOf(s, live, f))
    ensures SameGraph(Topology.FullGraph(ctx, RowsOf(s, full, f)), Topology.FullGraph(ctx, RowsOf(s, live, f)))
      <==> f.state == "" || SamplesLeft(s, ctx, RowsOf(s, full, f))
  {
    hide InStep, IsView, SameGraph, SameDetails, EdgeRows, Topology.FullGraph, RowsOf, SamplesLeft, SamplesLeftOn, KnownSources, StrictTotalOrder;
    OrderOf(s, ctx, t);
    ViewIsKnown(s.(samples := t), ctx, q, full, f);
    ViewIsKnown(s, ctx, q, live, f);
    RowsWithout(s, t, full, f);
    forall e
      ensures SameDetails(EdgeRows(ctx, RowsOf(s, full, f), e), EdgeRows(ctx, RowsOf(s, live, f), e))
        <==> f.state == "" || SamplesLeftOn(s, ctx, RowsOf(s, full, f), e)
    {
      EdgeSurvivesPurge(s, ctx, t, q, f, full, live, e);
    }
    GraphTells(ctx, RowsOf(s, full, f), RowsOf(s, live, f));
    LeftEverywhere(s, ctx, RowsOf(s, full, f));
  }

  lemma OrderOf(s: Source, ctx: Context, t: Table)
    requires InStep(s, ctx, t)
    ensures StrictTotalOrder(s.order) && s.(samples := t).order == s.order
  {
    hide Standing, WellFormedTable, KnownSpellings, IsContext, WellFormedInventory, ResolverOk, Coherent, SubTable;
  }

  lemma RowsWithout(s: Source, t: Table, view: map<ServiceKey, Service>, f: Filter)
    requires StrictTotalOrder(s.order)
    ensures RowsOf(s.(samples := t), view, f) == RowsOf(s, view, f)
  {
  }

  lemma PurgedAlike(s: Source, ctx: Context, t: Table, q: Query, f: Filter,
                    full: map<ServiceKey, Service>, live: map<ServiceKey, Service>, e: Pair)
    requires InStep(s, ctx, t) && IsView(s.(samples := t), q, full) && IsView(s, q, live) && StrictTotalOrder(s.order)
    requires KnownSources(ctx, Listed(full, s.order)) && KnownSources(ctx, RowsOf(s, full, f)) && KnownSources(ctx, RowsOf(s, live, f))
    requires f.state == "" || SamplesLeftOn(s, ctx, RowsOf(s, full, f), e)
    ensures SameDetails(EdgeRows(ctx, RowsOf(s, full, f), e), EdgeRows(ctx, RowsOf(s, live, f), e))
  {
    hide InStep, IsView, Passes, SameButDetail, SameRows, EdgeRows, SameDetails, Listed, Placement, Where;
    var a, b, p := Listed(full, s.order), Listed(live, s.order), (r: ServiceRow) => Passes(f, r);
    forall k ensures live.Keys == full.Keys && (k in full ==> SameButDetail(full[k], live[k])) { RowFacts(s, ctx, t, q, full, live, k); }
    ListedAlike(full, live, s.order);
    KnownAlike(ctx, a, b);
    SameLength(a, b);
    forall i | 0 <= i < |a| && Placement(ctx, a[i]) == Some(e) ensures p(a[i]) <==> p(b[i]) {
      RowAlike(s, ctx, t, q, f, full, live, i);
      if p(a[i]) { assert a[i] in a && OnEdge(ctx, RowsOf(s, full, f), e, a[i]); }
    }
    EdgeAlike(ctx, a, b, p, e);
  }

  lemma SameLength(a: seq<ServiceRow>, b: seq<ServiceRow>)
    requires SameRows(a, b)
    ensures |a| == |b| && forall i | 0 <= i < |a| :: SameRow(a[i], b[i])
  {
    hide SameRow;
  }

  lemma RowAlike(s: Source, ctx: Context, t: Table, q: Query, f: Filter,
                 full: map<ServiceKey, Service>, live: map<ServiceKey, Service>, i: nat)
    requires InStep(s, ctx, t) && IsView(s.(samples := t), q, full) && IsView(s, q, live) && StrictTotalOrder(s.order)
    requires SameRows(Listed(full, s.order), Listed(live, s.order)) && i < |Listed(full, s.order)|
    ensures i < |Listed(live, s.order)|
    ensures var a, b := Listed(full, s.order)[i], Listed(live, s.order)[i];
      Passes(f, a) != Passes(f, b) ==> f.state != "" && Passes(f, a) && a.service.sample.id !in s.samples
  {
    hide InStep, IsView, Passes, SameButDetail, Listed, StrictTotalOrder;
    ListedAt(full, s.order, i);
    ListedAt(live, s.order, i);
    var a, b := Listed(full, s.order)[i], Listed(live, s.order)[i];
    assert SameRow(a, b);
    RowFacts(s, ctx, t, q, full, live, a.key);
    FilterAlike(f, a, b);
  }

  /** If every connection of an edge is still found, one filtered by state has its latest row left. */
  lemma AlikeKeepsSamples(s: Source, ctx: Context, t: Table, q: Query, f: Filter,
                          full: map<ServiceKey, Service>, live: map<ServiceKey, Service>, e: Pair)
    requires InStep(s, ctx, t) && IsView(s.(samples := t), q, full) && IsView(s, q, live) && StrictTotalOrder(s.order)
    requires KnownSources(ctx, RowsOf(s, full, f)) && f.state != ""
    requires forall r | OnEdge(ctx, RowsOf(s, full, f), e, r) :: exists o :: o in RowsOf(s, live, f) && o.key == r.key
    ensures SamplesLeftOn(s, ctx, RowsOf(s, full, f), e)
  {
    hide InStep, IsView, RowsOf, Passes, SameButDetail, Placement, StrictTotalOrder;
    forall r | OnEdge(ctx, RowsOf(s, full, f), e, r) ensures r.service.sample.id in s.samples {
      var o :| o in RowsOf(s, live, f) && o.key == r.key;
      RowPasses(s, full, f, r);
      RowPasses(s, live, f, o);
      RowFacts(s, ctx, t, q, full, live, r.key);
      PassedState(f, o);
    }
  }

  lemma PassedState(f: Filter, r: ServiceRow)
    requires Passes(f, r) && f.state != ""
    ensures r.service.sample.state == Some(f.state)
  {
    hide OccursIn, Haystack;
  }

  /** A service on an edge of one list is on that edge of the other. */
  lemma AlsoShown(ctx: Context, a: seq<ServiceRow>, b: seq<ServiceRow>, e: Pair, r: ServiceRow) returns (o: ServiceRow)
    requires KnownSources(ctx, a) && KnownSources(ctx, b) && OnEdge(ctx, a, e, r)
    requires SameDetails(EdgeRows(ctx, a, e), EdgeRows(ctx, b, e))
    ensures o in b && o.key == r.key
  {
    hide Placement, EdgeRows, SameButDetail, DetailOf;
    EdgeMembers(ctx, a, e);
    var j :| 0 <= j < |EdgeRows(ctx, a, e)| && EdgeRows(ctx, a, e)[j] == DetailOf(ctx, r);
    var d := EdgeRows(ctx, b, e)[j];
    assert SameDetail(DetailOf(ctx, r), d);
    EdgeMembers(ctx, b, e);
    assert OnEdge(ctx, b, e, d.row);
    DetailRow(ctx, r);
    o := d.row;
  }

  lemma DetailRow(ctx: Context, r: ServiceRow)
    requires r.key.device in ctx.byId
    ensures DetailOf(ctx, r).row == r
  {
  }

  lemma EdgeIndex(ctx: Context, a: seq<ServiceRow>, p: Pair, r: ServiceRow) returns (i: nat)
    requires KnownSources(ctx, a) && r in a && Placement(ctx, r) == Some(p)
    ensures i < |Topology.FullGraph(ctx, a).edges| && Topology.FullGraph(ctx, a).edges[i].data.connections == EdgeRows(ctx, a, p)
  {
    hide Placement, EdgeRows, Topology.ManagedNodes, Topology.WithExternals, Topology.ExternalIds;
    assert p in PairsOf(ctx, a);
    Topology.PairOrder();
    var pairs := Topology.SortedPairs(ctx, a);
    assert p in pairs;
    i :| 0 <= i < |pairs| && pairs[i] == p;
  }

  // --------------------------------------------------------------- the store

  /** A consistent store is in step with every row it ever held. */
  lemma StoreIsInStep(rules: AddressRules, d: Tables, archive: Table, nextScan: nat, nextRecord: nat,
                      ctx: Context, order: (ServiceKey, ServiceKey) -> bool)
    requires Coherent(rules) && KnownSpellings(rules, archive) && Stored(d, archive, nextScan, nextRecord)
    requires StrictTotalOrder(order) && IsContext(ctx) && WellFormedInventory(ctx.inventory) && ResolverOk(rules, ctx.inventory.resolve)
    ensures InStep(Source(rules, d.observations, d.Rows(), d.scans, order), ctx, archive)
  {
    hide Coherent, KnownSpellings, Standing, WellFormedTable, SubTable, KeptIntact, Sound, StrictTotalOrder, IsContext, WellFormedInventory, ResolverOk;
    StoredFacts(d, archive, nextScan, nextRecord);
  }

  /** Without history even a graph filtered by state survives every purge unchanged. */
  lemma CurrentGraphSurvives(rules: AddressRules, d: Tables, archive: Table, nextScan: nat, nextRecord: nat,
                             ctx: Context, order: (ServiceKey, ServiceKey) -> bool, f: Filter,
                             full: map<ServiceKey, Service>, live: map<ServiceKey, Service>)
    requires Coherent(rules) && KnownSpellings(rules, archive) && Stored(d, archive, nextScan, nextRecord) && StrictTotalOrder(order)
    requires var q := WindowQuery(d.scans, ctx.byId.Keys, None); var s := Source(rules, d.observations, d.Rows(), d.scans, order);
      IsView(s.(samples := archive), q, full) && IsView(s, q, live)
    ensures var s := Source(rules, d.observations, d.Rows(), d.scans, order);
      && KnownSources(ctx, RowsOf(s, full, f)) && KnownSources(ctx, RowsOf(s, live, f))
      && Topology.FullGraph(ctx, RowsOf(s, full, f)) == Topology.FullGraph(ctx, RowsOf(s, live, f))
  {
    hide Coherent, KnownSpellings, Stored, IsGroupView, StrictTotalOrder, Topology.FullGraph, RowsOf, KnownSources, WindowQuery, Tables.Rows;
    var q, s := WindowQuery(d.scans, ctx.byId.Keys, None), Source(rules, d.observations, d.Rows(), d.scans, order);
    CurrentWindow(d.scans, ctx.byId.Keys);
    CurrentViewSurvives(rules, d, archive, nextScan, nextRecord, ctx.byId.Keys, q, full, live);
    ViewIsKnown(s, ctx, q, live, f);
  }

  lemma CurrentWindow(scans: map<nat, Scan>, devices: set<nat>)
    ensures var q := WindowQuery(scans, devices, None); q.cutoff == None && q.current == CurrentScans(scans, devices) && q.devices <= devices
  {
  }

  // ------------------------------------------------- what a state filter loses

  const ESTABLISHED := "ESTABLISHED"

  /** Three scans of one device; only the first saw the connection. */
  function QuietScans(): map<nat, Scan> {
    map[1 := Scan(1, 1, 1, ScanStatus.Success), 2 := Scan(2, 1, 2, ScanStatus.Success), 3 := Scan(3, 1, 3, ScanStatus.Success)]
  }

  function QuietTable(quad: string): Table {
    map[1 := Row(QuietScans()[1], Record(1, 1, "tcp", "10.0.0.1", 50000, Some(quad), Some(443), Some(ESTABLISHED), None, None, None))]
  }

  /** A raw purge has taken the one row. */
  function QuietSource(rules: AddressRules, quad: string, order: (ServiceKey, ServiceKey) -> bool): Source {
    Source(rules, ObservationsOf(QuietTable(quad)), map[], QuietScans(), order)
  }

  function QuietKey(quad: string): ServiceKey { ServiceKey(1, "tcp", quad, 443, "") }

  function StateFilter(): Filter { Filter("", ESTABLISHED, "", text => text) }

  lemma RowIsPurged()
    ensures 1 in RawExpired(QuietScans(), 2)
  {
    var scans := QuietScans();
    var ahead: set<nat> := {2, 3};
    assert Ahead(scans, scans[1]) == ahead && |ahead| == 2;
  }

  lemma QuietIsInStep(rules: AddressRules, quad: string, order: (ServiceKey, ServiceKey) -> bool)
    requires Coherent(rules) && rules.normalize(quad) == quad && StrictTotalOrder(order)
    ensures InStep(QuietSource(rules, quad, order), LoneContext(), QuietTable(quad))
  {
    hide Coherent, ObservationsOf, Stands, IsContext, WellFormedInventory, StrictTotalOrder;
    LoneContextIsContext();
    assert WellFormedTable(QuietTable(quad));
    StandingObservations(QuietTable(quad));
  }

  lemma QuietRows(rules: AddressRules, quad: string, q: Query)
    requires rules.normalize(quad) == quad && !rules.loopback(quad) && q == WindowQuery(QuietScans(), {1}, Some(0))
    ensures GroupRows(rules, QuietTable(quad), q, QuietKey(quad)) == {1}
  {
    hide CurrentScans;
    var t := QuietTable(quad);
    assert ServiceKeyOf(rules, t[1]) == QuietKey(quad) && SelectsRow(q, t[1]);
  }

  lemma QuietPlacement(quad: string)
    ensures KeyPlacement(LoneContext(), QuietKey(quad)) == Some((DEVICE + Digits(1), EXTERNAL + quad))
  {
    hide Digits;
    Topology.PrefixesDiffer(Digits(1), quad);
  }

  lemma OnlyState(r: ServiceRow)
    ensures Passes(StateFilter(), r) <==> r.service.sample.state == Some(ESTABLISHED)
  {
    hide OccursIn, Haystack;
  }

  /** One connection of the history graph that a state filter no longer finds once a raw purge has taken its row. */
  lemma StateFilterLosesEdge(rules: AddressRules, quad: string, order: (ServiceKey, ServiceKey) -> bool,
                             full: map<ServiceKey, Service>, live: map<ServiceKey, Service>)
    requires Coherent(rules) && rules.normalize(quad) == quad && !rules.loopback(quad) && StrictTotalOrder(order)
    requires var s, q := QuietSource(rules, quad, order), WindowQuery(QuietScans(), {1}, Some(0));
      IsView(s.(samples := QuietTable(quad)), q, full) && IsView(s, q, live)
    ensures 1 in RawExpired(QuietScans(), 2)
    ensures var s, ctx, f := QuietSource(rules, quad, order), LoneContext(), StateFilter();
      && KnownSources(ctx, RowsOf(s, full, f)) && KnownSources(ctx, RowsOf(s, live, f))
      && Topology.FullGraph(ctx, RowsOf(s, full, f)).edges != [] && RowsOf(s, live, f) == []
  {
    hide *;
    var s, t, k, q := QuietSource(rules, quad, order), QuietTable(quad), QuietKey(quad), WindowQuery(QuietScans(), {1}, Some(0));
    RowIsPurged();
    QuietIsInStep(rules, quad, order);
    QuietRows(rules, quad, q);
    QuietFacts(rules, quad, order);
    QuietPlacement(quad);
    StateIsShown(s, LoneContext(), t, q, k, (DEVICE + Digits(1), EXTERNAL + quad), full);
    NothingIsLeft(s, LoneContext(), t, q, full, live);
  }

  lemma QuietFacts(rules: AddressRules, quad: string, order: (ServiceKey, ServiceKey) -> bool)
    ensures var s, t := QuietSource(rules, quad, order), QuietTable(quad);
      s.rules == rules && s.order == order && s.samples == map[] && 1 in t && t[1].record.state == Some(ESTABLISHED)
    ensures QuietKey(quad).device == 1 && LoneContext().byId.Keys == {1} && WindowQuery(QuietScans(), {1}, Some(0)).devices <= {1}
  {
    hide ObservationsOf, QuietScans;
  }

  lemma StateIsShown(s: Source, ctx: Context, t: Table, q: Query, k: ServiceKey, p: Pair, full: map<ServiceKey, Service>)
    requires InStep(s, ctx, t) && StrictTotalOrder(s.order) && q.devices <= ctx.byId.Keys && k.device in ctx.byId
    requires IsView(s.(samples := t), q, full) && GroupRows(s.rules, t, q, k) == {1} && 1 in t && t[1].record.state == Some(ESTABLISHED)
    requires KeyPlacement(ctx, k) == Some(p)
    ensures KnownSources(ctx, RowsOf(s, full, StateFilter())) && Topology.FullGraph(ctx, RowsOf(s, full, StateFilter())).edges != []
  {
    hide StrictTotalOrder, IsView, InStep, RowsOf, Topology.FullGraph, KnownSources, Passes, KeyPlacement, GroupRows, StateFilter;
    var f := StateFilter();
    ViewIsKnown(s.(samples := t), ctx, q, full, f);
    RowsWithout(s, t, full, f);
    QuietService(s, ctx, t, q, k, full);
    OnlyState(ServiceRow(k, full[k]));
    ListedRow(s, full, f, k);
    var i := EdgeIndex(ctx, RowsOf(s, full, f), p, ServiceRow(k, full[k]));
  }

  lemma NothingIsLeft(s: Source, ctx: Context, t: Table, q: Query, full: map<ServiceKey, Service>, live: map<ServiceKey, Service>)
    requires InStep(s, ctx, t) && StrictTotalOrder(s.order) && IsView(s.(samples := t), q, full) && IsView(s, q, live) && s.samples == map[]
    ensures RowsOf(s, live, StateFilter()) == [] && KnownSources(ctx, RowsOf(s, live, StateFilter()))
  {
    hide StrictTotalOrder, IsView, InStep, RowsOf, Passes, SameButDetail, StateFilter;
    var rows := RowsOf(s, live, StateFilter());
    if rows != [] {
      var r := rows[0];
      RowPasses(s, live, StateFilter(), r);
      RowFacts(s, ctx, t, q, full, live, r.key);
      OnlyState(r);
    }
  }

  lemma QuietService(s: Source, ctx: Context, t: Table, q: Query, k: ServiceKey, full: map<ServiceKey, Service>)
    requires InStep(s, ctx, t) && IsView(s.(samples := t), q, full) && GroupRows(s.rules, t, q, k) == {1}
    ensures k in full && 1 in t && full[k].sample.state == t[1].record.state
  {
    hide Standing, WellFormedTable, KnownSpellings, IsContext, WellFormedInventory, ResolverOk, Coherent, IsGroupService, PartsOf, SubTable, GroupRows;
    assert SubTable(t, t) by { WholeTable(t); }
    ReportedKeys(s.rules, t, s.obs, q, t, k);
    SampleIsSelected(s.rules, t, s.obs, q, k, full[k]);
  }

  lemma WholeTable(t: Table)
    ensures SubTable(t, t)
  {
  }
}
