/** What raw purges change of one cluster's graph and of one edge's connections. */
module ScopedRetention {
  import opened Wrappers
  import opened Ordering
  import opened TextCodec
  import opened Addresses
  import opened Services
  import opened SpellingMerge
  import opened ObservationGroups
  import opened HistoryViews
  import opened HistoryTheorems
  import opened HistoryStore
  import opened StoredHistory
  import opened ClusterGraph
  import opened GraphScoping
  import opened GraphTheorems
  import opened EdgeConnections
  import opened GraphRetention
  import Topology = ClusterTopology

  // ------------------------------------------------- the graph of a cluster

  /** The same connections on every edge at a node, sample detail apart. */
  ghost predicate AlikeAt(ctx: Context, a: seq<ServiceRow>, b: seq<ServiceRow>, id: string)
    requires KnownSources(ctx, a) && KnownSources(ctx, b)
  {
    forall e | AtNode(e, id) :: SameDetails(EdgeRows(ctx, a, e), EdgeRows(ctx, b, e))
  }

  function Touching(ctx: Context, rows: seq<ServiceRow>, id: string): seq<Topology.Edge>
    requires KnownSources(ctx, rows)
  {
    Where(Topology.AllEdges(ctx, rows), (e: Topology.Edge) => Topology.Touches(e, id))
  }

  function PairsAt(ctx: Context, rows: seq<ServiceRow>, id: string): seq<Pair>
    requires KnownSources(ctx, rows)
  {
    Where(Topology.SortedPairs(ctx, rows), (p: Pair) => AtNode(p, id))
  }

  lemma TouchingData(ctx: Context, rows: seq<ServiceRow>, id: string)
    requires KnownSources(ctx, rows)
    ensures DataOf(Touching(ctx, rows, id)) == EdgesOfPairs(ctx, rows, PairsAt(ctx, rows, id))
    ensures forall p :: p in PairsAt(ctx, rows, id) <==> AtNode(p, id) && EdgeRows(ctx, rows, p) != []
    ensures Ascending(PairsAt(ctx, rows, id), Topology.PairLess)
  {
    hide Where, EdgeRows, EdgesOfPairs, DataOf, PairsOf, Topology.EdgesAt;
    Topology.PairOrder();
    TouchingPairs(ctx, rows, Topology.SortedPairs(ctx, rows), id);
    WhereAscends(Topology.SortedPairs(ctx, rows), (p: Pair) => AtNode(p, id), Topology.PairLess);
    forall p ensures p in PairsAt(ctx, rows, id) <==> AtNode(p, id) && EdgeRows(ctx, rows, p) != [] { RowsOfPair(ctx, rows, p); }
  }

  lemma TouchingTells(ctx: Context, a: seq<ServiceRow>, b: seq<ServiceRow>, id: string)
    requires KnownSources(ctx, a) && KnownSources(ctx, b)
    ensures SameDatas(DataOf(Touching(ctx, a, id)), DataOf(Touching(ctx, b, id))) <==> AlikeAt(ctx, a, b, id)
  {
    hide SameDetails, SameDatas, EdgeRows, EdgesOfPairs, DataOf, Touching, PairsAt, AtNode;
    TouchingData(ctx, a, id);
    TouchingData(ctx, b, id);
    var ps, qs := PairsAt(ctx, a, id), PairsAt(ctx, b, id);
    if AlikeAt(ctx, a, b, id) {
      forall e | AtNode(e, id) ensures EdgeRows(ctx, a, e) == [] <==> EdgeRows(ctx, b, e) == [] {
        DetailsLength(EdgeRows(ctx, a, e), EdgeRows(ctx, b, e));
      }
      Topology.PairOrder();
      AscendingUnique(ps, qs, Topology.PairLess);
      PairsAlike(ctx, a, b, ps);
    }
    if SameDatas(DataOf(Touching(ctx, a, id)), DataOf(Touching(ctx, b, id))) {
      PairsTell(ctx, a, b, ps, qs);
      forall e | AtNode(e, id) ensures SameDetails(EdgeRows(ctx, a, e), EdgeRows(ctx, b, e)) {
        if e !in ps { EmptyAlike(EdgeRows(ctx, a, e), EdgeRows(ctx, b, e)); }
      }
    }
  }

  lemma EndsAlike(es: seq<Topology.Edge>, fs: seq<Topology.Edge>, id: string)
    requires SameDatas(DataOf(es), DataOf(fs))
    ensures Topology.VisibleIds(es, id) == Topology.VisibleIds(fs, id)
  {
    hide SameDetails;
    forall i | 0 <= i < |es| ensures i < |fs| && es[i].data.source == fs[i].data.source && es[i].data.target == fs[i].data.target {
      assert SameData(DataOf(es)[i], DataOf(fs)[i]);
    }
    forall n ensures n in Topology.VisibleIds(es, id) <==> n in Topology.VisibleIds(fs, id) {
      if e :| e in es && (e.data.source == n || e.data.target == n) {
        var i :| 0 <= i < |es| && es[i] == e;
        assert fs[i] in fs;
      }
      if e :| e in fs && (e.data.source == n || e.data.target == n) {
        var i :| 0 <= i < |fs| && fs[i] == e;
        assert es[i] in es;
      }
    }
  }

  lemma ClusterParts(ctx: Context, rows: seq<ServiceRow>, c: nat)
    requires Topology.HasCluster(ctx, c) && KnownSources(ctx, rows)
    ensures Topology.GraphOf(ctx, rows, Some(c)).Success?
    ensures var g, id := Topology.GraphOf(ctx, rows, Some(c)).value, CLUSTER + Digits(c);
      && g.edges == Touching(ctx, rows, id)
      && g.nodes == Topology.Shown(Topology.WithExternals(Topology.ManagedNodes(ctx), Topology.ExternalIds(PairsOf(ctx, rows))),
                                   Topology.VisibleIds(Touching(ctx, rows, id), id))
  {
    hide Topology.WithExternals, Topology.ManagedNodes, Topology.ExternalIds, Topology.VisibleIds, Topology.Shown, Where, Topology.AllEdges, Digits;
  }

  /** Two lists have the same graph of a cluster if and only if its edges have the same connections. */
  lemma ClusterGraphTells(ctx: Context, a: seq<ServiceRow>, b: seq<ServiceRow>, c: nat)
    requires IsContext(ctx) && WellFormedInventory(ctx.inventory) && Topology.HasCluster(ctx, c) && KnownSources(ctx, a) && KnownSources(ctx, b)
    ensures Topology.GraphOf(ctx, a, Some(c)).Success? && Topology.GraphOf(ctx, b, Some(c)).Success?
    ensures SameButNumbers(Topology.GraphOf(ctx, a, Some(c)).value, Topology.GraphOf(ctx, b, Some(c)).value)
      <==> AlikeAt(ctx, a, b, CLUSTER + Digits(c))
  {
    hide IsContext, WellFormedInventory, Topology.HasCluster, KnownSources, Topology.GraphOf, SameDatas, AlikeAt, DataOf, Touching, Digits,
         Topology.WithExternals, Topology.ManagedNodes, Topology.ExternalIds, PairsOf, Topology.VisibleIds;
    var id := CLUSTER + Digits(c);
    ClusterParts(ctx, a, c);
    ClusterParts(ctx, b, c);
    TouchingTells(ctx, a, b, id);
    if AlikeAt(ctx, a, b, id) {
      EndsAlike(Touching(ctx, a, id), Touching(ctx, b, id), id);
      VisibleHere(ctx, a, c);
      VisibleHere(ctx, b, c);
      forall n { SameNodes(ctx, PairsOf(ctx, a), PairsOf(ctx, b), n); }
    }
  }

  lemma VisibleHere(ctx: Context, rows: seq<ServiceRow>, c: nat)
    requires IsContext(ctx) && WellFormedInventory(ctx.inventory) && Topology.HasCluster(ctx, c) && KnownSources(ctx, rows)
    ensures var id := CLUSTER + Digits(c);
      Topology.VisibleIds(Touching(ctx, rows, id), id) <= Topology.WithExternals(Topology.ManagedNodes(ctx), Topology.ExternalIds(PairsOf(ctx, rows))).Keys
  {
    hide IsContext, WellFormedInventory, Topology.HasCluster, KnownSources, Digits, Where, Topology.AllEdges,
         Topology.WithExternals, Topology.ManagedNodes, Topology.ExternalIds, PairsOf, Topology.VisibleIds;
    VisibleAreNodes(ctx, rows, c);
  }

  /** The latest raw row of every connection on the cluster's edges is still there. */
  ghost predicate SamplesLeftAt(s: Source, ctx: Context, rows: seq<ServiceRow>, id: string)
    requires KnownSources(ctx, rows)
  {
    forall e | AtNode(e, id) :: SamplesLeftOn(s, ctx, rows, e)
  }

  /** Scoping and purging together: the graph of a cluster over all rows ever stored shows that
      cluster of the full graph, and the one over the raw rows left is the same, sample detail and
      edge numbers apart, if and only if there is no state filter or the latest row of each of the
      cluster's connections is left. */
  lemma ClusterGraphSurvivesPurge(s: Source, ctx: Context, t: Table, q: Query, c: nat, f: Filter, wide: map<ServiceKey, Service>,
                                  full: map<ServiceKey, Service>, live: map<ServiceKey, Service>)
    requires InStep(s, ctx, t) && q.sources == None && q.inbound == None && q.devices <= ctx.byId.Keys && Topology.HasCluster(ctx, c)
    requires IsView(s.(samples := t), q, wide)
    requires IsView(s.(samples := t), ScopedQuery(ctx, q, c), full) && IsView(s, ScopedQuery(ctx, q, c), live)
    ensures KnownSources(ctx, RowsOf(s, wide, f)) && KnownSources(ctx, RowsOf(s, full, f)) && KnownSources(ctx, RowsOf(s, live, f))
    ensures Topology.GraphOf(ctx, RowsOf(s, full, f), Some(c)).Success? && Topology.GraphOf(ctx, RowsOf(s, live, f), Some(c)).Success?
    ensures ShowsCluster(Topology.GraphOf(ctx, RowsOf(s, full, f), Some(c)).value, Topology.FullGraph(ctx, RowsOf(s, wide, f)), c)
    ensures SameButNumbers(Topology.GraphOf(ctx, RowsOf(s, full, f), Some(c)).value, Topology.GraphOf(ctx, RowsOf(s, live, f), Some(c)).value)
      <==> f.state == "" || SamplesLeftAt(s, ctx, RowsOf(s, full, f), CLUSTER + Digits(c))
  {
    hide InStep, IsView, RowsOf, SameButNumbers, SameDetails, EdgeRows, SamplesLeftOn, KnownSources, StrictTotalOrder, Topology.GraphOf,
         Topology.FullGraph, ShowsCluster, Topology.HasCluster, IsContext, WellFormedInventory, Digits, AtNode, ScopedQuery;
    var id := CLUSTER + Digits(c);
    OrderOf(s, ctx, t);
    InStepOrder(s, ctx, t);
    WholeInStep(s, ctx, t);
    RowsWithout(s, t, wide, f);
    RowsWithout(s, t, full, f);
    ScopedGraph(s.(samples := t), ctx, t, q, c, f, wide, full);
    ScopedDevices(ctx, q, c);
    ViewIsKnown(s, ctx, ScopedQuery(ctx, q, c), live, f);
    ClusterGraphTells(ctx, RowsOf(s, full, f), RowsOf(s, live, f), c);
    forall e
      ensures SameDetails(EdgeRows(ctx, RowsOf(s, full, f), e), EdgeRows(ctx, RowsOf(s, live, f), e))
        <==> f.state == "" || SamplesLeftOn(s, ctx, RowsOf(s, full, f), e)
    {
      EdgeSurvivesPurge(s, ctx, t, ScopedQuery(ctx, q, c), f, full, live, e);
    }
    if f.state == "" || SamplesLeftAt(s, ctx, RowsOf(s, full, f), id) { assert AlikeAt(ctx, RowsOf(s, full, f), RowsOf(s, live, f), id); }
  }

  lemma ScopedDevices(ctx: Context, q: Query, c: nat)
    ensures ScopedQuery(ctx, q, c).devices == q.devices && ScopedQuery(ctx, q, c).cutoff == q.cutoff && ScopedQuery(ctx, q, c).current == q.current
  {
  }

  lemma WholeInStep(s: Source, ctx: Context, t: Table)
    requires InStep(s, ctx, t)
    ensures InStep(s.(samples := t), ctx, t)
  {
    hide Standing, WellFormedTable, KnownSpellings, IsContext, WellFormedInventory, ResolverOk, Coherent, StrictTotalOrder, SubTable;
    WholeTable(t);
  }

  // --------------------------------------------------- one edge's connections

  /** The sort key is no sample detail. */
  lemma SameSortKey(a: Detail, b: Detail)
    requires SameDetail(a, b)
    ensures EdgeConnections.KeyOf(a) == EdgeConnections.KeyOf(b)
  {
  }

  lemma {:induction false} InsertedAlike(a: seq<Detail>, b: seq<Detail>, x: Detail, y: Detail)
    requires SameDetails(a, b) && SameDetail(x, y)
    ensures SameDetails(Inserted(a, x), Inserted(b, y))
    decreases |a|
  {
    hide SameDetail, KeyLess, EdgeConnections.KeyOf;
    if a == [] {
    } else {
      var n := |a| - 1;
      SameSortKey(x, y);
      SameSortKey(a[n], b[n]);
      InsertedAlike(a[..n], b[..n], x, y);
    }
  }

  lemma {:induction false} SortedAlike(a: seq<Detail>, b: seq<Detail>)
    requires SameDetails(a, b)
    ensures SameDetails(SortedByKey(a), SortedByKey(b))
    decreases |a|
  {
    hide SameDetail, Inserted;
    if a == [] {
    } else {
      var n := |a| - 1;
      SortedAlike(a[..n], b[..n]);
      InsertedAlike(SortedByKey(a[..n]), SortedByKey(b[..n]), a[n], b[n]);
    }
  }

  /** A service on an edge is, by its key, in any list like the edge's sorted one. */
  lemma FoundSorted(ctx: Context, a: seq<ServiceRow>, b: seq<ServiceRow>, e: Pair, r: ServiceRow) returns (o: ServiceRow)
    requires KnownSources(ctx, a) && KnownSources(ctx, b) && OnEdge(ctx, a, e, r)
    requires SameDetails(SortedByKey(EdgeRows(ctx, a, e)), SortedByKey(EdgeRows(ctx, b, e)))
    ensures o in b && o.key == r.key
  {
    hide Placement, EdgeRows, SameButDetail, DetailOf, SortedByKey, InOrder;
    var xs, ys := SortedByKey(EdgeRows(ctx, a, e)), SortedByKey(EdgeRows(ctx, b, e));
    EdgeMembers(ctx, a, e);
    EdgeMembers(ctx, b, e);
    SortingSorts(EdgeRows(ctx, a, e));
    SortingSorts(EdgeRows(ctx, b, e));
    assert DetailOf(ctx, r) in multiset(xs);
    var j :| 0 <= j < |xs| && xs[j] == DetailOf(ctx, r);
    assert SameDetail(xs[j], ys[j]);
    assert ys[j] in multiset(EdgeRows(ctx, b, e));
    assert OnEdge(ctx, b, e, ys[j].row);
    DetailRow(ctx, r);
    o := ys[j].row;
  }

  /** Drill-down and purging together. The sorted answer for a pair over the raw rows left is the one
      over all rows ever stored, sample detail apart, if and only if there is no state filter or the
      latest row of each of its connections is left; and where the rows stored as asked suffice, that
      is the sorted list of the full graph's connections of that edge. */
  lemma DrillDownSurvivesPurge(s: Source, ctx: Context, t: Table, parse: string -> Option<int>, p: Pair, cutoff: Option<nat>, f: Filter,
                               wide: map<ServiceKey, Service>, full: map<ServiceKey, Service>, live: map<ServiceKey, Service>)
    requires InStep(s, ctx, t) && ReadsIds(ctx, parse)
    requires var q, r := WindowQuery(s.scans, ctx.byId.Keys, cutoff), EdgeQuery(s.scans, IdsOf(NodeDevices(ctx, parse, p.0)), cutoff, NodeAddresses(ctx, parse, p.1));
      IsView(s.(samples := t), q, wide) && IsView(s.(samples := t), r, full) && IsView(s, r, live)
    ensures KnownSources(ctx, RowsOf(s, wide, f)) && KnownSources(ctx, RowsOf(s, full, f)) && KnownSources(ctx, RowsOf(s, live, f))
    ensures SameDetails(SortedByKey(EdgeRows(ctx, RowsOf(s, full, f), p)), SortedByKey(EdgeRows(ctx, RowsOf(s, live, f), p)))
      <==> f.state == "" || SamplesLeftOn(s, ctx, RowsOf(s, full, f), p)
    ensures AskedSuffice(s.(samples := t), ctx, t, WindowQuery(s.scans, ctx.byId.Keys, cutoff), p, f, wide, full)
      <==> EdgeRows(ctx, RowsOf(s, full, f), p) == EdgeRows(ctx, RowsOf(s, wide, f), p)
  {
    hide InStep, IsView, RowsOf, SameDetails, EdgeRows, SamplesLeftOn, KnownSources, StrictTotalOrder, ReadsIds, NodeDevices, NodeAddresses,
         WindowQuery, EdgeQuery, AskedSuffice, SortedByKey, IsContext, WellFormedInventory;
    var r := EdgeQuery(s.scans, IdsOf(NodeDevices(ctx, parse, p.0)), cutoff, NodeAddresses(ctx, parse, p.1));
    OrderOf(s, ctx, t);
    InStepOrder(s, ctx, t);
    WholeInStep(s, ctx, t);
    RowsWithout(s, t, wide, f);
    RowsWithout(s, t, full, f);
    DrillDownExact(s.(samples := t), ctx, t, parse, p, cutoff, f, wide, full);
    NodeIds(ctx, parse, p.0);
    EdgeDevices(s.scans, IdsOf(NodeDevices(ctx, parse, p.0)), cutoff, NodeAddresses(ctx, parse, p.1));
    EdgeSurvivesPurge(s, ctx, t, r, f, full, live, p);
    if f.state == "" || SamplesLeftOn(s, ctx, RowsOf(s, full, f), p) {
      SortedAlike(EdgeRows(ctx, RowsOf(s, full, f), p), EdgeRows(ctx, RowsOf(s, live, f), p));
    }
    if SameDetails(SortedByKey(EdgeRows(ctx, RowsOf(s, full, f), p)), SortedByKey(EdgeRows(ctx, RowsOf(s, live, f), p))) && f.state != "" {
      forall x | OnEdge(ctx, RowsOf(s, full, f), p, x) ensures exists o :: o in RowsOf(s, live, f) && o.key == x.key {
        var o := FoundSorted(ctx, RowsOf(s, full, f), RowsOf(s, live, f), p, x);
      }
      AlikeKeepsSamples(s, ctx, t, r, f, full, live, p);
    }
  }

  // ---------------------------------------------------------- current windows

  /** Without history the narrower queries survive every purge unchanged too: one cluster's view and
      one edge's view over the rows left are those over all rows ever stored, so the graph of the
      cluster and the connections of the edge are the same under any filter. */
  lemma CurrentScopesSurvive(rules: AddressRules, d: Tables, archive: Table, nextScan: nat, nextRecord: nat,
                             ctx: Context, c: nat, sources: set<nat>, addresses: set<string>,
                             full: map<ServiceKey, Service>, live: map<ServiceKey, Service>,
                             fullEdge: map<ServiceKey, Service>, liveEdge: map<ServiceKey, Service>)
    requires Coherent(rules) && KnownSpellings(rules, archive) && Stored(d, archive, nextScan, nextRecord)
    requires var q := ScopedQuery(ctx, WindowQuery(d.scans, ctx.byId.Keys, None), c);
      IsGroupView(rules, d.observations, q, archive, full) && IsGroupView(rules, d.observations, q, d.Rows(), live)
    requires var q := EdgeQuery(d.scans, sources, None, addresses);
      IsGroupView(rules, d.observations, q, archive, fullEdge) && IsGroupView(rules, d.observations, q, d.Rows(), liveEdge)
    ensures live == full && liveEdge == fullEdge
  {
    hide Coherent, KnownSpellings, Stored, IsGroupView, WindowQuery, ScopedQuery, EdgeQuery, Tables.Rows, CurrentScans;
    CurrentWindow(d.scans, ctx.byId.Keys);
    ScopedDevices(ctx, WindowQuery(d.scans, ctx.byId.Keys, None), c);
    CurrentEdge(d.scans, sources, addresses);
    CurrentViewSurvives(rules, d, archive, nextScan, nextRecord, ctx.byId.Keys,
                        ScopedQuery(ctx, WindowQuery(d.scans, ctx.byId.Keys, None), c), full, live);
    CurrentViewSurvives(rules, d, archive, nextScan, nextRecord, sources, EdgeQuery(d.scans, sources, None, addresses), fullEdge, liveEdge);
  }

  lemma CurrentEdge(scans: map<nat, Scan>, sources: set<nat>, addresses: set<string>)
    ensures var q := EdgeQuery(scans, sources, None, addresses); q.cutoff == None && q.current == CurrentScans(scans, sources)
  {
  }
}
