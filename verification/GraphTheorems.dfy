/** The graph of one cluster and the connections of one edge, against the full graph. */
module GraphTheorems {
  import opened Wrappers
  import opened Ordering
  import opened TextCodec
  import opened Addresses
  import opened Services
  import opened ObservationGroups
  import opened SpellingMerge
  import opened HistoryViews
  import opened HistoryTheorems
  import opened HistoryStore
  import opened ClusterGraph
  import opened GraphScoping
  import Topology = ClusterTopology

  // ------------------------------------------------------------------ nodes

  lemma {:induction false} ClusterIsNode(ctx: Context, cs: seq<Cluster>, c: Cluster)
    requires c in cs
    ensures CLUSTER + Digits(c.id) in Topology.ClusterNodes(ctx, cs)
    decreases |cs|
  {
    hide Digits;
    var front, last := cs[..|cs| - 1], cs[|cs| - 1];
    assert cs == front + [last];
    if c != last { ClusterIsNode(ctx, front, c); }
  }

  lemma {:induction false} DevicesStay(nodes: Topology.Nodes, ds: seq<Device>)
    ensures nodes.Keys <= Topology.WithDevices(nodes, ds).Keys
    ensures forall d | d in ds && d.cluster.None? :: DEVICE + Digits(d.id) in Topology.WithDevices(nodes, ds)
    decreases |ds|
  {
    hide Digits;
    if ds == [] {
    } else {
      assert ds == ds[..|ds| - 1] + [ds[|ds| - 1]];
      DevicesStay(nodes, ds[..|ds| - 1]);
    }
  }

  lemma ManagedIsNode(ctx: Context, d: Device)
    requires d in ctx.inventory.devices && d.cluster != Some(0) && (d.cluster.Some? ==> Topology.HasCluster(ctx, d.cluster.value))
    ensures ManagedNodeId(d) in Topology.ManagedNodes(ctx)
  {
    hide Digits;
    DevicesStay(Topology.ClusterNodes(ctx, ctx.inventory.clusters), ctx.inventory.devices);
    if d.cluster.Some? {
      var c :| c in ctx.inventory.clusters && c.id == d.cluster.value;
      ClusterIsNode(ctx, ctx.inventory.clusters, c);
    }
  }

  lemma PlacedEnds(ctx: Context, rows: seq<ServiceRow>, p: Pair)
    requires IsContext(ctx) && WellFormedInventory(ctx.inventory) && KnownSources(ctx, rows) && p in PairsOf(ctx, rows)
    ensures var nodes := Topology.WithExternals(Topology.ManagedNodes(ctx), Topology.ExternalIds(PairsOf(ctx, rows)));
      p.0 in nodes && p.1 in nodes && p.0 != p.1
  {
    hide IsContext, WellFormedInventory, Placement, ManagedNodeId, Digits, Topology.ManagedNodes;
    var r :| r in rows && Placement(ctx, r) == Some(p);
    Topology.PlacedOrDropped(ctx, r);
    SourceFacts(ctx, r.key.device);
    var source, owners := ctx.byId[r.key.device], At(ctx.owners, r.key.remote);
    Topology.KnownDevice(ctx, source);
    ManagedIsNode(ctx, source);
    if |owners| == 1 {
      Topology.OwnerFacts(ctx, r.key.remote, owners[0]);
      Topology.KnownDevice(ctx, owners[0]);
      ManagedIsNode(ctx, owners[0]);
    } else {
      Topology.PrefixesDiffer(r.key.remote, "");
      assert p.1 in Topology.ExternalIds(PairsOf(ctx, rows));
    }
  }

  /** In the full graph both endpoints of every edge are nodes, no edge is a loop, every edge has
      a connection, and its current and historical counts make up its count. */
  lemma EdgesAreWellFormed(ctx: Context, rows: seq<ServiceRow>)
    requires IsContext(ctx) && WellFormedInventory(ctx.inventory) && KnownSources(ctx, rows)
    ensures var g := Topology.FullGraph(ctx, rows);
      forall e | e in g.edges ::
        && e.data.source in g.nodes && e.data.target in g.nodes && e.data.source != e.data.target
        && e.data.count == |e.data.connections| > 0 && e.data.current + e.data.historical == e.data.count
  {
    hide IsContext, WellFormedInventory, Topology.WithExternals, Topology.ManagedNodes, Topology.ExternalIds, PairsOf, EdgeRows;
    var g := Topology.FullGraph(ctx, rows);
    Topology.PairOrder();
    var pairs := Topology.SortedPairs(ctx, rows);
    forall e | e in g.edges
      ensures e.data.source in g.nodes && e.data.target in g.nodes && e.data.source != e.data.target
      ensures e.data.count == |e.data.connections| > 0 && e.data.current + e.data.historical == e.data.count
    {
      var i :| 0 <= i < |g.edges| && g.edges[i] == e;
      assert pairs[i] in pairs;
      PlacedEnds(ctx, rows, pairs[i]);
      RowsOfPair(ctx, rows, pairs[i]);
    }
  }

  // ------------------------------------------------------- one cluster's graph

  /** `g` shows exactly cluster `c`: the edges of `full` that touch it, numbers aside, and the
      nodes that are the cluster or an endpoint of one of those edges. */
  ghost predicate ShowsCluster(g: Topology.Graph, full: Topology.Graph, c: nat) {
    var id := CLUSTER + Digits(c);
    var touching := Where(full.edges, (e: Topology.Edge) => Topology.Touches(e, id));
    && DataOf(g.edges) == DataOf(touching)
    && g.nodes.Keys == Topology.VisibleIds(touching, id)
    && forall n | n in g.nodes :: n in full.nodes && g.nodes[n] == full.nodes[n]
  }

  lemma SameEnds(es: seq<Topology.Edge>, fs: seq<Topology.Edge>, id: string)
    requires DataOf(es) == DataOf(fs)
    ensures Topology.VisibleIds(es, id) == Topology.VisibleIds(fs, id)
  {
    forall n ensures n in Topology.VisibleIds(es, id) <==> n in Topology.VisibleIds(fs, id) {
      if e :| e in es && (e.data.source == n || e.data.target == n) {
        var i :| 0 <= i < |es| && es[i] == e;
        assert DataOf(es)[i] == DataOf(fs)[i] && fs[i] in fs;
      }
      if f :| f in fs && (f.data.source == n || f.data.target == n) {
        var i :| 0 <= i < |fs| && fs[i] == f;
        assert DataOf(es)[i] == DataOf(fs)[i] && es[i] in es;
      }
    }
  }

  /** Nodes of both graphs are made alike. */
  lemma SameNodes(ctx: Context, ps: set<Pair>, qs: set<Pair>, n: string)
    ensures var a, b := Topology.WithExternals(Topology.ManagedNodes(ctx), Topology.ExternalIds(ps)),
                        Topology.WithExternals(Topology.ManagedNodes(ctx), Topology.ExternalIds(qs));
      n in a && n in b ==> a[n] == b[n]
  {
    hide Topology.ManagedNodes, Topology.ExternalIds;
  }

  lemma ClusterNodeExists(ctx: Context, c: nat)
    requires Topology.HasCluster(ctx, c)
    ensures CLUSTER + Digits(c) in Topology.ManagedNodes(ctx)
  {
    hide Digits;
    var k :| k in ctx.inventory.clusters && k.id == c;
    ClusterIsNode(ctx, ctx.inventory.clusters, k);
    DevicesStay(Topology.ClusterNodes(ctx, ctx.inventory.clusters), ctx.inventory.devices);
  }

  /** Two lists that agree on the edges at a cluster give the same graph of that cluster. */
  lemma ScopedNodes(ctx: Context, rows: seq<ServiceRow>, others: seq<ServiceRow>, c: nat)
    requires IsContext(ctx) && WellFormedInventory(ctx.inventory) && Topology.HasCluster(ctx, c)
    requires KnownSources(ctx, rows) && KnownSources(ctx, others)
    requires forall p | AtNode(p, CLUSTER + Digits(c)) :: EdgeRows(ctx, others, p) == EdgeRows(ctx, rows, p)
    ensures Topology.GraphOf(ctx, others, Some(c)).Success?
    ensures ShowsCluster(Topology.GraphOf(ctx, others, Some(c)).value, Topology.FullGraph(ctx, rows), c)
  {
    hide IsContext, WellFormedInventory, Topology.WithExternals, Topology.ManagedNodes, Topology.ExternalIds, PairsOf, EdgeRows, Digits,
         Topology.AllEdges, Where, DataOf, Topology.VisibleIds, KnownSources;
    var id := CLUSTER + Digits(c);
    var touches := (e: Topology.Edge) => Topology.Touches(e, id);
    SameTouching(ctx, rows, others, id);
    var touching, full := Where(Topology.AllEdges(ctx, others), touches), Where(Topology.AllEdges(ctx, rows), touches);
    SameEnds(touching, full, id);
    VisibleAreNodes(ctx, rows, c);
    VisibleAreNodes(ctx, others, c);
    forall n { SameNodes(ctx, PairsOf(ctx, others), PairsOf(ctx, rows), n); }
  }

  lemma VisibleAreNodes(ctx: Context, rows: seq<ServiceRow>, c: nat)
    requires IsContext(ctx) && WellFormedInventory(ctx.inventory) && Topology.HasCluster(ctx, c) && KnownSources(ctx, rows)
    ensures var id := CLUSTER + Digits(c);
      Topology.VisibleIds(Where(Topology.AllEdges(ctx, rows), (e: Topology.Edge) => Topology.Touches(e, id)), id)
        <= Topology.WithExternals(Topology.ManagedNodes(ctx), Topology.ExternalIds(PairsOf(ctx, rows))).Keys
  {
    hide IsContext, WellFormedInventory, Topology.ManagedNodes, Topology.ExternalIds, PairsOf, EdgeRows, Digits, Topology.AllEdges, KnownSources;
    ClusterNodeExists(ctx, c);
    EdgesAreWellFormed(ctx, rows);
    var g := Topology.FullGraph(ctx, rows);
    var id := CLUSTER + Digits(c);
    var touching := Where(g.edges, (e: Topology.Edge) => Topology.Touches(e, id));
    forall e | e in touching ensures e.data.source in g.nodes && e.data.target in g.nodes { assert e in g.edges; }
  }

  /** Scoping preserves meaning: the graph built from the cluster's own query is the full graph's
      part around that cluster, with the same counts and connection lists. */
  lemma ScopedGraph(s: Source, ctx: Context, t: Table, q: Query, c: nat, f: Filter,
                    wide: map<ServiceKey, Service>, narrow: map<ServiceKey, Service>)
    requires InStep(s, ctx, t) && q.sources == None && q.inbound == None && q.devices <= ctx.byId.Keys
    requires IsView(s, q, wide) && IsView(s, ScopedQuery(ctx, q, c), narrow) && Topology.HasCluster(ctx, c)
    ensures KnownSources(ctx, RowsOf(s, wide, f)) && KnownSources(ctx, RowsOf(s, narrow, f))
    ensures Topology.GraphOf(ctx, RowsOf(s, narrow, f), Some(c)).Success?
    ensures ShowsCluster(Topology.GraphOf(ctx, RowsOf(s, narrow, f), Some(c)).value, Topology.FullGraph(ctx, RowsOf(s, wide, f)), c)
  {
    hide Standing, WellFormedTable, KnownSpellings, IsContext, WellFormedInventory, Coherent, ResolverOk, IsView, EdgeRows, RowsOf,
         Topology.GraphOf, Topology.FullGraph, ShowsCluster, KnownSources, Topology.HasCluster;
    ViewIsKnown(s, ctx, q, wide, f);
    ViewIsKnown(s, ctx, ScopedQuery(ctx, q, c), narrow, f);
    forall p | AtNode(p, CLUSTER + Digits(c)) ensures EdgeRows(ctx, RowsOf(s, narrow, f), p) == EdgeRows(ctx, RowsOf(s, wide, f), p) {
      ScopedEdge(s, ctx, t, q, c, f, wide, narrow, p);
    }
    ScopedNodes(ctx, RowsOf(s, wide, f), RowsOf(s, narrow, f), c);
  }

  /** The list order: what `sorted` and the filters make of an aggregated view. */
  method ListRows(s: Source, q: Query, f: Filter) returns (rows: seq<ServiceRow>, ghost view: map<ServiceKey, Service>)
    requires StrictTotalOrder(s.order)
    ensures IsView(s, q, view) && rows == RowsOf(s, view, f)
  {
    hide Passes, Listed, Where, IsGroupView;
    var services := AggregateObservationGroups(s.rules, s.obs, q, s.samples);
    view := services;
    rows := FilterServiceConnections(Listed(services, s.order), f);
  }

  /** `build_cluster_topology`, for the whole inventory or for one cluster. */
  method BuildClusterTopology(s: Source, ctx: Context, cutoff: Option<nat>, target: Option<nat>, f: Filter, ghost t: Table)
      returns (r: Result<Topology.Graph, Topology.TopologyError>)
    requires InStep(s, ctx, t)
    ensures r.Failure? <==> target.Some? && !Topology.HasCluster(ctx, target.value)
    ensures forall wide | IsView(s, WindowQuery(s.scans, ctx.byId.Keys, cutoff), wide) ::
      && KnownSources(ctx, RowsOf(s, wide, f))
      && (r.Success? ==>
            var full := Topology.FullGraph(ctx, RowsOf(s, wide, f));
            if target.Some? then ShowsCluster(r.value, full, target.value) else r.value == full)
  {
    hide Standing, WellFormedTable, KnownSpellings, IsContext, WellFormedInventory, Coherent, ResolverOk, IsView, RowsOf, ShowsCluster, KnownSources, WindowQuery,
         Topology.GraphOf, Topology.FullGraph, Topology.HasCluster;
    var q := WindowQuery(s.scans, ctx.byId.Keys, cutoff);
    WindowDevices(s.scans, ctx.byId.Keys, cutoff);
    PlainWindow(s.scans, ctx.byId.Keys, cutoff);
    forall wide | IsView(s, q, wide) ensures KnownSources(ctx, RowsOf(s, wide, f)) { ViewIsKnown(s, ctx, q, wide, f); }
    if target.Some? && !Topology.HasCluster(ctx, target.value) { return Failure(Topology.UnknownCluster(target.value)); }
    var rows: seq<ServiceRow>;
    ghost var view: map<ServiceKey, Service>;
    if target.Some? {
      rows, view := ListRows(s, ScopedQuery(ctx, q, target.value), f);
      ViewIsKnown(s, ctx, ScopedQuery(ctx, q, target.value), view, f);
      forall wide | IsView(s, q, wide)
        ensures KnownSources(ctx, RowsOf(s, wide, f)) && Topology.GraphOf(ctx, rows, target).Success?
        ensures ShowsCluster(Topology.GraphOf(ctx, rows, target).value, Topology.FullGraph(ctx, RowsOf(s, wide, f)), target.value)
      {
        ScopedGraph(s, ctx, t, q, target.value, f, wide, view);
      }
    } else {
      rows, view := ListRows(s, q, f);
      ViewIsKnown(s, ctx, q, view, f);
      forall wide | IsView(s, q, wide) ensures wide == view { SameView(s, ctx, t, q, wide, view); }
      WholeGraph(ctx, rows);
    }
    GraphExists(ctx, rows, target);
    r := Topology.AssembleGraph(ctx, rows, target);
  }

  lemma WholeGraph(ctx: Context, rows: seq<ServiceRow>)
    requires KnownSources(ctx, rows)
    ensures Topology.GraphOf(ctx, rows, None) == Result.Success(Topology.FullGraph(ctx, rows))
  {
  }

  lemma GraphExists(ctx: Context, rows: seq<ServiceRow>, target: Option<nat>)
    requires KnownSources(ctx, rows) && (target.Some? ==> Topology.HasCluster(ctx, target.value))
    ensures Topology.GraphOf(ctx, rows, target).Success?
  {
    hide Topology.AllEdges, Topology.ManagedNodes, Topology.WithExternals, Where;
  }

  lemma PlainWindow(scans: map<nat, Scan>, devices: set<nat>, cutoff: Option<nat>)
    ensures var q := WindowQuery(scans, devices, cutoff); q.sources == None && q.inbound == None && q.remotes == None && q.cutoff == cutoff
    ensures WindowQuery(scans, devices, cutoff).current == CurrentScans(scans, devices)
  {
  }

  /** A query has one view. */
  lemma SameView(s: Source, ctx: Context, t: Table, q: Query, a: map<ServiceKey, Service>, b: map<ServiceKey, Service>)
    requires InStep(s, ctx, t) && IsView(s, q, a) && IsView(s, q, b)
    ensures a == b
  {
    hide Standing, WellFormedTable, KnownSpellings, IsContext, WellFormedInventory, Coherent, ResolverOk, IsGroupView;
    NarrowsItself(s, t, q);
    NarrowedView(s.rules, t, s.obs, q, q, k => true, s.samples, a, b);
  }

  lemma NarrowsItself(s: Source, t: Table, q: Query)
    ensures Narrows(s.rules, t, q, q, k => true)
  {
  }
}
