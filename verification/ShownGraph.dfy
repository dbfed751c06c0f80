/** What the graph shows, in terms of the inventory and of stored columns alone. */
module ShownGraph {
  import opened Wrappers
  import opened Ordering
  import opened TextCodec
  import opened Services
  import opened HistoryStore
  import opened ReportedServices
  import opened ClusterGraph
  import opened GraphScoping
  import opened GraphTheorems
  import Topology = ClusterTopology

  // ---------------------------------------------------------------- what is read

  /** `s` is the newest successful scan of its device. */
  ghost predicate IsNewestScan(scans: map<nat, Scan>, i: nat) {
    i in scans && scans[i].status == ScanStatus.Success && forall j | SuccessOf(scans, scans[i].device, j) && j != i :: Newer(scans[i], scans[j])
  }

  /** The window of a request: of its devices the rows of each newest successful scan, and all rows since the cutoff if there is one. */
  lemma WindowExactly(scans: map<nat, Scan>, devices: set<nat>, cutoff: Option<nat>, r: Row)
    requires ScanIdsMatch(scans) && r.scan.id in scans && scans[r.scan.id] == r.scan
    ensures Asked(WindowQuery(scans, devices, cutoff), r) <==>
      && r.scan.status == ScanStatus.Success && r.record.remoteIp.Some? && r.scan.device in devices
      && (IsNewestScan(scans, r.scan.id) || (cutoff.Some? && cutoff.value <= r.scan.started))
  {
    hide IsNewestScan, CurrentScans;
    CurrentIsNewest(scans, devices, r.scan.id);
    CurrentKnown(scans, devices);
  }

  lemma CurrentKnown(scans: map<nat, Scan>, devices: set<nat>)
    ensures forall i | i in CurrentScans(scans, devices) :: i in scans && scans[i].device in devices
  {
  }

  lemma CurrentIsNewest(scans: map<nat, Scan>, devices: set<nat>, i: nat)
    requires ScanIdsMatch(scans) && i in scans
    ensures i in CurrentScans(scans, devices) <==> scans[i].device in devices && IsNewestScan(scans, i)
  {
    var ahead := Ahead(scans, scans[i]);
    if i in CurrentScans(scans, devices) {
      forall j | SuccessOf(scans, scans[i].device, j) && j != i ensures Newer(scans[i], scans[j]) { assert j !in ahead; }
    }
    if scans[i].device in devices && IsNewestScan(scans, i) {
      forall j | j in scans && SuccessOf(scans, scans[i].device, j) ensures !Newer(scans[j], scans[i]) {}
    }
  }

  /** The list behind a graph: the services of the view that the filters let through. */
  lemma ListExactly(s: Source, view: map<ServiceKey, Service>, f: Filter, r: ServiceRow)
    requires StrictTotalOrder(s.order)
    ensures r in RowsOf(s, view, f) <==> r.key in view && r.service == view[r.key] && Sought(f, r.service)
  {
    hide Passes, Sought;
    PassesSought(f, r);
    if r in RowsOf(s, view, f) { RowPasses(s, view, f, r); }
    if r.key in view && r.service == view[r.key] && Sought(f, r.service) { ListedRow(s, view, f, r.key); }
  }

  /** Members of a cluster are the devices assigned to it, owners of an address the devices whose host resolves to it. */
  lemma ContextExactly(ctx: Context, d: Device, c: nat, a: string)
    requires IsContext(ctx)
    ensures d in At(ctx.members, c) <==> d in ctx.inventory.devices && d.cluster == Some(c) && c != 0
    ensures d in At(ctx.owners, a) <==> d in ctx.inventory.devices && a in ctx.inventory.resolve(d.host)
  {
    assert At(ctx.members, c) == MembersOf(ctx.inventory.devices, c);
    assert At(ctx.owners, a) == OwnersOf(ctx.inventory.devices, ctx.inventory.resolve, a);
  }

  // ------------------------------------------------------------------- nodes

  ghost predicate ClusterShown(ctx: Context, c: Cluster, id: string, n: Topology.Node) {
    var members := At(ctx.members, c.id);
    && id == "cluster-" + Digits(c.id) && n.kind == Topology.ClusterNode && n.title == c.name
    && |n.members| == |members| && forall i | 0 <= i < |members| :: n.members[i] == members[i].id
  }

  ghost predicate DeviceShown(d: Device, id: string, n: Topology.Node) {
    d.cluster == None && id == "device-" + Digits(d.id) && n.kind == Topology.DeviceNode && n.title == d.name && n.members == []
  }

  ghost predicate ExternalShown(a: string, id: string, n: Topology.Node) {
    id == "external-" + a && n.kind == Topology.ExternalNode && n.title == a && n.members == []
  }

  lemma {:induction false} ClusterNodesShow(ctx: Context, cs: seq<Cluster>)
    ensures forall id | id in Topology.ClusterNodes(ctx, cs) :: exists c :: c in cs && ClusterShown(ctx, c, id, Topology.ClusterNodes(ctx, cs)[id])
    ensures forall c | c in cs :: "cluster-" + Digits(c.id) in Topology.ClusterNodes(ctx, cs)
    decreases |cs|
  {
    hide Digits;
    if cs == [] {
    } else {
      var front, last := cs[..|cs| - 1], cs[|cs| - 1];
      assert cs == front + [last];
      ClusterNodesShow(ctx, front);
      var nodes := Topology.ClusterNodes(ctx, cs);
      forall id | id in nodes ensures exists c :: c in cs && ClusterShown(ctx, c, id, nodes[id]) {
        if id == CLUSTER + Digits(last.id) {
          assert ClusterShown(ctx, last, id, nodes[id]);
        } else {
          var c :| c in front && ClusterShown(ctx, c, id, Topology.ClusterNodes(ctx, front)[id]);
          assert c in cs && ClusterShown(ctx, c, id, nodes[id]);
        }
      }
    }
  }

  lemma {:induction false} DeviceNodesShow(nodes: Topology.Nodes, ds: seq<Device>)
    ensures forall id | id in Topology.WithDevices(nodes, ds) ::
      || (id in nodes && Topology.WithDevices(nodes, ds)[id] == nodes[id])
      || exists d :: d in ds && DeviceShown(d, id, Topology.WithDevices(nodes, ds)[id])
    decreases |ds|
  {
    hide Digits;
    if ds == [] {
    } else {
      var front, last := ds[..|ds| - 1], ds[|ds| - 1];
      assert ds == front + [last];
      DeviceNodesShow(nodes, front);
      var before, after := Topology.WithDevices(nodes, front), Topology.WithDevices(nodes, ds);
      forall id | id in after
        ensures (id in nodes && after[id] == nodes[id]) || exists d :: d in ds && DeviceShown(d, id, after[id])
      {
        if last.cluster.None? && id == DEVICE + Digits(last.id) {
          assert DeviceShown(last, id, after[id]);
        } else if !(id in nodes && before[id] == nodes[id]) {
          var d :| d in front && DeviceShown(d, id, before[id]);
          assert d in ds && DeviceShown(d, id, after[id]);
        }
      }
    }
  }

  /** What a node stands for: a cluster with its members, a device in no cluster, or an external address some service is placed on. */
  ghost predicate NodeShown(ctx: Context, rows: seq<ServiceRow>, id: string, n: Topology.Node)
    requires KnownSources(ctx, rows)
  {
    || (exists c :: c in ctx.inventory.clusters && ClusterShown(ctx, c, id, n))
    || (exists d :: d in ctx.inventory.devices && DeviceShown(d, id, n))
    || (exists a :: ExternalShown(a, id, n) && exists p :: p in PairsOf(ctx, rows) && p.1 == id)
  }

  /** The nodes of the full graph are those of the inventory and the external addresses reached, each shown as what it stands for. */
  lemma NodesExactly(ctx: Context, rows: seq<ServiceRow>)
    requires KnownSources(ctx, rows)
    ensures var nodes := Topology.FullGraph(ctx, rows).nodes;
      && (forall id | id in nodes :: NodeShown(ctx, rows, id, nodes[id]))
      && (forall c | c in ctx.inventory.clusters :: "cluster-" + Digits(c.id) in nodes)
      && (forall d | d in ctx.inventory.devices && d.cluster == None :: "device-" + Digits(d.id) in nodes)
      && (forall p | p in PairsOf(ctx, rows) && |p.1| >= 9 && p.1[..9] == "external-" :: p.1 in nodes)
  {
    hide Digits, PairsOf, ClusterShown, DeviceShown, Topology.ClusterNodes, Topology.WithDevices, Topology.AllEdges;
    ClusterNodesShow(ctx, ctx.inventory.clusters);
    var clusters := Topology.ClusterNodes(ctx, ctx.inventory.clusters);
    DeviceNodesShow(clusters, ctx.inventory.devices);
    DevicesStay(clusters, ctx.inventory.devices);
    var nodes := Topology.FullGraph(ctx, rows).nodes;
    var managed := Topology.ManagedNodes(ctx);
    forall id | id in nodes ensures NodeShown(ctx, rows, id, nodes[id]) {
      if id !in managed {
        var p :| p in PairsOf(ctx, rows) && Topology.StartsWith(p.1, EXTERNAL) && p.1 == id;
        ExternalTitle(id);
        assert ExternalShown(Topology.After(id, EXTERNAL), id, nodes[id]);
      } else {
        ManagedShown(ctx, rows, id);
      }
    }
  }

  lemma ManagedShown(ctx: Context, rows: seq<ServiceRow>, id: string)
    requires KnownSources(ctx, rows) && id in Topology.ManagedNodes(ctx)
    ensures NodeShown(ctx, rows, id, Topology.ManagedNodes(ctx)[id])
  {
    hide Digits, PairsOf, ClusterShown, DeviceShown, Topology.ClusterNodes, Topology.WithDevices;
    ClusterNodesShow(ctx, ctx.inventory.clusters);
    DeviceNodesShow(Topology.ClusterNodes(ctx, ctx.inventory.clusters), ctx.inventory.devices);
  }

  lemma ExternalTitle(id: string)
    requires Topology.StartsWith(id, EXTERNAL)
    ensures id == "external-" + Topology.After(id, EXTERNAL)
  {
  }

  // ------------------------------------------------------------------- edges

  /** Edge `a` stands before edge `b`: by source, then target. */
  ghost predicate EdgeBefore(a: Topology.Edge, b: Topology.Edge) {
    TextLess(a.data.source, b.data.source) || (a.data.source == b.data.source && TextLess(a.data.target, b.data.target))
  }

  /** The edges of the full graph stand in order and are numbered by it; each lists exactly the services
      placed on it and is current exactly when one of them is. */
  lemma EdgesExactly(ctx: Context, rows: seq<ServiceRow>)
    requires KnownSources(ctx, rows)
    ensures var es := Topology.FullGraph(ctx, rows).edges;
      && (forall i | 0 <= i < |es| :: es[i].index == i)
      && (forall i, j | 0 <= i < j < |es| :: EdgeBefore(es[i], es[j]))
      && (forall i | 0 <= i < |es| :: es[i].data.isCurrent <==> exists d | d in es[i].data.connections :: d.row.service.isCurrent)
      && (forall i | 0 <= i < |es| :: forall d | d in es[i].data.connections :: OnEdge(ctx, rows, (es[i].data.source, es[i].data.target), d.row))
      && (forall r | r in rows && Placement(ctx, r).Some? ::
            exists i :: 0 <= i < |es| && (es[i].data.source, es[i].data.target) == Placement(ctx, r).value && DetailOf(ctx, r) in es[i].data.connections)
  {
    hide PairsOf, EdgeRows, Placement, DetailOf, Topology.CurrentIn, Topology.ObservationsIn, TextLess, Topology.ManagedNodes;
    Topology.PairOrder();
    var pairs := Topology.SortedPairs(ctx, rows);
    var es := Topology.FullGraph(ctx, rows).edges;
    assert es == Topology.EdgesAt(ctx, rows, pairs);
    forall i, j | 0 <= i < j < |es| ensures EdgeBefore(es[i], es[j]) { assert Topology.PairLess(pairs[i], pairs[j]); }
    forall i | 0 <= i < |es|
      ensures es[i].data.isCurrent <==> exists d | d in es[i].data.connections :: d.row.service.isCurrent
      ensures forall d | d in es[i].data.connections :: OnEdge(ctx, rows, (es[i].data.source, es[i].data.target), d.row)
    {
      CurrentExactly(EdgeRows(ctx, rows, pairs[i]));
      EdgeMembers(ctx, rows, pairs[i]);
    }
    forall r | r in rows && Placement(ctx, r).Some?
      ensures exists i :: 0 <= i < |es| && (es[i].data.source, es[i].data.target) == Placement(ctx, r).value && DetailOf(ctx, r) in es[i].data.connections
    {
      PlacedPair(ctx, rows, r);
      var p := Placement(ctx, r).value;
      assert p in pairs;
      var i :| 0 <= i < |pairs| && pairs[i] == p;
      EdgeMembers(ctx, rows, p);
      assert OnEdge(ctx, rows, p, r) && es[i].data.source == p.0 && es[i].data.target == p.1;
    }
  }

  lemma PlacedPair(ctx: Context, rows: seq<ServiceRow>, r: ServiceRow)
    requires KnownSources(ctx, rows) && r in rows && Placement(ctx, r).Some?
    ensures Placement(ctx, r).value in PairsOf(ctx, rows)
  {
    hide Placement;
  }

  lemma {:induction false} CurrentExactly(ds: seq<Detail>)
    ensures Topology.CurrentIn(ds) > 0 <==> exists d | d in ds :: d.row.service.isCurrent
    decreases |ds|
  {
    if ds == [] {
    } else {
      var front, last := ds[..|ds| - 1], ds[|ds| - 1];
      assert ds == front + [last];
      CurrentExactly(front);
      if d :| d in ds && d.row.service.isCurrent { assert d == last || d in front; }
      if d :| d in front && d.row.service.isCurrent { assert d in ds; }
      if last.row.service.isCurrent { assert last in ds; }
    }
  }

  /** The graph of one cluster: the full graph's edges that end at it, and the nodes those edges and the cluster name. */
  lemma ClusterGraphExactly(ctx: Context, rows: seq<ServiceRow>, c: nat)
    requires KnownSources(ctx, rows) && exists k :: k in ctx.inventory.clusters && k.id == c
    ensures Topology.GraphOf(ctx, rows, Some(c)).Success?
    ensures var g, full, id := Topology.GraphOf(ctx, rows, Some(c)).value, Topology.FullGraph(ctx, rows), "cluster-" + Digits(c);
      && (forall e :: e in g.edges <==> e in full.edges && (e.data.source == id || e.data.target == id))
      && (forall n :: n in g.nodes <==> n in full.nodes && (n == id || exists e :: e in g.edges && (e.data.source == n || e.data.target == n)))
      && (forall n | n in g.nodes :: g.nodes[n] == full.nodes[n])
  {
    hide Digits, Where, Topology.FullGraph;
    assert Topology.HasCluster(ctx, c);
    var g, id := Topology.GraphOf(ctx, rows, Some(c)).value, CLUSTER + Digits(c);
    forall n ensures n in Topology.VisibleIds(g.edges, id) <==> n == id || exists e :: e in g.edges && (e.data.source == n || e.data.target == n) {
      if e :| e in g.edges && (e.data.source == n || e.data.target == n) { assert n in Topology.VisibleIds(g.edges, id); }
    }
  }
}
