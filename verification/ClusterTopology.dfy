/** The whole graph from the aggregated services, and the connections of one edge on demand. */
module ClusterTopology {
  import opened Wrappers
  import opened Ordering
  import opened TextCodec
  import opened ClusterGraph

  // ----------------------------------------------------------------- edges

  predicate PairLess(a: Pair, b: Pair) { TextLess(a.0, b.0) || (a.0 == b.0 && TextLess(a.1, b.1)) }

  lemma PairOrder()
    ensures StrictTotalOrder(PairLess)
  {
    hide TextLess;
    TextOrders();
  }

  function CurrentIn(ds: seq<Detail>): (n: nat)
    ensures n <= |ds|
  {
    if ds == [] then 0 else CurrentIn(ds[..|ds| - 1]) + if ds[|ds| - 1].row.service.isCurrent then 1 else 0
  }

  function ObservationsIn(ds: seq<Detail>): nat {
    if ds == [] then 0 else ObservationsIn(ds[..|ds| - 1]) + ds[|ds| - 1].row.service.observations
  }

  datatype EdgeData = EdgeData(
    source: string, target: string, count: nat, current: nat, historical: nat, observations: nat,
    isCurrent: bool, connections: seq<Detail>)

  /** An edge; `index` numbers the edges of one response. */
  datatype Edge = Edge(index: nat, data: EdgeData)

  function DataOf(p: Pair, ds: seq<Detail>): EdgeData {
    EdgeData(p.0, p.1, |ds|, CurrentIn(ds), |ds| - CurrentIn(ds), ObservationsIn(ds), CurrentIn(ds) > 0, ds)
  }

  function EdgeAt(ctx: Context, rows: seq<ServiceRow>, p: Pair): EdgeData
    requires KnownSources(ctx, rows)
  {
    DataOf(p, EdgeRows(ctx, rows, p))
  }

  function EdgesAt(ctx: Context, rows: seq<ServiceRow>, ps: seq<Pair>): (r: seq<Edge>)
    requires KnownSources(ctx, rows)
    ensures |r| == |ps| && forall i | 0 <= i < |r| :: r[i] == Edge(i, EdgeAt(ctx, rows, ps[i]))
  {
    seq(|ps|, i requires 0 <= i < |ps| => Edge(i, EdgeAt(ctx, rows, ps[i])))
  }

  function SortedPairs(ctx: Context, rows: seq<ServiceRow>): seq<Pair>
    requires KnownSources(ctx, rows)
  {
    PairOrder();
    Ordered(PairsOf(ctx, rows), PairLess)
  }

  function AllEdges(ctx: Context, rows: seq<ServiceRow>): seq<Edge>
    requires KnownSources(ctx, rows)
  {
    EdgesAt(ctx, rows, SortedPairs(ctx, rows))
  }

  // ----------------------------------------------------------------- nodes

  datatype NodeKind = ClusterNode | DeviceNode | ExternalNode

  datatype Node = Node(kind: NodeKind, title: string, members: seq<nat>)

  type Nodes = map<string, Node>

  function DeviceIds(ds: seq<Device>): seq<nat> { seq(|ds|, i requires 0 <= i < |ds| => ds[i].id) }

  function ClusterNodes(ctx: Context, cs: seq<Cluster>): Nodes {
    if cs == [] then map[]
    else
      var c := cs[|cs| - 1];
      ClusterNodes(ctx, cs[..|cs| - 1])[CLUSTER + Digits(c.id) := Node(ClusterNode, c.name, DeviceIds(At(ctx.members, c.id)))]
  }

  function WithDevices(nodes: Nodes, ds: seq<Device>): Nodes {
    if ds == [] then nodes
    else
      var d, before := ds[|ds| - 1], WithDevices(nodes, ds[..|ds| - 1]);
      if d.cluster.None? then before[DEVICE + Digits(d.id) := Node(DeviceNode, d.name, [])] else before
  }

  function ManagedNodes(ctx: Context): Nodes { WithDevices(ClusterNodes(ctx, ctx.inventory.clusters), ctx.inventory.devices) }

  predicate StartsWith(s: string, prefix: string) { |prefix| <= |s| && s[..|prefix|] == prefix }

  function After(s: string, prefix: string): string { if StartsWith(s, prefix) then s[|prefix|..] else s }

  function ExternalIds(ps: set<Pair>): set<string> { set p | p in ps && StartsWith(p.1, EXTERNAL) :: p.1 }

  function WithExternals(nodes: Nodes, ids: set<string>): Nodes {
    nodes + map id | id in ids && id !in nodes :: Node(ExternalNode, After(id, EXTERNAL), [])
  }

  datatype Graph = Graph(nodes: Nodes, edges: seq<Edge>)

  predicate Touches(e: Edge, id: string) { e.data.source == id || e.data.target == id }

  function VisibleIds(edges: seq<Edge>, id: string): set<string> {
    {id} + (set e | e in edges :: e.data.source) + (set e | e in edges :: e.data.target)
  }

  function Shown(nodes: Nodes, ids: set<string>): Nodes { map id | id in nodes && id in ids :: nodes[id] }

  datatype TopologyError = UnknownCluster(id: nat)

  predicate HasCluster(ctx: Context, c: nat) { exists k :: k in ctx.inventory.clusters && k.id == c }

  /** All edges and nodes for the aggregated and filtered `rows`. */
  function FullGraph(ctx: Context, rows: seq<ServiceRow>): Graph
    requires KnownSources(ctx, rows)
  {
    Graph(WithExternals(ManagedNodes(ctx), ExternalIds(PairsOf(ctx, rows))), AllEdges(ctx, rows))
  }

  /** The response: all of it, or what shows one cluster. */
  function GraphOf(ctx: Context, rows: seq<ServiceRow>, target: Option<nat>): Result<Graph, TopologyError>
    requires KnownSources(ctx, rows)
  {
    if target.Some? && !HasCluster(ctx, target.value) then Failure(UnknownCluster(target.value))
    else
      var full := FullGraph(ctx, rows);
      if target.None? then Result.Success(full)
      else
        var id := CLUSTER + Digits(target.value);
        var touching := Where(full.edges, (e: Edge) => Touches(e, id));
        Result.Success(Graph(Shown(full.nodes, VisibleIds(touching, id)), touching))
  }

  // ---------------------------------------------------------- building it

  method CountEdge(p: Pair, details: seq<Detail>) returns (data: EdgeData)
    ensures data == DataOf(p, details)
  {
    var current, observations := 0, 0;
    var n := 0;
    while n < |details|
      invariant 0 <= n <= |details| && current == CurrentIn(details[..n]) && observations == ObservationsIn(details[..n])
    {
      assert details[..n + 1][..n] == details[..n];
      if details[n].row.service.isCurrent { current := current + 1; }
      observations := observations + details[n].row.service.observations;
      n := n + 1;
    }
    assert details[..n] == details;
    data := EdgeData(p.0, p.1, |details|, current, |details| - current, observations, current > 0, details);
  }

  method BuildNodes(ctx: Context) returns (nodes: Nodes)
    ensures nodes == ManagedNodes(ctx)
  {
    nodes := map[];
    var clusters, devices := ctx.inventory.clusters, ctx.inventory.devices;
    var n := 0;
    while n < |clusters|
      invariant 0 <= n <= |clusters| && nodes == ClusterNodes(ctx, clusters[..n])
    {
      assert clusters[..n + 1][..n] == clusters[..n];
      nodes := nodes[CLUSTER + Digits(clusters[n].id) := Node(ClusterNode, clusters[n].name, DeviceIds(At(ctx.members, clusters[n].id)))];
      n := n + 1;
    }
    assert clusters[..n] == clusters;
    ghost var base := nodes;
    n := 0;
    while n < |devices|
      invariant 0 <= n <= |devices| && nodes == WithDevices(base, devices[..n])
    {
      assert devices[..n + 1][..n] == devices[..n];
      if devices[n].cluster.None? { nodes := nodes[DEVICE + Digits(devices[n].id) := Node(DeviceNode, devices[n].name, [])]; }
      n := n + 1;
    }
    assert devices[..n] == devices;
  }

  /** Targets outside the inventory become nodes, once each. */
  method AddExternals(nodes: Nodes, ps: set<Pair>) returns (r: Nodes)
    ensures r == WithExternals(nodes, ExternalIds(ps))
  {
    hide ExternalIds, WithExternals, StartsWith;
    r := nodes;
    var todo := ps;
    ghost var done: set<Pair> := {};
    NoExternals(nodes);
    while todo != {}
      invariant todo <= ps && done == ps - todo && r == WithExternals(nodes, ExternalIds(done))
      decreases |todo|
    {
      var p: Pair :| p in todo;
      OneExternal(nodes, done, p);
      if StartsWith(p.1, EXTERNAL) && p.1 !in r { r := r[p.1 := Node(ExternalNode, After(p.1, EXTERNAL), [])]; }
      todo, done := todo - {p}, done + {p};
    }
    assert done == ps;
  }

  lemma NoExternals(nodes: Nodes)
    ensures WithExternals(nodes, ExternalIds({})) == nodes
  {
  }

  lemma OneExternal(nodes: Nodes, done: set<Pair>, p: Pair)
    ensures var before := WithExternals(nodes, ExternalIds(done));
      WithExternals(nodes, ExternalIds(done + {p}))
        == if StartsWith(p.1, EXTERNAL) && p.1 !in before then before[p.1 := Node(ExternalNode, After(p.1, EXTERNAL), [])] else before
  {
    hide StartsWith, After;
    assert ExternalIds(done + {p}) == ExternalIds(done) + if StartsWith(p.1, EXTERNAL) then {p.1} else {} by {
      forall id ensures id in ExternalIds(done + {p}) <==> id in ExternalIds(done) || (StartsWith(p.1, EXTERNAL) && id == p.1) {
        if id in ExternalIds(done) { var o :| o in done && StartsWith(o.1, EXTERNAL) && o.1 == id; assert o in done + {p}; }
        assert p in done + {p};
      }
    }
  }

  /** `build_cluster_topology` from the filtered services on. */
  method AssembleGraph(ctx: Context, services: seq<ServiceRow>, target: Option<nat>) returns (r: Result<Graph, TopologyError>)
    requires KnownSources(ctx, services)
    ensures r == GraphOf(ctx, services, target)
  {
    hide ManagedNodes, WithExternals, ExternalIds, PairsOf, EdgeRows, DataOf, KnownSources, Where;
    if target.Some? && !HasCluster(ctx, target.value) { return Failure(UnknownCluster(target.value)); }
    var nodes := BuildNodes(ctx);
    var groups := GroupClusterEdges(ctx, services);
    nodes := AddExternals(nodes, groups.Keys);
    PairOrder();
    var order := Ordered(groups.Keys, PairLess);
    var edges := [];
    while |edges| < |order|
      invariant |edges| <= |order|
      invariant forall i | 0 <= i < |edges| :: edges[i] == Edge(i, EdgeAt(ctx, services, order[i]))
    {
      assert order[|edges|] in groups.Keys;
      var data := CountEdge(order[|edges|], groups[order[|edges|]]);
      edges := edges + [Edge(|edges|, data)];
    }
    assert edges == AllEdges(ctx, services);
    if target.None? { return Result.Success(Graph(nodes, edges)); }
    var id := CLUSTER + Digits(target.value);
    var touching := Where(edges, (e: Edge) => Touches(e, id));
    r := Result.Success(Graph(Shown(nodes, VisibleIds(touching, id)), touching));
  }

  // ------------------------------------------------------------ conservation

  /** The sum of `w` over the services that are placed on some edge. */
  function KeptWeight(ctx: Context, rows: seq<ServiceRow>, w: ServiceRow -> nat): nat
    requires KnownSources(ctx, rows)
  {
    if rows == [] then 0
    else
      var front, last := rows[..|rows| - 1], rows[|rows| - 1];
      assert rows == front + [last];
      KeptWeight(ctx, front, w) + if Placement(ctx, last).Some? then w(last) else 0
  }

  function DetailWeight(ds: seq<Detail>, w: ServiceRow -> nat): nat {
    if ds == [] then 0 else DetailWeight(ds[..|ds| - 1], w) + w(ds[|ds| - 1].row)
  }

  /** The sum of `w` over the connections of the edges `ps`. */
  function EdgeWeight(ctx: Context, rows: seq<ServiceRow>, ps: seq<Pair>, w: ServiceRow -> nat): nat
    requires KnownSources(ctx, rows)
  {
    if ps == [] then 0 else EdgeWeight(ctx, rows, ps[..|ps| - 1], w) + DetailWeight(EdgeRows(ctx, rows, ps[|ps| - 1]), w)
  }

  predicate Distinct(ps: seq<Pair>) { forall i, j | 0 <= i < j < |ps| :: ps[i] != ps[j] }

  lemma DetailWeightAppend(ds: seq<Detail>, d: Detail, w: ServiceRow -> nat)
    ensures DetailWeight(ds + [d], w) == DetailWeight(ds, w) + w(d.row)
  {
    assert (ds + [d])[..|ds|] == ds;
  }

  /** One more service adds its weight to exactly one of the edges, if it is placed at all. */
  lemma {:induction false} WeightOfLast(ctx: Context, rows: seq<ServiceRow>, ps: seq<Pair>, w: ServiceRow -> nat)
    requires KnownSources(ctx, rows) && rows != [] && Distinct(ps) && KnownSources(ctx, rows[..|rows| - 1])
    ensures var last := rows[|rows| - 1];
      EdgeWeight(ctx, rows, ps, w) == EdgeWeight(ctx, rows[..|rows| - 1], ps, w)
        + if Placement(ctx, last).Some? && Placement(ctx, last).value in ps then w(last) else 0
    decreases |ps|
  {
    hide Placement;
    if ps == [] {
    } else {
      var front, last, p := rows[..|rows| - 1], rows[|rows| - 1], ps[|ps| - 1];
      var others := ps[..|ps| - 1];
      assert ps == others + [p] && p !in others;
      WeightOfLast(ctx, rows, others, w);
      if Placement(ctx, last) == Some(p) { DetailWeightAppend(EdgeRows(ctx, front, p), DetailOf(ctx, last), w); }
    }
  }

  lemma {:induction false} NoWeight(ctx: Context, ps: seq<Pair>, w: ServiceRow -> nat)
    ensures EdgeWeight(ctx, [], ps, w) == 0
    decreases |ps|
  {
    if ps == [] {
    } else {
      NoWeight(ctx, ps[..|ps| - 1], w);
    }
  }

  lemma {:induction false} WeightConserved(ctx: Context, rows: seq<ServiceRow>, ps: seq<Pair>, w: ServiceRow -> nat)
    requires KnownSources(ctx, rows) && Distinct(ps)
    requires forall r | r in rows && Placement(ctx, r).Some? :: Placement(ctx, r).value in ps
    ensures EdgeWeight(ctx, rows, ps, w) == KeptWeight(ctx, rows, w)
    decreases |rows|
  {
    hide Placement, EdgeWeight;
    if rows == [] {
      NoWeight(ctx, ps, w);
    } else {
      var front, last := rows[..|rows| - 1], rows[|rows| - 1];
      assert rows == front + [last];
      WeightOfLast(ctx, rows, ps, w);
      WeightConserved(ctx, front, ps, w);
    }
  }

  /** Conservation: summed over all edges of the graph, any weight of services (their number, the
      current ones, their observation counts) is its sum over the services that are not dropped. */
  lemma GraphConserves(ctx: Context, rows: seq<ServiceRow>, w: ServiceRow -> nat)
    requires KnownSources(ctx, rows)
    ensures EdgeWeight(ctx, rows, SortedPairs(ctx, rows), w) == KeptWeight(ctx, rows, w)
  {
    hide Placement, EdgeWeight, KeptWeight;
    PairOrder();
    AscendingIsDistinct(SortedPairs(ctx, rows), PairLess);
    forall r | r in rows && Placement(ctx, r).Some? ensures Placement(ctx, r).value in SortedPairs(ctx, rows) {
      assert Placement(ctx, r).value in PairsOf(ctx, rows);
    }
    WeightConserved(ctx, rows, SortedPairs(ctx, rows), w);
  }

  function One(r: ServiceRow): nat { 1 }

  function CurrentOne(r: ServiceRow): nat { if r.service.isCurrent then 1 else 0 }

  function Observed(r: ServiceRow): nat { r.service.observations }

  lemma {:induction false} CountsAreWeights(ds: seq<Detail>)
    ensures |ds| == DetailWeight(ds, One)
    ensures CurrentIn(ds) == DetailWeight(ds, CurrentOne)
    ensures ObservationsIn(ds) == DetailWeight(ds, Observed)
    decreases |ds|
  {
    if ds == [] {
    } else {
      CountsAreWeights(ds[..|ds| - 1]);
    }
  }

  function CountOf(d: EdgeData): nat { d.count }

  function CurrentOf(d: EdgeData): nat { d.current }

  function ObservationsOf(d: EdgeData): nat { d.observations }

  /** The sum of one number over edges. */
  function Total(es: seq<Edge>, g: EdgeData -> nat): nat {
    if es == [] then 0 else Total(es[..|es| - 1], g) + g(es[|es| - 1].data)
  }

  lemma {:induction false} TotalIsWeight(ctx: Context, rows: seq<ServiceRow>, ps: seq<Pair>, g: EdgeData -> nat, w: ServiceRow -> nat)
    requires KnownSources(ctx, rows) && forall p :: g(EdgeAt(ctx, rows, p)) == DetailWeight(EdgeRows(ctx, rows, p), w)
    ensures Total(EdgesAt(ctx, rows, ps), g) == EdgeWeight(ctx, rows, ps, w)
    decreases |ps|
  {
    hide EdgeAt, DetailWeight, EdgeRows;
    if ps == [] {
    } else {
      var front := ps[..|ps| - 1];
      TotalIsWeight(ctx, rows, front, g, w);
      assert EdgesAt(ctx, rows, ps)[..|ps| - 1] == EdgesAt(ctx, rows, front);
    }
  }

  /** Over the whole graph, the edges' counts sum to the number of services that are not dropped,
      their current counts to the current ones among these, and their observation counts to these
      services' observations. */
  lemma GraphTotals(ctx: Context, rows: seq<ServiceRow>)
    requires KnownSources(ctx, rows)
    ensures var es := FullGraph(ctx, rows).edges;
      && Total(es, CountOf) == KeptWeight(ctx, rows, One)
      && Total(es, CurrentOf) == KeptWeight(ctx, rows, CurrentOne)
      && Total(es, ObservationsOf) == KeptWeight(ctx, rows, Observed)
  {
    hide Total, EdgeWeight, KeptWeight, EdgesAt, SortedPairs, DetailWeight, EdgeRows, CurrentIn, ObservationsIn;
    var ps := SortedPairs(ctx, rows);
    forall p
      ensures CountOf(EdgeAt(ctx, rows, p)) == DetailWeight(EdgeRows(ctx, rows, p), One)
      ensures CurrentOf(EdgeAt(ctx, rows, p)) == DetailWeight(EdgeRows(ctx, rows, p), CurrentOne)
      ensures ObservationsOf(EdgeAt(ctx, rows, p)) == DetailWeight(EdgeRows(ctx, rows, p), Observed)
    {
      CountsAreWeights(EdgeRows(ctx, rows, p));
    }
    TotalIsWeight(ctx, rows, ps, CountOf, One);
    TotalIsWeight(ctx, rows, ps, CurrentOf, CurrentOne);
    TotalIsWeight(ctx, rows, ps, ObservationsOf, Observed);
    GraphConserves(ctx, rows, One);
    GraphConserves(ctx, rows, CurrentOne);
    GraphConserves(ctx, rows, Observed);
  }

  /** Why a service may be on no edge. */
  predicate Dropped(ctx: Context, r: ServiceRow)
    requires r.key.device in ctx.byId
  {
    var source, owners := ctx.byId[r.key.device], At(ctx.owners, r.key.remote);
    || (|owners| == 1 && (owners[0].id == source.id || (source.cluster.Some? && owners[0].cluster == source.cluster)))
    || (|owners| == 0 && source.cluster.Some? && ctx.inventory.internal(source.cluster.value, r.key.remote))
  }

  lemma DigitsInjective(m: nat, n: nat)
    requires Digits(m) == Digits(n)
    ensures m == n
  {
    hide Digits, ParseNat;
  }

  lemma PrefixesDiffer(a: string, b: string)
    ensures CLUSTER + a != DEVICE + b && CLUSTER + a != EXTERNAL + b && DEVICE + a != EXTERNAL + b
    ensures !StartsWith(CLUSTER + a, EXTERNAL) && !StartsWith(DEVICE + a, EXTERNAL)
    ensures !StartsWith(CLUSTER + a, DEVICE) && !StartsWith(DEVICE + a, CLUSTER)
    ensures StartsWith(CLUSTER + a, CLUSTER) && After(CLUSTER + a, CLUSTER) == a
    ensures StartsWith(DEVICE + a, DEVICE) && After(DEVICE + a, DEVICE) == a
    ensures StartsWith(EXTERNAL + a, EXTERNAL) && After(EXTERNAL + a, EXTERNAL) == a
    ensures !StartsWith(EXTERNAL + a, CLUSTER) && !StartsWith(EXTERNAL + a, DEVICE)
  {
    assert (CLUSTER + a)[0] == 'c' && (DEVICE + a)[0] == 'd' && (EXTERNAL + a)[0] == 'e';
    assert (CLUSTER + b)[0] == 'c' && (DEVICE + b)[0] == 'd' && (EXTERNAL + b)[0] == 'e';
  }

  lemma SamePrefix(p: string, a: string, b: string)
    requires p + a == p + b
    ensures a == b
  {
    assert a == (p + a)[|p|..] && b == (p + b)[|p|..];
  }

  /** Two devices have the same node exactly when they share a cluster or are the same device. */
  lemma SameNode(a: Device, b: Device)
    requires a.cluster != Some(0) && b.cluster != Some(0)
    ensures ManagedNodeId(a) == ManagedNodeId(b) <==> if a.cluster.Some? then a.cluster == b.cluster else b.cluster.None? && a.id == b.id
  {
    hide Digits;
    PrefixesDiffer(Digits(if a.cluster.Some? then a.cluster.value else a.id), Digits(if b.cluster.Some? then b.cluster.value else b.id));
    PrefixesDiffer(Digits(if b.cluster.Some? then b.cluster.value else b.id), Digits(if a.cluster.Some? then a.cluster.value else a.id));
    if ManagedNodeId(a) == ManagedNodeId(b) {
      if a.cluster.Some? && b.cluster.Some? {
        SamePrefix(CLUSTER, Digits(a.cluster.value), Digits(b.cluster.value));
        DigitsInjective(a.cluster.value, b.cluster.value);
      }
      if a.cluster.None? && b.cluster.None? {
        SamePrefix(DEVICE, Digits(a.id), Digits(b.id));
        DigitsInjective(a.id, b.id);
      }
    }
  }

  /** Every service is dropped for one of three reasons or lands on exactly one edge, which is
      never a loop: its own device's node to the owner's node or the external address. */
  lemma PlacedOrDropped(ctx: Context, r: ServiceRow)
    requires IsContext(ctx) && WellFormedInventory(ctx.inventory) && r.key.device in ctx.byId
    ensures Placement(ctx, r) == None <==> Dropped(ctx, r)
    ensures Placement(ctx, r).Some? ==>
      var p, owners := Placement(ctx, r).value, At(ctx.owners, r.key.remote);
      && p.0 == ManagedNodeId(ctx.byId[r.key.device]) && p.0 != p.1
      && p.1 == (if |owners| == 1 then ManagedNodeId(owners[0]) else EXTERNAL + r.key.remote)
      && DetailOf(ctx, r) == Detail(r, ctx.byId[r.key.device].name, if |owners| == 1 then Some(owners[0].id) else None,
                                    if |owners| == 1 then Some(owners[0].name) else None)
  {
    hide Digits, Where;
    var source, owners := ctx.byId[r.key.device], At(ctx.owners, r.key.remote);
    KnownDevice(ctx, source);
    PrefixesDiffer(Digits(if source.cluster.Some? then source.cluster.value else source.id), r.key.remote);
    if |owners| == 1 {
      OwnerFacts(ctx, r.key.remote, owners[0]);
      SameNode(source, owners[0]);
    }
  }

  lemma KnownDevice(ctx: Context, d: Device)
    requires IsContext(ctx) && WellFormedInventory(ctx.inventory) && d.id in ctx.byId && ctx.byId[d.id] == d
    ensures d in ctx.inventory.devices && d.cluster != Some(0)
    ensures d.cluster.Some? ==> HasCluster(ctx, d.cluster.value)
  {
    hide AllMembers, AllOwners;
    var e :| e in ctx.inventory.devices && e.id == d.id;
  }

  lemma OwnerFacts(ctx: Context, a: string, d: Device)
    requires IsContext(ctx) && WellFormedInventory(ctx.inventory) && d in At(ctx.owners, a)
    ensures d in ctx.inventory.devices && d.cluster != Some(0) && a in ctx.inventory.resolve(d.host)
    ensures d.id in ctx.byId && ctx.byId[d.id] == d
  {
    hide Indexed, AllMembers;
    assert At(ctx.owners, a) == OwnersOf(ctx.inventory.devices, ctx.inventory.resolve, a);
    OwnerIndexed(ctx, d);
  }

  lemma OwnerIndexed(ctx: Context, d: Device)
    requires IsContext(ctx) && d in ctx.inventory.devices
    ensures d.id in ctx.byId && ctx.byId[d.id] == d
  {
    hide AllMembers, AllOwners;
  }
}
