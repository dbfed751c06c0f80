/** Pushing a cluster or an edge below the aggregation gives the full graph's edges. */
module GraphScoping {
  import opened Wrappers
  import opened Ordering
  import opened TextCodec
  import opened Addresses
  import opened Services
  import opened Observations
  import opened ObservationGroups
  import opened SpellingMerge
  import opened HistoryViews
  import opened HistoryTheorems
  import opened HistoryStore
  import opened ClusterGraph
  import Topology = ClusterTopology

  // -------------------------------------------------------------- resolving

  /** `HostAddressResolver.resolve` without its cache: an address is itself, a name is whatever
      parses among its looked-up addresses. */
  function Resolved(lib: IpLibrary, host: string, lookups: set<string>): set<string> {
    var normalized := Normalize(lib, host);
    if lib.parse(normalized).Some? then {normalized}
    else set a | a in lookups && lib.parse(Normalize(lib, a)).Some? :: Normalize(lib, a)
  }

  /** A resolved address is in normal form, and so is its mapped spelling's. */
  predicate ResolvedForm(rules: AddressRules, a: string) {
    rules.normalize(a) == a && (':' !in a ==> rules.normalize(MAPPED_PREFIX + a) == a)
  }

  lemma ResolvedAreNormal(lib: IpLibrary, host: string, lookups: set<string>)
    requires Lawful(lib)
    ensures forall a | a in Resolved(lib, host, lookups) :: ResolvedForm(RulesOf(lib), a)
  {
    hide Normalize, CanonicalIpv4, Lawful;
    forall a | a in Resolved(lib, host, lookups) ensures ResolvedForm(RulesOf(lib), a) {
      var from := if lib.parse(Normalize(lib, host)).Some? then host else (var x :| x in lookups && Normalize(lib, x) == a; x);
      assert a == Normalize(lib, from) && lib.parse(a).Some?;
      NormalizeIdempotent(lib, from);
      if ':' !in a {
        ParsedWithoutColon(lib, a);
        MappedSpelling(lib, a);
      }
    }
  }

  /** A host that is an address resolves to its normal form alone, any other to the normal forms of its
      looked-up addresses. */
  lemma ResolvedExactly(lib: IpLibrary, host: string, lookups: set<string>)
    requires Lawful(lib)
    ensures forall a :: a in Resolved(lib, host, lookups) <==>
      if lib.parse(BeforePercent(host)).Some? then a == Normalize(lib, host)
      else exists x | x in lookups :: lib.parse(BeforePercent(x)).Some? && a == Normalize(lib, x)
  {
    hide Normalize, CanonicalIpv4, Lawful, BeforePercent;
    ParsesNormal(lib, host);
    forall x ensures lib.parse(Normalize(lib, x)).Some? <==> lib.parse(BeforePercent(x)).Some? { ParsesNormal(lib, x); }
  }

  lemma ParsesNormal(lib: IpLibrary, x: string)
    requires Lawful(lib)
    ensures lib.parse(Normalize(lib, x)).Some? <==> lib.parse(BeforePercent(x)).Some?
  {
    hide Normalize, CanonicalIpv4, BeforePercent;
    FastPathAgrees(lib, x);
    PlainCandidate(x);
    assert LawfulAt(lib, BeforePercent(x)) && LawfulAt(lib, x) && LawfulAt(lib, Normalize(lib, x));
  }

  /** Normal text that parses and has no colon is a dotted quad. */
  lemma ParsedWithoutColon(lib: IpLibrary, a: string)
    requires Lawful(lib) && lib.parse(a).Some? && Normalize(lib, a) == a && ':' !in a
    ensures CanonicalIpv4(a)
  {
    FastPathAgrees(lib, a);
    HeadPlain(a, '%');
    assert LawfulAt(lib, a) && LawfulAt(lib, BeforePercent(a));
  }

  ghost predicate ResolverOk(rules: AddressRules, resolve: string -> set<string>) {
    forall host, a | a in resolve(host) :: ResolvedForm(rules, a)
  }

  function AddressesOf(ds: seq<Device>, resolve: string -> set<string>): set<string> {
    set d, a | d in ds && a in resolve(d.host) :: a
  }

  /** The addresses together with their IPv4-mapped spellings. */
  function WithMapped(addresses: set<string>): set<string> {
    addresses + set a | a in addresses && ':' !in a :: MAPPED_PREFIX + a
  }

  /** A stored address is among the spellings exactly when its normal form is among the addresses. */
  lemma SpellingsMatch(rules: AddressRules, addresses: set<string>, stored: string)
    requires KnownSpelling(rules, stored) && forall a | a in addresses :: ResolvedForm(rules, a)
    ensures stored in WithMapped(addresses) <==> rules.normalize(stored) in addresses
  {
    if stored in WithMapped(addresses) && stored !in addresses {
      var a :| a in addresses && ':' !in a && stored == MAPPED_PREFIX + a;
    }
  }

  // ---------------------------------------------------------------- queries

  /** What the graph is built from: the store, the address rules and the list order. */
  datatype Source = Source(
    rules: AddressRules, obs: ObsTable, samples: Table, scans: map<nat, Scan>,
    order: (ServiceKey, ServiceKey) -> bool)

  function IdsOf(ds: seq<Device>): set<nat> { set d | d in ds :: d.id }

  /** The unfiltered query of one window: the current scans only, or everything since `cutoff` too. */
  function WindowQuery(scans: map<nat, Scan>, devices: set<nat>, cutoff: Option<nat>): Query {
    var current := CurrentScans(scans, devices);
    Query(if cutoff.Some? then devices else set i | i in current :: scans[i].device, current, cutoff, None, None, None)
  }

  function ScopedQuery(ctx: Context, q: Query, c: nat): Query {
    var members := At(ctx.members, c);
    q.(sources := Some(IdsOf(members)), inbound := Some(WithMapped(AddressesOf(members, ctx.inventory.resolve))))
  }

  function EdgeQuery(scans: map<nat, Scan>, sources: set<nat>, cutoff: Option<nat>, addresses: set<string>): Query {
    WindowQuery(scans, sources, cutoff).(remotes := Some(addresses))
  }

  /** `t` holds every row ever stored, and the source is in step with it. */
  ghost predicate InStep(s: Source, ctx: Context, t: Table) {
    && Coherent(s.rules) && WellFormedTable(t) && KnownSpellings(s.rules, t) && Standing(t, s.obs) && SubTable(s.samples, t)
    && (forall i | i in t :: t[i].scan.id in s.scans && s.scans[t[i].scan.id] == t[i].scan)
    && StrictTotalOrder(s.order)
    && IsContext(ctx) && WellFormedInventory(ctx.inventory) && ResolverOk(s.rules, ctx.inventory.resolve)
  }

  ghost predicate IsView(s: Source, q: Query, view: map<ServiceKey, Service>) { IsGroupView(s.rules, s.obs, q, s.samples, view) }

  /** The filtered list of a view. */
  function RowsOf(s: Source, view: map<ServiceKey, Service>, f: Filter): seq<ServiceRow>
    requires StrictTotalOrder(s.order)
  {
    Where(Listed(view, s.order), (r: ServiceRow) => Passes(f, r))
  }

  /** Reported devices are queried ones, and reported addresses are in normal form. */
  lemma ReportedRow(s: Source, ctx: Context, t: Table, q: Query, view: map<ServiceKey, Service>, k: ServiceKey)
    requires InStep(s, ctx, t) && IsView(s, q, view) && k in view
    ensures exists i :: i in t && i in GroupRows(s.rules, t, q, k) && Recordable(t[i]) && ServiceKeyOf(s.rules, t[i]) == k
    ensures k.device in q.devices && s.rules.normalize(k.remote) == k.remote
  {
    hide PartsOf, Standing, WellFormedTable, KnownSpellings, IsGroupService, IsContext, WellFormedInventory, ResolverOk;
    ReportedKeys(s.rules, t, s.obs, q, s.samples, k);
    var i :| i in GroupRows(s.rules, t, q, k);
    assert CoherentAt(s.rules, t[i].record.remoteIp.value);
  }

  lemma ViewSources(s: Source, q: Query, view: map<ServiceKey, Service>, k: ServiceKey)
    requires IsView(s, q, view) && k in view
    ensures k.device in q.devices
  {
    hide DecodeGroup, IsGroupService;
    assert PartsOf(s.rules, s.obs, q, s.samples, k) != map[];
    var rk :| rk in PartsOf(s.rules, s.obs, q, s.samples, k);
    var o :| o in s.obs && SelectsObs(q, s.obs[o]) && RawKeyOf(s.obs[o]) == rk;
  }

  lemma ViewIsKnown(s: Source, ctx: Context, q: Query, view: map<ServiceKey, Service>, f: Filter)
    requires IsView(s, q, view) && StrictTotalOrder(s.order) && q.devices <= ctx.byId.Keys
    ensures KnownSources(ctx, Listed(view, s.order)) && KnownSources(ctx, RowsOf(s, view, f))
    ensures forall r | r in Listed(view, s.order) :: r.key in view
  {
    hide IsView, Passes;
    forall r | r in Listed(view, s.order) ensures r.key.device in ctx.byId && r.key in view {
      var i :| 0 <= i < |Listed(view, s.order)| && Listed(view, s.order)[i] == r;
      var keys := Ordered(view.Keys, s.order);
      assert keys[i] in keys && r.key == keys[i];
      ViewSources(s, q, view, r.key);
    }
  }

  lemma ListedKey(s: Source, view: map<ServiceKey, Service>, f: Filter, r: ServiceRow)
    requires StrictTotalOrder(s.order) && r in RowsOf(s, view, f)
    ensures r.key in view && r.service == view[r.key]
  {
    hide Passes, Ordered;
    var listed := Listed(view, s.order);
    var i :| 0 <= i < |listed| && listed[i] == r;
    assert Ordered(view.Keys, s.order)[i] in Ordered(view.Keys, s.order);
  }

  lemma ListedRow(s: Source, view: map<ServiceKey, Service>, f: Filter, k: ServiceKey)
    requires StrictTotalOrder(s.order) && k in view && Passes(f, ServiceRow(k, view[k]))
    ensures ServiceRow(k, view[k]) in RowsOf(s, view, f)
  {
    hide Passes;
    var keys := Ordered(view.Keys, s.order);
    assert k in keys;
    var i :| 0 <= i < |keys| && keys[i] == k;
    assert Listed(view, s.order)[i] == ServiceRow(k, view[k]);
  }

  lemma RowPasses(s: Source, view: map<ServiceKey, Service>, f: Filter, r: ServiceRow)
    requires StrictTotalOrder(s.order) && r in RowsOf(s, view, f)
    ensures r.key in view && r == ServiceRow(r.key, view[r.key]) && Passes(f, r)
  {
    hide Passes;
    ListedKey(s, view, f, r);
  }

  lemma WindowDevices(scans: map<nat, Scan>, devices: set<nat>, cutoff: Option<nat>)
    ensures WindowQuery(scans, devices, cutoff).devices <= devices
  {
  }

  // -------------------------------------------------- filtering commutes

  /** Restricting a view to `keep` filters its list. */
  lemma ListedRestricted(wide: map<ServiceKey, Service>, narrow: map<ServiceKey, Service>, keep: ServiceKey -> bool,
                         order: (ServiceKey, ServiceKey) -> bool)
    requires StrictTotalOrder(order) && narrow == map k | k in wide && keep(k) :: wide[k]
    ensures Listed(narrow, order) == Where(Listed(wide, order), (r: ServiceRow) => keep(r.key))
  {
    hide Where, Ordered, ListedKeys;
    var keys, kept := Ordered(wide.Keys, order), Ordered(narrow.Keys, order);
    WhereAscends(keys, keep, order);
    AscendingUnique(Where(keys, keep), kept, order);
    KeysFiltered(keys, wide, keep);
    forall i | 0 <= i < |kept| ensures ListedKeys(kept, wide)[i] == ListedKeys(kept, narrow)[i] { assert kept[i] in kept; }
    assert ListedKeys(kept, wide) == ListedKeys(kept, narrow);
  }

  lemma ListedAppend(keys: seq<ServiceKey>, last: ServiceKey, view: map<ServiceKey, Service>)
    requires last in view && forall k | k in keys :: k in view
    ensures (forall k | k in keys + [last] :: k in view)
    ensures ListedKeys(keys + [last], view) == ListedKeys(keys, view) + [ServiceRow(last, view[last])]
  {
  }

  lemma {:induction false} KeysFiltered(keys: seq<ServiceKey>, view: map<ServiceKey, Service>, keep: ServiceKey -> bool)
    requires forall k | k in keys :: k in view
    ensures Where(ListedKeys(keys, view), (r: ServiceRow) => keep(r.key)) == ListedKeys(Where(keys, keep), view)
    decreases |keys|
  {
    hide ListedKeys, Where;
    var kept := (r: ServiceRow) => keep(r.key);
    if keys == [] {
      NoKeys(view, keep);
    } else {
      var front, last := keys[..|keys| - 1], keys[|keys| - 1];
      assert keys == front + [last];
      KeysFiltered(front, view, keep);
      ListedAppend(front, last, view);
      WhereAppend(ListedKeys(front, view), ServiceRow(last, view[last]), kept);
      WhereAppend(front, last, keep);
      ListedAppend(Where(front, keep), last, view);
    }
  }

  lemma NoKeys(view: map<ServiceKey, Service>, keep: ServiceKey -> bool)
    ensures Where(ListedKeys([], view), (r: ServiceRow) => keep(r.key)) == ListedKeys(Where([], keep), view)
  {
  }

  /** An edge whose services are all kept does not notice the others going. */
  lemma {:induction false} EdgeRowsKept(ctx: Context, rows: seq<ServiceRow>, keep: ServiceRow -> bool, p: Pair)
    requires KnownSources(ctx, rows) && KnownSources(ctx, Where(rows, keep))
    requires forall r | r in rows && Placement(ctx, r) == Some(p) :: keep(r)
    ensures EdgeRows(ctx, Where(rows, keep), p) == EdgeRows(ctx, rows, p)
    decreases |rows|
  {
    hide Placement, DetailOf;
    if rows == [] {
    } else {
      var front, last := rows[..|rows| - 1], rows[|rows| - 1];
      assert rows == front + [last];
      EdgeRowsKept(ctx, front, keep, p);
      if keep(last) {
        var w := Where(front, keep);
        assert Where(rows, keep) == w + [last] && (w + [last])[..|w|] == w;
      }
    }
  }

  /** The same, with the request's filters on both sides. */
  lemma NarrowedEdge(s: Source, ctx: Context, wide: map<ServiceKey, Service>, narrow: map<ServiceKey, Service>,
                     keep: ServiceKey -> bool, f: Filter, p: Pair)
    requires StrictTotalOrder(s.order) && narrow == map k | k in wide && keep(k) :: wide[k]
    requires KnownSources(ctx, RowsOf(s, wide, f)) && KnownSources(ctx, RowsOf(s, narrow, f))
    requires forall r | r in RowsOf(s, wide, f) && Placement(ctx, r) == Some(p) :: keep(r.key)
    ensures EdgeRows(ctx, RowsOf(s, narrow, f), p) == EdgeRows(ctx, RowsOf(s, wide, f), p)
  {
    hide Placement, DetailOf, Passes, Listed, EdgeRows, Where;
    var passes, kept := (r: ServiceRow) => Passes(f, r), (r: ServiceRow) => keep(r.key);
    ListedRestricted(wide, narrow, keep, s.order);
    WhereTwice(Listed(wide, s.order), kept, passes);
    assert RowsOf(s, narrow, f) == Where(RowsOf(s, wide, f), kept);
    EdgeRowsKept(ctx, RowsOf(s, wide, f), kept, p);
  }

  // ----------------------------------------------------------- one cluster

  predicate Concerns(ctx: Context, c: nat, k: ServiceKey) {
    var members := At(ctx.members, c);
    k.device in IdsOf(members) || k.remote in AddressesOf(members, ctx.inventory.resolve)
  }

  lemma ScopeNarrows(s: Source, ctx: Context, t: Table, q: Query, c: nat)
    requires InStep(s, ctx, t) && q.sources == None && q.inbound == None
    ensures Narrows(s.rules, t, q, ScopedQuery(ctx, q, c), k => Concerns(ctx, c, k))
  {
    hide Standing, WellFormedTable, IsContext, WellFormedInventory, Coherent, WithMapped;
    var members := At(ctx.members, c);
    var addresses := AddressesOf(members, ctx.inventory.resolve);
    forall i | i in t && Recordable(t[i])
      ensures t[i].record.remoteIp.value in WithMapped(addresses) <==> s.rules.normalize(t[i].record.remoteIp.value) in addresses
    {
      SpellingsMatch(s.rules, addresses, t[i].record.remoteIp.value);
    }
  }

  lemma MemberOf(ctx: Context, d: Device, c: nat)
    requires IsContext(ctx) && d in ctx.inventory.devices && InCluster(d, c)
    ensures d in At(ctx.members, c)
  {
    hide Indexed, AllOwners;
    assert At(ctx.members, c) == MembersOf(ctx.inventory.devices, c);
  }

  lemma NodeOfCluster(d: Device, c: nat)
    requires d.cluster != Some(0) && ManagedNodeId(d) == CLUSTER + Digits(c)
    ensures InCluster(d, c)
  {
    hide Digits;
    Topology.PrefixesDiffer(Digits(c), Digits(d.id));
    Topology.SamePrefix(CLUSTER, if d.cluster.Some? then Digits(d.cluster.value) else Digits(c), Digits(c));
    Topology.DigitsInjective(if d.cluster.Some? then d.cluster.value else c, c);
  }

  /** A service on an edge of the cluster is one the cluster's query asks for. */
  lemma TouchingConcerns(ctx: Context, r: ServiceRow, c: nat, p: Pair)
    requires IsContext(ctx) && WellFormedInventory(ctx.inventory) && r.key.device in ctx.byId && Placement(ctx, r) == Some(p)
    requires p.0 == CLUSTER + Digits(c) || p.1 == CLUSTER + Digits(c)
    ensures Concerns(ctx, c, r.key)
  {
    hide IsContext, WellFormedInventory, Placement, ManagedNodeId, Digits;
    Topology.PlacedOrDropped(ctx, r);
    var source, owners := ctx.byId[r.key.device], At(ctx.owners, r.key.remote);
    SourceFacts(ctx, r.key.device);
    if p.0 == CLUSTER + Digits(c) {
      NodeOfCluster(source, c);
      MemberOf(ctx, source, c);
      assert source.id in IdsOf(At(ctx.members, c));
    } else {
      Topology.PrefixesDiffer(Digits(c), r.key.remote);
      var d := owners[0];
      Topology.OwnerFacts(ctx, r.key.remote, d);
      NodeOfCluster(d, c);
      MemberOf(ctx, d, c);
      assert r.key.remote in AddressesOf(At(ctx.members, c), ctx.inventory.resolve);
    }
  }

  lemma SourceFacts(ctx: Context, id: nat)
    requires IsContext(ctx) && WellFormedInventory(ctx.inventory) && id in ctx.byId
    ensures var d := ctx.byId[id]; d.id == id && d in ctx.inventory.devices && d.cluster != Some(0)
  {
    hide AllMembers, AllOwners;
    var d :| d in ctx.inventory.devices && d.id == id;
  }

  /** Every edge of the cluster has the same connections in both lists. */
  lemma ScopedEdge(s: Source, ctx: Context, t: Table, q: Query, c: nat, f: Filter,
                   wide: map<ServiceKey, Service>, narrow: map<ServiceKey, Service>, p: Pair)
    requires InStep(s, ctx, t) && q.sources == None && q.inbound == None && q.devices <= ctx.byId.Keys
    requires IsView(s, q, wide) && IsView(s, ScopedQuery(ctx, q, c), narrow)
    requires p.0 == CLUSTER + Digits(c) || p.1 == CLUSTER + Digits(c)
    ensures KnownSources(ctx, RowsOf(s, wide, f)) && KnownSources(ctx, RowsOf(s, narrow, f))
    ensures EdgeRows(ctx, RowsOf(s, narrow, f), p) == EdgeRows(ctx, RowsOf(s, wide, f), p)
  {
    hide Standing, WellFormedTable, KnownSpellings, IsContext, WellFormedInventory, Coherent, ResolverOk, IsGroupView, Narrows, EdgeRows, RowsOf, Placement, Concerns, Listed;
    var keep := (k: ServiceKey) => Concerns(ctx, c, k);
    ViewIsKnown(s, ctx, q, wide, f);
    ViewIsKnown(s, ctx, ScopedQuery(ctx, q, c), narrow, f);
    ScopeNarrows(s, ctx, t, q, c);
    NarrowedView(s.rules, t, s.obs, q, ScopedQuery(ctx, q, c), keep, s.samples, wide, narrow);
    forall r | r in RowsOf(s, wide, f) && Placement(ctx, r) == Some(p) ensures keep(r.key) {
      TouchingConcerns(ctx, r, c, p);
    }
    NarrowedEdge(s, ctx, wide, narrow, keep, f, p);
  }

  // ------------------------------------------------- the graph of a cluster

  function DataOf(es: seq<Topology.Edge>): (r: seq<Topology.EdgeData>)
    ensures |r| == |es| && forall i | 0 <= i < |r| :: r[i] == es[i].data
  {
    seq(|es|, i requires 0 <= i < |es| => es[i].data)
  }

  predicate AtNode(p: Pair, id: string) { p.0 == id || p.1 == id }

  function EdgesOfPairs(ctx: Context, rows: seq<ServiceRow>, ps: seq<Pair>): (r: seq<Topology.EdgeData>)
    requires KnownSources(ctx, rows)
    ensures |r| == |ps| && forall i | 0 <= i < |r| :: r[i] == Topology.EdgeAt(ctx, rows, ps[i])
  {
    seq(|ps|, i requires 0 <= i < |ps| => Topology.EdgeAt(ctx, rows, ps[i]))
  }

  /** Filtering numbered edges by node is filtering their pairs. */
  lemma {:induction false} TouchingPairs(ctx: Context, rows: seq<ServiceRow>, ps: seq<Pair>, id: string)
    requires KnownSources(ctx, rows)
    ensures DataOf(Where(Topology.EdgesAt(ctx, rows, ps), (e: Topology.Edge) => Topology.Touches(e, id)))
         == EdgesOfPairs(ctx, rows, Where(ps, p => AtNode(p, id)))
    decreases |ps|
  {
    hide EdgeRows, Topology.EdgeAt, Topology.EdgesAt, Where, EdgesOfPairs, DataOf;
    var touches, at := (e: Topology.Edge) => Topology.Touches(e, id), (p: Pair) => AtNode(p, id);
    if ps == [] {
      NoPairs(ctx, rows, touches, at);
    } else {
      var front, last := ps[..|ps| - 1], ps[|ps| - 1];
      assert ps == front + [last];
      var edges := Topology.EdgesAt(ctx, rows, front);
      var edge := Topology.Edge(|front|, Topology.EdgeAt(ctx, rows, last));
      EdgesAppend(ctx, rows, front, last);
      TouchingPairs(ctx, rows, front, id);
      WhereAppend(edges, edge, touches);
      WhereAppend(front, last, at);
      EdgeEnds(ctx, rows, last);
      DataAppend(Where(edges, touches), edge);
      PairsAppend(ctx, rows, Where(front, at), last);
    }
  }

  lemma EdgesAppend(ctx: Context, rows: seq<ServiceRow>, ps: seq<Pair>, p: Pair)
    requires KnownSources(ctx, rows)
    ensures Topology.EdgesAt(ctx, rows, ps + [p]) == Topology.EdgesAt(ctx, rows, ps) + [Topology.Edge(|ps|, Topology.EdgeAt(ctx, rows, p))]
  {
    hide Topology.EdgeAt;
  }

  lemma DataAppend(es: seq<Topology.Edge>, e: Topology.Edge)
    ensures DataOf(es + [e]) == DataOf(es) + [e.data]
  {
  }

  lemma PairsAppend(ctx: Context, rows: seq<ServiceRow>, ps: seq<Pair>, p: Pair)
    requires KnownSources(ctx, rows)
    ensures EdgesOfPairs(ctx, rows, ps + [p]) == EdgesOfPairs(ctx, rows, ps) + [Topology.EdgeAt(ctx, rows, p)]
  {
    hide Topology.EdgeAt;
  }

  lemma NoPairs(ctx: Context, rows: seq<ServiceRow>, touches: Topology.Edge -> bool, at: Pair -> bool)
    requires KnownSources(ctx, rows)
    ensures DataOf(Where(Topology.EdgesAt(ctx, rows, []), touches)) == EdgesOfPairs(ctx, rows, Where([], at))
  {
  }

  lemma EdgeEnds(ctx: Context, rows: seq<ServiceRow>, p: Pair)
    requires KnownSources(ctx, rows)
    ensures Topology.EdgeAt(ctx, rows, p).source == p.0 && Topology.EdgeAt(ctx, rows, p).target == p.1
  {
  }

  /** Two lists that agree on every edge at a node have the same edges there, in the same order. */
  lemma SameTouching(ctx: Context, rows: seq<ServiceRow>, others: seq<ServiceRow>, id: string)
    requires KnownSources(ctx, rows) && KnownSources(ctx, others)
    requires forall p | AtNode(p, id) :: EdgeRows(ctx, others, p) == EdgeRows(ctx, rows, p)
    ensures DataOf(Where(Topology.AllEdges(ctx, others), (e: Topology.Edge) => Topology.Touches(e, id)))
         == DataOf(Where(Topology.AllEdges(ctx, rows), (e: Topology.Edge) => Topology.Touches(e, id)))
  {
    hide EdgeRows, PairsOf, Where;
    var at := (p: Pair) => AtNode(p, id);
    Topology.PairOrder();
    var ps, qs := Topology.SortedPairs(ctx, rows), Topology.SortedPairs(ctx, others);
    TouchingPairs(ctx, rows, ps, id);
    TouchingPairs(ctx, others, qs, id);
    WhereAscends(ps, at, Topology.PairLess);
    WhereAscends(qs, at, Topology.PairLess);
    forall p ensures p in Where(ps, at) <==> p in Where(qs, at) {
      RowsOfPair(ctx, rows, p);
      RowsOfPair(ctx, others, p);
    }
    AscendingUnique(Where(ps, at), Where(qs, at), Topology.PairLess);
    var pairs := Where(ps, at);
    forall i | 0 <= i < |pairs| ensures EdgesOfPairs(ctx, others, pairs)[i] == EdgesOfPairs(ctx, rows, pairs)[i] {
      assert pairs[i] in pairs;
    }
  }
}
