/** The connections of one edge, aggregated on demand for any pair of node ids. */
module EdgeConnections {
  import opened Wrappers
  import opened Ordering
  import opened TextCodec
  import opened Addresses
  import opened Services
  import opened Observations
  import opened ObservationGroups
  import opened SpellingMerge
  import opened HistoryViews
  import opened HistoryTheorems
  import opened StoredSpelling
  import opened HistoryStore
  import opened ClusterGraph
  import opened GraphScoping
  import opened GraphTheorems
  import Topology = ClusterTopology

  // ---------------------------------------------------------------- sorting

  /** `_connection_group_sort_key`. */
  datatype SortKey = SortKey(remote: string, port: nat, protocol: string, process: string, device: nat, id: nat)

  function KeyOf(d: Detail): SortKey {
    var sample := d.row.service.sample;
    SortKey(d.row.key.remote, PortNumber(sample.remotePort), sample.protocol, ProcessText(sample.process), d.row.key.device, sample.id)
  }

  predicate KeyLess(a: SortKey, b: SortKey) {
    if a.remote != b.remote then TextLess(a.remote, b.remote)
    else if a.port != b.port then a.port < b.port
    else if a.protocol != b.protocol then TextLess(a.protocol, b.protocol)
    else if a.process != b.process then TextLess(a.process, b.process)
    else if a.device != b.device then a.device < b.device
    else a.id < b.id
  }

  lemma KeyOrder()
    ensures StrictTotalOrder(KeyLess)
  {
    hide TextLess;
    TextOrders();
  }

  /** Whether connection `a` may stand before `b`: by remote address, then port, a missing one as 0,
      then protocol, process, device and sample row. */
  ghost predicate MayPrecede(a: Detail, b: Detail) {
    var x, y := a.row.service.sample, b.row.service.sample;
    var m, n := if x.remotePort.Some? then x.remotePort.value else 0, if y.remotePort.Some? then y.remotePort.value else 0;
    var u, v := if x.process.Some? then x.process.value else "", if y.process.Some? then y.process.value else "";
    && !TextLess(b.row.key.remote, a.row.key.remote)
    && (a.row.key.remote == b.row.key.remote ==>
      && m <= n
      && (m == n ==>
        && !TextLess(y.protocol, x.protocol)
        && (x.protocol == y.protocol ==>
          && !TextLess(v, u)
          && (u == v ==>
            && a.row.key.device <= b.row.key.device
            && (a.row.key.device == b.row.key.device ==> x.id <= y.id)))))
  }

  ghost predicate Sorted(ds: seq<Detail>) { forall i, j | 0 <= i < j < |ds| :: MayPrecede(ds[i], ds[j]) }

  lemma KeyLessIsOrder(a: Detail, b: Detail)
    ensures !KeyLess(KeyOf(b), KeyOf(a)) <==> MayPrecede(a, b)
  {
    hide TextLess;
    TextOrders();
  }

  lemma InOrderIsSorted(ds: seq<Detail>)
    ensures InOrder(ds) <==> Sorted(ds)
  {
    hide KeyLess, KeyOf, MayPrecede;
    forall a: Detail, b: Detail ensures !KeyLess(KeyOf(b), KeyOf(a)) <==> MayPrecede(a, b) { KeyLessIsOrder(a, b); }
  }

  ghost predicate InOrder(ds: seq<Detail>) { forall i, j | 0 <= i < j < |ds| :: !KeyLess(KeyOf(ds[j]), KeyOf(ds[i])) }

  function Inserted(ds: seq<Detail>, d: Detail): seq<Detail> {
    if ds == [] then [d]
    else if KeyLess(KeyOf(d), KeyOf(ds[|ds| - 1])) then Inserted(ds[..|ds| - 1], d) + [ds[|ds| - 1]]
    else ds + [d]
  }

  /** `sorted`, which keeps equal keys in list order. */
  function SortedByKey(ds: seq<Detail>): seq<Detail> {
    if ds == [] then [] else Inserted(SortedByKey(ds[..|ds| - 1]), ds[|ds| - 1])
  }

  lemma {:induction false} InsertedMembers(ds: seq<Detail>, d: Detail)
    ensures multiset(Inserted(ds, d)) == multiset(ds) + multiset{d}
    decreases |ds|
  {
    hide KeyLess;
    if ds == [] {
    } else {
      assert ds == ds[..|ds| - 1] + [ds[|ds| - 1]];
      InsertedMembers(ds[..|ds| - 1], d);
    }
  }

  lemma AppendInOrder(ds: seq<Detail>, d: Detail)
    requires InOrder(ds) && forall x | x in ds :: !KeyLess(KeyOf(d), KeyOf(x))
    ensures InOrder(ds + [d])
  {
    hide KeyLess, KeyOf;
  }

  lemma FrontInOrder(ds: seq<Detail>, last: Detail, x: Detail)
    requires InOrder(ds + [last]) && x in ds
    ensures InOrder(ds) && !KeyLess(KeyOf(last), KeyOf(x))
  {
    hide KeyLess, KeyOf;
    forall i, j | 0 <= i < j < |ds| ensures !KeyLess(KeyOf(ds[j]), KeyOf(ds[i])) {
      assert (ds + [last])[i] == ds[i] && (ds + [last])[j] == ds[j];
    }
    var i :| 0 <= i < |ds| && ds[i] == x;
    assert (ds + [last])[i] == x && (ds + [last])[|ds|] == last;
  }

  lemma {:induction false} InsertedInOrder(ds: seq<Detail>, d: Detail)
    requires InOrder(ds)
    ensures InOrder(Inserted(ds, d))
    decreases |ds|
  {
    hide KeyLess, KeyOf, InOrder;
    KeyOrder();
    if ds == [] {
      SingleInOrder(d);
    } else {
      var front, last := ds[..|ds| - 1], ds[|ds| - 1];
      assert ds == front + [last];
      forall x | x in front ensures !KeyLess(KeyOf(last), KeyOf(x)) { FrontInOrder(front, last, x); }
      if KeyLess(KeyOf(d), KeyOf(last)) {
        ShorterInOrder(front, last);
        InsertedInOrder(front, d);
        InsertedMembers(front, d);
        forall x | x in Inserted(front, d) ensures !KeyLess(KeyOf(last), KeyOf(x)) {
          assert x in multiset(Inserted(front, d));
          assert x != d ==> x in multiset(front);
        }
        AppendInOrder(Inserted(front, d), last);
      } else {
        AppendInOrder(ds, d);
      }
    }
  }

  lemma SingleInOrder(d: Detail)
    ensures InOrder([d])
  {
  }

  lemma ShorterInOrder(ds: seq<Detail>, last: Detail)
    requires InOrder(ds + [last])
    ensures InOrder(ds)
  {
    if ds != [] { FrontInOrder(ds, last, ds[0]); }
  }

  /** `rows` holds the connections of `ds`, each as often, in key order. */
  ghost predicate IsSortedPermutation(rows: seq<Detail>, ds: seq<Detail>) { multiset(rows) == multiset(ds) && InOrder(rows) }

  lemma {:induction false} SortingSorts(ds: seq<Detail>)
    ensures IsSortedPermutation(SortedByKey(ds), ds) && Sorted(SortedByKey(ds))
    decreases |ds|
  {
    hide Inserted, KeyLess, Sorted;
    if ds == [] {
    } else {
      var front := ds[..|ds| - 1];
      assert ds == front + [ds[|ds| - 1]];
      SortingSorts(front);
      InsertedMembers(SortedByKey(front), ds[|ds| - 1]);
      InsertedInOrder(SortedByKey(front), ds[|ds| - 1]);
    }
    InOrderIsSorted(SortedByKey(ds));
  }

  // ----------------------------------------------------------- node ids

  /** Python's `int` on the digits of a stored id gives the id; on other text it may accept or refuse. */
  ghost predicate ReadsIds(ctx: Context, parse: string -> Option<int>) {
    forall d | d in ctx.inventory.devices ::
      parse(Digits(d.id)) == Some(d.id) && (d.cluster.Some? ==> parse(Digits(d.cluster.value)) == Some(d.cluster.value))
  }

  /** `_node_source_devices`. */
  function NodeDevices(ctx: Context, parse: string -> Option<int>, id: string): seq<Device> {
    if Topology.StartsWith(id, CLUSTER) then
      match parse(Topology.After(id, CLUSTER))
      case None => []
      case Some(n) => if n >= 0 then At(ctx.members, n as nat) else []
    else if Topology.StartsWith(id, DEVICE) then
      match parse(Topology.After(id, DEVICE))
      case None => []
      case Some(n) => if n >= 0 && n in ctx.byId then [ctx.byId[n]] else []
    else []
  }

  /** `_node_target_addresses`. */
  function NodeAddresses(ctx: Context, parse: string -> Option<int>, id: string): set<string> {
    if Topology.StartsWith(id, EXTERNAL) then {Topology.After(id, EXTERNAL)}
    else WithMapped(AddressesOf(NodeDevices(ctx, parse, id), ctx.inventory.resolve))
  }

  /** A managed device is among the devices of its own node. */
  lemma DeviceAtNode(ctx: Context, parse: string -> Option<int>, d: Device)
    requires IsContext(ctx) && ReadsIds(ctx, parse) && d in ctx.inventory.devices && d.cluster != Some(0)
    ensures d in NodeDevices(ctx, parse, ManagedNodeId(d)) && !Topology.StartsWith(ManagedNodeId(d), EXTERNAL)
  {
    hide Digits, AllOwners, Topology.StartsWith, Topology.After;
    if d.cluster.Some? {
      Topology.PrefixesDiffer(Digits(d.cluster.value), "");
      MemberOf(ctx, d, d.cluster.value);
    } else {
      Topology.PrefixesDiffer(Digits(d.id), "");
    }
  }

  /** What a stored address must normalise to for a pair's query. */
  function WantedAddresses(ctx: Context, parse: string -> Option<int>, target: string): set<string> {
    if Topology.StartsWith(target, EXTERNAL) then {Topology.After(target, EXTERNAL)}
    else AddressesOf(NodeDevices(ctx, parse, target), ctx.inventory.resolve)
  }

  predicate Wanted(ctx: Context, parse: string -> Option<int>, p: Pair, k: ServiceKey) {
    k.device in IdsOf(NodeDevices(ctx, parse, p.0)) && k.remote in WantedAddresses(ctx, parse, p.1)
  }

  /** A service on edge `p` is one the pair's query asks for. */
  lemma PlacedIsWanted(ctx: Context, parse: string -> Option<int>, r: ServiceRow, p: Pair)
    requires IsContext(ctx) && WellFormedInventory(ctx.inventory) && ReadsIds(ctx, parse)
    requires r.key.device in ctx.byId && Placement(ctx, r) == Some(p)
    ensures Wanted(ctx, parse, p, r.key)
  {
    hide IsContext, WellFormedInventory, Placement, ManagedNodeId, NodeDevices, Topology.StartsWith, Topology.After;
    Topology.PlacedOrDropped(ctx, r);
    var source, owners := ctx.byId[r.key.device], At(ctx.owners, r.key.remote);
    SourceFacts(ctx, r.key.device);
    DeviceAtNode(ctx, parse, source);
    assert source.id in IdsOf(NodeDevices(ctx, parse, p.0));
    if |owners| == 1 {
      Topology.OwnerFacts(ctx, r.key.remote, owners[0]);
      DeviceAtNode(ctx, parse, owners[0]);
    } else {
      Topology.PrefixesDiffer(r.key.remote, "");
    }
  }

  // ---------------------------------------------------------------- narrowing

  /** For an external target, which the query matches as stored: every address stored for it by
      these devices is spelled as its normal form. */
  ghost predicate SpelledAsAsked(s: Source, t: Table, q: Query, sources: set<nat>, target: string) {
    Topology.StartsWith(target, EXTERNAL) ==>
      forall i | i in t && Recordable(t[i]) && SelectsRow(q, t[i]) && t[i].scan.device in sources ::
        s.rules.normalize(t[i].record.remoteIp.value) == Topology.After(target, EXTERNAL) ==> t[i].record.remoteIp.value == Topology.After(target, EXTERNAL)
  }

  lemma CurrentOfSome(scans: map<nat, Scan>, sources: set<nat>, all: set<nat>, i: nat)
    requires sources <= all && i in scans && scans[i].device in sources
    ensures i in CurrentScans(scans, sources) <==> i in CurrentScans(scans, all)
  {
    hide Ahead;
  }

  /** Narrowing the devices of a window keeps the rows of those devices. */
  lemma WindowOfSome(scans: map<nat, Scan>, sources: set<nat>, all: set<nat>, cutoff: Option<nat>, r: Row)
    requires sources <= all && r.record.remoteIp.Some? && r.scan.id in scans && scans[r.scan.id] == r.scan
    ensures SelectsRow(WindowQuery(scans, sources, cutoff), r) <==> SelectsRow(WindowQuery(scans, all, cutoff), r) && r.scan.device in sources
    ensures r.scan.device in sources ==>
      (r.scan.id in WindowQuery(scans, sources, cutoff).current <==> r.scan.id in WindowQuery(scans, all, cutoff).current)
  {
    hide CurrentScans;
    if r.scan.device in sources { CurrentOfSome(scans, sources, all, r.scan.id); }
    CurrentDevices(scans, sources, r.scan.id);
    CurrentDevices(scans, all, r.scan.id);
  }

  lemma CurrentDevices(scans: map<nat, Scan>, devices: set<nat>, i: nat)
    ensures i in CurrentScans(scans, devices) ==> i in scans && scans[i].device in devices
    ensures i in CurrentScans(scans, devices) ==> scans[i].device in set j | j in CurrentScans(scans, devices) :: scans[j].device
  {
    hide Ahead;
  }

  lemma TargetMatches(s: Source, ctx: Context, t: Table, parse: string -> Option<int>, target: string, stored: string)
    requires InStep(s, ctx, t) && KnownSpelling(s.rules, stored)
    requires Topology.StartsWith(target, EXTERNAL) ==>
      var x := Topology.After(target, EXTERNAL);
      s.rules.normalize(x) == x && (s.rules.normalize(stored) == x ==> stored == x)
    ensures stored in NodeAddresses(ctx, parse, target) <==> s.rules.normalize(stored) in WantedAddresses(ctx, parse, target)
  {
    hide IsContext, WellFormedInventory, Coherent, Standing, WellFormedTable, KnownSpellings, KnownSpelling, NodeDevices, WithMapped,
         Topology.StartsWith, Topology.After;
    if !Topology.StartsWith(target, EXTERNAL) {
      SpellingsMatch(s.rules, AddressesOf(NodeDevices(ctx, parse, target), ctx.inventory.resolve), stored);
    }
  }

  predicate NormalTarget(rules: AddressRules, target: string) {
    Topology.StartsWith(target, EXTERNAL) ==> rules.normalize(Topology.After(target, EXTERNAL)) == Topology.After(target, EXTERNAL)
  }

  lemma EdgeNarrows(s: Source, ctx: Context, t: Table, parse: string -> Option<int>, p: Pair, cutoff: Option<nat>)
    requires InStep(s, ctx, t) && NormalTarget(s.rules, p.1)
    requires var sources := IdsOf(NodeDevices(ctx, parse, p.0));
      sources <= ctx.byId.Keys && SpelledAsAsked(s, t, WindowQuery(s.scans, ctx.byId.Keys, cutoff), sources, p.1)
    ensures Narrows(s.rules, t, WindowQuery(s.scans, ctx.byId.Keys, cutoff),
                    EdgeQuery(s.scans, IdsOf(NodeDevices(ctx, parse, p.0)), cutoff, NodeAddresses(ctx, parse, p.1)), k => Wanted(ctx, parse, p, k))
  {
    hide IsContext, WellFormedInventory, Coherent, Standing, WellFormedTable, SubTable, NodeDevices, NodeAddresses, WantedAddresses,
         Topology.StartsWith, Topology.After, WindowQuery;
    var sources := IdsOf(NodeDevices(ctx, parse, p.0));
    var q, r := WindowQuery(s.scans, ctx.byId.Keys, cutoff), EdgeQuery(s.scans, sources, cutoff, NodeAddresses(ctx, parse, p.1));
    PlainWindow(s.scans, ctx.byId.Keys, cutoff);
    PlainWindow(s.scans, sources, cutoff);
    forall i | i in t && Recordable(t[i]) && Services.Visible(s.rules, t[i])
      ensures SelectsRow(r, t[i]) <==> SelectsRow(q, t[i]) && Wanted(ctx, parse, p, ServiceKeyOf(s.rules, t[i]))
      ensures SelectsRow(r, t[i]) ==> (t[i].scan.id in r.current <==> t[i].scan.id in q.current)
    {
      WindowOfSome(s.scans, sources, ctx.byId.Keys, cutoff, t[i]);
      if SelectsRow(q, t[i]) && t[i].scan.device in sources { TargetMatches(s, ctx, t, parse, p.1, t[i].record.remoteIp.value); }
    }
  }

  lemma NodeIds(ctx: Context, parse: string -> Option<int>, id: string)
    requires IsContext(ctx)
    ensures IdsOf(NodeDevices(ctx, parse, id)) <= ctx.byId.Keys
  {
    hide AllOwners, Topology.StartsWith, Topology.After, Where;
    forall d | d in NodeDevices(ctx, parse, id) ensures d.id in ctx.byId {
      if Topology.StartsWith(id, CLUSTER) {
        var n := parse(Topology.After(id, CLUSTER)).value;
        assert At(ctx.members, n as nat) == MembersOf(ctx.inventory.devices, n as nat);
      } else {
        var n := parse(Topology.After(id, DEVICE)).value;
        assert exists e :: e in ctx.inventory.devices && e.id == n;
      }
    }
  }

  // ------------------------------------------------------------ drill-down

  lemma PlacedRow(ctx: Context, rows: seq<ServiceRow>, p: Pair)
    requires KnownSources(ctx, rows) && EdgeRows(ctx, rows, p) != []
    ensures exists r :: r in rows && Placement(ctx, r) == Some(p)
  {
    hide Placement, EdgeRows;
    RowsOfPair(ctx, rows, p);
  }

  /** No service is placed on an external address that is not in normal form. */
  lemma AbnormalTarget(s: Source, ctx: Context, t: Table, q: Query, view: map<ServiceKey, Service>, f: Filter, p: Pair)
    requires InStep(s, ctx, t) && IsView(s, q, view) && q.devices <= ctx.byId.Keys && !NormalTarget(s.rules, p.1)
    ensures KnownSources(ctx, RowsOf(s, view, f)) && EdgeRows(ctx, RowsOf(s, view, f), p) == []
  {
    hide Standing, WellFormedTable, KnownSpellings, IsContext, WellFormedInventory, Coherent, ResolverOk, IsView, RowsOf, Placement, EdgeRows,
         ManagedNodeId, Topology.StartsWith, Topology.After, NodeDevices;
    ViewIsKnown(s, ctx, q, view, f);
    if EdgeRows(ctx, RowsOf(s, view, f), p) != [] {
      PlacedRow(ctx, RowsOf(s, view, f), p);
      var r :| r in RowsOf(s, view, f) && Placement(ctx, r) == Some(p);
      ListedKey(s, view, f, r);
      ReportedRow(s, ctx, t, q, view, r.key);
      KnownRow(ctx, RowsOf(s, view, f), r);
      Topology.PlacedOrDropped(ctx, r);
      Topology.PrefixesDiffer(r.key.remote, "");
      var owners := At(ctx.owners, r.key.remote);
      if |owners| == 1 {
        Topology.OwnerFacts(ctx, r.key.remote, owners[0]);
        ManagedIsInternal(owners[0]);
      }
      assert false;
    }
  }

  lemma ManagedIsInternal(d: Device)
    ensures !Topology.StartsWith(ManagedNodeId(d), EXTERNAL)
  {
    hide Digits;
    Topology.PrefixesDiffer(if d.cluster.Some? then Digits(d.cluster.value) else Digits(d.id), "");
    Topology.PrefixesDiffer(Digits(d.id), "");
  }

  lemma KnownRow(ctx: Context, rows: seq<ServiceRow>, r: ServiceRow)
    requires KnownSources(ctx, rows) && r in rows
    ensures r.key.device in ctx.byId
  {
  }

  /** The pair's own query finds exactly the full graph's connections of that edge, for any two
      texts as node ids, whether or not they name nodes. */
  lemma DrillDownAgrees(s: Source, ctx: Context, t: Table, parse: string -> Option<int>, p: Pair, cutoff: Option<nat>, f: Filter,
                        wide: map<ServiceKey, Service>, narrow: map<ServiceKey, Service>)
    requires InStep(s, ctx, t) && ReadsIds(ctx, parse)
    requires SpelledAsAsked(s, t, WindowQuery(s.scans, ctx.byId.Keys, cutoff), IdsOf(NodeDevices(ctx, parse, p.0)), p.1)
    requires IsView(s, WindowQuery(s.scans, ctx.byId.Keys, cutoff), wide)
    requires IsView(s, EdgeQuery(s.scans, IdsOf(NodeDevices(ctx, parse, p.0)), cutoff, NodeAddresses(ctx, parse, p.1)), narrow)
    ensures KnownSources(ctx, RowsOf(s, wide, f)) && KnownSources(ctx, RowsOf(s, narrow, f))
    ensures EdgeRows(ctx, RowsOf(s, narrow, f), p) == EdgeRows(ctx, RowsOf(s, wide, f), p)
  {
    hide Standing, WellFormedTable, KnownSpellings, IsContext, WellFormedInventory, Coherent, ResolverOk, IsGroupView, RowsOf, Placement, EdgeRows,
         NodeDevices, NodeAddresses, Wanted, WindowQuery, Narrows, KnownSources, SpelledAsAsked, NormalTarget, ReadsIds;
    var sources := IdsOf(NodeDevices(ctx, parse, p.0));
    var q, r := WindowQuery(s.scans, ctx.byId.Keys, cutoff), EdgeQuery(s.scans, sources, cutoff, NodeAddresses(ctx, parse, p.1));
    NodeIds(ctx, parse, p.0);
    WindowDevices(s.scans, ctx.byId.Keys, cutoff);
    WindowDevices(s.scans, sources, cutoff);
    ViewIsKnown(s, ctx, q, wide, f);
    ViewIsKnown(s, ctx, r, narrow, f);
    if NormalTarget(s.rules, p.1) {
      EdgeNarrows(s, ctx, t, parse, p, cutoff);
      var keep := (k: ServiceKey) => Wanted(ctx, parse, p, k);
      NarrowedView(s.rules, t, s.obs, q, r, keep, s.samples, wide, narrow);
      forall row | row in RowsOf(s, wide, f) && (KnownRow(ctx, RowsOf(s, wide, f), row); Placement(ctx, row) == Some(p)) ensures keep(row.key) {
        PlacedIsWanted(ctx, parse, row, p);
      }
      NarrowedEdge(s, ctx, wide, narrow, keep, f, p);
    } else {
      AbnormalTarget(s, ctx, t, q, wide, f, p);
      AbnormalTarget(s, ctx, t, r, narrow, f, p);
    }
  }

  /** Service `k` is on edge `p`, as the full graph reports it or as the pair's own query does. */
  ghost predicate ShownOn(ctx: Context, f: Filter, wide: map<ServiceKey, Service>, narrow: map<ServiceKey, Service>, p: Pair, k: ServiceKey) {
    && k.device in ctx.byId && KeyPlacement(ctx, k) == Some(p)
    && ((k in wide && Passes(f, ServiceRow(k, wide[k]))) || (k in narrow && Passes(f, ServiceRow(k, narrow[k]))))
  }

  ghost predicate SameFor(wide: map<ServiceKey, Service>, narrow: map<ServiceKey, Service>, k: ServiceKey) {
    k in wide && k in narrow && narrow[k] == wide[k]
  }

  /** Two views list the same connections on an edge if and only if they report every service
      shown on it alike. */
  lemma SameListsExactly(s: Source, ctx: Context, wide: map<ServiceKey, Service>, narrow: map<ServiceKey, Service>, f: Filter, p: Pair)
    requires StrictTotalOrder(s.order) && KnownSources(ctx, RowsOf(s, wide, f)) && KnownSources(ctx, RowsOf(s, narrow, f))
    ensures var a, b := EdgeRows(ctx, RowsOf(s, narrow, f), p), EdgeRows(ctx, RowsOf(s, wide, f), p);
      && (multiset(a) == multiset(b) <==> forall k | ShownOn(ctx, f, wide, narrow, p, k) :: SameFor(wide, narrow, k))
      && (multiset(a) == multiset(b) ==> a == b)
  {
    hide Placement, KeyPlacement, Passes, RowsOf, EdgeRows, KnownSources;
    var a, b := EdgeRows(ctx, RowsOf(s, narrow, f), p), EdgeRows(ctx, RowsOf(s, wide, f), p);
    if multiset(a) == multiset(b) {
      forall k | ShownOn(ctx, f, wide, narrow, p, k) ensures SameFor(wide, narrow, k) {
        SameIfListed(s, ctx, wide, narrow, f, p, k, a, b);
      }
    }
    if forall k | ShownOn(ctx, f, wide, narrow, p, k) :: SameFor(wide, narrow, k) {
      ListedIfSame(s, ctx, wide, narrow, f, p);
    }
  }

  lemma SameIfListed(s: Source, ctx: Context, wide: map<ServiceKey, Service>, narrow: map<ServiceKey, Service>, f: Filter, p: Pair,
                     k: ServiceKey, a: seq<Detail>, b: seq<Detail>)
    requires StrictTotalOrder(s.order) && KnownSources(ctx, RowsOf(s, wide, f)) && KnownSources(ctx, RowsOf(s, narrow, f))
    requires a == EdgeRows(ctx, RowsOf(s, narrow, f), p) && b == EdgeRows(ctx, RowsOf(s, wide, f), p) && multiset(a) == multiset(b)
    requires ShownOn(ctx, f, wide, narrow, p, k)
    ensures SameFor(wide, narrow, k)
  {
    hide KeyPlacement, Passes, RowsOf, EdgeRows;
    EdgeMembers(ctx, RowsOf(s, wide, f), p);
    EdgeMembers(ctx, RowsOf(s, narrow, f), p);
    if k in wide && Passes(f, ServiceRow(k, wide[k])) {
      ListedRow(s, wide, f, k);
      assert OnEdge(ctx, RowsOf(s, wide, f), p, ServiceRow(k, wide[k]));
      var d := DetailOf(ctx, ServiceRow(k, wide[k]));
      assert d in multiset(b) && d in multiset(a);
      RowPasses(s, narrow, f, d.row);
    } else {
      ListedRow(s, narrow, f, k);
      assert OnEdge(ctx, RowsOf(s, narrow, f), p, ServiceRow(k, narrow[k]));
      var d := DetailOf(ctx, ServiceRow(k, narrow[k]));
      assert d in multiset(a) && d in multiset(b);
      RowPasses(s, wide, f, d.row);
    }
  }

  lemma ListedIfSame(s: Source, ctx: Context, wide: map<ServiceKey, Service>, narrow: map<ServiceKey, Service>, f: Filter, p: Pair)
    requires StrictTotalOrder(s.order) && KnownSources(ctx, RowsOf(s, wide, f)) && KnownSources(ctx, RowsOf(s, narrow, f))
    requires forall k | ShownOn(ctx, f, wide, narrow, p, k) :: SameFor(wide, narrow, k)
    ensures EdgeRows(ctx, RowsOf(s, narrow, f), p) == EdgeRows(ctx, RowsOf(s, wide, f), p)
  {
    hide KeyPlacement, Passes, RowsOf, EdgeRows;
    var same := (k: ServiceKey) => k in wide && k in narrow && narrow[k] == wide[k];
    var common := map k | k in wide && same(k) :: wide[k];
    assert common == map k | k in narrow && same(k) :: narrow[k];
    forall r | r in RowsOf(s, common, f) ensures r.key.device in ctx.byId {
      RowPasses(s, common, f, r);
      ListedRow(s, wide, f, r.key);
    }
    forall r | r in RowsOf(s, wide, f) && Placement(ctx, r) == Some(p) ensures same(r.key) {
      RowPasses(s, wide, f, r);
      assert ShownOn(ctx, f, wide, narrow, p, r.key);
    }
    forall r | r in RowsOf(s, narrow, f) && Placement(ctx, r) == Some(p) ensures same(r.key) {
      RowPasses(s, narrow, f, r);
      assert ShownOn(ctx, f, wide, narrow, p, r.key);
    }
    NarrowedEdge(s, ctx, wide, common, same, f, p);
    NarrowedEdge(s, ctx, narrow, common, same, f, p);
  }

  /** The rows stored as an external target asks suffice for every service shown on its edge. */
  ghost predicate AskedSuffice(s: Source, ctx: Context, t: Table, q: Query, p: Pair, f: Filter,
                               wide: map<ServiceKey, Service>, narrow: map<ServiceKey, Service>) {
    Topology.StartsWith(p.1, EXTERNAL) ==>
      forall k | ShownOn(ctx, f, wide, narrow, p, k) :: AskedRowsSuffice(s.rules, t, q, k)
  }

  lemma ExternalAsks(s: Source, ctx: Context, t: Table, parse: string -> Option<int>, p: Pair, cutoff: Option<nat>)
    requires InStep(s, ctx, t) && Topology.StartsWith(p.1, EXTERNAL)
    ensures AsksFor(t, WindowQuery(s.scans, ctx.byId.Keys, cutoff),
                    EdgeQuery(s.scans, IdsOf(NodeDevices(ctx, parse, p.0)), cutoff, NodeAddresses(ctx, parse, p.1)),
                    IdsOf(NodeDevices(ctx, parse, p.0)), Topology.After(p.1, EXTERNAL))
  {
    hide Standing, WellFormedTable, KnownSpellings, IsContext, WellFormedInventory, Coherent, ResolverOk, NodeDevices,
         Topology.StartsWith, Topology.After, WindowQuery;
    var sources := IdsOf(NodeDevices(ctx, parse, p.0));
    NodeIdsKnown(s, ctx, t, parse, p);
    PlainWindow(s.scans, ctx.byId.Keys, cutoff);
    PlainWindow(s.scans, sources, cutoff);
    forall i | i in t && Recordable(t[i]) {
      WindowOfSome(s.scans, sources, ctx.byId.Keys, cutoff, t[i]);
    }
  }

  lemma NodeIdsKnown(s: Source, ctx: Context, t: Table, parse: string -> Option<int>, p: Pair)
    requires InStep(s, ctx, t)
    ensures IdsOf(NodeDevices(ctx, parse, p.0)) <= ctx.byId.Keys
  {
    hide NodeDevices, Standing, WellFormedTable, KnownSpellings, Coherent, ResolverOk;
    NodeIds(ctx, parse, p.0);
  }

  /** One service of an external edge: both queries report it alike if and only if its rows stored as asked suffice. */
  lemma ExternalServiceExact(s: Source, ctx: Context, t: Table, parse: string -> Option<int>, p: Pair, cutoff: Option<nat>, f: Filter,
                             wide: map<ServiceKey, Service>, narrow: map<ServiceKey, Service>, k: ServiceKey)
    requires InStep(s, ctx, t) && ReadsIds(ctx, parse) && Topology.StartsWith(p.1, EXTERNAL)
    requires IsView(s, WindowQuery(s.scans, ctx.byId.Keys, cutoff), wide)
    requires IsView(s, EdgeQuery(s.scans, IdsOf(NodeDevices(ctx, parse, p.0)), cutoff, NodeAddresses(ctx, parse, p.1)), narrow)
    requires ShownOn(ctx, f, wide, narrow, p, k)
    ensures SameFor(wide, narrow, k) <==> AskedRowsSuffice(s.rules, t, WindowQuery(s.scans, ctx.byId.Keys, cutoff), k)
  {
    hide Standing, WellFormedTable, KnownSpellings, IsContext, WellFormedInventory, Coherent, ResolverOk, NodeDevices, NodeAddresses, Passes,
         Topology.StartsWith, Topology.After, WindowQuery, PartsOf, IsGroupService, AsksFor, GroupRows, KeyPlacement, ReadsIds, SubTable;
    var sources := IdsOf(NodeDevices(ctx, parse, p.0));
    var q, r := WindowQuery(s.scans, ctx.byId.Keys, cutoff), EdgeQuery(s.scans, sources, cutoff, NodeAddresses(ctx, parse, p.1));
    ExternalKey(ctx, parse, p, k);
    ExternalAsks(s, ctx, t, parse, p, cutoff);
    var view := if k in wide then wide else narrow;
    ReportedRow(s, ctx, t, if k in wide then q else r, view, k);
    AskedGroup(s.rules, t, q, r, sources, k);
    ReportedKeys(s.rules, t, s.obs, q, s.samples, k);
    ReportedKeys(s.rules, t, s.obs, r, s.samples, k);
    if k in wide && k in narrow {
      AskedServiceExact(s.rules, t, s.obs, q, r, s.samples, sources, k, wide[k], narrow[k]);
    }
  }

  lemma ExternalKey(ctx: Context, parse: string -> Option<int>, p: Pair, k: ServiceKey)
    requires IsContext(ctx) && WellFormedInventory(ctx.inventory) && ReadsIds(ctx, parse) && Topology.StartsWith(p.1, EXTERNAL)
    requires k.device in ctx.byId && KeyPlacement(ctx, k) == Some(p)
    ensures k.device in IdsOf(NodeDevices(ctx, parse, p.0)) && k.remote == Topology.After(p.1, EXTERNAL)
  {
    hide IsContext, WellFormedInventory, KeyPlacement, NodeDevices, Topology.StartsWith, Topology.After, ReadsIds;
    PlacedIsWanted(ctx, parse, ServiceRow(k, AnyService()), p);
  }

  /** Some service, for statements that only depend on its key. */
  function AnyService(): Service {
    Service(Sample(0, "", IPv4, "", None, None, None, None, None, 0, 0), None, 0, 0, false, 0, {}, {}, {})
  }

  /** When the drill-down is right, for any two texts as node ids and any filters: the pair's own
      query lists the edge's connections of the full graph always for a managed target, and for an
      external one if and only if, for each service shown on the edge, the rows stored as asked
      suffice. */
  lemma DrillDownExact(s: Source, ctx: Context, t: Table, parse: string -> Option<int>, p: Pair, cutoff: Option<nat>, f: Filter,
                       wide: map<ServiceKey, Service>, narrow: map<ServiceKey, Service>)
    requires InStep(s, ctx, t) && ReadsIds(ctx, parse)
    requires IsView(s, WindowQuery(s.scans, ctx.byId.Keys, cutoff), wide)
    requires IsView(s, EdgeQuery(s.scans, IdsOf(NodeDevices(ctx, parse, p.0)), cutoff, NodeAddresses(ctx, parse, p.1)), narrow)
    ensures KnownSources(ctx, RowsOf(s, wide, f)) && KnownSources(ctx, RowsOf(s, narrow, f))
    ensures var a, b := EdgeRows(ctx, RowsOf(s, narrow, f), p), EdgeRows(ctx, RowsOf(s, wide, f), p);
      && (multiset(a) == multiset(b) <==> AskedSuffice(s, ctx, t, WindowQuery(s.scans, ctx.byId.Keys, cutoff), p, f, wide, narrow))
      && (multiset(a) == multiset(b) ==> a == b)
  {
    hide Standing, WellFormedTable, KnownSpellings, IsContext, WellFormedInventory, Coherent, ResolverOk, IsView, RowsOf, EdgeRows, ShownOn, SameFor,
         NodeDevices, NodeAddresses, WindowQuery, KnownSources, ReadsIds, Topology.StartsWith, AskedRowsSuffice;
    var sources := IdsOf(NodeDevices(ctx, parse, p.0));
    var q, r := WindowQuery(s.scans, ctx.byId.Keys, cutoff), EdgeQuery(s.scans, sources, cutoff, NodeAddresses(ctx, parse, p.1));
    NodeIds(ctx, parse, p.0);
    WindowDevices(s.scans, ctx.byId.Keys, cutoff);
    WindowDevices(s.scans, sources, cutoff);
    ViewIsKnown(s, ctx, q, wide, f);
    ViewIsKnown(s, ctx, r, narrow, f);
    SameListsExactly(s, ctx, wide, narrow, f, p);
    if Topology.StartsWith(p.1, EXTERNAL) {
      forall k | ShownOn(ctx, f, wide, narrow, p, k) ensures SameFor(wide, narrow, k) <==> AskedRowsSuffice(s.rules, t, q, k) {
        ExternalServiceExact(s, ctx, t, parse, p, cutoff, f, wide, narrow, k);
      }
    } else {
      DrillDownAgrees(s, ctx, t, parse, p, cutoff, f, wide, narrow);
    }
  }

  /** The services stored for edge `p`, as far as a protocol filter lets them through. */
  ghost predicate StoredOn(s: Source, ctx: Context, t: Table, q: Query, p: Pair, f: Filter, k: ServiceKey) {
    && k.device in ctx.byId && KeyPlacement(ctx, k) == Some(p) && (f.protocol == "" || k.protocol == f.protocol)
    && GroupRows(s.rules, t, q, k) != {}
  }

  lemma PassesProtocol(s: Source, ctx: Context, t: Table, q: Query, view: map<ServiceKey, Service>, f: Filter, k: ServiceKey)
    requires InStep(s, ctx, t) && IsView(s, q, view) && f.state == "" && f.process == "" && k in view
    ensures Passes(f, ServiceRow(k, view[k])) <==> f.protocol == "" || k.protocol == f.protocol
  {
    hide Standing, WellFormedTable, KnownSpellings, IsContext, WellFormedInventory, Coherent, ResolverOk, SubTable, PartsOf, IsGroupService, OccursIn, Haystack;
    ShownProtocol(s.rules, t, s.obs, q, s.samples, k, view[k]);
  }

  lemma ShownIsStored(s: Source, ctx: Context, t: Table, parse: string -> Option<int>, p: Pair, cutoff: Option<nat>, f: Filter,
                      wide: map<ServiceKey, Service>, narrow: map<ServiceKey, Service>, k: ServiceKey)
    requires InStep(s, ctx, t) && ReadsIds(ctx, parse) && Topology.StartsWith(p.1, EXTERNAL) && f.state == "" && f.process == ""
    requires IsView(s, WindowQuery(s.scans, ctx.byId.Keys, cutoff), wide)
    requires IsView(s, EdgeQuery(s.scans, IdsOf(NodeDevices(ctx, parse, p.0)), cutoff, NodeAddresses(ctx, parse, p.1)), narrow)
    ensures ShownOn(ctx, f, wide, narrow, p, k) <==> StoredOn(s, ctx, t, WindowQuery(s.scans, ctx.byId.Keys, cutoff), p, f, k)
  {
    hide Standing, WellFormedTable, KnownSpellings, IsContext, WellFormedInventory, Coherent, ResolverOk, NodeDevices, NodeAddresses, Passes,
         Topology.StartsWith, Topology.After, WindowQuery, EdgeQuery, PartsOf, IsGroupService, AsksFor, GroupRows, KeyPlacement, ReadsIds, SubTable;
    var sources := IdsOf(NodeDevices(ctx, parse, p.0));
    var q, r := WindowQuery(s.scans, ctx.byId.Keys, cutoff), EdgeQuery(s.scans, sources, cutoff, NodeAddresses(ctx, parse, p.1));
    ReportedKeys(s.rules, t, s.obs, q, s.samples, k);
    if k in wide { PassesProtocol(s, ctx, t, q, wide, f, k); }
    if k.device in ctx.byId && KeyPlacement(ctx, k) == Some(p) && k in narrow {
      PassesProtocol(s, ctx, t, r, narrow, f, k);
      ExternalKey(ctx, parse, p, k);
      ExternalAsks(s, ctx, t, parse, p, cutoff);
      ReportedRow(s, ctx, t, r, narrow, k);
      AskedGroup(s.rules, t, q, r, sources, k);
      ReportedKeys(s.rules, t, s.obs, r, s.samples, k);
    }
  }

  /** Without a state or process filter what is stored alone decides: the pair's own query lists
      the edge's connections if and only if, for every service that has rows and belongs to an
      external edge, the rows stored as asked suffice. */
  lemma DrillDownByRows(s: Source, ctx: Context, t: Table, parse: string -> Option<int>, p: Pair, cutoff: Option<nat>, f: Filter,
                        wide: map<ServiceKey, Service>, narrow: map<ServiceKey, Service>)
    requires InStep(s, ctx, t) && ReadsIds(ctx, parse) && f.state == "" && f.process == ""
    requires IsView(s, WindowQuery(s.scans, ctx.byId.Keys, cutoff), wide)
    requires IsView(s, EdgeQuery(s.scans, IdsOf(NodeDevices(ctx, parse, p.0)), cutoff, NodeAddresses(ctx, parse, p.1)), narrow)
    ensures KnownSources(ctx, RowsOf(s, wide, f)) && KnownSources(ctx, RowsOf(s, narrow, f))
    ensures var q := WindowQuery(s.scans, ctx.byId.Keys, cutoff);
      EdgeRows(ctx, RowsOf(s, narrow, f), p) == EdgeRows(ctx, RowsOf(s, wide, f), p) <==>
        (Topology.StartsWith(p.1, EXTERNAL) ==> forall k | StoredOn(s, ctx, t, q, p, f, k) :: AskedRowsSuffice(s.rules, t, q, k))
  {
    hide InStep, IsView, RowsOf, EdgeRows, ShownOn, StoredOn, NodeDevices, NodeAddresses, WindowQuery, EdgeQuery, KnownSources, ReadsIds,
         Topology.StartsWith, AskedRowsSuffice;
    DrillDownExact(s, ctx, t, parse, p, cutoff, f, wide, narrow);
    if Topology.StartsWith(p.1, EXTERNAL) {
      forall k ensures ShownOn(ctx, f, wide, narrow, p, k) <==> StoredOn(s, ctx, t, WindowQuery(s.scans, ctx.byId.Keys, cutoff), p, f, k) {
        ShownIsStored(s, ctx, t, parse, p, cutoff, f, wide, narrow, k);
      }
    }
  }

  /** A pair without devices or addresses has the empty view. */
  lemma NothingAsked(s: Source, scans: map<nat, Scan>, sources: set<nat>, cutoff: Option<nat>, addresses: set<string>)
    requires sources == {} || addresses == {}
    ensures IsView(s, EdgeQuery(scans, sources, cutoff, addresses), map[])
  {
    hide DecodeGroup, WindowQuery;
    var r := EdgeQuery(scans, sources, cutoff, addresses);
    WindowDevices(scans, sources, cutoff);
    forall o | o in s.obs ensures !SelectsObs(r, s.obs[o]) {}
    assert RawKeys(s.obs, r) == {};
  }

  /** `build_edge_connections`, for any two texts as node ids: sorted, and a permutation of that
      edge's connections in the full graph under the same filters always for a managed target, and
      for an external one if and only if the rows stored as asked suffice; it is then empty
      exactly when the full graph has no such edge. */
  method BuildEdgeConnections(s: Source, ctx: Context, parse: string -> Option<int>, source: string, target: string,
                              cutoff: Option<nat>, f: Filter, ghost t: Table)
      returns (rows: seq<Detail>, ghost narrow: map<ServiceKey, Service>)
    requires InStep(s, ctx, t) && ReadsIds(ctx, parse)
    ensures Sorted(rows) && InOrder(rows) && IsView(s, EdgeQuery(s.scans, IdsOf(NodeDevices(ctx, parse, source)), cutoff, NodeAddresses(ctx, parse, target)), narrow)
    ensures KnownSources(ctx, RowsOf(s, narrow, f)) && rows == SortedByKey(EdgeRows(ctx, RowsOf(s, narrow, f), (source, target)))
    ensures forall wide | IsView(s, WindowQuery(s.scans, ctx.byId.Keys, cutoff), wide) ::
      && KnownSources(ctx, RowsOf(s, wide, f))
      && (IsSortedPermutation(rows, EdgeRows(ctx, RowsOf(s, wide, f), (source, target)))
          <==> AskedSuffice(s, ctx, t, WindowQuery(s.scans, ctx.byId.Keys, cutoff), (source, target), f, wide, narrow))
      && (IsSortedPermutation(rows, EdgeRows(ctx, RowsOf(s, wide, f), (source, target))) ==>
            (rows == [] <==> (source, target) !in PairsOf(ctx, RowsOf(s, wide, f))))
  {
    hide Standing, WellFormedTable, KnownSpellings, IsContext, WellFormedInventory, Coherent, ResolverOk, IsView, RowsOf, EdgeRows, PairsOf,
         NodeDevices, NodeAddresses, WindowQuery, EdgeQuery, KnownSources, ReadsIds, InOrder, AskedSuffice;
    ghost var q := WindowQuery(s.scans, ctx.byId.Keys, cutoff);
    var devices, addresses := NodeDevices(ctx, parse, source), NodeAddresses(ctx, parse, target);
    var p := (source, target);
    var r := EdgeQuery(s.scans, IdsOf(devices), cutoff, addresses);
    var found: seq<Detail> := [];
    if devices == [] || addresses == {} {
      rows := [];
      narrow := map[];
      NothingAsked(s, s.scans, IdsOf(devices), cutoff, addresses);
      EmptyLists(s, ctx, f, p);
      SortingSorts([]);
    } else {
      NodeIds(ctx, parse, source);
      EdgeDevices(s.scans, IdsOf(devices), cutoff, addresses);
      var services;
      services, narrow := ListRows(s, r, f);
      ViewIsKnown(s, ctx, r, narrow, f);
      var groups := GroupClusterEdges(ctx, services);
      found := if p in groups then groups[p] else [];
      GroupedRows(ctx, services, groups, p);
      rows := SortedByKey(found);
      SortingSorts(found);
    }
    forall wide | IsView(s, q, wide)
      ensures KnownSources(ctx, RowsOf(s, wide, f))
      ensures IsSortedPermutation(rows, EdgeRows(ctx, RowsOf(s, wide, f), p)) <==> AskedSuffice(s, ctx, t, q, p, f, wide, narrow)
      ensures IsSortedPermutation(rows, EdgeRows(ctx, RowsOf(s, wide, f), p)) ==> (rows == [] <==> p !in PairsOf(ctx, RowsOf(s, wide, f)))
    {
      DrillDownExact(s, ctx, t, parse, p, cutoff, f, wide, narrow);
      RowsOfPair(ctx, RowsOf(s, wide, f), p);
      if multiset(rows) == multiset(EdgeRows(ctx, RowsOf(s, wide, f), p)) { EmptyTogether(rows, EdgeRows(ctx, RowsOf(s, wide, f), p)); }
    }
  }

  lemma EdgeDevices(scans: map<nat, Scan>, sources: set<nat>, cutoff: Option<nat>, addresses: set<string>)
    ensures EdgeQuery(scans, sources, cutoff, addresses).devices <= sources
  {
    hide CurrentScans;
    WindowDevices(scans, sources, cutoff);
  }

  lemma EmptyLists(s: Source, ctx: Context, f: Filter, p: Pair)
    requires StrictTotalOrder(s.order)
    ensures KnownSources(ctx, RowsOf(s, map[], f)) && EdgeRows(ctx, RowsOf(s, map[], f), p) == []
  {
    hide Passes;
    var none: map<ServiceKey, Service> := map[];
    assert Ordered(none.Keys, s.order) == [];
  }

  lemma EmptyTogether(rows: seq<Detail>, found: seq<Detail>)
    requires multiset(rows) == multiset(found)
    ensures rows == [] <==> found == []
  {
    if rows != [] { assert rows[0] in multiset(found); }
    if found != [] { assert found[0] in multiset(rows); }
  }

  lemma GroupedRows(ctx: Context, rows: seq<ServiceRow>, groups: EdgeGroups, p: Pair)
    requires KnownSources(ctx, rows) && IsGrouping(ctx, rows, groups)
    ensures (if p in groups then groups[p] else []) == EdgeRows(ctx, rows, p)
  {
    hide EdgeRows, PairsOf;
    RowsOfPair(ctx, rows, p);
  }

  // ---------------------------------------- external targets stored otherwise

  /** What the query of an external target finds: the services with at least one row stored in
      exactly the asked-for spelling. */
  lemma ExternalServices(s: Source, ctx: Context, t: Table, parse: string -> Option<int>, p: Pair, cutoff: Option<nat>,
                         narrow: map<ServiceKey, Service>, k: ServiceKey)
    requires InStep(s, ctx, t) && Topology.StartsWith(p.1, EXTERNAL)
    requires IsView(s, EdgeQuery(s.scans, IdsOf(NodeDevices(ctx, parse, p.0)), cutoff, NodeAddresses(ctx, parse, p.1)), narrow)
    ensures k in narrow <==>
      && k.device in IdsOf(NodeDevices(ctx, parse, p.0))
      && exists i | i in GroupRows(s.rules, t, WindowQuery(s.scans, ctx.byId.Keys, cutoff), k) :: t[i].record.remoteIp == Some(Topology.After(p.1, EXTERNAL))
  {
    hide Standing, WellFormedTable, KnownSpellings, IsContext, WellFormedInventory, Coherent, ResolverOk, IsGroupService, PartsOf, NodeDevices,
         Topology.StartsWith, Topology.After, WindowQuery;
    var sources := IdsOf(NodeDevices(ctx, parse, p.0));
    var q, r := WindowQuery(s.scans, ctx.byId.Keys, cutoff), EdgeQuery(s.scans, sources, cutoff, NodeAddresses(ctx, parse, p.1));
    NodeIds(ctx, parse, p.0);
    PlainWindow(s.scans, ctx.byId.Keys, cutoff);
    PlainWindow(s.scans, sources, cutoff);
    ReportedKeys(s.rules, t, s.obs, r, s.samples, k);
    forall i | i in t && Recordable(t[i])
      ensures SelectsRow(r, t[i]) <==> SelectsRow(q, t[i]) && t[i].scan.device in sources && t[i].record.remoteIp == Some(Topology.After(p.1, EXTERNAL))
    {
      WindowOfSome(s.scans, sources, ctx.byId.Keys, cutoff, t[i]);
    }
    assert k in narrow <==> GroupRows(s.rules, t, r, k) != {};
    forall i ensures i in GroupRows(s.rules, t, r, k) <==>
      i in GroupRows(s.rules, t, q, k) && k.device in sources && t[i].record.remoteIp == Some(Topology.After(p.1, EXTERNAL)) {}
  }

  /** One connection stored as `::ffff:` and a dotted quad. */
  function MappedTable(quad: string): Table { map[1 := DriftRow(1, MAPPED_PREFIX + quad, None)] }

  /** One device outside all clusters, whose host resolves to nothing. */
  function LoneDevice(): Device { Device(1, "server", "server", None) }

  function LoneContext(): Context {
    Context(Inventory([LoneDevice()], [], host => {}, (c, a) => false), map[1 := LoneDevice()], map[], map[])
  }

  function MappedSource(lib: IpLibrary, quad: string, order: (ServiceKey, ServiceKey) -> bool): Source {
    Source(RulesOf(lib), ObservationsOf(MappedTable(quad)), MappedTable(quad), map[1 := Scan(1, 1, 1, ScanStatus.Success)], order)
  }

  function NoFilter(): Filter { Filter("", "", "", text => text) }

  lemma LoneContextIsContext()
    ensures IsContext(LoneContext()) && WellFormedInventory(LoneContext().inventory)
  {
    var ctx := LoneContext();
    var ds := ctx.inventory.devices;
    assert ds == [LoneDevice()];
    forall c ensures MembersOf(ds, c) == [] { assert ds[..0] == []; }
    forall a ensures OwnersOf(ds, ctx.inventory.resolve, a) == [] { assert ds[..0] == []; }
  }

  lemma MappedIsInStep(lib: IpLibrary, quad: string, order: (ServiceKey, ServiceKey) -> bool)
    requires Lawful(lib) && CanonicalIpv4(quad) && StrictTotalOrder(order)
    ensures InStep(MappedSource(lib, quad, order), LoneContext(), MappedTable(quad))
  {
    hide Normalize, CanonicalIpv4, Lawful, ObservationsOf, Stands, IsContext, WellFormedInventory, Coherent;
    var s, t := MappedSource(lib, quad, order), MappedTable(quad);
    LoneContextIsContext();
    RulesAreCoherent(lib);
    MappedSpelling(lib, quad);
    CanonicalChars(quad);
    assert WellFormedTable(t);
    StandingObservations(t);
  }

  /** One stored connection that the full graph lists on its external edge and the drill-down of that edge does not. */
  lemma MappedRowIsMissed(lib: IpLibrary, quad: string, order: (ServiceKey, ServiceKey) -> bool, parse: string -> Option<int>,
                          wide: map<ServiceKey, Service>, narrow: map<ServiceKey, Service>)
    requires Lawful(lib) && CanonicalIpv4(quad) && !IsLoopback(lib, quad) && StrictTotalOrder(order) && ReadsIds(LoneContext(), parse)
    requires var s, ctx, p := MappedSource(lib, quad, order), LoneContext(), (DEVICE + Digits(1), EXTERNAL + quad);
      && IsView(s, WindowQuery(s.scans, ctx.byId.Keys, Some(0)), wide)
      && IsView(s, EdgeQuery(s.scans, IdsOf(NodeDevices(ctx, parse, p.0)), Some(0), NodeAddresses(ctx, parse, p.1)), narrow)
    ensures var s, ctx, p := MappedSource(lib, quad, order), LoneContext(), (DEVICE + Digits(1), EXTERNAL + quad);
      && InStep(s, ctx, MappedTable(quad))
      && KnownSources(ctx, RowsOf(s, wide, NoFilter())) && KnownSources(ctx, RowsOf(s, narrow, NoFilter()))
      && EdgeRows(ctx, RowsOf(s, wide, NoFilter()), p) != [] && EdgeRows(ctx, RowsOf(s, narrow, NoFilter()), p) == []
  {
    hide Normalize, CanonicalIpv4, Lawful, ObservationsOf, InStep, IsView, Digits, RowsOf, EdgeRows, KnownSources, ReadsIds, NodeDevices, NodeAddresses,
         Topology.StartsWith, Topology.After, WindowQuery, EdgeQuery, IsLoopback, GroupRows;
    var s, ctx, t, f := MappedSource(lib, quad, order), LoneContext(), MappedTable(quad), NoFilter();
    var p, k := (DEVICE + Digits(1), EXTERNAL + quad), ServiceKey(1, "tcp", quad, 443, "");
    MappedIsInStep(lib, quad, order);
    Topology.PrefixesDiffer(quad, "");
    assert KeyPlacement(ctx, k) == Some(p) by { Topology.PrefixesDiffer(Digits(1), quad); }
    MappedRows(lib, quad, order, k);
    ShowsMapped(s, ctx, t, p, f, k, wide);
    assert LoneDevice() in NodeDevices(ctx, parse, p.0) by {
      LoneContextIsContext();
      DeviceAtNode(ctx, parse, LoneDevice());
    }
    forall x ensures x !in narrow { ExternalServices(s, ctx, t, parse, p, Some(0), narrow, x); StoredOtherwise(lib, quad, order, x); }
    assert narrow == map[];
    InStepOrder(s, ctx, t);
    EmptyLists(s, ctx, f, p);
  }

  lemma InStepOrder(s: Source, ctx: Context, t: Table)
    requires InStep(s, ctx, t)
    ensures StrictTotalOrder(s.order) && IsContext(ctx) && WellFormedInventory(ctx.inventory)
  {
  }

  lemma MappedRows(lib: IpLibrary, quad: string, order: (ServiceKey, ServiceKey) -> bool, k: ServiceKey)
    requires Lawful(lib) && CanonicalIpv4(quad) && !IsLoopback(lib, quad) && k == ServiceKey(1, "tcp", quad, 443, "")
    ensures var s, ctx := MappedSource(lib, quad, order), LoneContext();
      1 in GroupRows(s.rules, MappedTable(quad), WindowQuery(s.scans, ctx.byId.Keys, Some(0)), k)
  {
    hide Normalize, CanonicalIpv4, Lawful, ObservationsOf, CurrentScans;
    var s, ctx, t := MappedSource(lib, quad, order), LoneContext(), MappedTable(quad);
    MappedSpelling(lib, quad);
    LoopbackOfNormal(lib, MAPPED_PREFIX + quad);
    assert ServiceKeyOf(s.rules, t[1]) == k;
    assert SelectsRow(WindowQuery(s.scans, ctx.byId.Keys, Some(0)), t[1]);
  }

  lemma StoredOtherwise(lib: IpLibrary, quad: string, order: (ServiceKey, ServiceKey) -> bool, x: ServiceKey)
    ensures var s, ctx, p := MappedSource(lib, quad, order), LoneContext(), EXTERNAL + quad;
      !exists i | i in GroupRows(s.rules, MappedTable(quad), WindowQuery(s.scans, ctx.byId.Keys, Some(0)), x) ::
        MappedTable(quad)[i].record.remoteIp == Some(Topology.After(p, EXTERNAL))
  {
    hide ObservationsOf, WindowQuery, Topology.After, Topology.StartsWith;
    Topology.PrefixesDiffer(quad, "");
    assert |MAPPED_PREFIX + quad| == 7 + |quad|;
  }

  /** A reported service that passes the filter is on its edge's list. */
  lemma ShowsMapped(s: Source, ctx: Context, t: Table, p: Pair, f: Filter, k: ServiceKey, wide: map<ServiceKey, Service>)
    requires InStep(s, ctx, t) && f == NoFilter() && k.device in ctx.byId && KeyPlacement(ctx, k) == Some(p)
    requires IsView(s, WindowQuery(s.scans, ctx.byId.Keys, Some(0)), wide)
    requires GroupRows(s.rules, t, WindowQuery(s.scans, ctx.byId.Keys, Some(0)), k) != {}
    ensures KnownSources(ctx, RowsOf(s, wide, f)) && EdgeRows(ctx, RowsOf(s, wide, f), p) != []
  {
    hide Standing, WellFormedTable, KnownSpellings, IsContext, WellFormedInventory, Coherent, ResolverOk, RowsOf, KeyPlacement, EdgeRows,
         WindowQuery, PartsOf, IsGroupService, GroupRows, KnownSources;
    var q := WindowQuery(s.scans, ctx.byId.Keys, Some(0));
    WindowDevices(s.scans, ctx.byId.Keys, Some(0));
    ReportedKeys(s.rules, t, s.obs, q, s.samples, k);
    ViewIsKnown(s, ctx, q, wide, f);
    ListedRow(s, wide, f, k);
    var r := ServiceRow(k, wide[k]);
    KnownRow(ctx, RowsOf(s, wide, f), r);
    EdgeMembers(ctx, RowsOf(s, wide, f), p);
    assert OnEdge(ctx, RowsOf(s, wide, f), p, r);
  }
}
