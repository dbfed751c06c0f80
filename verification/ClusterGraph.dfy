/** The cluster graph: which edge a service belongs to, and the loops that build the graph and
    the connections of one edge. */
module ClusterGraph {
  import opened Wrappers
  import opened Ordering
  import opened TextCodec
  import opened Services

  // ------------------------------------------------------------- filtering

  /** The members of `s` that satisfy `p`, in order. */
  function Where<T(!new)>(s: seq<T>, p: T -> bool): (r: seq<T>)
    ensures forall x :: x in r <==> x in s && p(x)
  {
    if s == [] then []
    else
      var front, last := s[..|s| - 1], s[|s| - 1];
      assert s == front + [last];
      if p(last) then Where(front, p) + [last] else Where(front, p)
  }

  lemma WhereNext<T(!new)>(s: seq<T>, n: nat, p: T -> bool)
    requires n < |s|
    ensures Where(s[..n + 1], p) == if p(s[n]) then Where(s[..n], p) + [s[n]] else Where(s[..n], p)
  {
    assert s[..n + 1][..n] == s[..n];
  }

  lemma {:induction false} WhereTwice<T(!new)>(s: seq<T>, p: T -> bool, q: T -> bool)
    ensures Where(Where(s, p), q) == Where(Where(s, q), p)
    decreases |s|
  {
    if s == [] {
    } else {
      var front, last := s[..|s| - 1], s[|s| - 1];
      WhereTwice(front, p, q);
      WhereAppend(Where(front, p), last, q);
      WhereAppend(Where(front, q), last, p);
    }
  }

  lemma WhereAppend<T(!new)>(s: seq<T>, x: T, p: T -> bool)
    ensures Where(s + [x], p) == if p(x) then Where(s, p) + [x] else Where(s, p)
  {
    assert (s + [x])[..|s|] == s;
  }

  lemma {:induction false} WhereAscends<T(!new)>(s: seq<T>, p: T -> bool, less: (T, T) -> bool)
    requires Ascending(s, less)
    ensures Ascending(Where(s, p), less)
    decreases |s|
  {
    if s == [] {
    } else {
      var front, last := s[..|s| - 1], s[|s| - 1];
      WhereAscends(front, p, less);
      var w := Where(front, p);
      forall i | 0 <= i < |w| ensures less(w[i], last) {
        assert w[i] in front;
        var j :| 0 <= j < |front| && front[j] == w[i];
        assert less(s[j], s[|s| - 1]);
      }
    }
  }

  // -------------------------------------------------------------- services

  /** One entry of the aggregated list: its group key and what is reported for it. */
  datatype ServiceRow = ServiceRow(key: ServiceKey, service: Service)

  /** The aggregated list, sorted by key. */
  function ListedKeys(keys: seq<ServiceKey>, view: map<ServiceKey, Service>): (r: seq<ServiceRow>)
    requires forall k | k in keys :: k in view
    ensures |r| == |keys| && forall i | 0 <= i < |r| :: r[i] == ServiceRow(keys[i], view[keys[i]])
  {
    seq(|keys|, i requires 0 <= i < |keys| => ServiceRow(keys[i], view[keys[i]]))
  }

  function Listed(view: map<ServiceKey, Service>, order: (ServiceKey, ServiceKey) -> bool): seq<ServiceRow>
    requires StrictTotalOrder(order)
  {
    ListedKeys(Ordered(view.Keys, order), view)
  }

  /** The optional filters of a graph request; an empty text is no filter. */
  datatype Filter = Filter(protocol: string, state: string, process: string, lower: string -> string)

  predicate StartsAt(part: string, text: string, i: nat) { i + |part| <= |text| && text[i..i + |part|] == part }

  predicate OccursIn(part: string, text: string) { exists i | 0 <= i <= |text| :: StartsAt(part, text, i) }

  function JoinDigits(pids: seq<nat>): string {
    if pids == [] then "" else if |pids| == 1 then Digits(pids[0]) else Digits(pids[0]) + " " + JoinDigits(pids[1..])
  }

  function Haystack(f: Filter, s: Service): string {
    NatOrders();
    var observed := JoinDigits(Ordered(s.pids, NatLess));
    var pids := if observed == "" && s.sample.pid.Some? then Digits(s.sample.pid.value) else observed;
    f.lower(ProcessText(s.sample.process) + " " + pids)
  }

  predicate Passes(f: Filter, r: ServiceRow) {
    && (f.protocol == "" || r.service.sample.protocol == f.protocol)
    && (f.state == "" || r.service.sample.state == Some(f.state))
    && (f.process == "" || OccursIn(f.process, Haystack(f, r.service)))
  }

  /** `text` is the ascending list of the PIDs `ps`, joined by blanks. */
  ghost predicate Spaced(text: string, ps: seq<nat>) {
    var parts := SplitOn(text, ' ');
    |parts| == |ps| && forall i | 0 <= i < |ps| :: parts[i] == Digits(ps[i])
  }

  ghost predicate ObservedText(text: string, pids: set<nat>) {
    exists ps: seq<nat> ::
      (forall i, j | 0 <= i < j < |ps| :: ps[i] < ps[j]) && (forall n :: n in ps <==> n in pids) && Spaced(text, ps)
  }

  /** What a search sees of a service's PIDs: the observed ones in ascending order, or else the sample's, or nothing. */
  ghost predicate PidText(text: string, s: Service) {
    if s.pids != {} then ObservedText(text, s.pids)
    else if s.sample.pid.Some? then text == Digits(s.sample.pid.value) else text == ""
  }

  /** The search text occurs in the lower-cased process name and PIDs. */
  ghost predicate Mentions(f: Filter, s: Service) {
    var name := if s.sample.process.Some? then s.sample.process.value else "";
    exists pids, a, b :: PidText(pids, s) && f.lower(name + " " + pids) == a + f.process + b
  }

  /** A service that the given filters let through. */
  ghost predicate Sought(f: Filter, s: Service) {
    && (f.protocol == "" || s.sample.protocol == f.protocol)
    && (f.state == "" || s.sample.state == Some(f.state))
    && (f.process == "" || Mentions(f, s))
  }

  lemma {:induction false} JoinedIsSpaced(ps: seq<nat>)
    requires ps != []
    ensures Spaced(JoinDigits(ps), ps)
    decreases |ps|
  {
    hide Digits, SplitOn;
    var first := Digits(ps[0]);
    DigitsHaveNoBlank(ps[0]);
    SplitPlain(first, ' ');
    if |ps| > 1 {
      JoinedIsSpaced(ps[1..]);
      SplitConcat(first, ' ', JoinDigits(ps[1..]));
      assert first + [' '] + JoinDigits(ps[1..]) == JoinDigits(ps);
    }
  }

  lemma DigitsHaveNoBlank(n: nat)
    ensures ' ' !in Digits(n)
  {
    assert AllDigits(Digits(n));
  }

  lemma SpacedOnce(a: string, b: string, ps: seq<nat>)
    requires Spaced(a, ps) && Spaced(b, ps)
    ensures a == b
  {
    hide SplitOn, Digits;
    assert SplitOn(a, ' ') == SplitOn(b, ' ');
    SplitInjective(a, b, ' ');
  }

  lemma NumbersAscend(ps: seq<nat>)
    ensures Ascending(ps, NatLess) <==> forall i, j | 0 <= i < j < |ps| :: ps[i] < ps[j]
  {
  }

  lemma ObservedOnce(pids: set<nat>, text: string)
    requires pids != {}
    ensures ObservedText(text, pids) <==> text == (NatOrders(); JoinDigits(Ordered(pids, NatLess)))
  {
    hide Spaced, JoinDigits, Ascending;
    NatOrders();
    var ps := Ordered(pids, NatLess);
    var n :| n in pids;
    assert n in ps;
    NumbersAscend(ps);
    JoinedIsSpaced(ps);
    if ObservedText(text, pids) {
      var qs: seq<nat> :| (forall i, j | 0 <= i < j < |qs| :: qs[i] < qs[j]) && (forall n :: n in qs <==> n in pids) && Spaced(text, qs);
      NumbersAscend(qs);
      AscendingUnique(ps, qs, NatLess);
      SpacedOnce(text, JoinDigits(ps), ps);
    }
  }

  lemma JoinedFilled(ps: seq<nat>)
    ensures JoinDigits(ps) == "" <==> ps == []
  {
    hide Digits;
  }

  /** The PID text the search builds, and the only one there is. */
  lemma PidTextOf(s: Service, text: string)
    ensures var observed := (NatOrders(); JoinDigits(Ordered(s.pids, NatLess)));
      PidText(text, s) <==> text == if observed == "" && s.sample.pid.Some? then Digits(s.sample.pid.value) else observed
  {
    hide Digits, Spaced, JoinDigits, ObservedText;
    NatOrders();
    var ps := Ordered(s.pids, NatLess);
    JoinedFilled(ps);
    if s.pids != {} {
      var n :| n in s.pids;
      assert n in ps;
      ObservedOnce(s.pids, text);
    }
  }

  lemma OccursSplit(part: string, text: string)
    ensures OccursIn(part, text) <==> exists a, b :: text == a + part + b
  {
    if i :| 0 <= i <= |text| && StartsAt(part, text, i) {
      assert text == text[..i] + part + text[i + |part|..];
    }
    if a, b :| text == a + part + b {
      assert StartsAt(part, text, |a|);
    }
  }

  lemma MentionsOccurs(f: Filter, s: Service)
    ensures OccursIn(f.process, Haystack(f, s)) <==> Mentions(f, s)
  {
    hide OccursIn, Digits, JoinDigits, PidText;
    NatOrders();
    var observed := JoinDigits(Ordered(s.pids, NatLess));
    var pids := if observed == "" && s.sample.pid.Some? then Digits(s.sample.pid.value) else observed;
    PidTextOf(s, pids);
    OccursSplit(f.process, Haystack(f, s));
    if OccursIn(f.process, Haystack(f, s)) {
      var a, b :| Haystack(f, s) == a + f.process + b;
      assert PidText(pids, s) && f.lower(ProcessText(s.sample.process) + " " + pids) == a + f.process + b;
    }
    if Mentions(f, s) {
      var text, a, b :| PidText(text, s) && f.lower(ProcessText(s.sample.process) + " " + text) == a + f.process + b;
      PidTextOf(s, text);
    }
  }

  lemma PassesSought(f: Filter, r: ServiceRow)
    ensures Passes(f, r) <==> Sought(f, r.service)
  {
    hide OccursIn, Haystack, Mentions;
    MentionsOccurs(f, r.service);
  }

  /** `filter_service_connections`: the services that are wanted, in order, and no other is dropped. */
  method FilterServiceConnections(services: seq<ServiceRow>, f: Filter) returns (rows: seq<ServiceRow>)
    ensures rows == Where(services, r => Passes(f, r))
    ensures forall r :: r in rows <==> r in services && Sought(f, r.service)
  {
    hide OccursIn, Haystack, Sought;
    forall r ensures Passes(f, r) <==> Sought(f, r.service) { PassesSought(f, r); }
    var passes := r => Passes(f, r);
    if f.protocol == "" && f.state == "" && f.process == "" {
      AllPass(services, passes);
      return services;
    }
    rows := [];
    var n := 0;
    while n < |services|
      invariant 0 <= n <= |services| && rows == Where(services[..n], passes)
    {
      WhereNext(services, n, passes);
      var service := services[n].service;
      n := n + 1;
      if f.protocol != "" && service.sample.protocol != f.protocol { continue; }
      if f.state != "" && service.sample.state != Some(f.state) { continue; }
      if f.process != "" && !OccursIn(f.process, Haystack(f, service)) { continue; }
      rows := rows + [services[n - 1]];
    }
    assert services[..n] == services;
  }

  lemma {:induction false} AllPass<T(!new)>(s: seq<T>, p: T -> bool)
    requires forall x | x in s :: p(x)
    ensures Where(s, p) == s
    decreases |s|
  {
    if s == [] {
    } else {
      AllPass(s[..|s| - 1], p);
      assert s == s[..|s| - 1] + [s[|s| - 1]];
    }
  }

  // --------------------------------------------------------------- context

  datatype Device = Device(id: nat, name: string, host: string, cluster: Option<nat>)

  datatype Cluster = Cluster(id: nat, name: string)

  /** Inputs of the context: rows in name order, the resolver, and the clusters' own networks. */
  datatype Inventory = Inventory(
    devices: seq<Device>, clusters: seq<Cluster>,
    resolve: string -> set<string>, internal: (nat, string) -> bool)

  datatype Context = Context(
    inventory: Inventory, byId: map<nat, Device>, members: map<nat, seq<Device>>, owners: map<string, seq<Device>>)

  /** Keys of the database: ids are positive and unique, clusters exist. */
  ghost predicate WellFormedInventory(inv: Inventory) {
    && (forall i, j | 0 <= i < j < |inv.devices| :: inv.devices[i].id != inv.devices[j].id)
    && (forall d | d in inv.devices && d.cluster.Some? :: d.cluster.value > 0 && exists c :: c in inv.clusters && c.id == d.cluster.value)
  }

  predicate InCluster(d: Device, c: nat) { d.cluster == Some(c) && c != 0 }

  function MembersOf(devices: seq<Device>, c: nat): seq<Device> { Where(devices, d => InCluster(d, c)) }

  function OwnersOf(devices: seq<Device>, resolve: string -> set<string>, a: string): seq<Device> {
    Where(devices, (d: Device) => a in resolve(d.host))
  }

  function At<K>(m: map<K, seq<Device>>, k: K): seq<Device> { if k in m then m[k] else [] }

  ghost predicate AllMembers(members: map<nat, seq<Device>>, ds: seq<Device>) { forall c :: At(members, c) == MembersOf(ds, c) }

  ghost predicate AllOwners(owners: map<string, seq<Device>>, ds: seq<Device>, resolve: string -> set<string>) {
    forall a :: At(owners, a) == OwnersOf(ds, resolve, a)
  }

  ghost predicate Indexed(byId: map<nat, Device>, ds: seq<Device>) {
    (forall i :: i in byId <==> exists d :: d in ds && d.id == i) && (forall d | d in ds :: d.id in byId && byId[d.id] == d)
  }

  /** Devices by id, cluster members and address owners, each list in device order. */
  ghost predicate IsContext(ctx: Context) {
    var ds := ctx.inventory.devices;
    Indexed(ctx.byId, ds) && AllMembers(ctx.members, ds) && AllOwners(ctx.owners, ds, ctx.inventory.resolve)
  }

  /** `after` is `before` with `d` appended for each of `keys`. */
  ghost predicate Appended<K(!new)>(before: map<K, seq<Device>>, after: map<K, seq<Device>>, d: Device, keys: set<K>) {
    forall k :: At(after, k) == At(before, k) + if k in keys then [d] else []
  }

  lemma AppendedOne<K(!new)>(before: map<K, seq<Device>>, after: map<K, seq<Device>>, d: Device, keys: set<K>, k: K)
    requires Appended(before, after, d, keys) && k !in keys
    ensures Appended(before, after[k := At(after, k) + [d]], d, keys + {k})
  {
  }

  lemma AppendedNone<K(!new)>(before: map<K, seq<Device>>, d: Device)
    ensures Appended(before, before, d, {})
  {
  }

  /** The device joins the owners of each of its addresses. */
  method AddOwner(owners: map<string, seq<Device>>, d: Device, addresses: set<string>) returns (r: map<string, seq<Device>>)
    ensures Appended(owners, r, d, addresses)
  {
    hide *;
    r := owners;
    var todo := addresses;
    ghost var done: set<string> := {};
    AppendedNone(owners, d);
    while todo != {}
      invariant todo <= addresses && done == addresses - todo && Appended(owners, r, d, done)
      decreases |todo|
    {
      var a: string :| a in todo;
      AppendedOne(owners, r, d, done, a);
      r := r[a := At(r, a) + [d]];
      todo, done := todo - {a}, done + {a};
    }
    assert done == addresses;
  }

  /** `load_cluster_graph_context`, without its warnings. */
  method LoadContext(inv: Inventory) returns (ctx: Context)
    requires WellFormedInventory(inv)
    ensures IsContext(ctx) && ctx.inventory == inv
  {
    hide Where, WellFormedInventory, Indexed, AllMembers, AllOwners, MembersOf, OwnersOf, Appended;
    var owners: map<string, seq<Device>> := map[];
    var members: map<nat, seq<Device>> := map[];
    var byId: map<nat, Device> := map[];
    var n := 0;
    NoDevices(inv.resolve);
    while n < |inv.devices|
      invariant 0 <= n <= |inv.devices|
      invariant Indexed(byId, inv.devices[..n]) && AllMembers(members, inv.devices[..n]) && AllOwners(owners, inv.devices[..n], inv.resolve)
    {
      var d := inv.devices[n];
      var before := owners;
      owners := AddOwner(owners, d, inv.resolve(d.host));
      OwnersNext(inv, n, before, owners);
      MembersNext(inv, n, members);
      if d.cluster.Some? && d.cluster.value != 0 { members := members[d.cluster.value := At(members, d.cluster.value) + [d]]; }
      IndexNext(inv, n, byId);
      byId := byId[d.id := d];
      n := n + 1;
    }
    assert inv.devices[..n] == inv.devices;
    ctx := Context(inv, byId, members, owners);
  }

  lemma NoDevices(resolve: string -> set<string>)
    ensures Indexed(map[], []) && AllMembers(map[], []) && AllOwners(map[], [], resolve)
  {
  }

  lemma OwnersNext(inv: Inventory, n: nat, before: map<string, seq<Device>>, after: map<string, seq<Device>>)
    requires n < |inv.devices| && AllOwners(before, inv.devices[..n], inv.resolve)
    requires Appended(before, after, inv.devices[n], inv.resolve(inv.devices[n].host))
    ensures AllOwners(after, inv.devices[..n + 1], inv.resolve)
  {
    hide Where;
    forall a ensures At(after, a) == OwnersOf(inv.devices[..n + 1], inv.resolve, a) {
      WhereNext(inv.devices, n, (d: Device) => a in inv.resolve(d.host));
      assert At(before, a) == OwnersOf(inv.devices[..n], inv.resolve, a);
    }
  }

  lemma MembersNext(inv: Inventory, n: nat, members: map<nat, seq<Device>>)
    requires n < |inv.devices| && AllMembers(members, inv.devices[..n])
    ensures var d := inv.devices[n];
      var after := if d.cluster.Some? && d.cluster.value != 0 then members[d.cluster.value := At(members, d.cluster.value) + [d]] else members;
      AllMembers(after, inv.devices[..n + 1])
  {
    hide Where;
    var d := inv.devices[n];
    var after := if d.cluster.Some? && d.cluster.value != 0 then members[d.cluster.value := At(members, d.cluster.value) + [d]] else members;
    forall c ensures At(after, c) == MembersOf(inv.devices[..n + 1], c) {
      assert At(members, c) == MembersOf(inv.devices[..n], c);
      WhereNext(inv.devices, n, x => InCluster(x, c));
    }
  }

  lemma IndexNext(inv: Inventory, n: nat, byId: map<nat, Device>)
    requires WellFormedInventory(inv) && n < |inv.devices| && Indexed(byId, inv.devices[..n])
    ensures Indexed(byId[inv.devices[n].id := inv.devices[n]], inv.devices[..n + 1])
  {
    var d, front := inv.devices[n], inv.devices[..n];
    var after := byId[d.id := d];
    forall e | e in front ensures e.id != d.id { var i :| 0 <= i < n && inv.devices[i] == e; }
    assert inv.devices[..n + 1] == front + [d];
    forall i ensures i in after <==> exists e :: e in inv.devices[..n + 1] && e.id == i {
      if i in byId { var e :| e in front && e.id == i; assert e in inv.devices[..n + 1]; }
      if i == d.id { assert d in inv.devices[..n + 1]; }
    }
  }

  // ----------------------------------------------------------------- edges

  const CLUSTER := "cluster-"
  const DEVICE := "device-"
  const EXTERNAL := "external-"

  function ManagedNodeId(d: Device): string {
    if d.cluster.Some? && d.cluster.value != 0 then CLUSTER + Digits(d.cluster.value) else DEVICE + Digits(d.id)
  }

  /** Where an edge ends, and the device there if it is a managed one. */
  datatype Target = Target(id: string, device: Option<Device>)

  /** `_service_edge_target`. */
  function EdgeTarget(ctx: Context, source: Device, remote: string): Option<Target> {
    var owners := At(ctx.owners, remote);
    if |owners| == 1 then
      var d := owners[0];
      if d.id == source.id then None
      else if source.cluster.Some? && source.cluster == d.cluster then None
      else Some(Target(ManagedNodeId(d), Some(d)))
    else if owners == [] && source.cluster.Some? && ctx.inventory.internal(source.cluster.value, remote) then None
    else Some(Target(EXTERNAL + remote, None))
  }

  type Pair = (string, string)

  /** The edge the services of one key belong to, if any. */
  function KeyPlacement(ctx: Context, k: ServiceKey): Option<Pair>
    requires k.device in ctx.byId
  {
    var source := ctx.byId[k.device];
    var target := EdgeTarget(ctx, source, k.remote);
    if target.None? || ManagedNodeId(source) == target.value.id then None
    else Some((ManagedNodeId(source), target.value.id))
  }

  /** The edge a service belongs to, if any. */
  function Placement(ctx: Context, r: ServiceRow): Option<Pair>
    requires r.key.device in ctx.byId
  {
    KeyPlacement(ctx, r.key)
  }

  datatype Detail = Detail(row: ServiceRow, sourceName: string, targetId: Option<nat>, targetName: Option<string>)

  function DetailOf(ctx: Context, r: ServiceRow): Detail
    requires r.key.device in ctx.byId
  {
    var source := ctx.byId[r.key.device];
    var target := EdgeTarget(ctx, source, r.key.remote);
    var d := if target.Some? then target.value.device else None;
    Detail(r, source.name, if d.Some? then Some(d.value.id) else None, if d.Some? then Some(d.value.name) else None)
  }

  predicate KnownSources(ctx: Context, rows: seq<ServiceRow>) { forall r | r in rows :: r.key.device in ctx.byId }

  /** The connections of edge `p`, in list order. */
  function EdgeRows(ctx: Context, rows: seq<ServiceRow>, p: Pair): (r: seq<Detail>)
    requires KnownSources(ctx, rows)
    ensures |r| <= |rows|
  {
    if rows == [] then []
    else
      var front, last := rows[..|rows| - 1], rows[|rows| - 1];
      assert rows == front + [last];
      if Placement(ctx, last) == Some(p) then EdgeRows(ctx, front, p) + [DetailOf(ctx, last)] else EdgeRows(ctx, front, p)
  }

  function PairsOf(ctx: Context, rows: seq<ServiceRow>): set<Pair>
    requires KnownSources(ctx, rows)
  {
    set r | r in rows && Placement(ctx, r).Some? :: Placement(ctx, r).value
  }

  type EdgeGroups = map<Pair, seq<Detail>>

  ghost predicate IsGrouping(ctx: Context, rows: seq<ServiceRow>, groups: EdgeGroups)
    requires KnownSources(ctx, rows)
  {
    groups.Keys == PairsOf(ctx, rows) && forall p | p in groups :: groups[p] == EdgeRows(ctx, rows, p)
  }

  lemma {:induction false} RowsOfPair(ctx: Context, rows: seq<ServiceRow>, p: Pair)
    requires KnownSources(ctx, rows)
    ensures p in PairsOf(ctx, rows) <==> EdgeRows(ctx, rows, p) != []
    decreases |rows|
  {
    hide Placement, DetailOf;
    if rows == [] {
    } else {
      var front, last := rows[..|rows| - 1], rows[|rows| - 1];
      assert rows == front + [last];
      RowsOfPair(ctx, front, p);
      if p in PairsOf(ctx, rows) {
        var r :| r in rows && Placement(ctx, r) == Some(p);
        assert r in front ==> p in PairsOf(ctx, front);
      }
      if p in PairsOf(ctx, front) {
        var r :| r in front && Placement(ctx, r) == Some(p);
        assert r in rows;
      }
    }
  }

  /** Row `r` is on edge `p` of the list. */
  ghost predicate OnEdge(ctx: Context, rows: seq<ServiceRow>, p: Pair, r: ServiceRow)
    requires KnownSources(ctx, rows)
  {
    r in rows && Placement(ctx, r) == Some(p)
  }

  lemma {:induction false} EdgeMembers(ctx: Context, rows: seq<ServiceRow>, p: Pair)
    requires KnownSources(ctx, rows)
    ensures forall r | OnEdge(ctx, rows, p, r) :: DetailOf(ctx, r) in EdgeRows(ctx, rows, p)
    ensures forall d | d in EdgeRows(ctx, rows, p) :: OnEdge(ctx, rows, p, d.row)
    decreases |rows|
  {
    hide Placement;
    if rows == [] {
    } else {
      var front, last := rows[..|rows| - 1], rows[|rows| - 1];
      assert rows == front + [last];
      EdgeMembers(ctx, front, p);
      forall r | OnEdge(ctx, rows, p, r) ensures DetailOf(ctx, r) in EdgeRows(ctx, rows, p) {
        assert r == last || OnEdge(ctx, front, p, r);
      }
      forall d | d in EdgeRows(ctx, rows, p) ensures OnEdge(ctx, rows, p, d.row) {
        assert d in EdgeRows(ctx, front, p) ==> OnEdge(ctx, front, p, d.row);
      }
    }
  }

  lemma GroupNext(ctx: Context, rows: seq<ServiceRow>, n: nat, groups: EdgeGroups)
    requires KnownSources(ctx, rows) && n < |rows| && KnownSources(ctx, rows[..n]) && KnownSources(ctx, rows[..n + 1])
    requires IsGrouping(ctx, rows[..n], groups)
    ensures var at := Placement(ctx, rows[n]);
      if at.None? then IsGrouping(ctx, rows[..n + 1], groups)
      else
        var p := at.value;
        IsGrouping(ctx, rows[..n + 1], groups[p := (if p in groups then groups[p] else []) + [DetailOf(ctx, rows[n])]])
  {
    hide Placement, DetailOf;
    var front, r := rows[..n], rows[n];
    assert rows[..n + 1] == front + [r] && rows[..n + 1][..n] == front;
    forall p ensures p in PairsOf(ctx, rows[..n + 1]) <==> p in PairsOf(ctx, front) || Placement(ctx, r) == Some(p) {
      if p in PairsOf(ctx, rows[..n + 1]) {
        var q :| q in rows[..n + 1] && Placement(ctx, q) == Some(p);
        assert q in front ==> p in PairsOf(ctx, front);
      }
      if p in PairsOf(ctx, front) {
        var q :| q in front && Placement(ctx, q) == Some(p);
        assert q in rows[..n + 1];
      }
      assert r in rows[..n + 1];
    }
    if Placement(ctx, r).Some? { RowsOfPair(ctx, front, Placement(ctx, r).value); }
  }

  /** `group_cluster_edges`. */
  method GroupClusterEdges(ctx: Context, services: seq<ServiceRow>) returns (groups: EdgeGroups)
    requires KnownSources(ctx, services)
    ensures IsGrouping(ctx, services, groups)
  {
    hide EdgeTarget, ManagedNodeId, EdgeRows, PairsOf, IsGrouping;
    groups := map[];
    var n := 0;
    NothingGrouped(ctx);
    while n < |services|
      invariant 0 <= n <= |services| && KnownSources(ctx, services[..n]) && IsGrouping(ctx, services[..n], groups)
    {
      var service := services[n];
      GroupNext(ctx, services, n, groups);
      var source := ctx.byId[service.key.device];
      var sourceId := ManagedNodeId(source);
      var mapped := EdgeTarget(ctx, source, service.key.remote);
      n := n + 1;
      if mapped.None? { continue; }
      var target := mapped.value;
      if sourceId == target.id { continue; }
      var p := (sourceId, target.id);
      var detail := Detail(service, source.name, if target.device.Some? then Some(target.device.value.id) else None,
                           if target.device.Some? then Some(target.device.value.name) else None);
      groups := groups[p := (if p in groups then groups[p] else []) + [detail]];
    }
    assert services[..n] == services;
  }

  lemma NothingGrouped(ctx: Context)
    ensures IsGrouping(ctx, [], map[])
  {
  }
}
