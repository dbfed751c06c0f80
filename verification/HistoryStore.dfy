/** The stored history: scans, raw records and observations, the transaction that adds a scan,
    the backfill, and the two retention purges. */
module HistoryStore {
  import opened Wrappers
  import opened Ordering
  import opened TextCodec
  import opened Services
  import opened Observations
  import opened ObservationGroups
  import opened HistoryViews

  // ------------------------------------------------------ which rows are kept

  function UpperChar(c: char): char { if 'a' <= c <= 'z' then (c as nat - 32) as char else c }

  function Upper(s: string): string { if s == "" then "" else [UpperChar(s[0])] + Upper(s[1..]) }

  /** A collected connection, before it gets an id. */
  datatype Connection = Connection(
    protocol: string, localIp: string, localPort: nat,
    remoteIp: Option<string>, remotePort: Option<nat>,
    state: Option<string>, pid: Option<nat>, process: Option<string>)

  predicate KeepConnection(c: Connection) {
    || c.remoteIp.None?
    || c.protocol == "udp"
    || (c.state.Some? && Upper(c.state.value) in {"ESTAB", "ESTABLISHED"})
  }

  ghost predicate SameLetter(c: char, d: char) { c == d || ('a' <= c <= 'z' && c as int == d as int + 32) }

  /** Equal but for lower-case letters in `s`. */
  ghost predicate Caseless(s: string, t: string) {
    |s| == |t| && forall i | 0 <= i < |s| :: SameLetter(s[i], t[i])
  }

  /** A listener, a UDP connection, or an established one, its state in letters of either case. */
  ghost predicate Retained(c: Connection) {
    || c.remoteIp.None?
    || c.protocol == "udp"
    || (c.state.Some? && (Caseless(c.state.value, "ESTAB") || Caseless(c.state.value, "ESTABLISHED")))
  }

  lemma CaselessFirst(s: string, t: string)
    requires s != "" && t != ""
    ensures Caseless(s, t) <==> SameLetter(s[0], t[0]) && Caseless(s[1..], t[1..])
  {
    if SameLetter(s[0], t[0]) && Caseless(s[1..], t[1..]) {
      forall i | 0 <= i < |s| ensures SameLetter(s[i], t[i]) {
        if i > 0 { assert s[i] == s[1..][i - 1] && t[i] == t[1..][i - 1]; }
      }
    }
  }

  lemma {:induction false} UpperIsCaseless(s: string, t: string)
    requires forall c | c in t :: !('a' <= c <= 'z')
    ensures Upper(s) == t <==> Caseless(s, t)
    decreases |s|
  {
    hide Caseless;
    if s == "" || t == "" {
      EmptyCaseless(s, t);
    } else {
      forall c | c in t[1..] ensures c in t {}
      UpperIsCaseless(s[1..], t[1..]);
      CaselessFirst(s, t);
      assert t[0] in t && t == [t[0]] + t[1..];
      assert Upper(s)[0] == UpperChar(s[0]) && Upper(s)[1..] == Upper(s[1..]);
    }
  }

  lemma EmptyCaseless(s: string, t: string)
    requires s == "" || t == ""
    ensures Caseless(s, t) <==> s == t
  {
  }

  lemma KeepIsRetained(c: Connection)
    ensures KeepConnection(c) <==> Retained(c)
  {
    hide Caseless, Upper;
    if c.state.Some? {
      UpperIsCaseless(c.state.value, "ESTAB");
      UpperIsCaseless(c.state.value, "ESTABLISHED");
    }
  }

  /** Record `r` holds connection `c`, collected by scan `scan`. */
  ghost predicate Holds(r: Record, c: Connection, scan: nat) {
    && r.scan == scan && r.protocol == c.protocol && r.localIp == c.localIp && r.localPort == c.localPort
    && r.remoteIp == c.remoteIp && r.remotePort == c.remotePort && r.state == c.state && r.pid == c.pid && r.process == c.process
    && r.hostname == None
  }

  function RecordFor(c: Connection, id: nat, scan: nat): Record {
    Record(id, scan, c.protocol, c.localIp, c.localPort, c.remoteIp, c.remotePort, c.state, c.pid, c.process, None)
  }

  /** What collectors guarantee about a connection. */
  predicate WellFormedConnection(c: Connection) {
    c.localIp != "" && COMMA !in c.localIp && c.remotePort != Some(0) && c.process != Some("")
  }

  datatype Outcome = Outcome(device: nat, status: ScanStatus, started: nat, connections: seq<Connection>)

  /** The row filter of `add_scan_outcome`. */
  function KeptOf(cs: seq<Connection>): (r: seq<Connection>)
    ensures |r| <= |cs| && forall c | c in r :: c in cs && KeepConnection(c)
  {
    if cs == [] then []
    else if KeepConnection(cs[0]) then [cs[0]] + KeptOf(cs[1..])
    else KeptOf(cs[1..])
  }

  function KeptOne(c: Connection): seq<Connection> { if KeepConnection(c) then [c] else [] }

  lemma KeptOfFirst(cs: seq<Connection>)
    requires cs != []
    ensures KeptOf(cs) == KeptOne(cs[0]) + KeptOf(cs[1..])
  {
    hide KeepConnection;
  }

  lemma Regrouped(x: seq<Connection>, y: seq<Connection>, z: seq<Connection>)
    ensures x + (y + z) == (x + y) + z
  {
  }

  lemma WithoutFirst(a: seq<Connection>, b: seq<Connection>)
    requires a != []
    ensures (a + b)[0] == a[0] && (a + b)[1..] == a[1..] + b
  {
  }

  lemma KeptOfNone(b: seq<Connection>)
    ensures KeptOf([] + b) == KeptOf([]) + KeptOf(b)
  {
    assert [] + b == b && KeptOf([]) == [];
  }

  /** The filter keeps the order: of two lists one after the other, what is kept of each. */
  lemma {:induction false} KeptInOrder(a: seq<Connection>, b: seq<Connection>)
    ensures KeptOf(a + b) == KeptOf(a) + KeptOf(b)
  {
    hide *;
    if a == [] {
      KeptOfNone(b);
    } else {
      KeptInOrder(a[1..], b);
      KeptOfFirst(a);
      KeptOfFirst(a + b);
      WithoutFirst(a, b);
      Regrouped(KeptOne(a[0]), KeptOf(a[1..]), KeptOf(b));
    }
  }

  /** Every accepted connection is kept as often as it was collected, and no other. */
  lemma {:induction false} KeptExactly(cs: seq<Connection>, c: Connection)
    ensures multiset(KeptOf(cs))[c] == if Retained(c) then multiset(cs)[c] else 0
  {
    hide KeptOf, Retained;
    KeepIsRetained(c);
    if cs != [] {
      KeptExactly(cs[1..], c);
      KeptOfFirst(cs);
      assert cs == [cs[0]] + cs[1..];
    }
  }

  /** Records for `cs`, numbered from `id` on. */
  function RecordsFor(cs: seq<Connection>, id: nat, scan: nat): (r: map<nat, Record>)
    ensures forall i :: i in r <==> id <= i < id + |cs|
    ensures forall i | i in r :: r[i] == RecordFor(cs[i - id], i, scan)
  {
    if cs == [] then map[]
    else
      var n := |cs| - 1;
      RecordsFor(cs[..n], id, scan)[id + n := RecordFor(cs[n], id + n, scan)]
  }

  /** The records numbered from `first` on hold the connections `cs`, in order. */
  ghost predicate RowsHold(records: map<nat, Record>, cs: seq<Connection>, first: nat, scan: nat) {
    forall n | 0 <= n < |cs| :: first + n in records && Holds(records[first + n], cs[n], scan)
  }

  lemma RecordsHold(records: map<nat, Record>, cs: seq<Connection>, first: nat, scan: nat)
    ensures RowsHold(records + RecordsFor(cs, first, scan), cs, first, scan)
  {
    hide Holds, RecordFor, RecordsFor;
    var added := RecordsFor(cs, first, scan);
    forall n | 0 <= n < |cs| ensures first + n in added && Holds(added[first + n], cs[n], scan) {
      assert first + n in added;
      RecordHolds(cs[n], first + n, scan);
    }
  }

  lemma RecordHolds(c: Connection, id: nat, scan: nat)
    ensures Holds(RecordFor(c, id, scan), c, scan)
  {
  }

  lemma RecordsForNext(cs: seq<Connection>, n: nat, id: nat, scan: nat, records: map<nat, Record>)
    requires n < |cs|
    ensures records + RecordsFor(cs[..n + 1], id, scan) == (records + RecordsFor(cs[..n], id, scan))[id + n := RecordFor(cs[n], id + n, scan)]
  {
    assert cs[..n + 1][..n] == cs[..n];
  }

  // --------------------------------------------------------- syncing ranges

  /** Rows of scans in `[lo, hi)`. */
  function RangeRows(t: Table, lo: nat, hi: nat): Table { map i | i in t && lo <= t[i].scan.id < hi :: t[i] }

  /** The statement run over a range of scans: insert what is missing, leave what is there. */
  function Synced(obs: ObsTable, t: Table, lo: nat, hi: nat): ObsTable { ObservationsOf(RangeRows(t, lo, hi)) + obs }

  /** Observations of one scan only depend on that scan's rows. */
  lemma RangeCell(t: Table, lo: nat, hi: nat, k: ObsKey)
    ensures Cell(RangeRows(t, lo, hi), k) == if lo <= k.scan < hi then Cell(t, k) else {}
  {
  }

  lemma SameCellSameObservation(s: Table, t: Table, k: ObsKey)
    requires Cell(s, k) == Cell(t, k) != {} && forall i | i in Cell(t, k) :: s[i] == t[i]
    ensures Observe(s, k) == Observe(t, k)
  {
    hide StringAgg, IntAgg;
    var ids := Cell(t, k);
    assert Named(s, ids) == Named(t, ids);
    assert LocalIpTexts(s, ids) == LocalIpTexts(t, ids);
    assert LocalPorts(s, ids) == LocalPorts(t, ids);
    assert Pids(s, ids) == Pids(t, ids);
  }

  /** Aggregating a range of scans is the restriction of aggregating everything. */
  lemma RangeObservations(t: Table, lo: nat, hi: nat)
    ensures ObservationsOf(RangeRows(t, lo, hi)) == map k | k in ObservationsOf(t) && lo <= k.scan < hi :: ObservationsOf(t)[k]
  {
    hide Observe, Cell;
    var s := RangeRows(t, lo, hi);
    forall k
      ensures k in ObservationsOf(s) <==> k in ObservationsOf(t) && lo <= k.scan < hi
      ensures k in ObservationsOf(s) ==> ObservationsOf(s)[k] == ObservationsOf(t)[k]
    {
      ObsKeysHaveCells(s, k);
      ObsKeysHaveCells(t, k);
      RangeCell(t, lo, hi, k);
      if Cell(s, k) != {} {
        CellIds(t, k);
        CellIds(s, k);
        SameCellSameObservation(s, t, k);
      }
    }
  }

  lemma CellIds(t: Table, k: ObsKey)
    ensures forall i | i in Cell(t, k) :: i in t && t[i].scan.id == k.scan
  {
  }

  /** Syncing two adjacent ranges one after the other is syncing their union. */
  lemma SyncedTwice(obs: ObsTable, t: Table, lo: nat, mid: nat, hi: nat)
    requires lo <= mid <= hi
    ensures Synced(Synced(obs, t, lo, mid), t, mid, hi) == Synced(obs, t, lo, hi)
  {
    hide ObservationsOf, RangeRows;
    RangeObservations(t, lo, mid);
    RangeObservations(t, mid, hi);
    RangeObservations(t, lo, hi);
  }

  /** A range that contains every recordable row is the whole. */
  lemma SyncedAll(obs: ObsTable, t: Table, lo: nat, hi: nat)
    requires forall i | i in t && Recordable(t[i]) :: lo <= t[i].scan.id < hi
    ensures Synced(obs, t, lo, hi) == ObservationsOf(t) + obs
  {
    hide Observe;
    RangeObservations(t, lo, hi);
  }

  // ------------------------------------------------------------- baselines

  /** Scan `a` came after scan `b`; of two that start together the one with the greater id. */
  ghost predicate Newer(a: Scan, b: Scan) {
    b.started < a.started || (b.started == a.started && b.id < a.id)
  }

  predicate Later(a: Scan, b: Scan) { a.started > b.started || (a.started == b.started && a.id > b.id) }

  /** Successful scans of the same device ranked before `s`. */
  function Ahead(scans: map<nat, Scan>, s: Scan): set<nat> {
    set i | i in scans && scans[i].device == s.device && scans[i].status == ScanStatus.Success && Later(scans[i], s)
  }

  const KEPT_SCANS_PER_DEVICE: nat := 2

  /** `row_number() … <= 2` over successful scans, newest first. */
  function Kept(scans: map<nat, Scan>): set<nat> {
    set i | i in scans && scans[i].status == ScanStatus.Success && |Ahead(scans, scans[i])| < KEPT_SCANS_PER_DEVICE
  }

  /** `load_current_scans`: the newest successful scan of each device. */
  function CurrentScans(scans: map<nat, Scan>, devices: set<nat>): set<nat> {
    set i | i in scans && scans[i].device in devices && scans[i].status == ScanStatus.Success && Ahead(scans, scans[i]) == {}
  }

  predicate SuccessOf(scans: map<nat, Scan>, device: nat, i: nat) {
    i in scans && scans[i].device == device && scans[i].status == ScanStatus.Success
  }

  /** Of a device's successful scans the kept ones are the newest, two at the most. */
  lemma KeptAreNewest(scans: map<nat, Scan>, device: nat)
    requires ScanIdsMatch(scans)
    ensures forall i, j | SuccessOf(scans, device, i) && SuccessOf(scans, device, j) && i in Kept(scans) && j !in Kept(scans) :: Newer(scans[i], scans[j])
    ensures forall i, j, k | SuccessOf(scans, device, i) && SuccessOf(scans, device, j) && SuccessOf(scans, device, k)
                             && i in Kept(scans) && j in Kept(scans) && k in Kept(scans) :: i == j || j == k || i == k
    ensures forall i, j | SuccessOf(scans, device, i) && SuccessOf(scans, device, j) && i !in Kept(scans) && j in Kept(scans) ::
      exists k :: SuccessOf(scans, device, k) && k != j && k in Kept(scans)
  {
    forall i, j | SuccessOf(scans, device, i) && SuccessOf(scans, device, j) && i in Kept(scans) && j !in Kept(scans)
      ensures Newer(scans[i], scans[j])
    {
      if !Later(scans[i], scans[j]) { AheadShrinks(scans, j, i); }
    }
    forall i, j, k | SuccessOf(scans, device, i) && SuccessOf(scans, device, j) && SuccessOf(scans, device, k)
                     && i in Kept(scans) && j in Kept(scans) && k in Kept(scans)
      ensures i == j || j == k || i == k
    {
      ThreeKept(scans, i, j, k);
    }
    forall i, j | SuccessOf(scans, device, i) && SuccessOf(scans, device, j) && i !in Kept(scans) && j in Kept(scans)
      ensures exists k :: SuccessOf(scans, device, k) && k != j && k in Kept(scans)
    {
      SecondKept(scans, device, i, j);
    }
  }

  /** At most one successful scan of the same device is newer. */
  ghost predicate AmongNewestTwo(scans: map<nat, Scan>, i: nat)
    requires i in scans
  {
    && scans[i].status == ScanStatus.Success
    && !exists a, b :: a != b && SuccessOf(scans, scans[i].device, a) && SuccessOf(scans, scans[i].device, b)
                       && Newer(scans[a], scans[i]) && Newer(scans[b], scans[i])
  }

  lemma TwoMembers(s: set<nat>)
    ensures |s| >= 2 <==> exists a, b :: a != b && a in s && b in s
  {
    if a, b :| a != b && a in s && b in s {
      assert {a, b} <= s && |{a, b}| == 2;
      SubsetSize({a, b}, s);
    }
    if |s| >= 2 {
      var a :| a in s;
      assert |s - {a}| >= 1;
      var b :| b in s - {a};
    }
  }

  lemma KeptMeans(scans: map<nat, Scan>, i: nat)
    requires i in scans
    ensures i in Kept(scans) <==> AmongNewestTwo(scans, i)
  {
    var ahead := Ahead(scans, scans[i]);
    TwoMembers(ahead);
    forall a ensures a in ahead <==> SuccessOf(scans, scans[i].device, a) && Newer(scans[a], scans[i]) {}
  }

  lemma {:induction false} AheadShrinks(scans: map<nat, Scan>, a: nat, b: nat)
    requires a in scans && b in scans && scans[a].device == scans[b].device && scans[a].status == ScanStatus.Success && Later(scans[a], scans[b])
    ensures |Ahead(scans, scans[a])| < |Ahead(scans, scans[b])|
  {
    var front, back := Ahead(scans, scans[a]), Ahead(scans, scans[b]);
    assert a in back && a !in front && front <= back - {a};
    SubsetSize(front, back - {a});
  }

  lemma ThreeKept(scans: map<nat, Scan>, i: nat, j: nat, k: nat)
    requires ScanIdsMatch(scans) && i in Kept(scans) && j in Kept(scans) && k in Kept(scans)
    requires scans[i].device == scans[j].device == scans[k].device
    ensures i == j || j == k || i == k
  {
    hide Ahead;
    if i != j && j != k && i != k {
      var last := if Later(scans[i], scans[j]) then (if Later(scans[j], scans[k]) then k else j) else if Later(scans[i], scans[k]) then k else i;
      var a := if last == i then j else i;
      var b := if last == k then j else k;
      TwoAhead(scans, a, b, last);
    }
  }

  lemma TwoAhead(scans: map<nat, Scan>, a: nat, b: nat, last: nat)
    requires a in scans && b in scans && last in scans && a != b && Later(scans[a], scans[last]) && Later(scans[b], scans[last])
    requires scans[a].device == scans[b].device == scans[last].device && scans[a].status == scans[b].status == ScanStatus.Success
    ensures last !in Kept(scans)
  {
    assert {a, b} <= Ahead(scans, scans[last]) && |{a, b}| == 2;
    SubsetSize({a, b}, Ahead(scans, scans[last]));
  }

  /** With a scan left out, two are kept. */
  lemma SecondKept(scans: map<nat, Scan>, device: nat, i: nat, j: nat)
    requires ScanIdsMatch(scans) && SuccessOf(scans, device, i) && SuccessOf(scans, device, j) && i !in Kept(scans) && j in Kept(scans)
    ensures exists k :: SuccessOf(scans, device, k) && k != j && k in Kept(scans)
  {
    var others := Ahead(scans, scans[i]) - {j};
    assert |others| >= 1 && others != {} by { SubsetSize(Ahead(scans, scans[i]), others + {j}); assert |others + {j}| <= |others| + 1; }
    var x :| x in others;
    NewestOther(scans, device, x, j);
  }

  lemma {:induction false} NewestOther(scans: map<nat, Scan>, device: nat, x: nat, j: nat)
    requires ScanIdsMatch(scans) && SuccessOf(scans, device, x) && x != j
    ensures exists k :: SuccessOf(scans, device, k) && k != j && k in Kept(scans)
    decreases |Ahead(scans, scans[x])|
  {
    var ahead := Ahead(scans, scans[x]) - {j};
    if ahead == {} {
      assert Ahead(scans, scans[x]) <= {j};
      SubsetSize(Ahead(scans, scans[x]), {j});
      assert x in Kept(scans);
    } else {
      var y :| y in ahead;
      AheadShrinks(scans, y, x);
      NewestOther(scans, device, y, j);
    }
  }

  /** A device with a successful scan has exactly one current scan, newer than all others. */
  lemma OneCurrentScan(scans: map<nat, Scan>, devices: set<nat>, device: nat)
    requires ScanIdsMatch(scans) && device in devices
    ensures (exists i :: SuccessOf(scans, device, i)) ==> exists i :: SuccessOf(scans, device, i) && i in CurrentScans(scans, devices)
    ensures forall i, j | SuccessOf(scans, device, i) && SuccessOf(scans, device, j) && i in CurrentScans(scans, devices) :: i == j || Newer(scans[i], scans[j])
    ensures forall i, j | SuccessOf(scans, device, i) && SuccessOf(scans, device, j) && i in CurrentScans(scans, devices) && j in CurrentScans(scans, devices) :: i == j
  {
    forall i, j | SuccessOf(scans, device, i) && SuccessOf(scans, device, j) && i in CurrentScans(scans, devices) ensures i == j || Newer(scans[i], scans[j]) {
      assert j !in Ahead(scans, scans[i]);
    }
    if i :| SuccessOf(scans, device, i) { NewestExists(scans, devices, device, i); }
  }

  lemma {:induction false} NewestExists(scans: map<nat, Scan>, devices: set<nat>, device: nat, i: nat)
    requires SuccessOf(scans, device, i) && device in devices
    ensures exists j :: SuccessOf(scans, device, j) && j in CurrentScans(scans, devices)
    decreases |Ahead(scans, scans[i])|
  {
    if Ahead(scans, scans[i]) == {} {
      assert i in CurrentScans(scans, devices);
    } else {
      var j :| j in Ahead(scans, scans[i]);
      AheadShrinks(scans, j, i);
      NewestExists(scans, devices, device, j);
    }
  }

  ghost predicate ScanIdsMatch(scans: map<nat, Scan>) {
    forall i | i in scans :: scans[i].id == i
  }

  lemma CurrentIsKept(scans: map<nat, Scan>, devices: set<nat>)
    ensures CurrentScans(scans, devices) <= Kept(scans)
  {
  }

  /** `p` is a newest successful scan that starts strictly before `c`: the baseline of a diff. */
  predicate IsPrevious(scans: map<nat, Scan>, c: nat, p: nat)
    requires c in scans
  {
    && p in scans && scans[p].device == scans[c].device && scans[p].status == ScanStatus.Success
    && scans[p].started < scans[c].started
    && forall i | i in scans && scans[i].device == scans[c].device && scans[i].status == ScanStatus.Success && scans[i].started < scans[c].started ::
         scans[i].started <= scans[p].started
  }

  /** No other successful scan of the device starts with `c`, and none with a greater id starts with `p`. */
  predicate BaselineUnique(scans: map<nat, Scan>, c: nat, p: nat)
    requires c in scans && p in scans
  {
    forall i | i in scans && scans[i].device == scans[c].device && scans[i].status == ScanStatus.Success ::
      && (scans[i].started == scans[c].started ==> i == c)
      && (scans[i].started == scans[p].started ==> i <= p)
  }

  lemma SmallSet(s: set<nat>, x: nat)
    requires x in s
    ensures |s| < 2 <==> s == {x}
  {
    if y :| y in s && y != x {
      assert {x, y} <= s && |{x, y}| == 2;
      assert |s| == |s - {x, y}| + |{x, y}|;
    } else {
      assert s == {x};
    }
  }

  /** The raw purge keeps the rows of the latest scan's diff baseline exactly when start times do not collide. */
  lemma BaselineKept(scans: map<nat, Scan>, devices: set<nat>, c: nat, p: nat)
    requires ScanIdsMatch(scans) && c in CurrentScans(scans, devices) && IsPrevious(scans, c, p)
    ensures p in Kept(scans) <==> BaselineUnique(scans, c, p)
  {
    var ahead := Ahead(scans, scans[p]);
    assert c in ahead;
    SmallSet(ahead, c);
    if BaselineUnique(scans, c, p) {
      forall i | i in ahead ensures i == c {
        assert i !in Ahead(scans, scans[c]);
      }
      assert ahead == {c};
    } else {
      var i :| i in scans && scans[i].device == scans[c].device && scans[i].status == ScanStatus.Success
        && ((scans[i].started == scans[c].started && i != c) || (scans[i].started == scans[p].started && i > p));
      assert i in ahead && i != c;
    }
  }

  // ------------------------------------------------- facts behind the methods

  lemma StandsTransfer(s: Table, t: Table, k: ObsKey, o: Observation)
    requires Cell(s, k) == Cell(t, k) && (forall i | i in Cell(t, k) :: s[i] == t[i]) && Stands(s, k, o)
    ensures Stands(t, k, o)
  {
    hide CsvStrSet, CsvIntSet;
    var ids := Cell(t, k);
    assert Named(s, ids) == Named(t, ids);
    assert LocalIpTexts(s, ids) == LocalIpTexts(t, ids);
    assert LocalPorts(s, ids) == LocalPorts(t, ids);
    assert Pids(s, ids) == Pids(t, ids);
    assert IsTop(t, ids, o.sample);
    assert IsHostname(o.hostname, t, ids) by {
      if o.hostname.Some? {
        var top :| IsTop(s, Named(s, ids), top) && s[top].record.hostname == o.hostname;
        assert IsTop(t, Named(t, ids), top);
      }
    }
  }

  ghost predicate DisjointScans(t: Table, added: Table) {
    t.Keys !! added.Keys && forall i, j | i in t && j in added :: t[i].scan.id != added[j].scan.id
  }

  lemma StandsNonEmpty(t: Table, k: ObsKey, o: Observation)
    requires Stands(t, k, o)
    ensures o.sample in Cell(t, k) && t[o.sample].scan.id == k.scan
  {
    hide CsvStrSet, CsvIntSet, IsHostname;
  }

  /** Adding a scan's rows together with their own observations keeps the observations in step. */
  lemma StandingExtends(t: Table, obs: ObsTable, added: Table)
    requires WellFormedTable(added) && DisjointScans(t, added) && Standing(t, obs)
    ensures Standing(t + added, ObservationsOf(added) + obs)
  {
    hide Stands, Observe;
    var all, both := t + added, ObservationsOf(added) + obs;
    ObservationsStand(added);
    forall k | k in both ensures Stands(all, k, both[k]) {
      if k in obs {
        StandsNonEmpty(t, k, obs[k]);
        forall i ensures i in Cell(all, k) <==> i in Cell(t, k) {}
        assert Cell(all, k) == Cell(t, k);
        StandsTransfer(t, all, k, obs[k]);
      } else {
        StandsNonEmpty(added, k, both[k]);
        forall i ensures i in Cell(all, k) <==> i in Cell(added, k) {}
        assert Cell(all, k) == Cell(added, k);
        StandsTransfer(added, all, k, both[k]);
      }
    }
  }

  /** Dropping whole scans drops exactly their observations. */
  lemma StandingRestricts(t: Table, obs: ObsTable, alive: set<nat>)
    requires Standing(t, obs)
    ensures Standing(map i | i in t && t[i].scan.id in alive :: t[i], map k | k in obs && k.scan in alive :: obs[k])
  {
    hide Stands;
    var s: Table := map i | i in t && t[i].scan.id in alive :: t[i];
    forall k | k in obs && k.scan in alive ensures Stands(s, k, obs[k]) {
      CellIds(t, k);
      forall i ensures i in Cell(s, k) <==> i in Cell(t, k) {}
      assert Cell(s, k) == Cell(t, k);
      StandsTransfer(t, s, k, obs[k]);
    }
  }

  /** A new scan can only push older scans out of the kept ones. */
  lemma KeptAfterInsert(scans: map<nat, Scan>, s: Scan)
    requires s.id !in scans
    ensures Kept(scans[s.id := s]) <= Kept(scans) + {s.id}
  {
    var all := scans[s.id := s];
    forall i | i in Kept(all) && i != s.id ensures i in Kept(scans) {
      assert Ahead(scans, scans[i]) <= Ahead(all, all[i]);
      SubsetSize(Ahead(scans, scans[i]), Ahead(all, all[i]));
    }
  }

  /** `doomed` removes, per device, everything before some instant. */
  ghost predicate RemovesOldest(scans: map<nat, Scan>, doomed: set<nat>) {
    forall i, j | i in scans && j in scans && scans[i].device == scans[j].device && i !in doomed && scans[j].started >= scans[i].started :: j !in doomed
  }

  function WithoutScans(scans: map<nat, Scan>, doomed: set<nat>): map<nat, Scan> {
    map i | i in scans && i !in doomed :: scans[i]
  }

  /** While the oldest scans of each device are deleted, in whatever order, no scan that stays is promoted. */
  lemma KeptAfterExpiry(scans: map<nat, Scan>, doomed: set<nat>, gone: set<nat>)
    requires RemovesOldest(scans, doomed) && gone <= doomed
    ensures Kept(WithoutScans(scans, gone)) - doomed == Kept(scans) - doomed
    ensures forall devices :: CurrentScans(WithoutScans(scans, gone), devices) - doomed == CurrentScans(scans, devices) - doomed
    ensures gone == doomed ==> Kept(WithoutScans(scans, gone)) == Kept(scans) - doomed
  {
    var left := WithoutScans(scans, gone);
    forall i | i in left && i !in doomed ensures Ahead(left, left[i]) == Ahead(scans, scans[i]) {
      forall j | j in Ahead(scans, scans[i]) ensures j in left {}
    }
  }

  function RecordsOf(records: map<nat, Record>, scans: map<nat, Scan>): map<nat, Record> {
    map i | i in records && records[i].scan in scans :: records[i]
  }

  function ObservationsIn(obs: ObsTable, scans: map<nat, Scan>): ObsTable {
    map k | k in obs && k.scan in scans :: obs[k]
  }

  function JoinRows(scans: map<nat, Scan>, records: map<nat, Record>): Table {
    map i | i in records && records[i].scan in scans :: Row(scans[records[i].scan], records[i])
  }

  // -------------------------------------------------------------- retention

  datatype DevicePolicy = DevicePolicy(ownDays: Option<nat>, clusterDays: Option<nat>)

  /** `resolve_device_retention`. */
  function RetentionDays(d: DevicePolicy, systemDays: nat): nat {
    if d.ownDays.Some? then d.ownDays.value
    else if d.clusterDays.Some? then d.clusterDays.value
    else systemDays
  }

  /** The policy keeps history for `days`: its own days, or else the cluster's, or else the system's. */
  ghost predicate Keeps(p: DevicePolicy, systemDays: nat, days: nat) {
    || p.ownDays == Some(days)
    || (p.ownDays == None && p.clusterDays == Some(days))
    || (p.ownDays == None && p.clusterDays == None && days == systemDays)
  }

  lemma KeepsDays(p: DevicePolicy, systemDays: nat, days: nat)
    ensures Keeps(p, systemDays, days) <==> days == RetentionDays(p, systemDays)
  {
  }

  function DevicesWith(devices: map<nat, DevicePolicy>, systemDays: nat, days: nat): set<nat> {
    set i | i in devices && RetentionDays(devices[i], systemDays) == days
  }

  const MICROS_PER_DAY: nat := 86_400_000_000

  /** Scans older than their device's effective retention. */
  function Expired(scans: map<nat, Scan>, devices: map<nat, DevicePolicy>, systemDays: nat, now: int): set<nat> {
    set i | i in scans && scans[i].device in devices
            && scans[i].started < now - RetentionDays(devices[scans[i].device], systemDays) * MICROS_PER_DAY
  }

  /** Scans of the devices `ids` that started before `cutoff`. */
  function Before(scans: map<nat, Scan>, ids: set<nat>, cutoff: int): set<nat> {
    set i | i in scans && scans[i].device in ids && scans[i].started < cutoff
  }

  /** Scans whose raw rows the raw purge removes. */
  function RawExpired(scans: map<nat, Scan>, cutoff: int): set<nat> {
    set i | i in scans && scans[i].started < cutoff && i !in Kept(scans)
  }

  /** A scan that history retention leaves: of an unknown device, or started within the days its device
      sets, or else its device's cluster, or else the system. */
  ghost predicate Retains(devices: map<nat, DevicePolicy>, s: Scan, systemDays: nat, now: int) {
    s.device in devices ==>
      var d := devices[s.device];
      && (d.ownDays.Some? ==> now - d.ownDays.value * 86_400_000_000 <= s.started)
      && (d.ownDays.None? && d.clusterDays.Some? ==> now - d.clusterDays.value * 86_400_000_000 <= s.started)
      && (d.ownDays.None? && d.clusterDays.None? ==> now - systemDays * 86_400_000_000 <= s.started)
  }

  lemma ExpiredMeans(scans: map<nat, Scan>, devices: map<nat, DevicePolicy>, systemDays: nat, now: int)
    ensures var left := WithoutScans(scans, Expired(scans, devices, systemDays, now));
      && (forall i :: i in left <==> i in scans && Retains(devices, scans[i], systemDays, now))
      && (forall i | i in left :: left[i] == scans[i])
  {
  }

  /** What goes with deleted scans: their rows and observations, and nothing else. */
  lemma CascadeMeans(records: map<nat, Record>, obs: ObsTable, scans: map<nat, Scan>)
    ensures var rows, cells := RecordsOf(records, scans), ObservationsIn(obs, scans);
      && (forall i :: i in rows <==> i in records && records[i].scan in scans) && (forall i | i in rows :: rows[i] == records[i])
      && (forall k :: k in cells <==> k in obs && k.scan in scans) && (forall k | k in cells :: cells[k] == obs[k])
  {
  }

  /** A raw row that the raw purge takes: of a scan before the cutoff that is not among its device's newest two. */
  ghost predicate Purged(scans: map<nat, Scan>, scan: nat, rawDays: nat, now: int) {
    scan in scans && scans[scan].started < now - rawDays * 86_400_000_000 && !AmongNewestTwo(scans, scan)
  }

  lemma RawExpiredMeans(scans: map<nat, Scan>, records: map<nat, Record>, rawDays: nat, now: int)
    ensures var left := WithoutRaw(records, RawExpired(scans, now - rawDays * MICROS_PER_DAY));
      && (forall i :: i in left <==> i in records && !Purged(scans, records[i].scan, rawDays, now))
      && (forall i | i in left :: left[i] == records[i])
  {
    hide Kept, AmongNewestTwo;
    forall i | i in scans ensures i in Kept(scans) <==> AmongNewestTwo(scans, i) { KeptMeans(scans, i); }
  }

  // -------------------------------------------------------------- the store

  /** Ids are unique and below the sequences, and every record has its scan. */
  ghost predicate Sound(scans: map<nat, Scan>, records: map<nat, Record>, nextScan: nat, nextRecord: nat) {
    && nextScan >= 1 && ScanIdsMatch(scans) && (forall s | s in scans :: 1 <= s < nextScan)
    && (forall i | i in records :: records[i].id == i < nextRecord && records[i].scan in scans)
  }

  /** Every record and observation has its scan. */
  ghost predicate ForeignKeys(scans: map<nat, Scan>, records: map<nat, Record>, observations: ObsTable) {
    (forall i | i in records :: records[i].scan in scans) && (forall k | k in observations :: k.scan in scans)
  }

  /** `archive` is well-formed and holds rows of existing scans only, the live rows among them. */
  ghost predicate Archived(scans: map<nat, Scan>, records: map<nat, Record>, archive: Table, nextRecord: nat) {
    && WellFormedTable(archive) && SubTable(JoinRows(scans, records), archive)
    && (forall i | i in archive :: i < nextRecord && archive[i].scan.id in scans && scans[archive[i].scan.id] == archive[i].scan)
  }

  /** The raw rows of the kept scans are all there. */
  ghost predicate KeptIntact(scans: map<nat, Scan>, records: map<nat, Record>, archive: Table) {
    forall i | i in archive && archive[i].scan.id in Kept(scans) :: i in records
  }

  /** Observations are in step with every row ever stored, and no kept scan has lost rows. */
  ghost predicate Consistent(scans: map<nat, Scan>, records: map<nat, Record>, observations: ObsTable, archive: Table, nextScan: nat, nextRecord: nat) {
    && Sound(scans, records, nextScan, nextRecord)
    && Archived(scans, records, archive, nextRecord)
    && Standing(archive, observations)
    && KeptIntact(scans, records, archive)
  }

  /** A consistent store from which the scans `pending` are being deleted: one of these may rank as kept without its rows. */
  ghost predicate InPurge(scans: map<nat, Scan>, records: map<nat, Record>, observations: ObsTable, archive: Table,
                          nextScan: nat, nextRecord: nat, pending: set<nat>) {
    && Sound(scans, records, nextScan, nextRecord)
    && Archived(scans, records, archive, nextRecord)
    && Standing(archive, observations)
    && forall i | i in archive && archive[i].scan.id in Kept(scans) - pending :: i in records
  }

  class Store {
    var devices: map<nat, DevicePolicy>
    var scans: map<nat, Scan>
    var records: map<nat, Record>
    var observations: ObsTable
    var nextScan: nat
    var nextRecord: nat
    /** Every row ever stored whose scan still exists, purged or not. */
    ghost var archive: Table

    function Rows(): Table
      reads this
    {
      JoinRows(scans, records)
    }

    ghost predicate Valid()
      reads this
    {
      Consistent(scans, records, observations, archive, nextScan, nextRecord)
    }

    constructor (devices: map<nat, DevicePolicy>)
      ensures Valid() && archive == map[] && this.devices == devices
    {
      this.devices := devices;
      scans, records, observations := map[], map[], map[];
      nextScan, nextRecord := 1, 1;
      archive := map[];
    }

    /** The kept connections become records of scan `scan`. */
    method InsertRecords(cs: seq<Connection>, scan: nat)
      modifies `records, `nextRecord
      ensures records == old(records) + RecordsFor(cs, old(nextRecord), scan)
      ensures nextRecord == old(nextRecord) + |cs|
    {
      ghost var first, before := nextRecord, records;
      var n := 0;
      while n < |cs|
        invariant 0 <= n <= |cs| && nextRecord == first + n
        invariant records == before + RecordsFor(cs[..n], first, scan)
      {
        RecordsForNext(cs, n, first, scan, before);
        records := records[nextRecord := RecordFor(cs[n], nextRecord, scan)];
        nextRecord := nextRecord + 1;
        n := n + 1;
      }
      assert cs[..n] == cs;
    }

    /** `add_scan_outcome`: the run, its kept rows and their observations, in one transaction. */
    method AddScanOutcome(o: Outcome) returns (id: Option<nat>)
      requires Valid()
      requires forall c | c in o.connections :: WellFormedConnection(c)
      requires o.started < MARKER_BOUND && nextScan < MARKER_BOUND && nextRecord + |o.connections| <= MARKER_BOUND
      modifies this
      ensures Valid() && devices == old(devices)
      ensures o.device !in devices ==>
        (id == None && scans == old(scans) && records == old(records)
         && observations == old(observations) && archive == old(archive))
      ensures o.device in devices ==>
        var run := Scan(old(nextScan), o.device, o.started, o.status);
        var added := RecordsFor(KeptOf(o.connections), old(nextRecord), run.id);
        && id == Some(run.id) && run.id !in old(scans) && scans == old(scans)[run.id := run]
        && records == old(records) + added && added.Keys !! old(records).Keys
        && archive == old(archive) + RowsOfRun(run, added)
        && observations == ObservationsOf(RowsOfRun(run, added)) + old(observations)
      ensures o.device in devices ==> RowsHold(records, KeptOf(o.connections), old(nextRecord), old(nextScan))
    {
      hide Consistent, InPurge, RowsHold, ObservationsOf, RecordsFor, KeptOf, WellFormedConnection, JoinRows, RangeRows, RowsOfRun;
      if o.device !in devices { return None; }
      var run := Scan(nextScan, o.device, o.started, o.status);
      scans := scans[run.id := run];
      nextScan := nextScan + 1;
      var connections := KeptOf(o.connections);
      InsertRecords(connections, run.id);
      ghost var added := RecordsFor(connections, old(nextRecord), run.id);
      RecordsHold(old(records), connections, old(nextRecord), run.id);
      PurgeBegins(old(scans), old(records), observations, archive, old(nextScan), old(nextRecord), {});
      AddedIsConsistent(old(scans), old(records), observations, archive, old(nextScan), old(nextRecord), run, added, connections, {});
      archive := archive + RowsOfRun(run, added);
      observations := Synced(observations, Rows(), run.id, run.id + 1);
      PurgeEnds(scans, records, observations, archive, nextScan, nextRecord);
      id := Some(run.id);
    }

    /** `backfill_service_observations`: sync every successful scan, `batch` scan ids at a time. */
    method Backfill(batch: nat)
      requires Sound(scans, records, nextScan, nextRecord) && batch >= 1
      modifies `observations
      ensures observations == ObservationsOf(Rows()) + old(observations)
    {
      hide ObservationsOf, RangeRows, Synced, JoinRows;
      var success := set i | i in scans && scans[i].status == ScanStatus.Success;
      ghost var rows := Rows();
      if success == {} {
        SuccessBounds(scans, records, success, 0, 0);
        SyncedAll(observations, rows, 0, 0);
        SyncedNothing(observations, rows, 0);
        return;
      }
      var lowest, highest := MinOf(success), MaxOf(success);
      var lower := lowest;
      SyncedNothing(observations, rows, lowest);
      while lower <= highest
        invariant lowest <= lower
        invariant observations == Synced(old(observations), rows, lowest, lower)
        decreases highest + 1 - lower
      {
        var upper := lower + batch;
        SyncedTwice(old(observations), rows, lowest, lower, upper);
        observations := Synced(observations, Rows(), lower, upper);
        lower := upper;
      }
      SuccessBounds(scans, records, success, lowest, lower);
      SyncedAll(old(observations), rows, lowest, lower);
    }

    /** `_delete_scans_in_chunks`, with the cascade to records and observations: after every chunk the
        store is consistent but for scans that are about to go. */
    method DeleteScansInChunks(ids: set<nat>, cutoff: int, chunk: nat) returns (deleted: nat)
      requires Valid()
      modifies `scans, `records, `observations, `archive
      ensures Valid()
      ensures scans == if chunk > 0 then WithoutScans(old(scans), Before(old(scans), ids, cutoff)) else old(scans)
      ensures deleted == if chunk > 0 then |Before(old(scans), ids, cutoff)| else 0
      ensures records == RecordsOf(old(records), scans) && observations == ObservationsIn(old(observations), scans)
      ensures archive == ArchiveOf(old(archive), scans)
    {
      hide WithoutScans, RecordsOf, ObservationsIn, ArchiveOf, ForeignKeys, Before, IdSet, FirstIds, Consistent, InPurge, RemovesOldest;
      deleted := 0;
      ghost var doomed := Before(old(scans), ids, cutoff);
      ghost var gone: set<nat> := {};
      ConsistentKeys(scans, records, observations, archive, nextScan, nextRecord);
      NothingDeleted(scans, records, observations, archive);
      PurgeBegins(scans, records, observations, archive, nextScan, nextRecord, doomed);
      while true
        invariant gone <= doomed && deleted == |gone| && (chunk == 0 ==> gone == {})
        invariant scans == WithoutScans(old(scans), gone)
        invariant records == RecordsOf(old(records), scans) && observations == ObservationsIn(old(observations), scans)
        invariant archive == ArchiveOf(old(archive), scans)
        invariant InPurge(scans, records, observations, archive, nextScan, nextRecord, Before(scans, ids, cutoff))
        decreases |doomed - gone|
      {
        RemainingBefore(old(scans), gone, ids, cutoff);
        var scanIds := FirstIds(Before(scans, ids, cutoff), chunk);
        if scanIds == [] {
          ExhaustedChunks(doomed, gone, chunk);
          if chunk > 0 {
            PurgeEnds(scans, records, observations, archive, nextScan, nextRecord);
          }
          return;
        }
        ghost var batch := IdSet(scanIds);
        DeletedTwice(old(scans), old(records), old(observations), old(archive), gone, batch);
        ChunkProgress(doomed, gone, batch);
        BeforeIsOldest(scans, ids, cutoff);
        ChunkInPurge(scans, records, observations, archive, nextScan, nextRecord, Before(scans, ids, cutoff), batch);
        RemainingBefore(scans, batch, ids, cutoff);
        archive := ArchiveOf(archive, WithoutScans(scans, batch));
        scans := WithoutScans(scans, IdSet(scanIds));
        records := RecordsOf(records, scans);
        observations := ObservationsIn(observations, scans);
        deleted := deleted + |scanIds|;
        gone := gone + batch;
      }
    }

    /** Device ids by effective retention. */
    method RetentionGroups(systemDays: nat) returns (groups: map<nat, set<nat>>)
      ensures forall i | i in devices :: RetentionDays(devices[i], systemDays) in groups
      ensures forall d | d in groups :: groups[d] == DevicesWith(devices, systemDays, d)
      ensures forall i, d :: d in groups && i in groups[d] <==> i in devices && Keeps(devices[i], systemDays, d)
    {
      hide RetentionDays, Keeps;
      forall p: DevicePolicy, d: nat ensures Keeps(p, systemDays, d) <==> d == RetentionDays(p, systemDays) { KeepsDays(p, systemDays, d); }
      groups := map[];
      var todo := devices.Keys;
      while todo != {}
        invariant todo <= devices.Keys
        invariant forall i | i in devices.Keys - todo :: RetentionDays(devices[i], systemDays) in groups
        invariant forall d | d in groups :: groups[d] == set i | i in devices.Keys - todo && RetentionDays(devices[i], systemDays) == d
        decreases |todo|
      {
        var i: nat :| i in todo;
        var days := RetentionDays(devices[i], systemDays);
        groups := groups[days := (if days in groups then groups[days] else {}) + {i}];
        todo := todo - {i};
      }
    }

    lemma NothingYet()
      requires Valid()
      ensures Cascaded(scans, records, observations, archive, scans, records, observations, archive, {})
    {
      hide Consistent, Cascaded, ForeignKeys;
      ConsistentKeys(scans, records, observations, archive, nextScan, nextRecord);
      NothingCascaded(scans, records, observations, archive);
    }

    /** The loop of `purge_expired_scans`: one chunked deletion per group. */
    method PurgeGroups(groups: map<nat, set<nat>>, systemDays: nat, now: int, chunk: nat) returns (deleted: nat)
      requires Valid() && chunk > 0
      requires forall d | d in groups :: groups[d] == DevicesWith(devices, systemDays, d)
      modifies `scans, `records, `observations, `archive
      ensures Valid()
      ensures var gone := ExpiredIn(old(scans), devices, systemDays, now, groups.Keys);
        Cascaded(old(scans), old(records), old(observations), old(archive), scans, records, observations, archive, gone) && deleted == |gone|
    {
      hide *;
      NothingYet();
      NoneExpiredIn(scans, devices, systemDays, now);
      deleted := 0;
      var pending := groups.Keys;
      NoneTaken(pending);
      ghost var done: set<nat> := {};
      ghost var gone: set<nat> := {};
      while pending != {}
        invariant Divides(groups.Keys, pending, done)
        invariant Valid()
        invariant gone == ExpiredIn(old(scans), devices, systemDays, now, done) && deleted == |gone|
        invariant Cascaded(old(scans), old(records), old(observations), old(archive), scans, records, observations, archive, gone)
        decreases |pending|
      {
        var days: nat :| days in pending;
        Pending(groups.Keys, pending, done, days);
        ghost var before, rows, cells, past := scans, records, observations, archive;
        var n := DeleteScansInChunks(groups[days], now - days * MICROS_PER_DAY, chunk);
        GroupCascades(old(scans), old(records), old(observations), old(archive), before, rows, cells, past, scans, records, observations, archive,
                      devices, systemDays, now, days, done, gone);
        deleted := deleted + n;
        gone := ExpiredIn(old(scans), devices, systemDays, now, done + {days});
        OneTaken(groups.Keys, pending, done, days);
        pending, done := pending - {days}, done + {days};
      }
      AllTaken(groups.Keys, pending, done);
    }

    /** `purge_expired_scans`. */
    method PurgeExpiredScans(systemDays: nat, now: int, chunk: nat) returns (deleted: nat)
      requires Valid() && chunk > 0
      modifies `scans, `records, `observations, `archive
      ensures Valid()
      ensures scans == WithoutScans(old(scans), Expired(old(scans), devices, systemDays, now))
      ensures deleted == |Expired(old(scans), devices, systemDays, now)|
      ensures records == RecordsOf(old(records), scans) && observations == ObservationsIn(old(observations), scans)
      ensures archive == ArchiveOf(old(archive), scans)
      ensures forall i :: i in scans <==> i in old(scans) && Retains(devices, old(scans)[i], systemDays, now)
      ensures forall i | i in scans :: scans[i] == old(scans)[i]
      ensures forall i :: i in records <==> i in old(records) && old(records)[i].scan in scans
      ensures forall i | i in records :: records[i] == old(records)[i]
      ensures forall k :: k in observations <==> k in old(observations) && k.scan in scans
      ensures forall k | k in observations :: observations[k] == old(observations)[k]
    {
      hide Consistent, WithoutScans, RecordsOf, ObservationsIn, ArchiveOf, Expired, ExpiredIn, Before, RetentionDays, DevicesWith, Retains;
      ExpiredMeans(scans, devices, systemDays, now);
      var groups := RetentionGroups(systemDays);
      deleted := PurgeGroups(groups, systemDays, now, chunk);
      AllGroupsExpired(old(scans), devices, systemDays, now, groups.Keys);
      CascadeMeans(old(records), old(observations), scans);
    }

    /** `purge_raw_connection_records`: raw rows before the cutoff, except those of each device's
        two latest successful scans, walking up the scan ids in chunks; the store is consistent after each. */
    method PurgeRawRecords(rawDays: nat, now: int, chunk: nat) returns (deleted: nat)
      requires Valid() && chunk > 0
      modifies `records
      ensures Valid()
      ensures records == WithoutRaw(old(records), RawExpired(scans, now - rawDays * MICROS_PER_DAY))
      ensures deleted == |old(records)| - |records|
      ensures forall i :: i in records <==> i in old(records) && !Purged(scans, old(records)[i].scan, rawDays, now)
      ensures forall i | i in records :: records[i] == old(records)[i]
    {
      hide Consistent, Kept, WithoutRaw, JoinRows, RawExpired, UpTo, Above, IdSet, FirstIds, Purged;
      RawExpiredMeans(scans, records, rawDays, now);
      var cutoff := now - rawDays * MICROS_PER_DAY;
      ghost var doomed := RawExpired(scans, cutoff);
      deleted := 0;
      var lastScanId := 0;
      ghost var gone: set<nat> := {};
      NoRawDeleted(records);
      PositiveIds(scans, records, observations, archive, nextScan, nextRecord, cutoff);
      while true
        invariant gone == UpTo(doomed, lastScanId)
        invariant records == WithoutRaw(old(records), gone)
        invariant deleted == |old(records)| - |records|
        invariant Valid()
        decreases |doomed - gone|
      {
        var scanIds := FirstIds(Above(RawExpired(scans, cutoff), lastScanId), chunk);
        if scanIds == [] {
          NothingAbove(doomed, lastScanId);
          return;
        }
        ChunkReaches(doomed, lastScanId, chunk);
        WithoutRawTwice(old(records), gone, IdSet(scanIds));
        RawExpiredNotKept(scans, cutoff, lastScanId);
        RawChunkStaysConsistent(scans, records, observations, archive, nextScan, nextRecord, IdSet(scanIds));
        var remaining := WithoutRaw(records, IdSet(scanIds));
        WithoutRawSize(records, IdSet(scanIds));
        deleted := deleted + (|records| - |remaining|);
        records := remaining;
        lastScanId := scanIds[|scanIds| - 1];
        gone := UpTo(doomed, lastScanId);
      }
    }
  }

  function WithoutRaw(records: map<nat, Record>, doomed: set<nat>): map<nat, Record> {
    map i | i in records && records[i].scan !in doomed :: records[i]
  }

  lemma NoRawDeleted(records: map<nat, Record>)
    ensures WithoutRaw(records, {}) == records
  {
  }

  lemma WithoutRawTwice(records: map<nat, Record>, a: set<nat>, b: set<nat>)
    ensures WithoutRaw(WithoutRaw(records, a), b) == WithoutRaw(records, a + b)
  {
  }

  lemma WithoutRawSize(records: map<nat, Record>, doomed: set<nat>)
    ensures |WithoutRaw(records, doomed)| <= |records|
  {
    SubsetSize(WithoutRaw(records, doomed).Keys, records.Keys);
  }

  function UpTo(ids: set<nat>, low: nat): set<nat> { set i | i in ids && i <= low }

  function Above(ids: set<nat>, low: nat): set<nat> { set i | i in ids && i > low }

  lemma NothingAbove(ids: set<nat>, low: nat)
    requires Above(ids, low) == {}
    ensures UpTo(ids, low) == ids
  {
    forall i | i in ids ensures i in UpTo(ids, low) { assert i !in Above(ids, low); }
  }

  lemma LastIsGreatest(r: seq<nat>, i: nat)
    requires Ascending(r, NatLess) && i in r
    ensures i <= r[|r| - 1]
  {
    var j :| 0 <= j < |r| && r[j] == i;
    assert j < |r| - 1 ==> NatLess(r[j], r[|r| - 1]);
  }

  /** What `FirstIds` returns: the least ids, in order. */
  lemma FirstAreLeast(s: set<nat>, k: nat)
    ensures var r := FirstIds(s, k);
      Ascending(r, NatLess) && (forall i | i in r :: i in s) && forall x, y | x in r && y in s && y !in r :: x < y
  {
    hide First;
    NatOrders();
    var r := First(s, NatLess, k);
    forall x, y | x in r && y in s && y !in r ensures x < y { assert NatLess(x, y); }
  }

  /** The next chunk reaches exactly up to its last scan id. */
  lemma ChunkReaches(doomed: set<nat>, low: nat, chunk: nat)
    requires FirstIds(Above(doomed, low), chunk) != []
    ensures var r := FirstIds(Above(doomed, low), chunk); var reached := UpTo(doomed, r[|r| - 1]);
      && UpTo(doomed, low) + IdSet(r) == reached && UpTo(doomed, low) < reached
      && |doomed - reached| < |doomed - UpTo(doomed, low)|
  {
    hide FirstIds, Ascending;
    FirstAreLeast(Above(doomed, low), chunk);
    var r, gone := FirstIds(Above(doomed, low), chunk), UpTo(doomed, low);
    var last := r[|r| - 1];
    assert last in r;
    forall i | i in r ensures i <= last { LastIsGreatest(r, i); }
    var reached := UpTo(doomed, last);
    forall i ensures i in gone + IdSet(r) <==> i in reached {
      if i in reached && i > low { assert i in Above(doomed, low); }
    }
    assert last in reached && last !in gone;
    ProperSubsetSize(doomed - reached, doomed - gone, last);
  }

  lemma ProperSubsetSize(a: set<nat>, b: set<nat>, x: nat)
    requires a <= b && x in b && x !in a
    ensures |a| < |b|
  {
    SubsetSize(a, b - {x});
  }

  function ArchiveOf(archive: Table, scans: map<nat, Scan>): Table {
    map i | i in archive && archive[i].scan.id in scans :: archive[i]
  }

  /** Expired scans of the devices whose retention is one of `days`. */
  function ExpiredIn(scans: map<nat, Scan>, devices: map<nat, DevicePolicy>, systemDays: nat, now: int, days: set<nat>): set<nat> {
    set i | i in Expired(scans, devices, systemDays, now) && RetentionDays(devices[scans[i].device], systemDays) in days
  }

  /** `all` is made of what is still pending and what is done. */
  ghost predicate Divides(all: set<nat>, pending: set<nat>, done: set<nat>) { all == pending + done && pending !! done }

  lemma NoneTaken(all: set<nat>)
    ensures Divides(all, all, {})
  {
  }

  lemma Pending(all: set<nat>, pending: set<nat>, done: set<nat>, x: nat)
    requires Divides(all, pending, done) && x in pending
    ensures x in all && x !in done && |pending - {x}| < |pending|
  {
  }

  lemma OneTaken(all: set<nat>, pending: set<nat>, done: set<nat>, x: nat)
    requires Divides(all, pending, done) && x in pending
    ensures Divides(all, pending - {x}, done + {x})
  {
  }

  lemma AllTaken(all: set<nat>, pending: set<nat>, done: set<nat>)
    requires Divides(all, pending, done) && pending == {}
    ensures done == all
  {
  }

  /** Scans `gone` are deleted, with everything that refers to them. */
  ghost predicate Cascaded(scans: map<nat, Scan>, records: map<nat, Record>, obs: ObsTable, archive: Table,
                           left: map<nat, Scan>, rows: map<nat, Record>, cells: ObsTable, rest: Table, gone: set<nat>) {
    left == WithoutScans(scans, gone) && rows == RecordsOf(records, left) && cells == ObservationsIn(obs, left) && rest == ArchiveOf(archive, left)
  }

  lemma NothingCascaded(scans: map<nat, Scan>, records: map<nat, Record>, obs: ObsTable, archive: Table)
    requires ForeignKeys(scans, records, obs) && forall i | i in archive :: archive[i].scan.id in scans
    ensures Cascaded(scans, records, obs, archive, scans, records, obs, archive, {})
  {
    NothingDeleted(scans, records, obs, archive);
  }

  lemma GroupExpires(scans: map<nat, Scan>, devices: map<nat, DevicePolicy>, systemDays: nat, now: int, days: nat, done: set<nat>)
    requires days !in done
    ensures var gone, more := ExpiredIn(scans, devices, systemDays, now, done), ExpiredIn(scans, devices, systemDays, now, {days});
      && Before(WithoutScans(scans, gone), DevicesWith(devices, systemDays, days), now - days * MICROS_PER_DAY) == more
      && ExpiredIn(scans, devices, systemDays, now, done + {days}) == gone + more && |gone + more| == |gone| + |more|
  {
    var gone, more := ExpiredIn(scans, devices, systemDays, now, done), ExpiredIn(scans, devices, systemDays, now, {days});
    assert gone !! more;
    forall i ensures i in Before(WithoutScans(scans, gone), DevicesWith(devices, systemDays, days), now - days * MICROS_PER_DAY) <==> i in more {}
  }

  /** Deleting one more group extends the cascade to that group's expired scans. */
  lemma GroupCascades(scans: map<nat, Scan>, records: map<nat, Record>, obs: ObsTable, archive: Table,
                      mid: map<nat, Scan>, midRows: map<nat, Record>, midCells: ObsTable, midRest: Table,
                      left: map<nat, Scan>, rows: map<nat, Record>, cells: ObsTable, rest: Table,
                      devices: map<nat, DevicePolicy>, systemDays: nat, now: int, days: nat, done: set<nat>, gone: set<nat>)
    requires days !in done && gone == ExpiredIn(scans, devices, systemDays, now, done)
    requires Cascaded(scans, records, obs, archive, mid, midRows, midCells, midRest, gone)
    requires left == WithoutScans(mid, Before(mid, DevicesWith(devices, systemDays, days), now - days * MICROS_PER_DAY))
    requires rows == RecordsOf(midRows, left) && cells == ObservationsIn(midCells, left) && rest == ArchiveOf(midRest, left)
    ensures var all := ExpiredIn(scans, devices, systemDays, now, done + {days});
      && Cascaded(scans, records, obs, archive, left, rows, cells, rest, all)
      && |all| == |gone| + |Before(mid, DevicesWith(devices, systemDays, days), now - days * MICROS_PER_DAY)|
  {
    hide WithoutScans, RecordsOf, ObservationsIn, ArchiveOf, ExpiredIn, Before, DevicesWith;
    GroupExpires(scans, devices, systemDays, now, days, done);
    DeletedTwice(scans, records, obs, archive, gone, ExpiredIn(scans, devices, systemDays, now, {days}));
  }

  lemma NoneExpiredIn(scans: map<nat, Scan>, devices: map<nat, DevicePolicy>, systemDays: nat, now: int)
    ensures ExpiredIn(scans, devices, systemDays, now, {}) == {}
  {
  }

  lemma AllGroupsExpired(scans: map<nat, Scan>, devices: map<nat, DevicePolicy>, systemDays: nat, now: int, days: set<nat>)
    requires forall i | i in devices :: RetentionDays(devices[i], systemDays) in days
    ensures ExpiredIn(scans, devices, systemDays, now, days) == Expired(scans, devices, systemDays, now)
  {
  }

  lemma ConsistentKeys(scans: map<nat, Scan>, records: map<nat, Record>, obs: ObsTable, archive: Table, nextScan: nat, nextRecord: nat)
    requires Consistent(scans, records, obs, archive, nextScan, nextRecord)
    ensures ForeignKeys(scans, records, obs) && forall i | i in archive :: archive[i].scan.id in scans
  {
    hide Stands, WellFormedTable, SubTable, Kept;
    forall k | k in obs ensures k.scan in scans {
      StandsNonEmpty(archive, k, obs[k]);
    }
  }

  lemma PositiveIds(scans: map<nat, Scan>, records: map<nat, Record>, obs: ObsTable, archive: Table,
                    nextScan: nat, nextRecord: nat, cutoff: int)
    requires Consistent(scans, records, obs, archive, nextScan, nextRecord)
    ensures UpTo(RawExpired(scans, cutoff), 0) == {}
  {
    hide Standing, Archived, KeptIntact;
  }

  lemma BeforeIsOldest(scans: map<nat, Scan>, ids: set<nat>, cutoff: int)
    ensures RemovesOldest(scans, Before(scans, ids, cutoff))
  {
  }

  lemma PurgeBegins(scans: map<nat, Scan>, records: map<nat, Record>, obs: ObsTable, archive: Table,
                    nextScan: nat, nextRecord: nat, pending: set<nat>)
    requires Consistent(scans, records, obs, archive, nextScan, nextRecord)
    ensures InPurge(scans, records, obs, archive, nextScan, nextRecord, pending)
  {
    hide Sound, Archived, Standing, Kept;
  }

  lemma PurgeEnds(scans: map<nat, Scan>, records: map<nat, Record>, obs: ObsTable, archive: Table, nextScan: nat, nextRecord: nat)
    requires InPurge(scans, records, obs, archive, nextScan, nextRecord, {})
    ensures Consistent(scans, records, obs, archive, nextScan, nextRecord)
  {
    hide Sound, Archived, Standing, Kept;
  }

  /** Deleting any of the scans to be deleted leaves a store with fewer to delete. */
  lemma ChunkInPurge(scans: map<nat, Scan>, records: map<nat, Record>, obs: ObsTable, archive: Table,
                     nextScan: nat, nextRecord: nat, pending: set<nat>, batch: set<nat>)
    requires InPurge(scans, records, obs, archive, nextScan, nextRecord, pending)
    requires RemovesOldest(scans, pending) && batch <= pending
    ensures var left := WithoutScans(scans, batch);
      InPurge(left, RecordsOf(records, left), ObservationsIn(obs, left), ArchiveOf(archive, left), nextScan, nextRecord, pending - batch)
  {
    hide Standing, Kept, WellFormedTable, SubTable, JoinRows, CurrentScans, WithoutScans, RemovesOldest;
    var left := WithoutScans(scans, batch);
    KeptAfterExpiry(scans, pending, batch);
    StandingRestricts(archive, obs, left.Keys);
    assert ArchiveOf(archive, left) == map i | i in archive && archive[i].scan.id in left.Keys :: archive[i];
    assert ObservationsIn(obs, left) == map k | k in obs && k.scan in left.Keys :: obs[k];
    RestrictedRows(left, scans, batch, records, archive);
    LiveRows(scans, records, archive);
    WellFormedRestricts(archive, left);
  }

  lemma WellFormedRestricts(archive: Table, left: map<nat, Scan>)
    requires WellFormedTable(archive)
    ensures WellFormedTable(ArchiveOf(archive, left))
  {
    hide WellFormedRow;
  }

  lemma RestrictedRows(left: map<nat, Scan>, scans: map<nat, Scan>, doomed: set<nat>, records: map<nat, Record>, archive: Table)
    requires left == WithoutScans(scans, doomed) && SubTable(JoinRows(scans, records), archive) && ScanIdsMatch(scans)
    ensures SubTable(JoinRows(left, RecordsOf(records, left)), ArchiveOf(archive, left))
    ensures left.Keys == scans.Keys - doomed && forall i | i in left :: left[i] == scans[i]
  {
    var rows := JoinRows(scans, records);
    forall i | i in JoinRows(left, RecordsOf(records, left)) ensures i in rows && rows[i] == JoinRows(left, RecordsOf(records, left))[i] {}
  }

  lemma LiveRows(scans: map<nat, Scan>, records: map<nat, Record>, archive: Table)
    requires SubTable(JoinRows(scans, records), archive)
    ensures forall i | i in records && records[i].scan in scans :: i in archive && archive[i] == Row(scans[records[i].scan], records[i])
  {
    forall i | i in records && records[i].scan in scans ensures i in archive && archive[i] == Row(scans[records[i].scan], records[i]) {
      assert i in JoinRows(scans, records);
    }
  }

  /** Raw rows of scans that are not kept may go. */
  lemma RawChunkStaysConsistent(scans: map<nat, Scan>, records: map<nat, Record>, obs: ObsTable, archive: Table,
                                nextScan: nat, nextRecord: nat, batch: set<nat>)
    requires Consistent(scans, records, obs, archive, nextScan, nextRecord) && batch !! Kept(scans)
    ensures Consistent(scans, WithoutRaw(records, batch), obs, archive, nextScan, nextRecord)
  {
    hide Standing, Kept, WellFormedRow;
    var left := WithoutRaw(records, batch);
    assert SubTable(JoinRows(scans, left), archive) by {
      assert forall i | i in JoinRows(scans, left) :: i in JoinRows(scans, records);
    }
    forall i | i in archive && archive[i].scan.id in Kept(scans) ensures i in left {
      assert i in records && JoinRows(scans, records)[i] == archive[i];
    }
  }

  lemma RawExpiredNotKept(scans: map<nat, Scan>, cutoff: int, low: nat)
    ensures Above(RawExpired(scans, cutoff), low) !! Kept(scans)
  {
    hide Kept;
  }

  lemma NothingDeleted(scans: map<nat, Scan>, records: map<nat, Record>, obs: ObsTable, archive: Table)
    requires ForeignKeys(scans, records, obs) && forall i | i in archive :: archive[i].scan.id in scans
    ensures WithoutScans(scans, {}) == scans && RecordsOf(records, scans) == records && ObservationsIn(obs, scans) == obs
    ensures ArchiveOf(archive, scans) == archive
  {
  }

  lemma RemainingBefore(scans: map<nat, Scan>, gone: set<nat>, ids: set<nat>, cutoff: int)
    ensures Before(WithoutScans(scans, gone), ids, cutoff) == Before(scans, ids, cutoff) - gone
  {
  }

  /** Deleting in two steps, cascading each time, is deleting at once. */
  lemma DeletedTwice(scans: map<nat, Scan>, records: map<nat, Record>, obs: ObsTable, archive: Table, gone: set<nat>, batch: set<nat>)
    ensures var once, twice := WithoutScans(scans, gone), WithoutScans(scans, gone + batch);
      && WithoutScans(once, batch) == twice
      && RecordsOf(RecordsOf(records, once), twice) == RecordsOf(records, twice)
      && ObservationsIn(ObservationsIn(obs, once), twice) == ObservationsIn(obs, twice)
      && ArchiveOf(ArchiveOf(archive, once), twice) == ArchiveOf(archive, twice)
  {
  }

  /** Every recordable row belongs to a scan within the bounds of the successful scans. */
  lemma SuccessBounds(scans: map<nat, Scan>, records: map<nat, Record>, success: set<nat>, lowest: nat, end: nat)
    requires ScanIdsMatch(scans) && success == set i | i in scans && scans[i].status == ScanStatus.Success
    requires forall i | i in success :: lowest <= i < end
    ensures var t := JoinRows(scans, records); forall i | i in t && Recordable(t[i]) :: lowest <= t[i].scan.id < end
  {
    var t := JoinRows(scans, records);
    forall i | i in t && Recordable(t[i]) ensures t[i].scan.id in success {
      assert t[i].scan == scans[records[i].scan];
    }
  }

  lemma SyncedNothing(obs: ObsTable, t: Table, lo: nat)
    ensures Synced(obs, t, lo, lo) == obs
  {
    hide ObservationsOf, RangeRows;
    RangeObservations(t, lo, lo);
  }

  /** On a consistent store the backfill finds nothing to insert. */
  lemma BackfillAddsNothing(scans: map<nat, Scan>, records: map<nat, Record>, obs: ObsTable, archive: Table, nextScan: nat, nextRecord: nat)
    requires Consistent(scans, records, obs, archive, nextScan, nextRecord)
    ensures ObservationsOf(JoinRows(scans, records)) + obs == obs
  {
    hide Observe, Stands, WellFormedTable, JoinRows, Kept;
    var rows := JoinRows(scans, records);
    forall k | k in ObservationsOf(rows) ensures k in obs {
      var i :| i in rows && Recordable(rows[i]) && ObsKeyOf(rows[i]) == k;
      assert rows[i] == archive[i];
    }
    assert (ObservationsOf(rows) + obs).Keys == obs.Keys;
  }

  /** `ORDER BY id LIMIT k`. */
  function FirstIds(s: set<nat>, k: nat): (r: seq<nat>)
    ensures IdSet(r) <= s && |IdSet(r)| == |r| && (r == [] <==> k == 0 || s == {})
  {
    NatOrders();
    var r := First(s, NatLess, k);
    AscendingIsDistinct(r, NatLess);
    SetSize(r, IdSet(r));
    r
  }

  lemma ChunkProgress(doomed: set<nat>, gone: set<nat>, batch: set<nat>)
    requires gone <= doomed && batch <= doomed - gone && batch != {}
    ensures gone + batch <= doomed && |gone + batch| == |gone| + |batch| && |doomed - (gone + batch)| < |doomed - gone|
  {
    var x :| x in batch;
    ProperSubsetSize(doomed - (gone + batch), doomed - gone, x);
  }

  lemma ExhaustedChunks(doomed: set<nat>, gone: set<nat>, chunk: nat)
    requires gone <= doomed && (chunk == 0 ==> gone == {}) && (chunk == 0 || doomed - gone == {})
    ensures chunk > 0 ==> gone == doomed
  {
    assert chunk > 0 ==> forall i | i in doomed :: i !in doomed - gone;
  }

  function RowsOfRun(run: Scan, added: map<nat, Record>): Table { map i | i in added :: Row(run, added[i]) }

  lemma NewRows(run: Scan, first: nat, added: map<nat, Record>, cs: seq<Connection>)
    requires added == RecordsFor(cs, first, run.id)
    requires forall c | c in cs :: WellFormedConnection(c)
    requires run.started < MARKER_BOUND && run.id < MARKER_BOUND && first + |cs| <= MARKER_BOUND
    ensures WellFormedTable(RowsOfRun(run, added))
    ensures forall i | i in added :: first <= i < first + |cs| && added[i].scan == run.id && added[i].id == i
  {
    hide WellFormedRow, WellFormedConnection;
    var rows := RowsOfRun(run, added);
    forall i | i in rows ensures rows[i].record.id == i && WellFormedRow(rows[i]) {
      assert cs[i - first] in cs && added[i] == RecordFor(cs[i - first], i, run.id);
      NewRow(run, i, cs[i - first]);
    }
  }

  lemma NewRow(run: Scan, id: nat, c: Connection)
    requires WellFormedConnection(c) && run.started < MARKER_BOUND && run.id < MARKER_BOUND && id < MARKER_BOUND
    ensures WellFormedRow(Row(run, RecordFor(c, id, run.id)))
  {
  }

  /** The live table grows by exactly the rows of the new run. */
  lemma JoinAppends(scans: map<nat, Scan>, records: map<nat, Record>, run: Scan, first: nat, added: map<nat, Record>)
    requires run.id !in scans && forall i | i in records :: i < first && records[i].scan in scans
    requires forall i | i in added :: i >= first && added[i].scan == run.id
    ensures JoinRows(scans[run.id := run], records + added) == JoinRows(scans, records) + RowsOfRun(run, added)
    ensures added.Keys !! records.Keys
  {
    var live, both := JoinRows(scans[run.id := run], records + added), JoinRows(scans, records) + RowsOfRun(run, added);
    forall i
      ensures i in live <==> i in both
      ensures i in live ==> live[i] == both[i]
    {
      if i in records { assert i !in added && records[i].scan != run.id; }
    }
  }

  lemma RangeIsRun(scans: map<nat, Scan>, records: map<nat, Record>, run: Scan, added: map<nat, Record>)
    requires ScanIdsMatch(scans) && run.id !in scans
    ensures RangeRows(JoinRows(scans, records) + RowsOfRun(run, added), run.id, run.id + 1) == RowsOfRun(run, added)
  {
    var rows := RowsOfRun(run, added);
    var s, r := RangeRows(JoinRows(scans, records) + rows, run.id, run.id + 1), JoinRows(scans, records);
    forall i
      ensures i in s <==> i in rows
      ensures i in s ==> s[i] == rows[i]
    {
      if i in r { assert r[i].scan.id in scans; }
    }
  }

  lemma ArchiveGrows(scans: map<nat, Scan>, records: map<nat, Record>, archive: Table, run: Scan, first: nat, count: nat, added: map<nat, Record>)
    requires Archived(scans, records, archive, first) && WellFormedTable(RowsOfRun(run, added)) && run.id !in scans
    requires forall i | i in records :: i < first && records[i].scan in scans
    requires forall i | i in added :: first <= i < first + count && added[i].scan == run.id
    ensures Archived(scans[run.id := run], records + added, archive + RowsOfRun(run, added), first + count)
    ensures DisjointScans(archive, RowsOfRun(run, added))
  {
    hide WellFormedTable, JoinRows;
    JoinAppends(scans, records, run, first, added);
    var rows := RowsOfRun(run, added);
    assert DisjointScans(archive, rows);
    WellFormedAppend(archive, rows);
    SubTableAppend(JoinRows(scans, records), archive, rows);
  }

  lemma SubTableAppend(s: Table, t: Table, added: Table)
    requires SubTable(s, t) && t.Keys !! added.Keys
    ensures SubTable(s + added, t + added)
  {
  }

  lemma WellFormedAppend(t: Table, added: Table)
    requires WellFormedTable(t) && WellFormedTable(added) && DisjointScans(t, added)
    ensures WellFormedTable(t + added)
  {
    hide WellFormedRow;
    var all := t + added;
    forall i, j | i in all && j in all && all[i].scan.id == all[j].scan.id ensures all[i].scan == all[j].scan {
      assert i in t <==> i !in added;
      assert j in t <==> j !in added;
    }
  }

  /** Adding a run with its observations keeps the store consistent, between two chunks of a purge too. */
  lemma AddedIsConsistent(scans: map<nat, Scan>, records: map<nat, Record>, obs: ObsTable, archive: Table, nextScan: nat, nextRecord: nat,
                          run: Scan, added: map<nat, Record>, cs: seq<Connection>, pending: set<nat>)
    requires InPurge(scans, records, obs, archive, nextScan, nextRecord, pending)
    requires run.id == nextScan < MARKER_BOUND && run.started < MARKER_BOUND && nextRecord + |cs| <= MARKER_BOUND
    requires added == RecordsFor(cs, nextRecord, run.id) && forall c | c in cs :: WellFormedConnection(c)
    ensures var rows, live := RowsOfRun(run, added), JoinRows(scans[run.id := run], records + added);
      && RangeRows(live, run.id, run.id + 1) == rows
      && InPurge(scans[run.id := run], records + added, ObservationsOf(rows) + obs, archive + rows, nextScan + 1, nextRecord + |cs|, pending)
    ensures run.id !in scans && added.Keys !! records.Keys
  {
    hide Standing, WellFormedTable, JoinRows, ObservationsOf, Kept, RecordsFor, WellFormedConnection, Archived, RowsOfRun, RangeRows;
    NewRows(run, nextRecord, added, cs);
    JoinAppends(scans, records, run, nextRecord, added);
    RangeIsRun(scans, records, run, added);
    ArchiveGrows(scans, records, archive, run, nextRecord, |cs|, added);
    StandingExtends(archive, obs, RowsOfRun(run, added));
    KeptAfterInsert(scans, run);
    RunKeys(run, added);
    ArchivedScans(scans, records, archive, nextRecord);
    SoundGrows(scans, records, nextScan, nextRecord, run, |cs|, added);
  }

  /** A run added between two chunks of a purge leaves the purge where it was. */
  lemma InsertBetweenChunks(scans: map<nat, Scan>, records: map<nat, Record>, obs: ObsTable, archive: Table, nextScan: nat, nextRecord: nat,
                            run: Scan, added: map<nat, Record>, cs: seq<Connection>, ids: set<nat>, cutoff: int)
    requires InPurge(scans, records, obs, archive, nextScan, nextRecord, Before(scans, ids, cutoff))
    requires run.id == nextScan < MARKER_BOUND && run.started < MARKER_BOUND && nextRecord + |cs| <= MARKER_BOUND
    requires added == RecordsFor(cs, nextRecord, run.id) && forall c | c in cs :: WellFormedConnection(c)
    ensures var more, rows := scans[run.id := run], RowsOfRun(run, added);
      InPurge(more, records + added, ObservationsOf(rows) + obs, archive + rows, nextScan + 1, nextRecord + |cs|, Before(more, ids, cutoff))
  {
    hide Sound, Archived, Standing, Kept, RecordsFor, WellFormedConnection, ObservationsOf, RowsOfRun, Before;
    AddedIsConsistent(scans, records, obs, archive, nextScan, nextRecord, run, added, cs, Before(scans, ids, cutoff));
    BeforeGrows(scans, run, ids, cutoff);
  }

  lemma BeforeGrows(scans: map<nat, Scan>, run: Scan, ids: set<nat>, cutoff: int)
    requires run.id !in scans
    ensures Before(scans, ids, cutoff) <= Before(scans[run.id := run], ids, cutoff)
  {
  }

  lemma SoundGrows(scans: map<nat, Scan>, records: map<nat, Record>, nextScan: nat, nextRecord: nat, run: Scan, count: nat, added: map<nat, Record>)
    requires Sound(scans, records, nextScan, nextRecord) && run.id == nextScan >= 1
    requires forall i | i in added :: nextRecord <= i < nextRecord + count && added[i].scan == run.id && added[i].id == i
    ensures Sound(scans[run.id := run], records + added, nextScan + 1, nextRecord + count)
  {
  }

  lemma ArchivedScans(scans: map<nat, Scan>, records: map<nat, Record>, archive: Table, nextRecord: nat)
    requires Archived(scans, records, archive, nextRecord)
    ensures forall i | i in archive :: archive[i].scan.id in scans
  {
  }

  lemma RunKeys(run: Scan, added: map<nat, Record>)
    ensures RowsOfRun(run, added).Keys == added.Keys
  {
  }
}
