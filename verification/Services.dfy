/** Raw connection rows, service keys, and the reference meaning of a service group:
    what one group of rows ought to be summarised as, independently of any algorithm. */
module Services {
  import opened Wrappers
  import opened TextCodec
  import opened Addresses

  datatype ScanStatus = Running | Success | Failed

  datatype Scan = Scan(id: nat, device: nat, started: nat, status: ScanStatus)

  datatype Record = Record(
    id: nat, scan: nat, protocol: string,
    localIp: string, localPort: nat,
    remoteIp: Option<string>, remotePort: Option<nat>,
    state: Option<string>, pid: Option<nat>,
    process: Option<string>, hostname: Option<string>)

  /** A connection record joined with its scan. */
  datatype Row = Row(scan: Scan, record: Record)

  /** Raw rows by record id. */
  type Table = map<nat, Row>

  /** What the code takes for granted about stored rows. */
  predicate WellFormedRow(r: Row) {
    && r.record.scan == r.scan.id
    && r.record.localIp != "" && COMMA !in r.record.localIp
    && r.record.remotePort != Some(0)
    && r.record.process != Some("")
    && r.record.hostname != Some("")
    && FitsMarker(MarkerOf(r))
  }

  ghost predicate WellFormedTable(t: Table) {
    && (forall i | i in t :: t[i].record.id == i && WellFormedRow(t[i]))
    && (forall i, j | i in t && j in t && t[i].scan.id == t[j].scan.id :: t[i].scan == t[j].scan)
  }

  function MarkerOf(r: Row): Marker { Marker(r.scan.started, r.scan.id, r.record.id) }

  lemma MarkersDiffer(t: Table, i: nat, j: nat)
    requires WellFormedTable(t) && i in t && j in t
    ensures MarkerOf(t[i]) == MarkerOf(t[j]) <==> i == j
    ensures i != j ==> MarkerLess(MarkerOf(t[i]), MarkerOf(t[j])) || MarkerLess(MarkerOf(t[j]), MarkerOf(t[i]))
  {
    MarkerOrder();
  }

  // ------------------------------------------------------------------ keys

  /** Group key of the simple form, which keeps a missing port apart. */
  datatype PyKey = PyKey(device: nat, protocol: string, remote: string, port: Option<nat>, process: string)

  /** Group key of the fast form, where a missing port is stored as 0. */
  datatype ServiceKey = ServiceKey(device: nat, protocol: string, remote: string, port: nat, process: string)

  function PortNumber(port: Option<nat>): nat { if port.Some? then port.value else 0 }

  function ProcessText(process: Option<string>): string { if process.Some? then process.value else "" }

  function Coalesced(k: PyKey): ServiceKey {
    ServiceKey(k.device, k.protocol, k.remote, PortNumber(k.port), k.process)
  }

  function PyKeyOf(rules: AddressRules, r: Row): PyKey
    requires r.record.remoteIp.Some?
  {
    PyKey(r.scan.device, r.record.protocol, rules.normalize(r.record.remoteIp.value), r.record.remotePort, ProcessText(r.record.process))
  }

  function ServiceKeyOf(rules: AddressRules, r: Row): ServiceKey
    requires r.record.remoteIp.Some?
  {
    Coalesced(PyKeyOf(rules, r))
  }

  /** Rows that take part in aggregation: not listeners, not loopback. */
  predicate Visible(rules: AddressRules, r: Row) {
    r.record.remoteIp.Some? && !rules.loopback(r.record.remoteIp.value)
  }

  // --------------------------------------------------------------- summaries

  /** The fields a service group shows of its latest row. */
  datatype Sample = Sample(
    id: nat, protocol: string, family: Family,
    localIp: string, localPort: Option<nat>, remotePort: Option<nat>,
    state: Option<string>, pid: Option<nat>, process: Option<string>,
    scan: nat, scanTime: nat)

  function SampleOf(rules: AddressRules, r: Row): Sample {
    var localIp := rules.normalize(r.record.localIp);
    Sample(r.record.id, r.record.protocol, rules.family(localIp),
           localIp, Some(r.record.localPort), r.record.remotePort,
           r.record.state, r.record.pid, r.record.process,
           r.scan.id, r.scan.started)
  }

  /** Working state of one service group. */
  datatype Bucket = Bucket(
    first: nat, last: nat, marker: Marker,
    scanIds: set<nat>, localIps: set<string>, localPorts: set<nat>, pids: set<nat>,
    hostname: Option<string>, sample: Sample)

  /** One reported service group. */
  datatype Service = Service(
    sample: Sample, hostname: Option<string>, first: nat, last: nat,
    isCurrent: bool, observations: nat,
    localIps: set<string>, localPorts: set<nat>, pids: set<nat>)

  function Finish(b: Bucket, current: set<nat>): Service {
    Service(b.sample, b.hostname, b.first, b.last, b.scanIds * current != {}, |b.scanIds|,
            b.localIps, b.localPorts, b.pids)
  }

  /** `top` is the latest of `ids` by (start time, scan, record). */
  ghost predicate IsTop(t: Table, ids: set<nat>, top: nat)
    requires ids <= t.Keys
  {
    top in ids && forall i | i in ids :: i == top || MarkerLess(MarkerOf(t[i]), MarkerOf(t[top]))
  }

  function Named(t: Table, ids: set<nat>): set<nat>
    requires ids <= t.Keys
  {
    set i | i in ids && t[i].record.hostname.Some?
  }

  /** The latest hostname known among `ids`. */
  ghost predicate IsHostname(h: Option<string>, t: Table, ids: set<nat>)
    requires ids <= t.Keys
  {
    if h.None? then Named(t, ids) == {}
    else exists top :: IsTop(t, Named(t, ids), top) && t[top].record.hostname == h
  }

  ghost predicate IsEarliest(n: nat, t: Table, ids: set<nat>)
    requires ids <= t.Keys
  {
    (exists i | i in ids :: t[i].scan.started == n) && forall i | i in ids :: n <= t[i].scan.started
  }

  ghost predicate IsLatest(n: nat, t: Table, ids: set<nat>)
    requires ids <= t.Keys
  {
    (exists i | i in ids :: t[i].scan.started == n) && forall i | i in ids :: t[i].scan.started <= n
  }

  function ScanIds(t: Table, ids: set<nat>): set<nat>
    requires ids <= t.Keys
  {
    set i | i in ids :: t[i].scan.id
  }

  function LocalIps(rules: AddressRules, t: Table, ids: set<nat>): set<string>
    requires ids <= t.Keys
  {
    set i | i in ids :: rules.normalize(t[i].record.localIp)
  }

  function LocalPorts(t: Table, ids: set<nat>): set<nat>
    requires ids <= t.Keys
  {
    set i | i in ids :: t[i].record.localPort
  }

  function Pids(t: Table, ids: set<nat>): set<nat>
    requires ids <= t.Keys
  {
    set i | i in ids && t[i].record.pid.Some? :: t[i].record.pid.value
  }

  /** Everything a group of rows determines except hostname and sample detail. */
  ghost predicate IsOutline(rules: AddressRules, b: Bucket, t: Table, ids: set<nat>)
    requires ids <= t.Keys
  {
    && IsEarliest(b.first, t, ids) && IsLatest(b.last, t, ids)
    && IsTop(t, ids, b.marker.sample) && b.marker == MarkerOf(t[b.marker.sample])
    && b.scanIds == ScanIds(t, ids) && b.localIps == LocalIps(rules, t, ids)
    && b.localPorts == LocalPorts(t, ids) && b.pids == Pids(t, ids)
  }

  /** The reference: `b` summarises exactly the rows `ids`. */
  ghost predicate IsSummary(rules: AddressRules, b: Bucket, t: Table, ids: set<nat>)
    requires ids <= t.Keys
  {
    && IsOutline(rules, b, t, ids)
    && IsHostname(b.hostname, t, ids)
    && b.sample == SampleOf(rules, t[b.marker.sample])
  }

  lemma TopUnique(t: Table, ids: set<nat>, a: nat, b: nat)
    requires ids <= t.Keys && IsTop(t, ids, a) && IsTop(t, ids, b)
    ensures a == b
  {
    MarkerOrder();
  }

  /** A group of rows has at most one outline … */
  lemma OutlineUnique(rules: AddressRules, b: Bucket, c: Bucket, t: Table, ids: set<nat>)
    requires ids <= t.Keys && IsOutline(rules, b, t, ids) && IsOutline(rules, c, t, ids)
    ensures c == b.(hostname := c.hostname, sample := c.sample)
  {
    TopUnique(t, ids, b.marker.sample, c.marker.sample);
  }

  lemma HostnameUnique(h: Option<string>, g: Option<string>, t: Table, ids: set<nat>)
    requires ids <= t.Keys && IsHostname(h, t, ids) && IsHostname(g, t, ids)
    ensures h == g
  {
    if h.Some? && g.Some? {
      var a :| IsTop(t, Named(t, ids), a) && t[a].record.hostname == h;
      var b :| IsTop(t, Named(t, ids), b) && t[b].record.hostname == g;
      TopUnique(t, Named(t, ids), a, b);
    }
  }

  /** … and at most one summary, so agreeing with the reference means being equal. */
  lemma SummaryUnique(rules: AddressRules, b: Bucket, c: Bucket, t: Table, ids: set<nat>)
    requires ids <= t.Keys && IsSummary(rules, b, t, ids) && IsSummary(rules, c, t, ids)
    ensures b == c
  {
    OutlineUnique(rules, b, c, t, ids);
    HostnameUnique(b.hostname, c.hostname, t, ids);
  }
}
