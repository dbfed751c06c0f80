/** What both forms report, column by column and in terms of stored rows alone. */
module ReportedServices {
  import opened Wrappers
  import opened Addresses
  import opened Services
  import opened RawAggregation
  import opened ObservationGroups
  import opened SpellingMerge
  import opened HistoryViews
  import opened HistoryTheorems
  import opened StoredSpelling

  // ------------------------------------------------------ which rows count

  /** Row `r` is one of device, protocol, normalised remote address and process of the key, no loopback. */
  ghost predicate RemoteRow(rules: AddressRules, r: Row, device: nat, protocol: string, remote: string, process: string) {
    && r.record.remoteIp.Some? && !rules.loopback(r.record.remoteIp.value)
    && r.scan.device == device && r.record.protocol == protocol && rules.normalize(r.record.remoteIp.value) == remote
    && (if r.record.process.Some? then r.record.process.value == process else process == "")
  }

  /** A row of service `k` for the simple form, which keeps a missing port apart. */
  ghost predicate SimpleRow(rules: AddressRules, t: Table, k: PyKey, i: nat) {
    i in t && RemoteRow(rules, t[i], k.device, k.protocol, k.remote, k.process) && t[i].record.remotePort == k.port
  }

  /** A row of service `k` for the fast form, where a missing port counts as 0. */
  ghost predicate FastRow(rules: AddressRules, t: Table, k: ServiceKey, i: nat) {
    && i in t && RemoteRow(rules, t[i], k.device, k.protocol, k.remote, k.process)
    && (if t[i].record.remotePort.Some? then t[i].record.remotePort.value == k.port else k.port == 0)
  }

  /** A successful scan's row that the query asks for: of its devices, current or since the cutoff,
      from its source devices or to its inbound addresses if it names any, to its remote addresses. */
  ghost predicate Asked(q: Query, r: Row) {
    && r.scan.status == ScanStatus.Success && r.record.remoteIp.Some? && r.scan.device in q.devices
    && (r.scan.id in q.current || (q.cutoff.Some? && q.cutoff.value <= r.scan.started))
    && (q.sources.Some? || q.inbound.Some? ==>
          || (q.sources.Some? && r.scan.device in q.sources.value)
          || (q.inbound.Some? && r.record.remoteIp.value in q.inbound.value))
    && (q.remotes.Some? ==> r.record.remoteIp.value in q.remotes.value)
  }

  // ------------------------------------------------------ what they amount to

  /** Row `a` is older than row `b`: by start time, then scan, then record. */
  ghost predicate Older(a: Row, b: Row) {
    || a.scan.started < b.scan.started
    || (a.scan.started == b.scan.started && a.scan.id < b.scan.id)
    || (a.scan.started == b.scan.started && a.scan.id == b.scan.id && a.record.id < b.record.id)
  }

  ghost predicate IsNewest(t: Table, ids: set<nat>, i: nat)
    requires ids <= t.Keys
  {
    i in ids && forall j | j in ids && j != i :: Older(t[j], t[i])
  }

  /** First and last seen, the number of scans, whether one of them is current, and what was observed. */
  ghost predicate Counts(rules: AddressRules, t: Table, ids: set<nat>, current: set<nat>, s: Service)
    requires ids <= t.Keys
  {
    && (exists i | i in ids :: t[i].scan.started == s.first) && (forall i | i in ids :: s.first <= t[i].scan.started)
    && (exists i | i in ids :: t[i].scan.started == s.last) && (forall i | i in ids :: t[i].scan.started <= s.last)
    && s.observations == |set i | i in ids :: t[i].scan.id|
    && (s.isCurrent <==> exists i | i in ids :: t[i].scan.id in current)
    && s.localIps == (set i | i in ids :: rules.normalize(t[i].record.localIp))
    && s.localPorts == (set i | i in ids :: t[i].record.localPort)
    && s.pids == (set i | i in ids && t[i].record.pid.Some? :: t[i].record.pid.value)
  }

  /** The sample is the newest row, in the columns that no purge can touch. */
  ghost predicate Samples(t: Table, ids: set<nat>, s: Service)
    requires ids <= t.Keys
  {
    var x := s.sample;
    && IsNewest(t, ids, x.id) && var r := t[x.id];
    && x.protocol == r.record.protocol && x.remotePort == r.record.remotePort && x.process == r.record.process
    && x.scan == r.scan.id && x.scanTime == r.scan.started
  }

  /** The other columns of a sample, as its own row has them. */
  ghost predicate ShowsRow(rules: AddressRules, x: Sample, r: Row) {
    && x.localIp == rules.normalize(r.record.localIp) && x.family == rules.family(x.localIp) && x.localPort == Some(r.record.localPort)
    && x.state == r.record.state && x.pid == r.record.pid
  }

  /** The name of the newest row that has one. */
  ghost predicate NamesNewest(t: Table, ids: set<nat>, h: Option<string>)
    requires ids <= t.Keys
  {
    var named := set i | i in ids && t[i].record.hostname.Some?;
    if named == {} then h == None else exists i :: IsNewest(t, named, i) && t[i].record.hostname == h
  }

  // ----------------------------------------------------------------- proofs

  lemma NewestIsTop(t: Table, ids: set<nat>, i: nat)
    requires WellFormedTable(t) && ids <= t.Keys
    ensures IsTop(t, ids, i) <==> IsNewest(t, ids, i)
  {
    hide WellFormedRow;
  }

  lemma OutlineCounts(rules: AddressRules, t: Table, ids: set<nat>, current: set<nat>, b: Bucket)
    requires ids <= t.Keys && IsOutline(rules, b, t, ids)
    ensures Counts(rules, t, ids, current, Finish(b, current))
  {
    hide IsTop;
    assert ScanIds(t, ids) == set i | i in ids :: t[i].scan.id;
    if exists i | i in ids :: t[i].scan.id in current {
      var i :| i in ids && t[i].scan.id in current;
      assert t[i].scan.id in b.scanIds * current;
    }
    if b.scanIds * current != {} {
      var x :| x in b.scanIds * current;
      var i :| i in ids && t[i].scan.id == x;
    }
  }

  lemma HostnameNames(t: Table, ids: set<nat>, h: Option<string>)
    requires WellFormedTable(t) && ids <= t.Keys && IsHostname(h, t, ids)
    ensures NamesNewest(t, ids, h)
  {
    hide IsNewest, WellFormedTable;
    assert Named(t, ids) == set i | i in ids && t[i].record.hostname.Some?;
    if h.Some? {
      var top :| IsTop(t, Named(t, ids), top) && t[top].record.hostname == h;
      NewestIsTop(t, Named(t, ids), top);
      NewestKnown(t, Named(t, ids), top);
    }
  }

  lemma NewestKnown(t: Table, ids: set<nat>, i: nat)
    requires ids <= t.Keys && IsNewest(t, ids, i)
    ensures i in ids
  {
  }

  /** What the simple form returns: a key is reported if and only if it has a row, and then with the
      counts and observations of its rows, the newest of them in full, and the newest name. */
  lemma SimpleReports(rules: AddressRules, t: Table, current: set<nat>, view: map<PyKey, Service>, k: PyKey)
    requires WellFormedTable(t) && IsRawView(rules, t, current, view)
    ensures k in view <==> exists i :: SimpleRow(rules, t, k, i)
    ensures k in view ==>
      var s, ids := view[k], set i | i in t && SimpleRow(rules, t, k, i);
      Counts(rules, t, ids, current, s) && Samples(t, ids, s) && ShowsRow(rules, s.sample, t[s.sample.id]) && NamesNewest(t, ids, s.hostname)
  {
    hide WellFormedTable, IsOutline, IsHostname, Finish, Counts, NamesNewest, IsTop, IsNewest;
    var ids := set i | i in t && SimpleRow(rules, t, k, i);
    SimpleGroup(rules, t, k);
    if i :| SimpleRow(rules, t, k, i) { assert i in ids; }
    if k in view {
      assert IsRawService(rules, t, current, k, view[k]);
      var b :| IsSummary(rules, b, t, ids) && view[k] == Finish(b, current);
      OutlineCounts(rules, t, ids, current, b);
      HostnameNames(t, ids, b.hostname);
      SummarySample(rules, t, ids, current, b);
      var i :| i in ids;
    }
  }

  lemma SimpleGroup(rules: AddressRules, t: Table, k: PyKey)
    ensures RawGroup(rules, t, k) == set i | i in t && SimpleRow(rules, t, k, i)
  {
  }

  lemma SummarySample(rules: AddressRules, t: Table, ids: set<nat>, current: set<nat>, b: Bucket)
    requires WellFormedTable(t) && ids <= t.Keys && IsSummary(rules, b, t, ids)
    ensures var s := Finish(b, current); s.hostname == b.hostname && Samples(t, ids, s) && ShowsRow(rules, s.sample, t[s.sample.id])
  {
    hide IsEarliest, IsLatest, IsHostname, WellFormedRow, IsNewest;
    NewestIsTop(t, ids, b.marker.sample);
    TopKnown(t, ids, b.marker.sample);
  }

  lemma TopKnown(t: Table, ids: set<nat>, i: nat)
    requires ids <= t.Keys && IsTop(t, ids, i)
    ensures i in ids
  {
  }

  lemma FastGroup(rules: AddressRules, t: Table, q: Query, k: ServiceKey)
    ensures GroupRows(rules, t, q, k) == set i | i in t && FastRow(rules, t, k, i) && Asked(q, t[i])
  {
  }

  /** What the fast form returns for the same rows: the same, except that a sample whose row is gone
      has no state and stands in for its address, port and PID by observed ones, and that the name
      is the newest one if the name is settled. */
  lemma FastReports(rules: AddressRules, t: Table, obs: ObsTable, q: Query, samples: Table, view: map<ServiceKey, Service>, k: ServiceKey)
    requires Coherent(rules) && WellFormedTable(t) && KnownSpellings(rules, t) && Standing(t, obs) && SubTable(samples, t)
    requires IsGroupView(rules, obs, q, samples, view)
    ensures k in view <==> exists i :: FastRow(rules, t, k, i) && Asked(q, t[i])
    ensures k in view ==>
      var s, ids := view[k], set i | i in t && FastRow(rules, t, k, i) && Asked(q, t[i]);
      && Counts(rules, t, ids, q.current, s) && Samples(t, ids, s)
      && (if s.sample.id in samples then ShowsRow(rules, s.sample, t[s.sample.id]) else s.sample.state == None)
      && (NameSettled(t, ids) ==> NamesNewest(t, ids, s.hostname))
  {
    hide Coherent, WellFormedTable, KnownSpellings, Standing, SubTable, IsOutline, Finish, Counts, NamesNewest, IsTop, IsNewest, Samples, ShowsRow,
         PartsOf, IsGroupService, FastRow, Asked, NameSettled;
    var ids := set i | i in t && FastRow(rules, t, k, i) && Asked(q, t[i]);
    FastGroup(rules, t, q, k);
    ReportedKeys(rules, t, obs, q, samples, k);
    FastKnown(rules, t, k);
    if i :| FastRow(rules, t, k, i) && Asked(q, t[i]) { assert i in ids; }
    if k in view {
      var i :| i in ids;
      FastFields(rules, t, obs, q, samples, k, view[k]);
    }
  }

  lemma FastKnown(rules: AddressRules, t: Table, k: ServiceKey)
    ensures forall i | FastRow(rules, t, k, i) :: i in t
  {
  }

  /** The sample of one part, column by column. */
  ghost predicate PartShows(rules: AddressRules, t: Table, samples: Table, m: nat, x: Sample)
    requires m in t
  {
    var r := t[m];
    && x.id == m && x.protocol == r.record.protocol && x.remotePort == r.record.remotePort && x.process == r.record.process
    && x.scan == r.scan.id && x.scanTime == r.scan.started
    && (if m in samples then ShowsRow(rules, x, r) else x.state == None)
  }

  lemma PartSampleShows(rules: AddressRules, t: Table, samples: Table, ids: set<nat>, p: Bucket)
    requires WellFormedTable(t) && ids <= t.Keys && IsPart(rules, t, samples, ids, p)
    ensures p.sample.id in t && PartShows(rules, t, samples, p.sample.id, p.sample)
  {
    hide IsHostname, WellFormedRow;
  }

  lemma FastSamples(rules: AddressRules, t: Table, samples: Table, ids: set<nat>, b: Bucket, current: set<nat>)
    requires WellFormedTable(t) && ids <= t.Keys && IsTop(t, ids, b.marker.sample) && b.sample.id == b.marker.sample
    requires b.sample.id in t && PartShows(rules, t, samples, b.sample.id, b.sample)
    ensures var s := Finish(b, current);
      Samples(t, ids, s) && if s.sample.id in samples then ShowsRow(rules, s.sample, t[s.sample.id]) else s.sample.state == None
  {
    hide ShowsRow, IsTop, IsNewest, WellFormedTable;
    NewestIsTop(t, ids, b.marker.sample);
    TopKnown(t, ids, b.marker.sample);
  }

  lemma SettledName(rules: AddressRules, t: Table, q: Query, samples: Table, k: ServiceKey, top: nat, p: Bucket, h: Option<string>)
    requires WellFormedTable(t) && top in GroupRows(rules, t, q, k) && IsTop(t, GroupRows(rules, t, q, k), top)
    requires IsPart(rules, t, samples, RowsFor(t, q, RowRawKey(t[top])), p)
    requires NamedBy(t, GroupRows(rules, t, q, k), p.hostname, h) && NameSettled(t, GroupRows(rules, t, q, k))
    ensures IsHostname(h, t, GroupRows(rules, t, q, k))
  {
    hide GroupRows, RowsFor, IsTop, IsHostname, IsOutline, WellFormedTable;
    OwnRows(rules, t, q, k, top);
  }

  lemma FastFields(rules: AddressRules, t: Table, obs: ObsTable, q: Query, samples: Table, k: ServiceKey, s: Service)
    requires Coherent(rules) && WellFormedTable(t) && KnownSpellings(rules, t) && Standing(t, obs) && SubTable(samples, t)
    requires IsGroupService(rules, obs, q, samples, k, s)
    ensures var ids := GroupRows(rules, t, q, k);
      && Counts(rules, t, ids, q.current, s) && Samples(t, ids, s)
      && (if s.sample.id in samples then ShowsRow(rules, s.sample, t[s.sample.id]) else s.sample.state == None)
      && (NameSettled(t, ids) ==> NamesNewest(t, ids, s.hostname))
  {
    hide Coherent, WellFormedTable, KnownSpellings, Standing, SubTable, IsOutline, Counts, NamesNewest, IsNewest, IsTop, IsHostname, PartsOf, GroupRows,
         IsGroupService, NameSettled, NamedBy, IsPart, RowsFor, Samples, ShowsRow, PartShows, Finish;
    var ids, parts := GroupRows(rules, t, q, k), PartsOf(rules, obs, q, samples, k);
    var b := ReportedAs(rules, t, obs, q, samples, k, s);
    OutlineCounts(rules, t, ids, q.current, b);
    TopOfOutline(rules, b, t, ids);
    OutlineTop(rules, b, t, ids);
    PartsReady(rules, t, obs, q, samples, k);
    var top := b.marker.sample;
    var rk := RowRawKey(t[top]);
    PartSampleShows(rules, t, samples, RowsFor(t, q, rk), parts[rk]);
    FastSamples(rules, t, samples, ids, b, q.current);
    if NameSettled(t, ids) {
      SettledName(rules, t, q, samples, k, top, parts[rk], b.hostname);
      HostnameNames(t, ids, b.hostname);
      NameOf(b, q.current);
    }
  }

  lemma NameOf(b: Bucket, current: set<nat>)
    ensures Finish(b, current).hostname == b.hostname
  {
  }
}
