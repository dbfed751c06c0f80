/** The statements about whole views. */
module HistoryTheorems {
  import opened Wrappers
  import opened TextCodec
  import opened Addresses
  import opened Services
  import opened Observations
  import opened RawAggregation
  import opened ObservationGroups
  import opened SpellingMerge
  import opened HistoryViews

  // ---------------------------------------- the fast form refines the simple form

  /** The raw rows a query is about: those of the selected successful scans. */
  function WindowTable(t: Table, q: Query): Table {
    map i | i in t && Recordable(t[i]) && SelectsRow(q, t[i]) :: t[i]
  }

  lemma WindowGroup(rules: AddressRules, t: Table, q: Query, pk: PyKey)
    requires WellFormedTable(t)
    ensures RawGroup(rules, WindowTable(t, q), pk) == if pk.port == Some(0) then {} else GroupRows(rules, t, q, Coalesced(pk))
  {
    forall i ensures i in RawGroup(rules, WindowTable(t, q), pk) <==> pk.port != Some(0) && i in GroupRows(rules, t, q, Coalesced(pk)) {
      if i in t { assert WellFormedRow(t[i]); }
    }
  }

  /** A summary only depends on the rows it summarises. */
  lemma SummaryOfSubTable(rules: AddressRules, b: Bucket, s: Table, t: Table, ids: set<nat>)
    requires SubTable(s, t) && ids <= s.Keys && IsSummary(rules, b, s, ids)
    ensures ids <= t.Keys && IsSummary(rules, b, t, ids)
  {
    assert Named(s, ids) == Named(t, ids);
    assert ScanIds(s, ids) == ScanIds(t, ids);
    assert LocalIps(rules, s, ids) == LocalIps(rules, t, ids);
    assert LocalPorts(s, ids) == LocalPorts(t, ids);
    assert Pids(s, ids) == Pids(t, ids);
    assert IsEarliest(b.first, t, ids) by { var i :| i in ids && s[i].scan.started == b.first; assert t[i] == s[i]; }
    assert IsLatest(b.last, t, ids) by { var i :| i in ids && s[i].scan.started == b.last; assert t[i] == s[i]; }
    if b.hostname.Some? {
      var top :| IsTop(s, Named(s, ids), top) && s[top].record.hostname == b.hostname;
      assert IsTop(t, Named(t, ids), top) && t[top].record.hostname == b.hostname;
    }
  }

  /** With every raw row present, the merged bucket is the reference summary but for the hostname. */
  lemma MergedSummary(rules: AddressRules, t: Table, obs: ObsTable, q: Query, k: ServiceKey, b: Bucket, c: Bucket)
    requires Coherent(rules) && WellFormedTable(t) && KnownSpellings(rules, t) && Standing(t, obs)
    requires IsMergeOf(b, PartsOf(rules, obs, q, t, k)) && IsSummary(rules, c, t, GroupRows(rules, t, q, k))
    ensures b == c.(hostname := b.hostname)
    ensures b.hostname == c.hostname <==> NameSettled(t, GroupRows(rules, t, q, k))
  {
    hide PartsOf, GroupRows, IsOutline, IsHostname, NameSettled, Standing, WellFormedTable, KnownSpellings, MergedTimes, MergedSets, MergedHostname;
    var parts, ids := PartsOf(rules, obs, q, t, k), GroupRows(rules, t, q, k);
    PartsCoverGroup(rules, t, obs, q, t, k);
    PartMarkers(rules, t, q, t, parts, ids);
    TwoSpellings(rules, t, q, t, parts, k);
    MergedOutline(rules, t, q, t, parts, ids, b);
    MergedHostnameExact(rules, t, q, t, parts, k, b, c.hostname);
    OutlineUnique(rules, b, c, t, ids);
    TopOfOutline(rules, b, t, ids);
  }

  /** One service: the simple and the fast form report the same, hostname only if settled. */
  lemma SameService(rules: AddressRules, t: Table, obs: ObsTable, q: Query, pk: PyKey, s: Service, f: Service)
    requires Coherent(rules) && WellFormedTable(t) && KnownSpellings(rules, t) && Standing(t, obs) && pk.port != Some(0)
    requires IsRawService(rules, WindowTable(t, q), q.current, pk, s)
    requires IsGroupService(rules, obs, q, t, Coalesced(pk), f)
    ensures f == s.(hostname := f.hostname)
    ensures f.hostname == s.hostname <==> NameSettled(t, GroupRows(rules, t, q, Coalesced(pk)))
  {
    hide PartsOf, GroupRows, IsMergeOf, IsSummary, NameSettled, Standing, WellFormedTable, KnownSpellings;
    var w := WindowTable(t, q);
    var c :| IsSummary(rules, c, w, RawGroup(rules, w, pk)) && s == Finish(c, q.current);
    var b :| IsMergeOf(b, PartsOf(rules, obs, q, t, Coalesced(pk))) && f == Finish(b, q.current);
    WindowGroup(rules, t, q, pk);
    SummaryOfSubTable(rules, c, w, t, RawGroup(rules, w, pk));
    MergedSummary(rules, t, obs, q, Coalesced(pk), b, c);
  }

  /** The fast form refines the simple form: for every query over tables whose observations
      are in step, both report the same service keys and, key by key, the same service; the
      hostname agrees exactly when it is settled. */
  lemma FastRefinesSimple(rules: AddressRules, t: Table, obs: ObsTable, q: Query, simple: map<PyKey, Service>, fast: map<ServiceKey, Service>)
    requires Coherent(rules) && WellFormedTable(t) && KnownSpellings(rules, t) && Standing(t, obs)
    requires IsRawView(rules, WindowTable(t, q), q.current, simple) && IsGroupView(rules, obs, q, t, fast)
    ensures forall pk :: pk in simple <==> pk.port != Some(0) && Coalesced(pk) in fast
    ensures forall pk | pk in simple ::
      var s, f := simple[pk], fast[Coalesced(pk)];
      && f == s.(hostname := f.hostname)
      && (f.hostname == s.hostname <==> NameSettled(t, GroupRows(rules, t, q, Coalesced(pk))))
  {
    hide PartsOf, GroupRows, IsRawService, IsGroupService, NameSettled, Standing, WellFormedTable, KnownSpellings, WindowTable, RawGroup;
    forall pk ensures pk in simple <==> pk.port != Some(0) && Coalesced(pk) in fast {
      WindowGroup(rules, t, q, pk);
      ReportedKeys(rules, t, obs, q, t, Coalesced(pk));
    }
    forall pk | pk in simple
      ensures var s, f := simple[pk], fast[Coalesced(pk)];
        && f == s.(hostname := f.hostname)
        && (f.hostname == s.hostname <==> NameSettled(t, GroupRows(rules, t, q, Coalesced(pk))))
    {
      SameService(rules, t, obs, q, pk, simple[pk], fast[Coalesced(pk)]);
    }
  }

  /** A group whose address is stored in one spelling always has its name settled. */
  lemma OneSpellingSettles(t: Table, ids: set<nat>)
    requires ids <= t.Keys
    requires forall i, j | i in ids && j in ids :: t[i].record.remoteIp == t[j].record.remoteIp
    ensures NameSettled(t, ids)
  {
    hide IsHostname;
    forall top, h | IsTop(t, ids, top) && h != None && IsHostname(h, t, SameSpelling(t, ids, top)) ensures IsHostname(h, t, ids) {
      assert SameSpelling(t, ids, top) == ids;
    }
  }

  function DriftRow(id: nat, remote: string, hostname: Option<string>): Row {
    Row(Scan(id, 1, id, ScanStatus.Success),
        Record(id, id, "tcp", "10.0.0.1", 50000, Some(remote), Some(443), None, None, None, hostname))
  }

  /** Named under one spelling, renamed under the other, seen again nameless under the first. */
  function DriftTable(quad: string): Table {
    map[1 := DriftRow(1, quad, Some("a")), 2 := DriftRow(2, MAPPED_PREFIX + quad, Some("b")), 3 := DriftRow(3, quad, None)]
  }

  lemma DriftNames(quad: string)
    ensures !NameSettled(DriftTable(quad), {1, 2, 3})
  {
    var t, ids := DriftTable(quad), {1, 2, 3};
    assert MAPPED_PREFIX + quad != quad by { assert |MAPPED_PREFIX + quad| == 7 + |quad|; }
    assert IsTop(t, ids, 3);
    assert SameSpelling(t, ids, 3) == {1, 3};
    assert Named(t, {1, 3}) == {1} && IsTop(t, {1}, 1);
    assert IsHostname(Some("a"), t, {1, 3});
    assert Named(t, ids) == {1, 2} && IsTop(t, {1, 2}, 2);
    if IsHostname(Some("a"), t, ids) { HostnameUnique(Some("a"), Some("b"), t, ids); }
  }

  /** The group of the drifting rows, for a query over all of them. */
  lemma DriftGroup(rules: AddressRules, quad: string)
    requires rules.normalize(quad) == quad && rules.normalize(MAPPED_PREFIX + quad) == quad && ':' !in quad
    requires !rules.loopback(quad) && !rules.loopback(MAPPED_PREFIX + quad)
    ensures var t, q, k := DriftTable(quad), Query({1}, {}, Some(0), None, None, None), ServiceKey(1, "tcp", quad, 443, "");
      && WellFormedTable(t) && KnownSpellings(rules, t) && GroupRows(rules, t, q, k) == {1, 2, 3}
  {
    hide WellFormedTable, KnownSpellings;
    DriftIsWellFormed(quad);
    DriftSpellings(rules, quad);
    var t, q, k := DriftTable(quad), Query({1}, {}, Some(0), None, None, None), ServiceKey(1, "tcp", quad, 443, "");
    forall i | i in t ensures i in GroupRows(rules, t, q, k) { DriftSelected(rules, quad, i); }
    assert t.Keys == {1, 2, 3};
  }

  lemma DriftIsWellFormed(quad: string)
    ensures WellFormedTable(DriftTable(quad))
  {
  }

  lemma DriftSpellings(rules: AddressRules, quad: string)
    requires rules.normalize(quad) == quad && rules.normalize(MAPPED_PREFIX + quad) == quad && ':' !in quad
    ensures KnownSpellings(rules, DriftTable(quad))
  {
  }

  lemma DriftSelected(rules: AddressRules, quad: string, i: nat)
    requires rules.normalize(quad) == quad && rules.normalize(MAPPED_PREFIX + quad) == quad && i in DriftTable(quad)
    requires !rules.loopback(quad) && !rules.loopback(MAPPED_PREFIX + quad)
    ensures i in GroupRows(rules, DriftTable(quad), Query({1}, {}, Some(0), None, None, None), ServiceKey(1, "tcp", quad, 443, ""))
  {
    assert ServiceKeyOf(rules, DriftTable(quad)[i]) == ServiceKey(1, "tcp", quad, 443, "");
  }

  /** Three scans for which the two forms report different hostnames. */
  lemma HostnameCanDrift(rules: AddressRules, quad: string, simple: map<PyKey, Service>, fast: map<ServiceKey, Service>)
    requires Coherent(rules) && rules.normalize(quad) == quad && rules.normalize(MAPPED_PREFIX + quad) == quad && ':' !in quad
    requires !rules.loopback(quad)
    requires var t, q := DriftTable(quad), Query({1}, {}, Some(0), None, None, None);
      IsRawView(rules, WindowTable(t, q), q.current, simple) && IsGroupView(rules, ObservationsOf(t), q, t, fast)
    ensures var pk := PyKey(1, "tcp", quad, Some(443), "");
      pk in simple && Coalesced(pk) in fast && simple[pk].hostname != fast[Coalesced(pk)].hostname
  {
    hide NameSettled, GroupRows, Standing, WellFormedTable, KnownSpellings, IsRawView, IsGroupView, WindowTable, ObservationsOf, Coherent, PartsOf;
    var t, q, pk := DriftTable(quad), Query({1}, {}, Some(0), None, None, None), PyKey(1, "tcp", quad, Some(443), "");
    assert !rules.loopback(MAPPED_PREFIX + quad) by { CoherentMapped(rules, quad); }
    DriftGroup(rules, quad);
    DriftNames(quad);
    StandingObservations(t);
    FastRefinesSimple(rules, t, ObservationsOf(t), q, simple, fast);
    ReportedKeys(rules, t, ObservationsOf(t), q, t, Coalesced(pk));
    InFastView(rules, ObservationsOf(t), q, t, fast, Coalesced(pk));
  }

  lemma CoherentMapped(rules: AddressRules, quad: string)
    requires Coherent(rules) && rules.normalize(MAPPED_PREFIX + quad) == quad
    ensures rules.loopback(MAPPED_PREFIX + quad) == rules.loopback(quad)
  {
    assert CoherentAt(rules, MAPPED_PREFIX + quad);
  }

  lemma InFastView(rules: AddressRules, obs: ObsTable, q: Query, samples: Table, fast: map<ServiceKey, Service>, k: ServiceKey)
    requires IsGroupView(rules, obs, q, samples, fast)
    ensures k in fast <==> PartsOf(rules, obs, q, samples, k) != map[]
  {
    hide PartsOf, IsGroupService;
  }

  /** The observations of a table are in step with it. */
  lemma StandingObservations(t: Table)
    requires WellFormedTable(t)
    ensures Standing(t, ObservationsOf(t))
  {
    hide Stands, Observe, ObservationsOf;
    ObservationsStand(t);
  }

  // ------------------------------------------------------------- raw purges

  /** The two services differ at most in sample detail, and a replaced local address, port or
      PID is one of the observed ones. */
  ghost predicate SameButDetail(full: Service, s: Service) {
    var a, b := full.sample, s.sample;
    && s == full.(sample := b)
    && (b == a ||
        (&& b == a.(localIp := b.localIp, family := b.family, localPort := b.localPort, state := None, pid := b.pid)
         && b.localIp in s.localIps && b.family == ColonFamily(b.localIp)
         && b.localPort.Some? && b.localPort.value in s.localPorts
         && (b.pid.Some? ==> b.pid.value in s.pids)))
  }

  lemma PartsCompare(rules: AddressRules, t: Table, obs: ObsTable, q: Query, samples: Table, k: ServiceKey)
    requires Coherent(rules) && WellFormedTable(t) && Standing(t, obs) && SubTable(samples, t)
    ensures SameOutlines(PartsOf(rules, obs, q, t, k), PartsOf(rules, obs, q, samples, k))
  {
    hide DecodeGroup, Standing, WellFormedTable, Coherent, IsPart, RowsFor, RawKeys;
    forall rk | rk in RawKeys(obs, q)
      ensures DecodeGroup(rules, obs, q, t, rk).Some? && DecodeGroup(rules, obs, q, samples, rk).Some?
      ensures var p, r := DecodeGroup(rules, obs, q, t, rk).value, DecodeGroup(rules, obs, q, samples, rk).value;
        r == p.(sample := r.sample)
    {
      DecodeMeaning(rules, t, obs, q, t, rk);
      DecodeMeaning(rules, t, obs, q, samples, rk);
      SameOutline(rules, t, samples, RowsFor(t, q, rk), DecodeGroup(rules, obs, q, t, rk).value, DecodeGroup(rules, obs, q, samples, rk).value);
    }
  }

  lemma SameOutline(rules: AddressRules, t: Table, samples: Table, ids: set<nat>, p: Bucket, r: Bucket)
    requires ids <= t.Keys && IsPart(rules, t, t, ids, p) && IsPart(rules, t, samples, ids, r)
    ensures r == p.(sample := r.sample)
  {
    hide IsOutline, IsHostname, Degrades;
    OutlineUnique(rules, p, r, t, ids);
    HostnameUnique(p.hostname, r.hostname, t, ids);
  }

  lemma PurgedService(rules: AddressRules, t: Table, obs: ObsTable, q: Query, samples: Table, k: ServiceKey, full: Service, s: Service)
    requires Coherent(rules) && WellFormedTable(t) && KnownSpellings(rules, t) && Standing(t, obs) && SubTable(samples, t)
    requires IsGroupService(rules, obs, q, t, k, full) && IsGroupService(rules, obs, q, samples, k, s)
    ensures SameButDetail(full, s)
    ensures full.sample.id in samples ==> s == full
    ensures full.sample.id !in samples ==> s.sample.state == None
  {
    hide PartsOf, GroupRows, IsMergeOf, Standing, WellFormedTable, KnownSpellings, IsPart, RowsFor, SampleOf, DistinctMarkers, AtMostTwo, NoEmptyHostname, Coherent;
    var parts, others := PartsOf(rules, obs, q, t, k), PartsOf(rules, obs, q, samples, k);
    var b :| IsMergeOf(b, parts) && full == Finish(b, q.current);
    var c :| IsMergeOf(c, others) && s == Finish(c, q.current);
    PartsReady(rules, t, obs, q, t, k);
    PartsReady(rules, t, obs, q, samples, k);
    PartsCompare(rules, t, obs, q, samples, k);
    MergeDetermined(b, parts, c, others);
    var top :| IsTopPart(parts, top) && b.sample == parts[top].sample && c.sample == others[top].sample;
    PartSample(rules, t, samples, RowsFor(t, q, top), parts[top], others[top]);
    SetsOfPart(c, others, top);
  }

  /** The parts of a key meet the conditions under which merging is determined. */
  lemma PartsReady(rules: AddressRules, t: Table, obs: ObsTable, q: Query, samples: Table, k: ServiceKey)
    requires Coherent(rules) && WellFormedTable(t) && KnownSpellings(rules, t) && Standing(t, obs) && SubTable(samples, t)
    ensures var parts := PartsOf(rules, obs, q, samples, k);
      && DistinctMarkers(parts) && AtMostTwo(parts) && NoEmptyHostname(parts)
      && (forall rk | rk in parts :: IsPart(rules, t, samples, RowsFor(t, q, rk), parts[rk]))
  {
    hide PartsOf, GroupRows, Standing, WellFormedTable, KnownSpellings, IsPart, RowsFor;
    var parts := PartsOf(rules, obs, q, samples, k);
    PartsCoverGroup(rules, t, obs, q, samples, k);
    PartMarkers(rules, t, q, samples, parts, GroupRows(rules, t, q, k));
    TwoSpellings(rules, t, q, samples, parts, k);
  }

  lemma SetsOfPart(c: Bucket, others: Parts, top: RawKey)
    requires IsMergeOf(c, others) && top in others
    ensures others[top].localIps <= c.localIps && others[top].localPorts <= c.localPorts && others[top].pids <= c.pids
  {
  }

  lemma PartSample(rules: AddressRules, t: Table, samples: Table, ids: set<nat>, p: Bucket, r: Bucket)
    requires ids <= t.Keys && IsPart(rules, t, t, ids, p) && IsPart(rules, t, samples, ids, r)
    requires WellFormedTable(t) && r == p.(sample := r.sample)
    ensures p.sample.id == p.marker.sample
    ensures p.sample.id in samples ==> r.sample == p.sample
    ensures p.sample.id !in samples ==> Degrades(r, p.sample)
  {
    hide IsHostname;
  }

  /** A raw purge is invisible to history apart from sample detail: whatever subset of the raw
      rows is left, the same services are reported with the same fields, and services whose
      sample row is left are reported unchanged. */
  lemma PurgeKeepsHistory(rules: AddressRules, t: Table, obs: ObsTable, q: Query, samples: Table,
                          full: map<ServiceKey, Service>, purged: map<ServiceKey, Service>)
    requires Coherent(rules) && WellFormedTable(t) && KnownSpellings(rules, t) && Standing(t, obs) && SubTable(samples, t)
    requires IsGroupView(rules, obs, q, t, full) && IsGroupView(rules, obs, q, samples, purged)
    ensures purged.Keys == full.Keys
    ensures forall k | k in full :: SameButDetail(full[k], purged[k])
    ensures forall k | k in full :: if full[k].sample.id in samples then purged[k] == full[k] else purged[k].sample.state == None
  {
    hide PartsOf, GroupRows, IsGroupService, Standing, WellFormedTable, KnownSpellings, Coherent, SameButDetail;
    forall k ensures k in purged <==> k in full {
      ReportedKeys(rules, t, obs, q, t, k);
      ReportedKeys(rules, t, obs, q, samples, k);
    }
    forall k | k in full
      ensures SameButDetail(full[k], purged[k])
      ensures if full[k].sample.id in samples then purged[k] == full[k] else purged[k].sample.state == None
    {
      PurgedService(rules, t, obs, q, samples, k, full[k], purged[k]);
    }
  }

  lemma SampleIsSelected(rules: AddressRules, t: Table, obs: ObsTable, q: Query, k: ServiceKey, s: Service)
    requires Coherent(rules) && WellFormedTable(t) && KnownSpellings(rules, t) && Standing(t, obs)
    requires IsGroupService(rules, obs, q, t, k, s)
    ensures s.sample.id in GroupRows(rules, t, q, k) && s.sample.id in t && s.sample == SampleOf(rules, t[s.sample.id])
    ensures s.sample.pid.Some? ==> s.sample.pid.value in s.pids
  {
    hide PartsOf, GroupRows, Standing, WellFormedTable, KnownSpellings, Coherent, RowsFor, MergedTimes, MergedSets, MergedHostname, IsOutline, IsHostname, SampleOf;
    var parts, ids := PartsOf(rules, obs, q, t, k), GroupRows(rules, t, q, k);
    var b :| IsMergeOf(b, parts) && s == Finish(b, q.current);
    PartsCoverGroup(rules, t, obs, q, t, k);
    MergedOutline(rules, t, q, t, parts, ids, b);
    TopOfOutline(rules, b, t, ids);
    var rk := RowRawKey(t[b.marker.sample]);
    PartSample(rules, t, t, RowsFor(t, q, rk), parts[rk], parts[rk]);
    assert b.sample == SampleOf(rules, t[b.marker.sample]) by { PartFullSample(rules, t, RowsFor(t, q, rk), parts[rk]); }
    SamplePidIsObserved(rules, b, t, ids);
  }

  lemma SamplePidIsObserved(rules: AddressRules, b: Bucket, t: Table, ids: set<nat>)
    requires ids <= t.Keys && IsOutline(rules, b, t, ids) && b.sample == SampleOf(rules, t[b.marker.sample])
    ensures b.sample.pid.Some? ==> b.sample.pid.value in b.pids
  {
  }

  lemma PartFullSample(rules: AddressRules, t: Table, ids: set<nat>, p: Bucket)
    requires ids <= t.Keys && IsPart(rules, t, t, ids, p)
    ensures p.marker.sample in t && p.sample == SampleOf(rules, t[p.marker.sample])
  {
    hide IsHostname;
  }

  /** Whatever rows are left, a service shows the protocol of its key. */
  lemma ShownProtocol(rules: AddressRules, t: Table, obs: ObsTable, q: Query, samples: Table, k: ServiceKey, s: Service)
    requires Coherent(rules) && WellFormedTable(t) && KnownSpellings(rules, t) && Standing(t, obs) && SubTable(samples, t)
    requires IsGroupService(rules, obs, q, samples, k, s)
    ensures s.sample.protocol == k.protocol
  {
    hide PartsOf, GroupRows, Standing, WellFormedTable, KnownSpellings, Coherent, RowsFor, MergedTimes, MergedSets, MergedHostname, IsPart,
         DistinctMarkers, AtMostTwo, NoEmptyHostname;
    var parts := PartsOf(rules, obs, q, samples, k);
    var b :| IsMergeOf(b, parts) && s == Finish(b, q.current);
    var top :| MergedTop(b, parts, top);
    PartsReady(rules, t, obs, q, samples, k);
    PartProtocol(rules, t, q, samples, top, parts[top]);
    PartKey(rules, obs, q, samples, k, top);
  }

  lemma PartProtocol(rules: AddressRules, t: Table, q: Query, samples: Table, rk: RawKey, p: Bucket)
    requires IsPart(rules, t, samples, RowsFor(t, q, rk), p)
    ensures p.sample.protocol == rk.protocol
  {
    hide IsHostname;
  }

  lemma PartKey(rules: AddressRules, obs: ObsTable, q: Query, samples: Table, k: ServiceKey, rk: RawKey)
    requires rk in PartsOf(rules, obs, q, samples, k)
    ensures rk.protocol == k.protocol
  {
    hide DecodeGroup;
  }

  /** If every selected raw row is left, nothing changes at all: the case of the current view. */
  lemma SelectedRowsSuffice(rules: AddressRules, t: Table, obs: ObsTable, q: Query, samples: Table,
                            full: map<ServiceKey, Service>, purged: map<ServiceKey, Service>)
    requires Coherent(rules) && WellFormedTable(t) && KnownSpellings(rules, t) && Standing(t, obs) && SubTable(samples, t)
    requires forall i | i in t && Recordable(t[i]) && SelectsRow(q, t[i]) :: i in samples
    requires IsGroupView(rules, obs, q, t, full) && IsGroupView(rules, obs, q, samples, purged)
    ensures purged == full
  {
    hide PartsOf, IsGroupService, Standing, WellFormedTable, KnownSpellings, Coherent;
    PurgeKeepsHistory(rules, t, obs, q, samples, full, purged);
    forall k | k in full ensures full[k].sample.id in samples {
      SampleIsSelected(rules, t, obs, q, k, full[k]);
    }
  }

  // --------------------------------------------------------- narrowed queries

  /** Query `r` selects, of what `q` selects, exactly the rows of the services in `keep`. */
  ghost predicate Narrows(rules: AddressRules, t: Table, q: Query, r: Query, keep: ServiceKey -> bool) {
    forall i | i in t && Recordable(t[i]) && Visible(rules, t[i]) ::
      && (SelectsRow(r, t[i]) <==> SelectsRow(q, t[i]) && keep(ServiceKeyOf(rules, t[i])))
      && (SelectsRow(r, t[i]) ==> (t[i].scan.id in r.current <==> t[i].scan.id in q.current))
  }

  lemma NarrowedMembers(rules: AddressRules, t: Table, obs: ObsTable, q: Query, r: Query, keep: ServiceKey -> bool, rk: RawKey)
    requires Coherent(rules) && WellFormedTable(t) && Standing(t, obs) && Narrows(rules, t, q, r, keep)
    requires Shown(rules, rk)
    ensures Members(obs, r, rk) == if keep(KeyOf(rules, rk)) then Members(obs, q, rk) else {}
  {
    hide CsvStrSet, CsvIntSet, IsHostname, WellFormedTable;
    forall o | o in obs && RawKeyOf(obs[o]) == rk
      ensures SelectsObs(r, obs[o]) <==> SelectsObs(q, obs[o]) && keep(KeyOf(rules, rk))
    {
      var i := obs[o].sample;
      assert i in Cell(t, o) && Stands(t, o, obs[o]);
      assert CoherentAt(rules, rk.remoteIp);
      assert RowRawKey(t[i]) == rk && Visible(rules, t[i]) && ServiceKeyOf(rules, t[i]) == KeyOf(rules, rk);
    }
  }

  lemma SameMembersSameRow(rules: AddressRules, obs: ObsTable, q: Query, r: Query, samples: Table, rk: RawKey)
    requires Members(obs, q, rk) == Members(obs, r, rk) != {}
    ensures rk in RawKeys(obs, q) && rk in RawKeys(obs, r)
    ensures DecodeGroup(rules, obs, q, samples, rk) == DecodeGroup(rules, obs, r, samples, rk)
  {
    hide Decode, Aggregate, JoinCsvs, Members;
    RawKeysHaveMembers(obs, q, rk);
    RawKeysHaveMembers(obs, r, rk);
  }

  lemma NarrowedParts(rules: AddressRules, t: Table, obs: ObsTable, q: Query, r: Query, keep: ServiceKey -> bool, samples: Table, k: ServiceKey)
    requires Coherent(rules) && WellFormedTable(t) && Standing(t, obs) && Narrows(rules, t, q, r, keep)
    ensures PartsOf(rules, obs, r, samples, k) == if keep(k) then PartsOf(rules, obs, q, samples, k) else map[]
  {
    hide DecodeGroup, Standing, WellFormedTable, Coherent, Narrows, Members, RawKeys;
    forall rk | Shown(rules, rk) && KeyOf(rules, rk) == k
      ensures rk in RawKeys(obs, r) <==> rk in RawKeys(obs, q) && keep(k)
      ensures rk in RawKeys(obs, r) ==> rk in RawKeys(obs, q) && DecodeGroup(rules, obs, q, samples, rk) == DecodeGroup(rules, obs, r, samples, rk)
    {
      NarrowedMembers(rules, t, obs, q, r, keep, rk);
      RawKeysHaveMembers(obs, q, rk);
      RawKeysHaveMembers(obs, r, rk);
      if rk in RawKeys(obs, r) { SameMembersSameRow(rules, obs, q, r, samples, rk); }
    }
  }

  lemma NarrowedService(rules: AddressRules, t: Table, obs: ObsTable, q: Query, r: Query, keep: ServiceKey -> bool, samples: Table,
                        k: ServiceKey, s: Service, n: Service)
    requires Coherent(rules) && WellFormedTable(t) && KnownSpellings(rules, t) && Standing(t, obs) && SubTable(samples, t)
    requires Narrows(rules, t, q, r, keep) && keep(k)
    requires IsGroupService(rules, obs, q, samples, k, s) && IsGroupService(rules, obs, r, samples, k, n)
    ensures n == s
  {
    hide PartsOf, GroupRows, Standing, WellFormedTable, KnownSpellings, Coherent, MergedTimes, MergedSets, MergedHostname, IsPart, Narrows, MergedTop, DistinctMarkers, AtMostTwo, NoEmptyHostname;
    var parts := PartsOf(rules, obs, q, samples, k);
    NarrowedParts(rules, t, obs, q, r, keep, samples, k);
    var b :| IsMergeOf(b, parts) && s == Finish(b, q.current);
    var c :| IsMergeOf(c, parts) && n == Finish(c, r.current);
    PartsReady(rules, t, obs, q, samples, k);
    MergeDetermined(b, parts, c, parts);
    PartsCoverGroup(rules, t, obs, q, samples, k);
    MergedOutline(rules, t, q, samples, parts, GroupRows(rules, t, q, k), b);
    SameCurrent(rules, t, q, r, keep, k, b);
  }

  lemma SameCurrent(rules: AddressRules, t: Table, q: Query, r: Query, keep: ServiceKey -> bool, k: ServiceKey, b: Bucket)
    requires Narrows(rules, t, q, r, keep) && keep(k) && IsOutline(rules, b, t, GroupRows(rules, t, q, k))
    ensures b.scanIds * q.current == b.scanIds * r.current
  {
    forall x | x in b.scanIds ensures x in q.current <==> x in r.current {
      var i :| i in GroupRows(rules, t, q, k) && t[i].scan.id == x;
    }
  }

  /** Pushing a filter on services below both aggregations gives exactly the filtered view. */
  lemma NarrowedView(rules: AddressRules, t: Table, obs: ObsTable, q: Query, r: Query, keep: ServiceKey -> bool, samples: Table,
                     wide: map<ServiceKey, Service>, narrow: map<ServiceKey, Service>)
    requires Coherent(rules) && WellFormedTable(t) && KnownSpellings(rules, t) && Standing(t, obs) && SubTable(samples, t)
    requires Narrows(rules, t, q, r, keep)
    requires IsGroupView(rules, obs, q, samples, wide) && IsGroupView(rules, obs, r, samples, narrow)
    ensures narrow == map k | k in wide && keep(k) :: wide[k]
  {
    hide PartsOf, IsGroupService, Standing, WellFormedTable, KnownSpellings, Coherent, Narrows;
    forall k ensures k in narrow <==> k in wide && keep(k) { NarrowedParts(rules, t, obs, q, r, keep, samples, k); }
    forall k | k in narrow ensures narrow[k] == wide[k] {
      NarrowedService(rules, t, obs, q, r, keep, samples, k, wide[k], narrow[k]);
    }
  }
}
