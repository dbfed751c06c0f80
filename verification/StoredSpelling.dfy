/** A query that matches one stored spelling of an address, against the same query without that
    restriction: when does a service come out the same? */
module StoredSpelling {
  import opened Wrappers
  import opened TextCodec
  import opened Addresses
  import opened Services
  import opened Observations
  import opened ObservationGroups
  import opened SpellingMerge
  import opened HistoryViews
  import opened HistoryTheorems

  /** Query `r` selects, of what `q` selects, the rows of devices `sources` stored as `asked`. */
  ghost predicate AsksFor(t: Table, q: Query, r: Query, sources: set<nat>, asked: string) {
    forall i | i in t && Recordable(t[i]) ::
      && (SelectsRow(r, t[i]) <==> SelectsRow(q, t[i]) && t[i].scan.device in sources && t[i].record.remoteIp == Some(asked))
      && (SelectsRow(r, t[i]) ==> (t[i].scan.id in r.current <==> t[i].scan.id in q.current))
  }

  /** The rows of service `k` that are stored under its normal address. */
  function AskedRows(rules: AddressRules, t: Table, q: Query, k: ServiceKey): (r: set<nat>)
    ensures r <= GroupRows(rules, t, q, k)
  {
    set i | i in GroupRows(rules, t, q, k) && t[i].record.remoteIp == Some(k.remote)
  }

  /** Among the rows of `k` those stored under its normal address include the newest, are from all
      its scans, show all its local addresses, ports and PIDs, and are named if any row is. */
  ghost predicate AskedRowsSuffice(rules: AddressRules, t: Table, q: Query, k: ServiceKey) {
    var all, asked := GroupRows(rules, t, q, k), AskedRows(rules, t, q, k);
    && (exists top :: top in asked && IsTop(t, all, top))
    && ScanIds(t, asked) == ScanIds(t, all) && LocalIps(rules, t, asked) == LocalIps(rules, t, all)
    && LocalPorts(t, asked) == LocalPorts(t, all) && Pids(t, asked) == Pids(t, all)
    && (Named(t, asked) == {} ==> Named(t, all) == {})
  }

  function AskedKey(k: ServiceKey): RawKey { RawKey(k.device, k.protocol, k.remote, k.port, k.process) }

  lemma AskedGroup(rules: AddressRules, t: Table, q: Query, r: Query, sources: set<nat>, k: ServiceKey)
    requires AsksFor(t, q, r, sources, k.remote) && k.device in sources
    ensures GroupRows(rules, t, r, k) == AskedRows(rules, t, q, k)
  {
    forall i ensures i in GroupRows(rules, t, r, k) <==> i in AskedRows(rules, t, q, k) {}
  }

  /** All rows so stored are behind one SQL group. */
  lemma AskedRowsKey(rules: AddressRules, t: Table, q: Query, k: ServiceKey)
    requires Coherent(rules) && rules.normalize(k.remote) == k.remote && AskedRows(rules, t, q, k) != {}
    ensures forall i | i in AskedRows(rules, t, q, k) :: RowRawKey(t[i]) == AskedKey(k)
    ensures RowsFor(t, q, AskedKey(k)) == AskedRows(rules, t, q, k) && Shown(rules, AskedKey(k)) && KeyOf(rules, AskedKey(k)) == k
  {
    var asked := AskedRows(rules, t, q, k);
    var j :| j in asked;
    assert CoherentAt(rules, k.remote);
    forall i ensures i in RowsFor(t, q, AskedKey(k)) <==> i in asked {}
  }

  /** Both queries see the same observations of that SQL group. */
  lemma SameMembers(t: Table, obs: ObsTable, q: Query, r: Query, sources: set<nat>, k: ServiceKey)
    requires WellFormedTable(t) && Standing(t, obs) && AsksFor(t, q, r, sources, k.remote) && k.device in sources
    ensures Members(obs, r, AskedKey(k)) == Members(obs, q, AskedKey(k))
  {
    hide CsvStrSet, CsvIntSet, IsHostname, WellFormedTable;
    forall o | o in obs && RawKeyOf(obs[o]) == AskedKey(k)
      ensures SelectsObs(r, obs[o]) <==> SelectsObs(q, obs[o])
    {
      var i := obs[o].sample;
      assert i in Cell(t, o) && Stands(t, o, obs[o]);
      assert RowRawKey(t[i]) == AskedKey(k);
    }
  }

  /** The restricted query merges one part, the one the unrestricted query has for that spelling. */
  lemma OnePart(rules: AddressRules, t: Table, obs: ObsTable, q: Query, r: Query, samples: Table, sources: set<nat>, k: ServiceKey)
    requires Coherent(rules) && WellFormedTable(t) && Standing(t, obs) && SubTable(samples, t)
    requires AsksFor(t, q, r, sources, k.remote) && k.device in sources && rules.normalize(k.remote) == k.remote
    requires AskedRows(rules, t, q, k) != {}
    ensures var parts := PartsOf(rules, obs, q, samples, k);
      AskedKey(k) in parts && PartsOf(rules, obs, r, samples, k) == map[AskedKey(k) := parts[AskedKey(k)]]
  {
    hide DecodeGroup, Standing, WellFormedTable, Coherent, SubTable, AsksFor, Members, RawKeys, IsPart, GroupRows, PartsAmong;
    AskedGroup(rules, t, q, r, sources, k);
    AskedRowsKey(rules, t, q, k);
    PartsCoverGroup(rules, t, obs, q, samples, k);
    PartsCoverGroup(rules, t, obs, r, samples, k);
    SameMembers(t, obs, q, r, sources, k);
    var rk, parts, own := AskedKey(k), PartsOf(rules, obs, q, samples, k), PartsOf(rules, obs, r, samples, k);
    var i :| i in AskedRows(rules, t, q, k);
    assert rk in parts && rk in own;
    OnlyAskedKey(rules, t, r, samples, own, k);
    PartDecoded(rules, obs, q, samples, k, rk);
    PartDecoded(rules, obs, r, samples, k, rk);
    RawKeysHaveMembers(obs, q, rk);
    SameMembersSameRow(rules, obs, q, r, samples, rk);
  }

  lemma PartDecoded(rules: AddressRules, obs: ObsTable, q: Query, samples: Table, k: ServiceKey, rk: RawKey)
    requires rk in PartsOf(rules, obs, q, samples, k)
    ensures rk in RawKeys(obs, q) && DecodeGroup(rules, obs, q, samples, rk) == Some(PartsOf(rules, obs, q, samples, k)[rk])
  {
    hide DecodeGroup, RawKeys;
  }

  lemma OnlyAskedKey(rules: AddressRules, t: Table, r: Query, samples: Table, own: Parts, k: ServiceKey)
    requires PartCover(rules, t, r, samples, own, GroupRows(rules, t, r, k))
    requires forall i | i in GroupRows(rules, t, r, k) :: RowRawKey(t[i]) == AskedKey(k)
    ensures forall o | o in own :: o == AskedKey(k)
  {
    hide IsHostname, GroupRows;
    forall o | o in own ensures o == AskedKey(k) {
      TopOfOutline(rules, own[o], t, RowsFor(t, r, o));
      assert own[o].marker.sample in RowsFor(t, r, o);
    }
  }

  /** What either query reports, in terms of rows: an outline, a name, and the sample of a part. */
  ghost predicate Reported(rules: AddressRules, t: Table, ids: set<nat>, parts: Parts, q: Query, b: Bucket, s: Service)
    requires ids <= t.Keys
  {
    && IsOutline(rules, b, t, ids) && s == Finish(b, q.current)
    && b.marker.sample in t && t[b.marker.sample].record.remoteIp.Some? && RowRawKey(t[b.marker.sample]) in parts
    && b.sample == parts[RowRawKey(t[b.marker.sample])].sample && b.sample.id == b.marker.sample
    && NamedBy(t, ids, parts[RowRawKey(t[b.marker.sample])].hostname, b.hostname)
  }

  /** The merged name is the top part's own, or else the whole group's. */
  ghost predicate NamedBy(t: Table, ids: set<nat>, own: Option<string>, h: Option<string>)
    requires ids <= t.Keys
  {
    if own.Some? then h == own else IsHostname(h, t, ids)
  }

  lemma ReportedAs(rules: AddressRules, t: Table, obs: ObsTable, q: Query, samples: Table, k: ServiceKey, s: Service) returns (b: Bucket)
    requires Coherent(rules) && WellFormedTable(t) && KnownSpellings(rules, t) && Standing(t, obs) && SubTable(samples, t)
    requires IsGroupService(rules, obs, q, samples, k, s)
    ensures Reported(rules, t, GroupRows(rules, t, q, k), PartsOf(rules, obs, q, samples, k), q, b, s)
  {
    hide PartsOf, GroupRows, Standing, WellFormedTable, KnownSpellings, Coherent, IsPart, MergedTimes, MergedSets, MergedHostname, IsOutline, IsHostname,
         SampleOf, DistinctMarkers, AtMostTwo, NoEmptyHostname;
    var parts, ids := PartsOf(rules, obs, q, samples, k), GroupRows(rules, t, q, k);
    b :| IsMergeOf(b, parts) && s == Finish(b, q.current);
    PartsReady(rules, t, obs, q, samples, k);
    PartsCoverGroup(rules, t, obs, q, samples, k);
    MergedOutline(rules, t, q, samples, parts, ids, b);
    TopOfOutline(rules, b, t, ids);
    OutlineTop(rules, b, t, ids);
    var i := b.marker.sample;
    RowFacts(rules, t, q, samples, parts, ids, i);
    var rk := RowRawKey(t[i]);
    assert MergedTop(b, parts, rk);
    PartId(rules, t, samples, RowsFor(t, q, rk), parts[rk]);
    TopName(rules, t, q, samples, parts, ids, b, rk);
  }

  lemma PartId(rules: AddressRules, t: Table, samples: Table, ids: set<nat>, p: Bucket)
    requires WellFormedTable(t) && ids <= t.Keys && IsPart(rules, t, samples, ids, p)
    ensures p.sample.id == p.marker.sample
  {
    hide IsHostname;
  }

  lemma TopName(rules: AddressRules, t: Table, q: Query, samples: Table, parts: Parts, ids: set<nat>, b: Bucket, top: RawKey)
    requires WellFormedTable(t) && ids <= t.Keys && PartCover(rules, t, q, samples, parts, ids)
    requires MergedTop(b, parts, top) && AtMostTwo(parts) && NoEmptyHostname(parts)
    ensures NamedBy(t, ids, parts[top].hostname, b.hostname)
  {
    hide IsOutline, IsHostname, RowsFor, PartCover;
    if parts[top].hostname.None? {
      var rk :| rk in parts && parts[rk].hostname == b.hostname;
      forall o | o in parts && o != rk ensures parts[o].hostname == None {
        assert o == rk || o == top || rk == top;
      }
      NamesInOnePart(rules, t, q, samples, parts, ids, rk);
    }
  }

  lemma SameTimes(t: Table, ids: set<nat>, all: set<nat>, n: nat, m: nat)
    requires WellFormedTable(t) && ids <= all <= t.Keys && ScanIds(t, ids) == ScanIds(t, all) && IsEarliest(n, t, ids) && IsEarliest(m, t, all)
    ensures n == m
  {
    hide WellFormedRow;
    var j :| j in all && t[j].scan.started == m;
    assert t[j].scan.id in ScanIds(t, ids);
    var i :| i in ids && t[i].scan.id == t[j].scan.id;
  }

  lemma SameLast(t: Table, ids: set<nat>, top: nat, n: nat)
    requires ids <= t.Keys && IsTop(t, ids, top) && IsLatest(n, t, ids)
    ensures n == t[top].scan.started
  {
  }

  lemma SubsetBySize(a: set<nat>, b: set<nat>)
    requires a <= b && |a| == |b|
    ensures a == b
  {
    assert b == a + (b - a) && |b| == |a| + |b - a|;
  }

  lemma FewerScans(t: Table, ids: set<nat>, all: set<nat>)
    requires ids <= all <= t.Keys
    ensures ScanIds(t, ids) <= ScanIds(t, all)
  {
  }

  /** The restricted query reports service `k` as the unrestricted one does if and only if the rows
      stored under its normal address suffice. */
  lemma AskedServiceExact(rules: AddressRules, t: Table, obs: ObsTable, q: Query, r: Query, samples: Table, sources: set<nat>,
                          k: ServiceKey, w: Service, n: Service)
    requires Coherent(rules) && WellFormedTable(t) && KnownSpellings(rules, t) && Standing(t, obs) && SubTable(samples, t)
    requires AsksFor(t, q, r, sources, k.remote) && k.device in sources && rules.normalize(k.remote) == k.remote
    requires IsGroupService(rules, obs, q, samples, k, w) && IsGroupService(rules, obs, r, samples, k, n)
    ensures n == w <==> AskedRowsSuffice(rules, t, q, k)
  {
    hide PartsOf, GroupRows, Standing, WellFormedTable, KnownSpellings, Coherent, AsksFor, SubTable, IsGroupService, IsOutline, IsHostname, IsTop;
    AskedGroup(rules, t, q, r, sources, k);
    var all, asked := GroupRows(rules, t, q, k), AskedRows(rules, t, q, k);
    var b := ReportedAs(rules, t, obs, q, samples, k, w);
    var c := ReportedAs(rules, t, obs, r, samples, k, n);
    TopOfOutline(rules, c, t, asked);
    OutlineTop(rules, b, t, all);
    OutlineTop(rules, c, t, asked);
    OnePart(rules, t, obs, q, r, samples, sources, k);
    AskedRowsKey(rules, t, q, k);
    OwnName(rules, t, obs, r, samples, k);
    SameCurrency(t, q, r, sources, k, rules);
    ExactlyWhen(rules, t, q, r, k, PartsOf(rules, obs, q, samples, k), PartsOf(rules, obs, r, samples, k), b, c, w, n);
  }

  /** The one part's name is the name of the rows so stored. */
  lemma OwnName(rules: AddressRules, t: Table, obs: ObsTable, r: Query, samples: Table, k: ServiceKey)
    requires Coherent(rules) && WellFormedTable(t) && Standing(t, obs) && SubTable(samples, t)
    requires AskedKey(k) in PartsOf(rules, obs, r, samples, k) && forall i | i in GroupRows(rules, t, r, k) :: RowRawKey(t[i]) == AskedKey(k)
    ensures IsHostname(PartsOf(rules, obs, r, samples, k)[AskedKey(k)].hostname, t, GroupRows(rules, t, r, k))
  {
    hide PartsOf, Standing, WellFormedTable, Coherent, SubTable, IsHostname, IsPart;
    var parts, ids := PartsOf(rules, obs, r, samples, k), GroupRows(rules, t, r, k);
    PartsCoverGroup(rules, t, obs, r, samples, k);
    PartHostname(rules, t, r, samples, parts, ids, AskedKey(k));
    forall i ensures i in RowsFor(t, r, AskedKey(k)) <==> i in ids {}
    assert RowsFor(t, r, AskedKey(k)) == ids;
  }

  lemma SameCurrency(t: Table, q: Query, r: Query, sources: set<nat>, k: ServiceKey, rules: AddressRules)
    requires AsksFor(t, q, r, sources, k.remote) && GroupRows(rules, t, r, k) == AskedRows(rules, t, q, k)
    ensures ScanIds(t, AskedRows(rules, t, q, k)) * r.current == ScanIds(t, AskedRows(rules, t, q, k)) * q.current
  {
    var asked := AskedRows(rules, t, q, k);
    forall x | x in ScanIds(t, asked) ensures x in r.current <==> x in q.current {
      var i :| i in asked && t[i].scan.id == x;
      assert i in GroupRows(rules, t, r, k);
    }
  }

  lemma ExactlyWhen(rules: AddressRules, t: Table, q: Query, r: Query, k: ServiceKey, parts: Parts, own: Parts, b: Bucket, c: Bucket, w: Service, n: Service)
    requires WellFormedTable(t)
    requires Reported(rules, t, GroupRows(rules, t, q, k), parts, q, b, w) && Reported(rules, t, AskedRows(rules, t, q, k), own, r, c, n)
    requires forall i | i in AskedRows(rules, t, q, k) :: RowRawKey(t[i]) == AskedKey(k)
    requires AskedKey(k) in parts && own == map[AskedKey(k) := parts[AskedKey(k)]]
    requires IsHostname(own[AskedKey(k)].hostname, t, AskedRows(rules, t, q, k))
    requires IsTop(t, GroupRows(rules, t, q, k), b.marker.sample) && IsTop(t, AskedRows(rules, t, q, k), c.marker.sample)
    requires ScanIds(t, AskedRows(rules, t, q, k)) * r.current == ScanIds(t, AskedRows(rules, t, q, k)) * q.current
    ensures n == w <==> AskedRowsSuffice(rules, t, q, k)
  {
    hide GroupRows, WellFormedTable;
    var all, asked := GroupRows(rules, t, q, k), AskedRows(rules, t, q, k);
    FewerScans(t, asked, all);
    if n == w { SubsetBySize(ScanIds(t, asked), ScanIds(t, all)); }
    if top :| top in asked && IsTop(t, all, top) {
      TopUnique(t, all, top, b.marker.sample);
      TopStays(t, asked, all, top);
      TopUnique(t, asked, top, c.marker.sample);
      SameLast(t, all, top, b.last);
      SameLast(t, asked, top, c.last);
    }
    if ScanIds(t, asked) == ScanIds(t, all) { SameTimes(t, asked, all, c.first, b.first); }
    var o := own[AskedKey(k)].hostname;
    assert o.None? <==> Named(t, asked) == {};
    if Named(t, all) == {} && b.hostname.Some? {
      assert !IsHostname(b.hostname, t, all);
    }
  }

  lemma TopStays(t: Table, ids: set<nat>, all: set<nat>, top: nat)
    requires ids <= all <= t.Keys && top in ids && IsTop(t, all, top)
    ensures IsTop(t, ids, top)
  {
  }
}
