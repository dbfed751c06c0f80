/** The main results about history views: the fast form against the simple form, and what
    purges and narrowed queries do to it. */
module HistoryViews {
  import opened Wrappers
  import opened TextCodec
  import opened Addresses
  import opened Services
  import opened Observations
  import opened RawAggregation
  import opened ObservationGroups
  import opened SpellingMerge

  /** `obs` holds, for every recordable row of `t`, the observation that stands for it, and nothing else. */
  ghost predicate Standing(t: Table, obs: ObsTable) {
    && (forall k | k in obs :: Stands(t, k, obs[k]))
    && (forall i | i in t && Recordable(t[i]) :: ObsKeyOf(t[i]) in obs)
  }

  ghost predicate SubTable(s: Table, t: Table) {
    forall i | i in s :: i in t && s[i] == t[i]
  }

  /** A sample rebuilt from the aggregated sets after its row was purged: the least address, port and PID. */
  ghost predicate Degrades(b: Bucket, full: Sample) {
    var s := b.sample;
    && s == full.(localIp := s.localIp, family := s.family, localPort := s.localPort, state := None, pid := s.pid)
    && s.localIp in b.localIps && s.family == ColonFamily(s.localIp) && (forall x | x in b.localIps :: !TextLess(x, s.localIp))
    && s.localPort.Some? && s.localPort.value in b.localPorts && (forall x | x in b.localPorts :: s.localPort.value <= x)
    && (if s.pid.Some? then s.pid.value in b.pids && (forall x | x in b.pids :: s.pid.value <= x) else b.pids == {})
  }

  /** `b` summarises `ids` except that its sample may be rebuilt when the row is missing from `samples`. */
  ghost predicate IsPart(rules: AddressRules, t: Table, samples: Table, ids: set<nat>, b: Bucket)
    requires ids <= t.Keys
  {
    && IsOutline(rules, b, t, ids) && IsHostname(b.hostname, t, ids)
    && if b.marker.sample in samples
       then b.sample == SampleOf(rules, t[b.marker.sample])
       else Degrades(b, SampleOf(rules, t[b.marker.sample]))
  }

  // ------------------------------------------------ one aggregated row

  lemma MembersKnown(t: Table, obs: ObsTable, q: Query, rk: RawKey)
    requires WellFormedTable(t) && Standing(t, obs) && rk in RawKeys(obs, q)
    ensures var ks := Members(obs, q, rk);
      && ks != {} && Covers(t, obs, ks, RowsFor(t, q, rk)) && RowsFor(t, q, rk) != {}
      && AggregateRows(obs, q)[rk] == Aggregate(obs, ks) && CsvRows(obs, q)[rk] == JoinCsvs(obs, ks)
  {
    hide Stands, Aggregate, JoinCsvs, Covers;
    RawKeysHaveMembers(obs, q, rk);
    MembersCoverRows(t, obs, q, rk);
    var k :| k in Members(obs, q, rk);
    CoveringKey(t, obs, Members(obs, q, rk), RowsFor(t, q, rk), k);
  }

  /** The decoded text columns are the outline and the hostname of the group's rows. */
  lemma DecodedColumns(rules: AddressRules, t: Table, obs: ObsTable, ks: set<ObsKey>, ids: set<nat>, b: Bucket)
    requires WellFormedTable(t) && ids <= t.Keys && ks <= obs.Keys && ks != {} && Covers(t, obs, ks, ids)
    requires var agg, csv := Aggregate(obs, ks), JoinCsvs(obs, ks);
      && b.first == agg.first && b.last == agg.last && b.marker == ParseMarker(agg.marker)
      && b.scanIds == CsvIntSet(agg.scanIds)
      && b.localIps == AllNormalized(rules, CsvStrSet(csv.localIps))
      && b.localPorts == CsvIntSet(csv.localPorts) && b.pids == CsvIntSet(csv.pids)
      && b.hostname == if Truthy(agg.payload) then Some(AfterFirst(agg.payload.value, UNIT_SEPARATOR)) else None
    ensures IsOutline(rules, b, t, ids) && IsHostname(b.hostname, t, ids)
  {
    hide Covers, StartTimes, MarkerTexts, ParseMarker, CsvIntSet, CsvStrSet, StringAgg, IntAgg, AfterFirst, IsHostname, PayloadTexts;
    TimeColumns(t, obs, ks, ids);
    MarkerColumn(t, obs, ks, ids);
    ScanColumn(t, obs, ks, ids);
    LocalIpColumn(rules, t, obs, ks, ids);
    PortColumn(t, obs, ks, ids);
    PidColumn(t, obs, ks, ids);
    if PayloadTexts(obs, ks) == {} {
      NoHostname(t, obs, ks, ids);
    } else {
      HostnameColumn(t, obs, ks, ids);
      PayloadsFilled(obs, ks);
    }
  }

  lemma PayloadsFilled(obs: ObsTable, ks: set<ObsKey>)
    requires ks <= obs.Keys
    ensures "" !in PayloadTexts(obs, ks)
  {
    hide MarkerText;
  }

  /** Every column that identifies the group is shared by its rows. */
  lemma GroupColumns(t: Table, q: Query, rk: RawKey, i: nat)
    requires WellFormedTable(t) && i in RowsFor(t, q, rk)
    ensures t[i].record.protocol == rk.protocol && t[i].scan.device == rk.device
    ensures t[i].record.remotePort == if rk.port == 0 then None else Some(rk.port)
    ensures t[i].record.process == if rk.process == "" then None else Some(rk.process)
  {
  }

  lemma RebuiltSample(rules: AddressRules, t: Table, q: Query, rk: RawKey, ids: set<nat>, b: Bucket)
    requires Coherent(rules) && WellFormedTable(t) && ids == RowsFor(t, q, rk) && ids != {}
    requires IsOutline(rules, b, t, ids)
    requires var s := DegradedSample(rules, rk, b.marker, b.localIps, b.localPorts, b.pids); s.Some? ==> b.sample == s.value
    ensures DegradedSample(rules, rk, b.marker, b.localIps, b.localPorts, b.pids).Some?
    ensures Degrades(b, SampleOf(rules, t[b.marker.sample]))
  {
    var top := b.marker.sample;
    GroupColumns(t, q, rk, top);
    assert rules.normalize(t[top].record.localIp) in b.localIps;
    assert t[top].record.localPort in b.localPorts;
    var least := MinText(b.localIps);
    var i :| i in ids && rules.normalize(t[i].record.localIp) == least;
    assert CoherentAt(rules, t[i].record.localIp);
  }

  lemma SampleKept(rules: AddressRules, r: Row)
    requires Coherent(rules)
    ensures LiveSample(rules, r) == SampleOf(rules, r)
  {
    assert CoherentAt(rules, r.record.localIp);
  }

  /** Decoding an aggregated row always succeeds and yields the summary of its raw rows, up to a rebuilt sample. */
  lemma DecodeMeaning(rules: AddressRules, t: Table, obs: ObsTable, q: Query, samples: Table, rk: RawKey)
    requires Coherent(rules) && WellFormedTable(t) && Standing(t, obs) && SubTable(samples, t) && rk in RawKeys(obs, q)
    ensures RowsFor(t, q, rk) != {}
    ensures var p := DecodeGroup(rules, obs, q, samples, rk); p.Some? && IsPart(rules, t, samples, RowsFor(t, q, rk), p.value)
  {
    hide Aggregate, JoinCsvs, Covers, Standing, CsvIntSet, CsvStrSet, ParseMarker, AfterFirst, DegradedSample,
         AggregateRows, CsvRows, IsOutline, IsHostname, Members, RowsFor, LiveSample, SampleOf, Degrades;
    MembersKnown(t, obs, q, rk);
    var ks, ids := Members(obs, q, rk), RowsFor(t, q, rk);
    var agg, csv := Aggregate(obs, ks), JoinCsvs(obs, ks);
    var m := ParseMarker(agg.marker);
    var localIps := AllNormalized(rules, CsvStrSet(csv.localIps));
    var localPorts, pids := CsvIntSet(csv.localPorts), CsvIntSet(csv.pids);
    var hostname := if Truthy(agg.payload) then Some(AfterFirst(agg.payload.value, UNIT_SEPARATOR)) else None;
    var rebuilt := DegradedSample(rules, rk, m, localIps, localPorts, pids);
    var bare := Bucket(agg.first, agg.last, m, CsvIntSet(agg.scanIds), localIps, localPorts, pids, hostname,
                       if m.sample in samples then LiveSample(rules, samples[m.sample])
                       else if rebuilt.Some? then rebuilt.value else Sample(0, "", IPv4, "", None, None, None, None, None, 0, 0));
    DecodedColumns(rules, t, obs, ks, ids, bare);
    TopOfOutline(rules, bare, t, ids);
    if m.sample in samples {
      SampleKept(rules, samples[m.sample]);
    } else {
      RebuiltSample(rules, t, q, rk, ids, bare);
    }
    assert DecodeGroup(rules, obs, q, samples, rk) == Some(bare);
  }

  lemma TopOfOutline(rules: AddressRules, b: Bucket, t: Table, ids: set<nat>)
    requires ids <= t.Keys && IsOutline(rules, b, t, ids)
    ensures b.marker.sample in ids && b.marker == MarkerOf(t[b.marker.sample])
  {
  }

  // ------------------------------------------- all spellings of one key

  /** Raw rows of service group `k` under query `q`. */
  function GroupRows(rules: AddressRules, t: Table, q: Query, k: ServiceKey): (r: set<nat>)
    ensures r <= t.Keys
  {
    set i | i in t && Recordable(t[i]) && SelectsRow(q, t[i]) && Visible(rules, t[i]) && ServiceKeyOf(rules, t[i]) == k
  }

  /** The parts of a merge stand for a partition of `ids` by stored spelling. */
  ghost predicate PartCover(rules: AddressRules, t: Table, q: Query, samples: Table, parts: Parts, ids: set<nat>)
    requires ids <= t.Keys
  {
    && (forall rk | rk in parts :: RowsFor(t, q, rk) <= ids && IsPart(rules, t, samples, RowsFor(t, q, rk), parts[rk]))
    && (forall i | i in ids :: Recordable(t[i]) && RowRawKey(t[i]) in parts && i in RowsFor(t, q, RowRawKey(t[i])))
  }

  lemma RowKeyKnown(t: Table, obs: ObsTable, q: Query, i: nat)
    requires WellFormedTable(t) && Standing(t, obs) && i in t && Recordable(t[i]) && SelectsRow(q, t[i])
    ensures RowRawKey(t[i]) in RawKeys(obs, q) && i in RowsFor(t, q, RowRawKey(t[i]))
  {
    hide CsvStrSet, CsvIntSet, IsHostname;
    var k := ObsKeyOf(t[i]);
    assert i in Cell(t, k) && Stands(t, k, obs[k]);
    assert RawKeyOf(obs[k]) == RowRawKey(t[i]) && SelectsObs(q, obs[k]);
  }

  /** Normalising an address keeps it visible and keeps its service key. */
  lemma KeyOfRow(rules: AddressRules, t: Table, q: Query, rk: RawKey, i: nat)
    requires Coherent(rules) && i in RowsFor(t, q, rk)
    ensures KeyOf(rules, rk) == ServiceKeyOf(rules, t[i]) && RowRawKey(t[i]) == rk
    ensures Shown(rules, rk) <==> Visible(rules, t[i])
  {
    assert CoherentAt(rules, rk.remoteIp);
  }

  lemma PartsCoverGroup(rules: AddressRules, t: Table, obs: ObsTable, q: Query, samples: Table, k: ServiceKey)
    requires Coherent(rules) && WellFormedTable(t) && Standing(t, obs) && SubTable(samples, t)
    ensures PartCover(rules, t, q, samples, PartsOf(rules, obs, q, samples, k), GroupRows(rules, t, q, k))
  {
    hide DecodeGroup, Standing, IsPart, RawKeys, WellFormedTable, Coherent, SubTable;
    var parts, ids := PartsOf(rules, obs, q, samples, k), GroupRows(rules, t, q, k);
    forall rk | rk in parts
      ensures RowsFor(t, q, rk) <= ids && IsPart(rules, t, samples, RowsFor(t, q, rk), parts[rk])
    {
      DecodeMeaning(rules, t, obs, q, samples, rk);
      forall i | i in RowsFor(t, q, rk) ensures i in ids { KeyOfRow(rules, t, q, rk, i); }
    }
    forall i | i in ids ensures RowRawKey(t[i]) in parts && i in RowsFor(t, q, RowRawKey(t[i])) {
      RowKeyKnown(t, obs, q, i);
      KeyOfRow(rules, t, q, RowRawKey(t[i]), i);
      DecodeMeaning(rules, t, obs, q, samples, RowRawKey(t[i]));
    }
  }

  /** A key is reported exactly when it has rows. */
  lemma ReportedKeys(rules: AddressRules, t: Table, obs: ObsTable, q: Query, samples: Table, k: ServiceKey)
    requires Coherent(rules) && WellFormedTable(t) && Standing(t, obs) && SubTable(samples, t)
    ensures PartsOf(rules, obs, q, samples, k) != map[] <==> GroupRows(rules, t, q, k) != {}
  {
    hide PartsOf, Standing, WellFormedTable, Coherent, SubTable;
    var parts, ids := PartsOf(rules, obs, q, samples, k), GroupRows(rules, t, q, k);
    PartsCoverGroup(rules, t, obs, q, samples, k);
    if parts != map[] {
      var rk :| rk in parts;
      TopOfOutline(rules, parts[rk], t, RowsFor(t, q, rk));
    }
    if i :| i in ids { assert RowRawKey(t[i]) in parts; }
  }

  lemma PartMarkers(rules: AddressRules, t: Table, q: Query, samples: Table, parts: Parts, ids: set<nat>)
    requires WellFormedTable(t) && ids <= t.Keys && PartCover(rules, t, q, samples, parts, ids)
    ensures DistinctMarkers(parts)
    ensures NoEmptyHostname(parts)
    ensures forall rk | rk in parts :: parts[rk].marker.sample in RowsFor(t, q, rk)
  {
    hide IsOutline;
    forall rk | rk in parts
      ensures parts[rk].marker.sample in RowsFor(t, q, rk) && parts[rk].hostname != Some("")
    {
      TopOfOutline(rules, parts[rk], t, RowsFor(t, q, rk));
    }
    forall a, b | a in parts && b in parts && parts[a].marker == parts[b].marker ensures a == b {
      assert parts[a].marker.sample in RowsFor(t, q, a) && parts[b].marker.sample in RowsFor(t, q, b);
    }
  }

  /** What one part says about the rows of its own spelling. */
  lemma PartFacts(rules: AddressRules, t: Table, q: Query, samples: Table, parts: Parts, ids: set<nat>, rk: RawKey)
    requires ids <= t.Keys && PartCover(rules, t, q, samples, parts, ids) && rk in parts
    ensures var own, p := RowsFor(t, q, rk), parts[rk];
      && own <= ids
      && IsEarliest(p.first, t, own) && IsLatest(p.last, t, own)
      && p.scanIds == ScanIds(t, own) && p.localIps == LocalIps(rules, t, own)
      && p.localPorts == LocalPorts(t, own) && p.pids == Pids(t, own)
  {
    hide IsHostname, IsTop, IsEarliest, IsLatest;
  }

  lemma RowFacts(rules: AddressRules, t: Table, q: Query, samples: Table, parts: Parts, ids: set<nat>, i: nat)
    requires ids <= t.Keys && PartCover(rules, t, q, samples, parts, ids) && i in ids
    ensures t[i].record.remoteIp.Some? && Recordable(t[i]) && RowRawKey(t[i]) in parts && i in RowsFor(t, q, RowRawKey(t[i]))
  {
    hide IsPart;
  }

  lemma OutlineTimes(rules: AddressRules, t: Table, q: Query, samples: Table, parts: Parts, ids: set<nat>, b: Bucket)
    requires ids <= t.Keys && PartCover(rules, t, q, samples, parts, ids) && MergedTimes(b, parts)
    ensures IsEarliest(b.first, t, ids) && IsLatest(b.last, t, ids)
  {
    hide PartCover, RowsFor;
    var f :| f in parts && parts[f].first == b.first;
    var l :| l in parts && parts[l].last == b.last;
    PartFacts(rules, t, q, samples, parts, ids, f);
    PartFacts(rules, t, q, samples, parts, ids, l);
    forall i | i in ids ensures b.first <= t[i].scan.started <= b.last {
      RowFacts(rules, t, q, samples, parts, ids, i);
      PartFacts(rules, t, q, samples, parts, ids, RowRawKey(t[i]));
    }
  }

  lemma OutlineAddresses(rules: AddressRules, t: Table, q: Query, samples: Table, parts: Parts, ids: set<nat>, b: Bucket)
    requires ids <= t.Keys && PartCover(rules, t, q, samples, parts, ids) && MergedSets(b, parts)
    ensures b.localIps == LocalIps(rules, t, ids) && b.scanIds == ScanIds(t, ids)
  {
    hide PartCover, RowsFor, IsEarliest, IsLatest, LocalPorts, Pids;
    forall x ensures x in b.localIps <==> x in LocalIps(rules, t, ids) {
      if x in b.localIps {
        var rk :| rk in parts && x in parts[rk].localIps;
        PartFacts(rules, t, q, samples, parts, ids, rk);
      }
      if x in LocalIps(rules, t, ids) {
        var i :| i in ids && rules.normalize(t[i].record.localIp) == x;
        RowFacts(rules, t, q, samples, parts, ids, i);
        PartFacts(rules, t, q, samples, parts, ids, RowRawKey(t[i]));
      }
    }
    forall x ensures x in b.scanIds <==> x in ScanIds(t, ids) {
      if x in b.scanIds {
        var rk :| rk in parts && x in parts[rk].scanIds;
        PartFacts(rules, t, q, samples, parts, ids, rk);
      }
      if x in ScanIds(t, ids) {
        var i :| i in ids && t[i].scan.id == x;
        RowFacts(rules, t, q, samples, parts, ids, i);
        PartFacts(rules, t, q, samples, parts, ids, RowRawKey(t[i]));
      }
    }
  }

  lemma OutlineNumbers(rules: AddressRules, t: Table, q: Query, samples: Table, parts: Parts, ids: set<nat>, b: Bucket)
    requires ids <= t.Keys && PartCover(rules, t, q, samples, parts, ids) && MergedSets(b, parts)
    ensures b.localPorts == LocalPorts(t, ids) && b.pids == Pids(t, ids)
  {
    hide PartCover, RowsFor, IsEarliest, IsLatest, LocalIps, ScanIds;
    forall x ensures x in b.localPorts <==> x in LocalPorts(t, ids) {
      if x in b.localPorts {
        var rk :| rk in parts && x in parts[rk].localPorts;
        PartFacts(rules, t, q, samples, parts, ids, rk);
      }
      if x in LocalPorts(t, ids) {
        var i :| i in ids && t[i].record.localPort == x;
        RowFacts(rules, t, q, samples, parts, ids, i);
        PartFacts(rules, t, q, samples, parts, ids, RowRawKey(t[i]));
      }
    }
    forall x ensures x in b.pids <==> x in Pids(t, ids) {
      if x in b.pids {
        var rk :| rk in parts && x in parts[rk].pids;
        PartFacts(rules, t, q, samples, parts, ids, rk);
      }
      if x in Pids(t, ids) {
        var i :| i in ids && t[i].record.pid.Some? && t[i].record.pid.value == x;
        RowFacts(rules, t, q, samples, parts, ids, i);
        PartFacts(rules, t, q, samples, parts, ids, RowRawKey(t[i]));
      }
    }
  }

  /** Merging the parts of a group gives the outline of the whole group; the sample is the
      one of the part holding the latest row. */
  lemma MergedOutline(rules: AddressRules, t: Table, q: Query, samples: Table, parts: Parts, ids: set<nat>, b: Bucket)
    requires WellFormedTable(t) && ids <= t.Keys && PartCover(rules, t, q, samples, parts, ids) && IsMergeOf(b, parts)
    ensures IsOutline(rules, b, t, ids)
    ensures var top := RowRawKey(t[b.marker.sample]); MergedTop(b, parts, top)
  {
    hide MergedTimes, MergedSets, MergedHostname, IsHostname, IsEarliest, IsLatest;
    OutlineTimes(rules, t, q, samples, parts, ids, b);
    OutlineAddresses(rules, t, q, samples, parts, ids, b);
    OutlineNumbers(rules, t, q, samples, parts, ids, b);
    PartMarkers(rules, t, q, samples, parts, ids);
    var top :| MergedTop(b, parts, top);
    MarkerOrder();
    forall i | i in ids ensures i == b.marker.sample || MarkerLess(MarkerOf(t[i]), b.marker) {
      var rk := RowRawKey(t[i]);
      assert i in RowsFor(t, q, rk) && IsOutline(rules, parts[rk], t, RowsFor(t, q, rk));
      assert IsTop(t, RowsFor(t, q, rk), parts[rk].marker.sample);
      assert !MarkerLess(b.marker, parts[rk].marker);
    }
  }

  // ------------------------------------------------------------ hostnames

  function SameSpelling(t: Table, ids: set<nat>, top: nat): (r: set<nat>)
    requires ids <= t.Keys && top in ids
    ensures r <= ids
  {
    set i | i in ids && t[i].record.remoteIp == t[top].record.remoteIp
  }

  /** The spelling of the newest row never carried a name, or carried the group's latest name last. */
  ghost predicate NameSettled(t: Table, ids: set<nat>)
    requires ids <= t.Keys
  {
    forall top, h | IsTop(t, ids, top) && h != None && IsHostname(h, t, SameSpelling(t, ids, top)) :: IsHostname(h, t, ids)
  }

  lemma OwnRows(rules: AddressRules, t: Table, q: Query, k: ServiceKey, top: nat)
    requires WellFormedTable(t) && top in GroupRows(rules, t, q, k)
    ensures SameSpelling(t, GroupRows(rules, t, q, k), top) == RowsFor(t, q, RowRawKey(t[top]))
  {
    var ids, own := GroupRows(rules, t, q, k), RowsFor(t, q, RowRawKey(t[top]));
    forall i ensures i in SameSpelling(t, ids, top) <==> i in own {}
  }

  /** If only one part has named rows, that part's name is the group's. */
  lemma NamesInOnePart(rules: AddressRules, t: Table, q: Query, samples: Table, parts: Parts, ids: set<nat>, rk: RawKey)
    requires ids <= t.Keys && PartCover(rules, t, q, samples, parts, ids) && rk in parts
    requires forall o | o in parts && o != rk :: parts[o].hostname == None
    ensures IsHostname(parts[rk].hostname, t, ids)
  {
    hide IsOutline;
    var own := RowsFor(t, q, rk);
    forall i | i in Named(t, ids) ensures i in Named(t, own) {
      var o := RowRawKey(t[i]);
      assert i in Named(t, RowsFor(t, q, o));
    }
    assert Named(t, ids) == Named(t, own);
  }

  lemma MergedName(rules: AddressRules, t: Table, q: Query, samples: Table, parts: Parts, ids: set<nat>, b: Bucket, top: RawKey, h: Option<string>)
    requires WellFormedTable(t) && ids <= t.Keys && PartCover(rules, t, q, samples, parts, ids)
    requires MergedTop(b, parts, top) && AtMostTwo(parts) && NoEmptyHostname(parts) && IsHostname(h, t, ids)
    ensures parts[top].hostname.Some? ==> (b.hostname == h <==> IsHostname(parts[top].hostname, t, ids))
    ensures parts[top].hostname.None? ==> b.hostname == h
  {
    hide IsOutline, IsHostname, RowsFor;
    var own := parts[top].hostname;
    if own.Some? {
      assert b.hostname == own;
      if IsHostname(own, t, ids) { HostnameUnique(own, h, t, ids); }
    } else {
      var rk :| rk in parts && parts[rk].hostname == b.hostname;
      forall o | o in parts && o != rk ensures parts[o].hostname == None {
        assert o == rk || o == top || rk == top;
      }
      NamesInOnePart(rules, t, q, samples, parts, ids, rk);
      HostnameUnique(b.hostname, h, t, ids);
    }
  }

  lemma SettledByTop(t: Table, ids: set<nat>, top: nat, own: Option<string>)
    requires ids <= t.Keys && IsTop(t, ids, top) && IsHostname(own, t, SameSpelling(t, ids, top))
    ensures NameSettled(t, ids) <==> own.None? || IsHostname(own, t, ids)
  {
    hide IsHostname, SameSpelling;
    if own.None? || IsHostname(own, t, ids) {
      forall x, h | IsTop(t, ids, x) && h != None && IsHostname(h, t, SameSpelling(t, ids, x)) ensures IsHostname(h, t, ids) {
        TopUnique(t, ids, x, top);
        HostnameUnique(h, own, t, SameSpelling(t, ids, top));
      }
    }
  }

  /** The merged hostname is the reference hostname exactly when the name is settled. */
  lemma MergedHostnameExact(rules: AddressRules, t: Table, q: Query, samples: Table, parts: Parts, k: ServiceKey, b: Bucket, h: Option<string>)
    requires WellFormedTable(t) && PartCover(rules, t, q, samples, parts, GroupRows(rules, t, q, k))
    requires IsMergeOf(b, parts) && AtMostTwo(parts) && IsHostname(h, t, GroupRows(rules, t, q, k))
    ensures b.hostname == h <==> NameSettled(t, GroupRows(rules, t, q, k))
  {
    hide *;
    var ids := GroupRows(rules, t, q, k);
    MergedOutline(rules, t, q, samples, parts, ids, b);
    TopOfOutline(rules, b, t, ids);
    OutlineTop(rules, b, t, ids);
    PartMarkers(rules, t, q, samples, parts, ids);
    var top := b.marker.sample;
    RowFacts(rules, t, q, samples, parts, ids, top);
    var rk := RowRawKey(t[top]);
    OwnRows(rules, t, q, k, top);
    MergedName(rules, t, q, samples, parts, ids, b, rk, h);
    PartHostname(rules, t, q, samples, parts, ids, rk);
    SettledByTop(t, ids, top, parts[rk].hostname);
  }

  lemma PartHostname(rules: AddressRules, t: Table, q: Query, samples: Table, parts: Parts, ids: set<nat>, rk: RawKey)
    requires ids <= t.Keys && PartCover(rules, t, q, samples, parts, ids) && rk in parts
    ensures IsHostname(parts[rk].hostname, t, RowsFor(t, q, rk))
  {
    hide IsHostname, IsOutline;
  }

  lemma OutlineTop(rules: AddressRules, b: Bucket, t: Table, ids: set<nat>)
    requires ids <= t.Keys && IsOutline(rules, b, t, ids)
    ensures IsTop(t, ids, b.marker.sample)
  {
  }

  /** Every stored remote address has one of the two known spellings. */
  ghost predicate KnownSpellings(rules: AddressRules, t: Table) {
    forall i | i in t && t[i].record.remoteIp.Some? :: KnownSpelling(rules, t[i].record.remoteIp.value)
  }

  lemma TwoSpellings(rules: AddressRules, t: Table, q: Query, samples: Table, parts: Parts, k: ServiceKey)
    requires Coherent(rules) && KnownSpellings(rules, t)
    requires PartCover(rules, t, q, samples, parts, GroupRows(rules, t, q, k))
    requires forall rk | rk in parts :: parts[rk].marker.sample in RowsFor(t, q, rk)
    ensures AtMostTwo(parts)
  {
    hide IsPart;
    forall rk | rk in parts
      ensures rk == RawKey(k.device, k.protocol, k.remote, k.port, k.process)
           || rk == RawKey(k.device, k.protocol, MAPPED_PREFIX + k.remote, k.port, k.process)
    {
      var i := parts[rk].marker.sample;
      assert i in GroupRows(rules, t, q, k);
      KeyOfRow(rules, t, q, rk, i);
    }
  }
}
