/** What a store reports after any sequence of inserts, backfills and purges: every method of
    `Store` keeps `Consistent`, and consistency alone gives the statements below. */
module StoredHistory {
  import opened Wrappers
  import opened Addresses
  import opened Services
  import opened RawAggregation
  import opened ObservationGroups
  import opened SpellingMerge
  import opened HistoryViews
  import opened HistoryTheorems
  import opened HistoryStore

  /** The columns of a consistent store that the views read. */
  datatype Tables = Tables(scans: map<nat, Scan>, records: map<nat, Record>, observations: ObsTable) {
    function Rows(): Table { JoinRows(scans, records) }
  }

  ghost predicate Stored(d: Tables, archive: Table, nextScan: nat, nextRecord: nat) {
    Consistent(d.scans, d.records, d.observations, archive, nextScan, nextRecord)
  }

  lemma StoredFacts(d: Tables, archive: Table, nextScan: nat, nextRecord: nat)
    requires Stored(d, archive, nextScan, nextRecord)
    ensures WellFormedTable(archive) && Standing(archive, d.observations) && SubTable(d.Rows(), archive)
  {
    hide Standing, WellFormedTable, SubTable, KeptIntact, Sound;
  }

  /** Whatever has been purged, history is reported as if no raw row had been, sample detail apart. */
  lemma HistorySurvives(rules: AddressRules, d: Tables, archive: Table, nextScan: nat, nextRecord: nat, q: Query,
                        full: map<ServiceKey, Service>, live: map<ServiceKey, Service>)
    requires Coherent(rules) && KnownSpellings(rules, archive) && Stored(d, archive, nextScan, nextRecord)
    requires IsGroupView(rules, d.observations, q, archive, full) && IsGroupView(rules, d.observations, q, d.Rows(), live)
    ensures live.Keys == full.Keys && forall k | k in full :: SameButDetail(full[k], live[k])
  {
    hide *;
    StoredFacts(d, archive, nextScan, nextRecord);
    PurgeKeepsHistory(rules, archive, d.observations, q, d.Rows(), full, live);
  }

  /** End to end: the view computed from stored observations and the raw rows left agrees with
      the simple fold over every row ever stored, sample detail and unsettled names apart. */
  lemma StoreRefinesFold(rules: AddressRules, d: Tables, archive: Table, nextScan: nat, nextRecord: nat, q: Query,
                         simple: map<PyKey, Service>, full: map<ServiceKey, Service>, live: map<ServiceKey, Service>)
    requires Coherent(rules) && KnownSpellings(rules, archive) && Stored(d, archive, nextScan, nextRecord)
    requires IsRawView(rules, WindowTable(archive, q), q.current, simple)
    requires IsGroupView(rules, d.observations, q, archive, full) && IsGroupView(rules, d.observations, q, d.Rows(), live)
    ensures forall pk :: pk in simple <==> pk.port != Some(0) && Coalesced(pk) in live
    ensures forall pk | pk in simple ::
      var s := live[Coalesced(pk)];
      && SameButDetail(simple[pk].(hostname := s.hostname), s)
      && (s.hostname == simple[pk].hostname <==> NameSettled(archive, GroupRows(rules, archive, q, Coalesced(pk))))
  {
    hide *;
    StoredFacts(d, archive, nextScan, nextRecord);
    FastRefinesSimple(rules, archive, d.observations, q, simple, full);
    HistorySurvives(rules, d, archive, nextScan, nextRecord, q, full, live);
    forall pk | pk in simple
      ensures Coalesced(pk) in live
      ensures var s := live[Coalesced(pk)];
        && SameButDetail(simple[pk].(hostname := s.hostname), s)
        && (s.hostname == simple[pk].hostname <==> NameSettled(archive, GroupRows(rules, archive, q, Coalesced(pk))))
    {
      var k := Coalesced(pk);
      assert full[k] == simple[pk].(hostname := full[k].hostname);
      DetailKeepsHostname(full[k], live[k]);
    }
  }

  lemma DetailKeepsHostname(full: Service, s: Service)
    requires SameButDetail(full, s)
    ensures s.hostname == full.hostname
  {
  }

  lemma KeptRowsAreLive(d: Tables, archive: Table, nextScan: nat, nextRecord: nat)
    requires Stored(d, archive, nextScan, nextRecord)
    ensures forall i | i in archive && archive[i].scan.id in Kept(d.scans) :: i in d.Rows() && d.Rows()[i] == archive[i]
  {
    hide Standing, WellFormedTable, Kept;
    forall i | i in archive && archive[i].scan.id in Kept(d.scans) ensures i in d.Rows() && d.Rows()[i] == archive[i] {
      assert i in d.records;
      assert i in d.Rows();
    }
  }

  /** The current view never notices a raw purge: it is the view over every row ever stored. */
  lemma CurrentViewSurvives(rules: AddressRules, d: Tables, archive: Table, nextScan: nat, nextRecord: nat, devices: set<nat>, q: Query,
                            full: map<ServiceKey, Service>, live: map<ServiceKey, Service>)
    requires Coherent(rules) && KnownSpellings(rules, archive) && Stored(d, archive, nextScan, nextRecord)
    requires q.cutoff == None && q.current == CurrentScans(d.scans, devices)
    requires IsGroupView(rules, d.observations, q, archive, full) && IsGroupView(rules, d.observations, q, d.Rows(), live)
    ensures live == full
  {
    hide Coherent, KnownSpellings, Stored, IsGroupView, Kept, CurrentScans, Standing, WellFormedTable, SubTable, Tables.Rows;
    StoredFacts(d, archive, nextScan, nextRecord);
    CurrentIsKept(d.scans, devices);
    KeptRowsAreLive(d, archive, nextScan, nextRecord);
    SelectedRowsSuffice(rules, archive, d.observations, q, d.Rows(), full, live);
  }

  /** Rows without a remote address of the latest scans: what the device view lists as listeners. */
  function Listeners(d: Tables, devices: set<nat>): Table {
    map i | i in d.Rows() && d.Rows()[i].scan.id in CurrentScans(d.scans, devices) && d.Rows()[i].record.remoteIp.None? :: d.Rows()[i]
  }

  /** A raw purge leaves the listeners of the latest scans exactly as they were. */
  lemma ListenersSurvive(d: Tables, cutoff: int, devices: set<nat>)
    requires ScanIdsMatch(d.scans)
    ensures var purged := d.(records := WithoutRaw(d.records, RawExpired(d.scans, cutoff)));
      Listeners(purged, devices) == Listeners(d, devices)
  {
    hide Kept, CurrentScans;
    CurrentIsKept(d.scans, devices);
    var purged := d.(records := WithoutRaw(d.records, RawExpired(d.scans, cutoff)));
    forall i
      ensures i in Listeners(purged, devices) <==> i in Listeners(d, devices)
      ensures i in Listeners(purged, devices) ==> Listeners(purged, devices)[i] == Listeners(d, devices)[i]
    {
      ListenerScan(d, devices, i);
      ListenerScan(purged, devices, i);
    }
  }

  lemma ListenerScan(d: Tables, devices: set<nat>, i: nat)
    ensures i in Listeners(d, devices) <==>
      && i in d.records && d.records[i].scan in d.scans && d.scans[d.records[i].scan].id in CurrentScans(d.scans, devices)
      && d.records[i].remoteIp.None?
    ensures i in Listeners(d, devices) ==> Listeners(d, devices)[i] == Row(d.scans[d.records[i].scan], d.records[i])
  {
    hide CurrentScans;
  }

  /** No raw purge, whatever its cutoff, takes the rows of the latest scan's diff baseline, if and
      only if start times do not collide around it. */
  lemma BaselineSurvives(scans: map<nat, Scan>, devices: set<nat>, c: nat, p: nat)
    requires ScanIdsMatch(scans) && c in CurrentScans(scans, devices) && IsPrevious(scans, c, p)
    ensures (forall cutoff :: p !in RawExpired(scans, cutoff)) <==> BaselineUnique(scans, c, p)
  {
    hide Kept, BaselineUnique, CurrentScans;
    BaselineKept(scans, devices, c, p);
    assert p !in Kept(scans) ==> p in RawExpired(scans, scans[p].started + 1);
  }

  /** Three scans of one device, the last two started at the same instant. */
  function CollidingScans(): map<nat, Scan> {
    map[1 := Scan(1, 1, 10, ScanStatus.Success), 2 := Scan(2, 1, 20, ScanStatus.Success), 3 := Scan(3, 1, 20, ScanStatus.Success)]
  }

  /** The diff of scan 3 is against scan 1, whose rows a raw purge may take. */
  lemma BaselineCanBeLost()
    ensures var scans := CollidingScans();
      ScanIdsMatch(scans) && 3 in CurrentScans(scans, {1}) && IsPrevious(scans, 3, 1) && 1 in RawExpired(scans, 11)
  {
    var scans := CollidingScans();
    assert Ahead(scans, scans[3]) == {};
    var ahead: set<nat> := {2, 3};
    assert Ahead(scans, scans[1]) == ahead && |ahead| == 2;
  }

  /** While the baseline is kept, every row it ever had can still be compared. */
  lemma BaselineRowsAreLive(d: Tables, archive: Table, nextScan: nat, nextRecord: nat, devices: set<nat>, c: nat, p: nat)
    requires Stored(d, archive, nextScan, nextRecord)
    requires c in CurrentScans(d.scans, devices) && IsPrevious(d.scans, c, p) && BaselineUnique(d.scans, c, p)
    ensures forall i | i in archive && archive[i].scan.id in {c, p} :: i in d.Rows() && d.Rows()[i] == archive[i]
  {
    hide Kept, BaselineUnique, CurrentScans, Standing, Archived, KeptIntact, Tables.Rows;
    BaselineKept(d.scans, devices, c, p);
    CurrentIsKept(d.scans, devices);
    KeptRowsAreLive(d, archive, nextScan, nextRecord);
  }
}
