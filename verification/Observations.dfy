/** The per-scan pre-aggregation: one observation row per (scan, service key). */
module Observations {
  import opened Wrappers
  import opened Ordering
  import opened TextCodec
  import opened Services

  /** The unique key of an observation row. */
  datatype ObsKey = ObsKey(scan: nat, protocol: string, remoteIp: string, port: nat, process: string)

  datatype Observation = Observation(
    key: ObsKey, device: nat, started: nat,
    sample: nat, hostname: Option<string>,
    localIps: string, localPorts: string, pids: Option<string>)

  /** Rows the aggregation statement reads: remote rows of successful scans. */
  predicate Recordable(r: Row) { r.scan.status == ScanStatus.Success && r.record.remoteIp.Some? }

  function ObsKeyOf(r: Row): ObsKey
    requires r.record.remoteIp.Some?
  {
    ObsKey(r.scan.id, r.record.protocol, r.record.remoteIp.value, PortNumber(r.record.remotePort), ProcessText(r.record.process))
  }

  /** The rows collapsed into observation `k`. */
  function Cell(t: Table, k: ObsKey): set<nat> {
    set i | i in t && Recordable(t[i]) && ObsKeyOf(t[i]) == k
  }

  function LatestHostname(t: Table, ids: set<nat>): Option<string>
    requires ids <= t.Keys
  {
    var named := Named(t, ids);
    if named == {} then None else t[MaxOf(named)].record.hostname
  }

  function LocalIpTexts(t: Table, ids: set<nat>): set<string>
    requires ids <= t.Keys
  {
    set i | i in ids :: t[i].record.localIp
  }

  /** The GROUP BY row of one cell. */
  function Observe(t: Table, k: ObsKey): Observation
    requires Cell(t, k) != {}
  {
    var ids := Cell(t, k);
    var sample := MaxOf(ids);
    assert t[sample].record.localIp in LocalIpTexts(t, ids);
    assert t[sample].record.localPort in LocalPorts(t, ids);
    Observation(k, t[sample].scan.device, t[sample].scan.started,
                sample, LatestHostname(t, ids),
                StringAgg(LocalIpTexts(t, ids)).value,
                IntAgg(LocalPorts(t, ids)).value,
                IntAgg(Pids(t, ids)))
  }

  function ObsKeys(t: Table): set<ObsKey> { set i | i in t && Recordable(t[i]) :: ObsKeyOf(t[i]) }

  lemma ObsKeysHaveCells(t: Table, k: ObsKey)
    ensures k in ObsKeys(t) <==> Cell(t, k) != {}
  {
    if i :| i in Cell(t, k) { assert ObsKeyOf(t[i]) == k; }
    if k in ObsKeys(t) {
      var i :| i in t && Recordable(t[i]) && ObsKeyOf(t[i]) == k;
      assert i in Cell(t, k);
    }
  }

  /** All observation rows of a set of raw rows. */
  function ObservationsOf(t: Table): map<ObsKey, Observation> {
    map k | k in ObsKeys(t) :: (ObsKeysHaveCells(t, k); Observe(t, k))
  }

  function ObsMarker(o: Observation): Marker { Marker(o.started, o.key.scan, o.sample) }

  /** What observation `o` tells about the rows it stands for. */
  ghost predicate Stands(t: Table, k: ObsKey, o: Observation) {
    var ids := Cell(t, k);
    && o.key == k
    && IsTop(t, ids, o.sample) && ObsMarker(o) == MarkerOf(t[o.sample])
    && (forall i | i in ids :: t[i].scan.id == k.scan && t[i].scan.device == o.device && t[i].scan.started == o.started)
    && IsHostname(o.hostname, t, ids)
    && o.localIps != "" && CsvStrSet(Some(o.localIps)) == LocalIpTexts(t, ids)
    && o.localPorts != "" && CsvIntSet(Some(o.localPorts)) == LocalPorts(t, ids)
    && (o.pids.Some? ==> o.pids.value != "") && CsvIntSet(o.pids) == Pids(t, ids)
  }

  lemma CellTimes(t: Table, k: ObsKey)
    requires WellFormedTable(t) && Cell(t, k) != {}
    ensures var o, ids := Observe(t, k), Cell(t, k);
      && IsTop(t, ids, o.sample) && ObsMarker(o) == MarkerOf(t[o.sample])
      && (forall i | i in ids :: t[i].scan.id == k.scan && t[i].scan.device == o.device && t[i].scan.started == o.started)
  {
    hide StringAgg, IntAgg;
  }

  /** The CSV columns of an observation read back as the sets they came from. */
  lemma CellColumns(t: Table, k: ObsKey)
    requires WellFormedTable(t) && Cell(t, k) != {}
    ensures var o, ids := Observe(t, k), Cell(t, k);
      && o.localIps != "" && CsvStrSet(Some(o.localIps)) == LocalIpTexts(t, ids)
      && o.localPorts != "" && CsvIntSet(Some(o.localPorts)) == LocalPorts(t, ids)
      && (o.pids.Some? ==> o.pids.value != "") && CsvIntSet(o.pids) == Pids(t, ids)
  {
    hide CsvStrSet, CsvIntSet, StringAgg, IntAgg, LatestHostname;
    var ids := Cell(t, k);
    var i :| i in ids;
    assert t[i].record.localIp in LocalIpTexts(t, ids);
    assert t[i].record.localPort in LocalPorts(t, ids);
    FilledColumns(LocalIpTexts(t, ids), LocalPorts(t, ids));
    IntAggRoundTrip(Pids(t, ids));
  }

  lemma CellHostname(t: Table, k: ObsKey)
    requires WellFormedTable(t) && Cell(t, k) != {}
    ensures IsHostname(Observe(t, k).hostname, t, Cell(t, k))
  {
    hide StringAgg, IntAgg;
    var ids := Cell(t, k);
    var named := Named(t, ids);
    if named != {} {
      assert IsTop(t, named, MaxOf(named));
    }
  }

  lemma ObserveStands(t: Table, k: ObsKey)
    requires WellFormedTable(t) && Cell(t, k) != {}
    ensures Stands(t, k, Observe(t, k))
  {
    hide StringAgg, IntAgg, CsvStrSet, CsvIntSet, LatestHostname;
    CellTimes(t, k);
    CellColumns(t, k);
    CellHostname(t, k);
  }

  /** Every observation row stands for exactly the recordable rows with its key. */
  lemma ObservationsStand(t: Table)
    requires WellFormedTable(t)
    ensures forall k | k in ObservationsOf(t) :: Stands(t, k, ObservationsOf(t)[k])
    ensures forall i | i in t && Recordable(t[i]) :: ObsKeyOf(t[i]) in ObservationsOf(t)
  {
    hide Observe, Stands;
    forall k | k in ObsKeys(t) ensures Stands(t, k, ObservationsOf(t)[k]) {
      ObsKeysHaveCells(t, k);
      ObserveStands(t, k);
    }
  }
}
