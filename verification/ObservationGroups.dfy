/** The fast form: windowed group-by over observation rows, then a merge of the address
    spellings that normalise to the same key. */
module ObservationGroups {
  import opened Wrappers
  import opened Ordering
  import opened TextCodec
  import opened Addresses
  import opened Services
  import opened Observations
  import opened RawAggregation

  /** Group key of the SQL aggregate: addresses as stored. */
  datatype RawKey = RawKey(device: nat, protocol: string, remoteIp: string, port: nat, process: string)

  function RawKeyOf(o: Observation): RawKey {
    RawKey(o.device, o.key.protocol, o.key.remoteIp, o.key.port, o.key.process)
  }

  function RowRawKey(r: Row): RawKey
    requires r.record.remoteIp.Some?
  {
    RawKey(r.scan.device, r.record.protocol, r.record.remoteIp.value, PortNumber(r.record.remotePort), ProcessText(r.record.process))
  }

  function KeyOf(rules: AddressRules, rk: RawKey): ServiceKey {
    ServiceKey(rk.device, rk.protocol, rules.normalize(rk.remoteIp), rk.port, rk.process)
  }

  /** The parameters of one aggregation. */
  datatype Query = Query(
    devices: set<nat>, current: set<nat>, cutoff: Option<nat>,
    sources: Option<set<nat>>, inbound: Option<set<string>>, remotes: Option<set<string>>)

  /** The WHERE clause; it only looks at these four columns. */
  predicate Selects(q: Query, device: nat, started: nat, scan: nat, remoteIp: string) {
    && device in q.devices
    && ((q.cutoff.Some? && started >= q.cutoff.value) || scan in q.current)
    && (|| (q.sources.None? && q.inbound.None?)
        || (q.sources.Some? && device in q.sources.value)
        || (q.inbound.Some? && remoteIp in q.inbound.value))
    && (q.remotes.Some? ==> remoteIp in q.remotes.value)
  }

  predicate SelectsObs(q: Query, o: Observation) { Selects(q, o.device, o.started, o.key.scan, o.key.remoteIp) }

  predicate SelectsRow(q: Query, r: Row)
    requires r.record.remoteIp.Some?
  {
    Selects(q, r.scan.device, r.scan.started, r.scan.id, r.record.remoteIp.value)
  }

  type ObsTable = map<ObsKey, Observation>

  /** Observation rows of one SQL group. */
  function Members(obs: ObsTable, q: Query, rk: RawKey): (r: set<ObsKey>)
    ensures r <= obs.Keys
  {
    set k | k in obs && SelectsObs(q, obs[k]) && RawKeyOf(obs[k]) == rk
  }

  datatype AggRow = AggRow(first: nat, last: nat, marker: string, scanIds: Option<string>, payload: Option<string>)

  datatype CsvRow = CsvRow(localIps: Option<string>, localPorts: Option<string>, pids: Option<string>)

  function MaxText(texts: set<string>): (m: string)
    requires texts != {}
    ensures m in texts && forall x | x in texts :: x == m || TextLess(x, m)
  {
    TextOrders();
    Least(texts, TextMore)
  }

  function StartTimes(obs: ObsTable, ks: set<ObsKey>): set<nat>
    requires ks <= obs.Keys
  { set k | k in ks :: obs[k].started }

  function MarkerTexts(obs: ObsTable, ks: set<ObsKey>): set<string>
    requires ks <= obs.Keys
  { set k | k in ks :: MarkerText(ObsMarker(obs[k])) }

  function PayloadTexts(obs: ObsTable, ks: set<ObsKey>): set<string>
    requires ks <= obs.Keys
  { set k | k in ks && obs[k].hostname.Some? :: PayloadText(ObsMarker(obs[k]), obs[k].hostname.value) }

  function Aggregate(obs: ObsTable, ks: set<ObsKey>): AggRow
    requires ks <= obs.Keys && ks != {}
  {
    var k :| k in ks;
    assert obs[k].started in StartTimes(obs, ks);
    assert MarkerText(ObsMarker(obs[k])) in MarkerTexts(obs, ks);
    var payloads := PayloadTexts(obs, ks);
    AggRow(MinOf(StartTimes(obs, ks)), MaxOf(StartTimes(obs, ks)), MaxText(MarkerTexts(obs, ks)),
           IntAgg(set j | j in ks :: j.scan),
           if payloads == {} then None else Some(MaxText(payloads)))
  }

  function JoinCsvs(obs: ObsTable, ks: set<ObsKey>): CsvRow
    requires ks <= obs.Keys
  {
    CsvRow(StringAgg(LocalIpCsvs(obs, ks)), StringAgg(LocalPortCsvs(obs, ks)), StringAgg(PidCsvs(obs, ks)))
  }

  function RawKeys(obs: ObsTable, q: Query): set<RawKey> { set k | k in obs && SelectsObs(q, obs[k]) :: RawKeyOf(obs[k]) }

  lemma RawKeysHaveMembers(obs: ObsTable, q: Query, rk: RawKey)
    ensures rk in RawKeys(obs, q) <==> Members(obs, q, rk) != {}
  {
    if k :| k in Members(obs, q, rk) { assert RawKeyOf(obs[k]) == rk; }
    if rk in RawKeys(obs, q) {
      var k :| k in obs && SelectsObs(q, obs[k]) && RawKeyOf(obs[k]) == rk;
      assert k in Members(obs, q, rk);
    }
  }

  /** The main aggregate query. */
  function AggregateRows(obs: ObsTable, q: Query): (r: map<RawKey, AggRow>)
    ensures r.Keys == RawKeys(obs, q)
  {
    map rk | rk in RawKeys(obs, q) :: (RawKeysHaveMembers(obs, q, rk); Aggregate(obs, Members(obs, q, rk)))
  }

  /** The second query, over distinct CSV columns. */
  function CsvRows(obs: ObsTable, q: Query): (r: map<RawKey, CsvRow>)
    ensures r.Keys == RawKeys(obs, q)
  {
    map rk | rk in RawKeys(obs, q) :: JoinCsvs(obs, Members(obs, q, rk))
  }

  // ------------------------------------------- decoding one aggregated row

  lemma LeastIsLeast(texts: set<string>, m: string)
    requires m in texts && forall x | x in texts :: x == m || TextLess(m, x)
    ensures forall x | x in texts :: !TextLess(x, m)
  {
    hide TextLess;
    TextOrders();
  }

  function MinText(texts: set<string>): (m: string)
    requires texts != {}
    ensures m in texts && forall x | x in texts :: !TextLess(x, m)
  {
    TextOrders();
    LeastIsLeast(texts, Least(texts, TextLess));
    Least(texts, TextLess)
  }

  /** `_degraded_sample`: a stand-in for a sample row that has been purged. */
  function DegradedSample(rules: AddressRules, rk: RawKey, m: Marker, localIps: set<string>, localPorts: set<nat>, pids: set<nat>): Option<Sample> {
    if localIps == {} then None
    else
      var localIp := rules.normalize(MinText(localIps));
      Some(Sample(m.sample, rk.protocol, ColonFamily(localIp), localIp,
                  if localPorts == {} then None else Some(MinOf(localPorts)),
                  if rk.port == 0 then None else Some(rk.port),
                  None,
                  if pids == {} then None else Some(MinOf(pids)),
                  if rk.process == "" then None else Some(rk.process),
                  m.scan, m.started))
  }

  /** A looked-up sample row as the merge loop reports it. */
  function LiveSample(rules: AddressRules, r: Row): Sample {
    var localIp := rules.normalize(r.record.localIp);
    SampleOf(rules, r).(localIp := localIp, family := ColonFamily(localIp))
  }

  function AllNormalized(rules: AddressRules, texts: set<string>): set<string> { set v | v in texts :: rules.normalize(v) }

  /** One aggregated row decoded from its text columns; None when nothing can be shown. */
  function Decode(rules: AddressRules, rk: RawKey, agg: AggRow, csv: Option<CsvRow>, samples: Table): Option<Bucket> {
    var hostname := if Truthy(agg.payload) then Some(AfterFirst(agg.payload.value, UNIT_SEPARATOR)) else None;
    var localIps := AllNormalized(rules, CsvStrSet(if csv.Some? then csv.value.localIps else None));
    var localPorts := CsvIntSet(if csv.Some? then csv.value.localPorts else None);
    var pids := CsvIntSet(if csv.Some? then csv.value.pids else None);
    var m := ParseMarker(agg.marker);
    if m.sample in samples then
      Some(Bucket(agg.first, agg.last, MarkerOf(samples[m.sample]), CsvIntSet(agg.scanIds),
                  localIps, localPorts, pids, hostname, LiveSample(rules, samples[m.sample])))
    else
      var sample := DegradedSample(rules, rk, m, localIps, localPorts, pids);
      if sample.None? then None
      else Some(Bucket(agg.first, agg.last, m, CsvIntSet(agg.scanIds), localIps, localPorts, pids, hostname, sample.value))
  }

  // ------------------------------------- what the aggregated row encodes

  /** Raw rows behind one SQL group. */
  function RowsFor(t: Table, q: Query, rk: RawKey): (r: set<nat>)
    ensures r <= t.Keys
  {
    set i | i in t && Recordable(t[i]) && SelectsRow(q, t[i]) && RowRawKey(t[i]) == rk
  }

  /** `ks` are the keys of the observations standing for exactly the rows `ids`, at most one per scan. */
  ghost predicate Covers(t: Table, obs: ObsTable, ks: set<ObsKey>, ids: set<nat>)
    requires ids <= t.Keys && ks <= obs.Keys
  {
    && (forall k | k in ks :: Stands(t, k, obs[k]) && Cell(t, k) <= ids)
    && (forall i | i in ids :: Recordable(t[i]) && ObsKeyOf(t[i]) in ks && i in Cell(t, ObsKeyOf(t[i])))
    && (forall j, k | j in ks && k in ks && j.scan == k.scan :: j == k)
  }

  lemma MembersCoverRows(t: Table, obs: ObsTable, q: Query, rk: RawKey)
    requires WellFormedTable(t)
    requires forall k | k in obs :: Stands(t, k, obs[k])
    requires forall i | i in t && Recordable(t[i]) :: ObsKeyOf(t[i]) in obs
    ensures Covers(t, obs, Members(obs, q, rk), RowsFor(t, q, rk))
  {
    hide CsvStrSet, CsvIntSet, IsHostname;
    var ks, ids := Members(obs, q, rk), RowsFor(t, q, rk);
    forall k | k in ks ensures Cell(t, k) <= ids {
      forall i | i in Cell(t, k) ensures i in ids {}
    }
    forall i | i in ids ensures ObsKeyOf(t[i]) in ks && i in Cell(t, ObsKeyOf(t[i])) {
      var k := ObsKeyOf(t[i]);
      assert i in Cell(t, k);
      assert Stands(t, k, obs[k]);
    }
    assert forall j, k | j in ks && k in ks && j.scan == k.scan :: j == k;
  }

  /** Every row of the group sits in the cell of its own key, in that cell's observation's past. */
  lemma CoveredRow(t: Table, obs: ObsTable, ks: set<ObsKey>, ids: set<nat>, i: nat)
    requires ids <= t.Keys && ks <= obs.Keys && Covers(t, obs, ks, ids) && i in ids
    ensures var k := ObsKeyOf(t[i]);
      && k in ks && i in Cell(t, k) && Stands(t, k, obs[k]) && k.scan == t[i].scan.id
      && obs[k].started == t[i].scan.started
      && (i == obs[k].sample || MarkerLess(MarkerOf(t[i]), ObsMarker(obs[k])))
  {
  }

  lemma CoveringKey(t: Table, obs: ObsTable, ks: set<ObsKey>, ids: set<nat>, k: ObsKey)
    requires ids <= t.Keys && ks <= obs.Keys && Covers(t, obs, ks, ids) && k in ks
    ensures var i := obs[k].sample;
      && i in ids && i in Cell(t, k) && t[i].scan.id == k.scan && t[i].scan.started == obs[k].started
      && ObsMarker(obs[k]) == MarkerOf(t[i])
  {
  }

  lemma TimeColumns(t: Table, obs: ObsTable, ks: set<ObsKey>, ids: set<nat>)
    requires ids <= t.Keys && ks <= obs.Keys && Covers(t, obs, ks, ids) && ks != {}
    ensures StartTimes(obs, ks) != {}
    ensures IsEarliest(MinOf(StartTimes(obs, ks)), t, ids) && IsLatest(MaxOf(StartTimes(obs, ks)), t, ids)
  {
    hide Covers, Stands;
    var k0 :| k0 in ks;
    var times := StartTimes(obs, ks);
    assert obs[k0].started in times;
    forall n | n in times ensures exists i | i in ids :: t[i].scan.started == n {
      var k :| k in ks && obs[k].started == n;
      CoveringKey(t, obs, ks, ids, k);
    }
    forall i | i in ids ensures t[i].scan.started in times {
      CoveredRow(t, obs, ks, ids, i);
    }
  }

  /** The textual maximum of the marker column is the marker of the latest row. */
  lemma MarkerColumn(t: Table, obs: ObsTable, ks: set<ObsKey>, ids: set<nat>)
    requires WellFormedTable(t) && ids <= t.Keys && ks <= obs.Keys && Covers(t, obs, ks, ids) && ks != {}
    ensures MarkerTexts(obs, ks) != {}
    ensures var m := ParseMarker(MaxText(MarkerTexts(obs, ks))); IsTop(t, ids, m.sample) && m == MarkerOf(t[m.sample])
  {
    hide Covers, Stands, MarkerText, ParseMarker, TextLess;
    var k0 :| k0 in ks;
    assert MarkerText(ObsMarker(obs[k0])) in MarkerTexts(obs, ks);
    var text := MaxText(MarkerTexts(obs, ks));
    var top :| top in ks && MarkerText(ObsMarker(obs[top])) == text;
    CoveringKey(t, obs, ks, ids, top);
    var m := ObsMarker(obs[top]);
    ParseMarkerText(m);
    forall i | i in ids ensures i == m.sample || MarkerLess(MarkerOf(t[i]), m) {
      CoveredRow(t, obs, ks, ids, i);
      var n := ObsMarker(obs[ObsKeyOf(t[i])]);
      CoveringKey(t, obs, ks, ids, ObsKeyOf(t[i]));
      assert MarkerText(n) in MarkerTexts(obs, ks);
      MarkerTextOrder(n, m);
      ParseMarkerText(n);
      MarkerOrder();
    }
  }

  lemma ScanColumn(t: Table, obs: ObsTable, ks: set<ObsKey>, ids: set<nat>)
    requires ids <= t.Keys && ks <= obs.Keys && Covers(t, obs, ks, ids)
    ensures CsvIntSet(IntAgg(set k | k in ks :: k.scan)) == ScanIds(t, ids)
  {
    hide Covers, Stands, IntAgg, CsvIntSet;
    var scans := set k | k in ks :: k.scan;
    IntAggRoundTrip(scans);
    forall s ensures s in scans <==> s in ScanIds(t, ids) {
      if s in scans {
        var k :| k in ks && k.scan == s;
        CoveringKey(t, obs, ks, ids, k);
      }
      if s in ScanIds(t, ids) {
        var i :| i in ids && t[i].scan.id == s;
        CoveredRow(t, obs, ks, ids, i);
      }
    }
    assert scans == ScanIds(t, ids);
  }

  function LocalIpCsvs(obs: ObsTable, ks: set<ObsKey>): set<string>
    requires ks <= obs.Keys
  { set k | k in ks :: obs[k].localIps }

  function LocalPortCsvs(obs: ObsTable, ks: set<ObsKey>): set<string>
    requires ks <= obs.Keys
  { set k | k in ks :: obs[k].localPorts }

  function PidCsvs(obs: ObsTable, ks: set<ObsKey>): set<string>
    requires ks <= obs.Keys
  { set k | k in ks && obs[k].pids.Some? :: obs[k].pids.value }

  lemma LocalIpColumn(rules: AddressRules, t: Table, obs: ObsTable, ks: set<ObsKey>, ids: set<nat>)
    requires ids <= t.Keys && ks <= obs.Keys && Covers(t, obs, ks, ids)
    ensures AllNormalized(rules, CsvStrSet(StringAgg(LocalIpCsvs(obs, ks)))) == LocalIps(rules, t, ids)
  {
    hide StringAgg, CsvStrSet, CsvIntSet, IsHostname;
    var csvs := LocalIpCsvs(obs, ks);
    AggUnion(csvs);
    forall v ensures v in CsvStrSet(StringAgg(csvs)) <==> v in LocalIpTexts(t, ids) {
      if v in LocalIpTexts(t, ids) {
        var i :| i in ids && t[i].record.localIp == v;
        CoveredRow(t, obs, ks, ids, i);
        assert v in LocalIpTexts(t, Cell(t, ObsKeyOf(t[i])));
        assert obs[ObsKeyOf(t[i])].localIps in csvs;
      }
      if c :| c in csvs && v in CsvStrSet(Some(c)) {
        var k :| k in ks && obs[k].localIps == c;
        assert v in LocalIpTexts(t, Cell(t, k));
      }
    }
    assert CsvStrSet(StringAgg(csvs)) == LocalIpTexts(t, ids);
    assert LocalIps(rules, t, ids) == AllNormalized(rules, LocalIpTexts(t, ids));
  }

  lemma PortColumn(t: Table, obs: ObsTable, ks: set<ObsKey>, ids: set<nat>)
    requires ids <= t.Keys && ks <= obs.Keys && Covers(t, obs, ks, ids)
    ensures CsvIntSet(StringAgg(LocalPortCsvs(obs, ks))) == LocalPorts(t, ids)
  {
    hide StringAgg, CsvStrSet, CsvIntSet, IsHostname;
    var csvs := LocalPortCsvs(obs, ks);
    IntAggUnion(csvs);
    forall n ensures n in CsvIntSet(StringAgg(csvs)) <==> n in LocalPorts(t, ids) {
      if n in LocalPorts(t, ids) {
        var i :| i in ids && t[i].record.localPort == n;
        CoveredRow(t, obs, ks, ids, i);
        assert n in LocalPorts(t, Cell(t, ObsKeyOf(t[i])));
        assert obs[ObsKeyOf(t[i])].localPorts in csvs;
      }
      if c :| c in csvs && n in CsvIntSet(Some(c)) {
        var k :| k in ks && obs[k].localPorts == c;
        assert n in LocalPorts(t, Cell(t, k));
      }
    }
  }

  lemma PidColumn(t: Table, obs: ObsTable, ks: set<ObsKey>, ids: set<nat>)
    requires ids <= t.Keys && ks <= obs.Keys && Covers(t, obs, ks, ids)
    ensures CsvIntSet(StringAgg(PidCsvs(obs, ks))) == Pids(t, ids)
  {
    hide StringAgg, CsvStrSet, IsHostname;
    var csvs := PidCsvs(obs, ks);
    IntAggUnion(csvs);
    forall n ensures n in CsvIntSet(StringAgg(csvs)) <==> n in Pids(t, ids) {
      if n in Pids(t, ids) {
        var i :| i in ids && t[i].record.pid.Some? && t[i].record.pid.value == n;
        CoveredRow(t, obs, ks, ids, i);
        var k := ObsKeyOf(t[i]);
        assert n in Pids(t, Cell(t, k));
        assert obs[k].pids.Some? by { if obs[k].pids.None? { NoneIsEmpty(); } }
        assert obs[k].pids.value in csvs;
      }
      if c :| c in csvs && n in CsvIntSet(Some(c)) {
        var k :| k in ks && obs[k].pids.Some? && obs[k].pids.value == c;
        assert n in Pids(t, Cell(t, k));
      }
    }
  }

  lemma NoneIsEmpty()
    ensures CsvIntSet(None) == {}
  {
  }

  /** A row with a hostname puts a payload into its observation. */
  lemma NamedRow(t: Table, obs: ObsTable, ks: set<ObsKey>, ids: set<nat>, i: nat)
    requires ids <= t.Keys && ks <= obs.Keys && Covers(t, obs, ks, ids) && i in Named(t, ids)
    ensures var k := ObsKeyOf(t[i]);
      && k in ks && i in Named(t, Cell(t, k)) && obs[k].hostname.Some?
      && PayloadText(ObsMarker(obs[k]), obs[k].hostname.value) in PayloadTexts(obs, ks)
      && k.scan == t[i].scan.id && obs[k].started == t[i].scan.started
  {
    hide StringAgg, CsvStrSet, CsvIntSet, MarkerText, PayloadText;
    CoveredRow(t, obs, ks, ids, i);
    assert i in Named(t, Cell(t, ObsKeyOf(t[i])));
  }

  /** Observations of one group are ordered by their scans alone. */
  lemma GreaterPayload(t: Table, obs: ObsTable, ks: set<ObsKey>, ids: set<nat>, j: ObsKey, k: ObsKey, a: nat, b: nat)
    requires WellFormedTable(t) && ids <= t.Keys && ks <= obs.Keys && Covers(t, obs, ks, ids)
    requires j in ks && k in ks && j != k && obs[j].hostname.Some? && obs[k].hostname.Some?
    requires TextLess(PayloadText(ObsMarker(obs[j]), obs[j].hostname.value), PayloadText(ObsMarker(obs[k]), obs[k].hostname.value))
    requires a in Cell(t, j) && b in Cell(t, k)
    ensures MarkerLess(MarkerOf(t[a]), MarkerOf(t[b]))
  {
    hide StringAgg, CsvStrSet, CsvIntSet, MarkerText, PayloadText, TextLess, IsHostname;
    PayloadOrder(ObsMarker(obs[j]), obs[j].hostname.value, ObsMarker(obs[k]), obs[k].hostname.value);
  }

  /** The greatest payload text carries the latest hostname of the whole group. */
  lemma HostnameColumn(t: Table, obs: ObsTable, ks: set<ObsKey>, ids: set<nat>)
    requires WellFormedTable(t) && ids <= t.Keys && ks <= obs.Keys && Covers(t, obs, ks, ids)
    requires PayloadTexts(obs, ks) != {}
    ensures var text := MaxText(PayloadTexts(obs, ks)); IsHostname(Some(AfterFirst(text, UNIT_SEPARATOR)), t, ids)
  {
    hide Covers, Stands, MarkerText, PayloadText, AfterFirst, TextLess;
    var text := MaxText(PayloadTexts(obs, ks));
    var k :| k in ks && obs[k].hostname.Some? && PayloadText(ObsMarker(obs[k]), obs[k].hostname.value) == text;
    CoveringKey(t, obs, ks, ids, k);
    PayloadHostname(ObsMarker(obs[k]), obs[k].hostname.value);
    NamedTop(t, obs, ks, ids, k);
    var top :| IsTop(t, Named(t, Cell(t, k)), top) && t[top].record.hostname == obs[k].hostname;
    forall i | i in Named(t, ids) ensures i == top || MarkerLess(MarkerOf(t[i]), MarkerOf(t[top])) {
      NamedRow(t, obs, ks, ids, i);
      var j := ObsKeyOf(t[i]);
      if j != k {
        PayloadsDiffer(t, obs, ks, ids, j, k);
        GreaterPayload(t, obs, ks, ids, j, k, i, top);
      }
    }
    assert IsTop(t, Named(t, ids), top);
  }

  lemma NamedTop(t: Table, obs: ObsTable, ks: set<ObsKey>, ids: set<nat>, k: ObsKey)
    requires ids <= t.Keys && ks <= obs.Keys && Covers(t, obs, ks, ids) && k in ks && obs[k].hostname.Some?
    ensures exists top :: IsTop(t, Named(t, Cell(t, k)), top) && t[top].record.hostname == obs[k].hostname
    ensures Named(t, Cell(t, k)) <= Named(t, ids)
  {
    hide CsvStrSet, CsvIntSet;
    assert Stands(t, k, obs[k]);
  }

  lemma PayloadsDiffer(t: Table, obs: ObsTable, ks: set<ObsKey>, ids: set<nat>, j: ObsKey, k: ObsKey)
    requires WellFormedTable(t) && ids <= t.Keys && ks <= obs.Keys && Covers(t, obs, ks, ids)
    requires j in ks && k in ks && j != k && obs[j].hostname.Some? && obs[k].hostname.Some?
    ensures PayloadText(ObsMarker(obs[j]), obs[j].hostname.value) != PayloadText(ObsMarker(obs[k]), obs[k].hostname.value)
  {
    hide StringAgg, CsvStrSet, CsvIntSet, MarkerText, PayloadText, TextLess, IsHostname;
    var m, n := ObsMarker(obs[j]), ObsMarker(obs[k]);
    PayloadOrder(m, obs[j].hostname.value, n, obs[k].hostname.value);
    PayloadOrder(n, obs[k].hostname.value, m, obs[j].hostname.value);
    TextLessIsStrict(PayloadText(m, obs[j].hostname.value), "", "");
    MarkerOrder();
  }

  lemma NoHostname(t: Table, obs: ObsTable, ks: set<ObsKey>, ids: set<nat>)
    requires ids <= t.Keys && ks <= obs.Keys && Covers(t, obs, ks, ids)
    requires PayloadTexts(obs, ks) == {}
    ensures IsHostname(None, t, ids)
  {
    hide StringAgg, CsvStrSet, CsvIntSet, MarkerText, PayloadText, Covers;
    if i :| i in Named(t, ids) {
      NamedRow(t, obs, ks, ids, i);
    }
  }
}
