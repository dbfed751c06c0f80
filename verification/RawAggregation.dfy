/** The simple form: one ordered pass over raw rows. */
module RawAggregation {
  import opened Wrappers
  import opened Ordering
  import opened TextCodec
  import opened Addresses
  import opened Services

  /** Python truthiness of an optional string. */
  predicate Truthy(h: Option<string>) { h.Some? && h.value != "" }

  function PidSet(r: Row): set<nat> { if r.record.pid.Some? then {r.record.pid.value} else {} }

  function NewBucket(rules: AddressRules, r: Row): Bucket {
    Bucket(r.scan.started, r.scan.started, MarkerOf(r), {r.scan.id},
           {rules.normalize(r.record.localIp)}, {r.record.localPort}, PidSet(r),
           r.record.hostname, SampleOf(rules, r))
  }

  function Extended(rules: AddressRules, b: Bucket, r: Row): Bucket {
    Bucket(b.first, r.scan.started, MarkerOf(r), b.scanIds + {r.scan.id},
           b.localIps + {rules.normalize(r.record.localIp)}, b.localPorts + {r.record.localPort}, b.pids + PidSet(r),
           if Truthy(r.record.hostname) then r.record.hostname else b.hostname, SampleOf(rules, r))
  }

  lemma NewBucketSummary(rules: AddressRules, t: Table, i: nat)
    requires WellFormedTable(t) && i in t
    ensures IsSummary(rules, NewBucket(rules, t[i]), t, {i})
  {
    var b := NewBucket(rules, t[i]);
    assert i in {i};
    assert b.scanIds == ScanIds(t, {i});
    assert b.localIps == LocalIps(rules, t, {i});
    assert b.localPorts == LocalPorts(t, {i});
    assert b.pids == Pids(t, {i});
    if b.hostname.Some? { assert IsTop(t, Named(t, {i}), i); } else { assert Named(t, {i}) == {}; }
  }

  lemma ExtendedHostname(rules: AddressRules, b: Bucket, t: Table, ids: set<nat>, i: nat)
    requires WellFormedTable(t) && ids <= t.Keys && i in t && i !in ids
    requires IsHostname(b.hostname, t, ids)
    requires forall j | j in ids :: MarkerLess(MarkerOf(t[j]), MarkerOf(t[i]))
    ensures IsHostname(Extended(rules, b, t[i]).hostname, t, ids + {i})
  {
    var all := Named(t, ids + {i});
    if t[i].record.hostname.Some? {
      assert IsTop(t, all, i);
    } else {
      assert all == Named(t, ids);
    }
  }

  lemma ExtendedSets(rules: AddressRules, t: Table, ids: set<nat>, i: nat)
    requires ids <= t.Keys && i in t
    ensures ScanIds(t, ids + {i}) == ScanIds(t, ids) + {t[i].scan.id}
    ensures LocalIps(rules, t, ids + {i}) == LocalIps(rules, t, ids) + {rules.normalize(t[i].record.localIp)}
    ensures LocalPorts(t, ids + {i}) == LocalPorts(t, ids) + {t[i].record.localPort}
    ensures Pids(t, ids + {i}) == Pids(t, ids) + PidSet(t[i])
  {
    assert i in ids + {i};
  }

  lemma ExtendedTimes(b: Bucket, t: Table, ids: set<nat>, i: nat)
    requires ids <= t.Keys && i in t
    requires IsEarliest(b.first, t, ids)
    requires forall j | j in ids :: MarkerLess(MarkerOf(t[j]), MarkerOf(t[i]))
    ensures IsEarliest(b.first, t, ids + {i}) && IsLatest(t[i].scan.started, t, ids + {i})
    ensures IsTop(t, ids + {i}, i)
  {
    assert i in ids + {i};
    var j :| j in ids && t[j].scan.started == b.first;
    assert j in ids + {i};
  }

  /** Appending a later row to a summarised group summarises the larger group. */
  lemma ExtendedSummary(rules: AddressRules, b: Bucket, t: Table, ids: set<nat>, i: nat)
    requires WellFormedTable(t) && ids <= t.Keys && i in t && i !in ids
    requires IsSummary(rules, b, t, ids)
    requires forall j | j in ids :: MarkerLess(MarkerOf(t[j]), MarkerOf(t[i]))
    ensures IsSummary(rules, Extended(rules, b, t[i]), t, ids + {i})
  {
    ExtendedHostname(rules, b, t, ids, i);
    ExtendedSets(rules, t, ids, i);
    ExtendedTimes(b, t, ids, i);
  }

  /** The rows of one group. */
  function RawGroup(rules: AddressRules, t: Table, k: PyKey): set<nat> {
    set i | i in t && Visible(rules, t[i]) && PyKeyOf(rules, t[i]) == k
  }

  /** What the simple form must return: one group per key, summarising exactly its rows. */
  ghost predicate IsRawView(rules: AddressRules, t: Table, current: set<nat>, view: map<PyKey, Service>) {
    && (forall k :: k in view <==> RawGroup(rules, t, k) != {})
    && (forall k | k in view :: IsRawService(rules, t, current, k, view[k]))
  }

  ghost predicate IsRawService(rules: AddressRules, t: Table, current: set<nat>, k: PyKey, s: Service) {
    exists b :: IsSummary(rules, b, t, RawGroup(rules, t, k)) && s == Finish(b, current)
  }

  datatype Live = Live(bucket: Bucket, isCurrent: bool)

  /** Rows of group `k` among the ids already visited. */
  function Visited(rules: AddressRules, t: Table, seen: set<nat>, k: PyKey): set<nat>
    requires seen <= t.Keys
  {
    RawGroup(rules, t, k) * seen
  }

  ghost predicate LiveAt(rules: AddressRules, t: Table, current: set<nat>, seen: set<nat>, groups: map<PyKey, Live>, k: PyKey)
    requires seen <= t.Keys
  {
    && (k in groups <==> Visited(rules, t, seen, k) != {})
    && (k in groups ==>
          && IsSummary(rules, groups[k].bucket, t, Visited(rules, t, seen, k))
          && groups[k].isCurrent == (groups[k].bucket.scanIds * current != {}))
  }

  /** Loop invariant: every group built so far summarises its rows seen so far. */
  ghost predicate IsLive(rules: AddressRules, t: Table, current: set<nat>, seen: set<nat>, groups: map<PyKey, Live>)
    requires seen <= t.Keys
  {
    forall k :: LiveAt(rules, t, current, seen, groups, k)
  }

  lemma VisitedGrows(rules: AddressRules, t: Table, seen: set<nat>, i: nat, k: PyKey)
    requires seen <= t.Keys && i in t
    ensures Visited(rules, t, seen + {i}, k)
         == if Visible(rules, t[i]) && PyKeyOf(rules, t[i]) == k then Visited(rules, t, seen, k) + {i} else Visited(rules, t, seen, k)
  {
  }

  lemma SkipRow(rules: AddressRules, t: Table, current: set<nat>, seen: set<nat>, groups: map<PyKey, Live>, i: nat)
    requires seen <= t.Keys && i in t && IsLive(rules, t, current, seen, groups) && !Visible(rules, t[i])
    ensures IsLive(rules, t, current, seen + {i}, groups)
  {
    forall k ensures LiveAt(rules, t, current, seen + {i}, groups, k) {
      assert LiveAt(rules, t, current, seen, groups, k);
      VisitedGrows(rules, t, seen, i, k);
    }
  }

  lemma OverlapGrows(s: set<nat>, x: nat, current: set<nat>)
    ensures (s + {x}) * current != {} <==> s * current != {} || x in current
  {
    if x in current { assert x in (s + {x}) * current; }
    if s * current != {} { var y :| y in s * current; assert y in (s + {x}) * current; }
  }

  lemma TakeRow(rules: AddressRules, t: Table, current: set<nat>, seen: set<nat>, groups: map<PyKey, Live>, i: nat, live: Live)
    requires WellFormedTable(t) && seen <= t.Keys && i in t && i !in seen
    requires IsLive(rules, t, current, seen, groups) && Visible(rules, t[i])
    requires forall j | j in seen :: MarkerLess(MarkerOf(t[j]), MarkerOf(t[i]))
    requires live == NextLive(rules, t[i], current, groups)
    ensures IsLive(rules, t, current, seen + {i}, groups[PyKeyOf(rules, t[i]) := live])
  {
    var key := PyKeyOf(rules, t[i]);
    var after := groups[key := live];
    forall k ensures LiveAt(rules, t, current, seen + {i}, after, k) {
      assert LiveAt(rules, t, current, seen, groups, k);
      VisitedGrows(rules, t, seen, i, k);
      if k == key {
        if key in groups {
          OverlapGrows(groups[key].bucket.scanIds, t[i].scan.id, current);
          ExtendedSummary(rules, groups[key].bucket, t, Visited(rules, t, seen, key), i);
        } else {
          OverlapGrows({}, t[i].scan.id, current);
          NewBucketSummary(rules, t, i);
          assert Visited(rules, t, seen, key) + {i} == {i};
        }
      }
    }
  }

  /** The group of a visible row after that row. */
  function NextLive(rules: AddressRules, r: Row, current: set<nat>, groups: map<PyKey, Live>): Live
    requires r.record.remoteIp.Some?
  {
    var k := PyKeyOf(rules, r);
    if k in groups
    then Live(Extended(rules, groups[k].bucket, r), groups[k].isCurrent || r.scan.id in current)
    else Live(NewBucket(rules, r), r.scan.id in current)
  }

  /** The loop body: create or overwrite the bucket, then grow its sets. */
  method AbsorbRow(rules: AddressRules, row: Row, current: set<nat>, groups: map<PyKey, Live>) returns (live: Live)
    requires row.record.remoteIp.Some?
    ensures live == NextLive(rules, row, current, groups)
    ensures var k, h := PyKeyOf(rules, row), row.record.hostname;
      live.bucket.hostname == if k in groups && (h == None || h == Some("")) then groups[k].bucket.hostname else h
  {
    var key := PyKeyOf(rules, row);
    var localIp := rules.normalize(row.record.localIp);
    if key !in groups {
      live := Live(Bucket(row.scan.started, row.scan.started, MarkerOf(row), {}, {}, {}, {},
                          row.record.hostname, SampleOf(rules, row)), false);
    } else {
      var b := groups[key].bucket;
      var oldHostname := b.hostname;
      b := b.(sample := SampleOf(rules, row), hostname := row.record.hostname);
      if !Truthy(b.hostname) {
        b := b.(hostname := oldHostname);
      }
      live := Live(b.(marker := MarkerOf(row), last := row.scan.started), groups[key].isCurrent);
    }
    live := live.(isCurrent := live.isCurrent || row.scan.id in current);
    var b := live.bucket;
    b := b.(localIps := b.localIps + {localIp}, localPorts := b.localPorts + {row.record.localPort});
    if row.record.pid.Some? {
      b := b.(pids := b.pids + {row.record.pid.value});
    }
    live := live.(bucket := b.(scanIds := b.scanIds + {row.scan.id}));
  }

  function MarkersOf(t: Table): set<Marker> { set i | i in t :: MarkerOf(t[i]) }

  /** The next row in marker order comes after every row seen so far. */
  lemma NextInOrder(t: Table, order: seq<Marker>, n: nat, seen: set<nat>)
    requires WellFormedTable(t) && n < |order| && seen <= t.Keys
    requires Ascending(order, MarkerLess) && forall m :: m in order <==> m in MarkersOf(t)
    requires forall i | i in t :: i in seen <==> MarkerOf(t[i]) in order[..n]
    ensures var i := order[n].sample;
      && i in t && MarkerOf(t[i]) == order[n] && i !in seen
      && (forall j | j in seen :: MarkerLess(MarkerOf(t[j]), MarkerOf(t[i])))
      && (forall j | j in t :: j in seen + {i} <==> MarkerOf(t[j]) in order[..n + 1])
  {
    assert order[n] in MarkersOf(t);
    var i := order[n].sample;
    MarkerOrder();
    forall j | j in seen ensures MarkerLess(MarkerOf(t[j]), MarkerOf(t[i])) {
      var m :| 0 <= m < n && order[m] == MarkerOf(t[j]);
    }
    assert order[..n + 1] == order[..n] + [order[n]];
    forall j | j in t ensures j in seen + {i} <==> MarkerOf(t[j]) in order[..n + 1] {
      MarkersDiffer(t, i, j);
    }
  }

  /** `_aggregate_connection_observations`: rows in (start time, scan, record) order, each
      creating its group or overwriting the group's latest values. */
  method AggregateConnectionObservations(rules: AddressRules, t: Table, current: set<nat>) returns (view: map<PyKey, Service>)
    requires WellFormedTable(t)
    ensures IsRawView(rules, t, current, view)
  {
    MarkerOrder();
    var order := Ordered(MarkersOf(t), MarkerLess);
    var groups: map<PyKey, Live> := map[];
    ghost var seen: set<nat> := {};
    var n := 0;
    while n < |order|
      invariant 0 <= n <= |order| && seen <= t.Keys
      invariant forall i | i in t :: i in seen <==> MarkerOf(t[i]) in order[..n]
      invariant IsLive(rules, t, current, seen, groups)
    {
      NextInOrder(t, order, n, seen);
      var i := order[n].sample;
      var row := t[i];
      if !Visible(rules, row) {
        SkipRow(rules, t, current, seen, groups, i);
      } else {
        var live := AbsorbRow(rules, row, current, groups);
        TakeRow(rules, t, current, seen, groups, i, live);
        groups := groups[PyKeyOf(rules, row) := live];
      }
      seen := seen + {i};
      n := n + 1;
    }
    assert order[..n] == order;
    assert seen == t.Keys by {
      forall i | i in t ensures i in seen { assert MarkerOf(t[i]) in MarkersOf(t); }
    }
    view := map k | k in groups :: Finish(groups[k].bucket, current).(isCurrent := groups[k].isCurrent);
    FinishedView(rules, t, current, seen, groups, view);
  }

  lemma FinishedView(rules: AddressRules, t: Table, current: set<nat>, seen: set<nat>, groups: map<PyKey, Live>, view: map<PyKey, Service>)
    requires seen == t.Keys && IsLive(rules, t, current, seen, groups)
    requires view == map k | k in groups :: Finish(groups[k].bucket, current).(isCurrent := groups[k].isCurrent)
    ensures IsRawView(rules, t, current, view)
  {
    forall k
      ensures LiveAt(rules, t, current, seen, groups, k)
      ensures Visited(rules, t, seen, k) == RawGroup(rules, t, k)
    {}
    forall k | k in view ensures IsRawService(rules, t, current, k, view[k]) {
      assert LiveAt(rules, t, current, seen, groups, k);
      assert view[k] == Finish(groups[k].bucket, current);
    }
  }
}
