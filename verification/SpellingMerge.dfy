/** The last stage of the fast form: folding aggregated rows, in whatever order the database
    returns them, into one bucket per normalised key. */
module SpellingMerge {
  import opened Wrappers
  import opened TextCodec
  import opened Addresses
  import opened Services
  import opened RawAggregation
  import opened ObservationGroups

  type Parts = map<RawKey, Bucket>

  // ------------------------------------------------- result of merging parts

  ghost predicate IsTopPart(parts: Parts, top: RawKey) {
    top in parts && forall rk | rk in parts :: !MarkerLess(parts[top].marker, parts[rk].marker)
  }

  /** The hostname a merge may end with: the top part's if it has one, else some part's. */
  ghost predicate MergedHostname(h: Option<string>, parts: Parts, top: RawKey)
    requires top in parts
  {
    && (exists rk | rk in parts :: parts[rk].hostname == h)
    && (Truthy(parts[top].hostname) ==> h == parts[top].hostname)
    && (forall rk | rk in parts && Truthy(parts[rk].hostname) :: Truthy(h))
  }

  ghost predicate MergedTop(b: Bucket, parts: Parts, top: RawKey) {
    IsTopPart(parts, top) && b.marker == parts[top].marker && b.sample == parts[top].sample
    && MergedHostname(b.hostname, parts, top)
  }

  ghost predicate MergedTimes(b: Bucket, parts: Parts) {
    && (exists rk | rk in parts :: parts[rk].first == b.first) && (forall rk | rk in parts :: b.first <= parts[rk].first)
    && (exists rk | rk in parts :: parts[rk].last == b.last) && (forall rk | rk in parts :: parts[rk].last <= b.last)
  }

  ghost predicate MergedSets(b: Bucket, parts: Parts) {
    && (forall x :: x in b.scanIds <==> exists rk | rk in parts :: x in parts[rk].scanIds)
    && (forall x :: x in b.localIps <==> exists rk | rk in parts :: x in parts[rk].localIps)
    && (forall x :: x in b.localPorts <==> exists rk | rk in parts :: x in parts[rk].localPorts)
    && (forall x :: x in b.pids <==> exists rk | rk in parts :: x in parts[rk].pids)
  }

  /** `b` is what merging `parts` in some order leaves. */
  ghost predicate IsMergeOf(b: Bucket, parts: Parts) {
    MergedTimes(b, parts) && MergedSets(b, parts) && exists top :: MergedTop(b, parts, top)
  }

  /** One turn of the merge loop for a key that already has a bucket. */
  function Merged(b: Bucket, p: Bucket): Bucket {
    var h := if Truthy(p.hostname) && !Truthy(b.hostname) then p.hostname else b.hostname;
    var newer := MarkerLess(b.marker, p.marker);
    Bucket(if p.first < b.first then p.first else b.first,
           if p.last > b.last then p.last else b.last,
           if newer then p.marker else b.marker,
           b.scanIds + p.scanIds, b.localIps + p.localIps, b.localPorts + p.localPorts, b.pids + p.pids,
           if newer && Truthy(p.hostname) then p.hostname else h,
           if newer then p.sample else b.sample)
  }

  lemma SinglePart(rk: RawKey, p: Bucket)
    ensures IsMergeOf(p, map[rk := p])
  {
    var parts := map[rk := p];
    assert rk in parts && parts[rk] == p;
    MarkerOrder();
    assert MergedTop(p, parts, rk);
  }

  lemma MergeStepTop(b: Bucket, parts: Parts, rk: RawKey, p: Bucket, top: RawKey)
    requires MergedTop(b, parts, top) && rk !in parts
    ensures var all := parts[rk := p]; MergedTop(Merged(b, p), all, if MarkerLess(b.marker, p.marker) then rk else top)
  {
    var all := parts[rk := p];
    MarkerOrder();
    var prior :| prior in parts && parts[prior].hostname == b.hostname;
    assert all[prior].hostname == b.hostname && all[rk].hostname == p.hostname;
  }

  /** A merge turn keeps the description of the result true. */
  lemma MergeStep(b: Bucket, parts: Parts, rk: RawKey, p: Bucket)
    requires IsMergeOf(b, parts) && rk !in parts
    ensures IsMergeOf(Merged(b, p), parts[rk := p])
  {
    hide MergedTop;
    var all, m := parts[rk := p], Merged(b, p);
    assert forall o | o in parts :: all[o] == parts[o];
    assert all[rk] == p;
    var top :| MergedTop(b, parts, top);
    MergeStepTop(b, parts, rk, p, top);
    assert MergedTimes(m, all) by {
      var f :| f in parts && parts[f].first == b.first;
      var l :| l in parts && parts[l].last == b.last;
      assert all[f].first == b.first && all[l].last == b.last;
    }
    MergeStepSets(b, parts, rk, p);
  }

  lemma MergeStepSets(b: Bucket, parts: Parts, rk: RawKey, p: Bucket)
    requires MergedSets(b, parts) && rk !in parts
    ensures MergedSets(Merged(b, p), parts[rk := p])
  {
    var all, m := parts[rk := p], Merged(b, p);
    assert all[rk] == p;
    forall o | o in parts ensures o in all && all[o] == parts[o] {}
    forall x ensures x in m.scanIds <==> exists o | o in all :: x in all[o].scanIds {
      if x in b.scanIds { var o :| o in parts && x in parts[o].scanIds; assert x in all[o].scanIds; }
    }
    forall x ensures x in m.localIps <==> exists o | o in all :: x in all[o].localIps {
      if x in b.localIps { var o :| o in parts && x in parts[o].localIps; assert x in all[o].localIps; }
    }
    forall x ensures x in m.localPorts <==> exists o | o in all :: x in all[o].localPorts {
      if x in b.localPorts { var o :| o in parts && x in parts[o].localPorts; assert x in all[o].localPorts; }
    }
    forall x ensures x in m.pids <==> exists o | o in all :: x in all[o].pids {
      if x in b.pids { var o :| o in parts && x in parts[o].pids; assert x in all[o].pids; }
    }
  }

  /** A key has at most two stored spellings, so at most two parts. */
  ghost predicate AtMostTwo(parts: Parts) {
    forall a, b, c | a in parts && b in parts && c in parts :: a == b || b == c || a == c
  }

  ghost predicate DistinctMarkers(parts: Parts) {
    forall a, b | a in parts && b in parts && parts[a].marker == parts[b].marker :: a == b
  }

  ghost predicate NoEmptyHostname(parts: Parts) {
    forall rk | rk in parts :: parts[rk].hostname != Some("")
  }

  /** The same parts, possibly showing different sample details. */
  ghost predicate SameOutlines(parts: Parts, others: Parts) {
    && parts.Keys == others.Keys
    && forall rk | rk in parts :: others[rk] == parts[rk].(sample := others[rk].sample)
  }

  /** Whatever the order of merging and whatever the sample details, two merges of the same
      parts differ at most in the sample, which comes from the same top part. */
  lemma MergeDetermined(b: Bucket, parts: Parts, c: Bucket, others: Parts)
    requires IsMergeOf(b, parts) && IsMergeOf(c, others) && SameOutlines(parts, others)
    requires DistinctMarkers(parts) && AtMostTwo(parts) && NoEmptyHostname(parts)
    ensures c == b.(sample := c.sample)
    ensures exists top :: IsTopPart(parts, top) && b.sample == parts[top].sample && c.sample == others[top].sample
  {
    MarkerOrder();
    var x :| MergedTop(b, parts, x);
    var y :| MergedTop(c, others, y);
    assert x == y by {
      assert parts[x].marker == parts[y].marker;
    }
    assert b.hostname == c.hostname by { HostnameDetermined(b.hostname, c.hostname, parts, others, x); }
    SetsDetermined(b, parts, c, others);
    TimesDetermined(b, parts, c, others);
  }

  lemma HostnameDetermined(h: Option<string>, g: Option<string>, parts: Parts, others: Parts, top: RawKey)
    requires SameOutlines(parts, others) && AtMostTwo(parts) && NoEmptyHostname(parts) && top in parts
    requires MergedHostname(h, parts, top) && MergedHostname(g, others, top)
    ensures h == g
  {
    var a :| a in parts && parts[a].hostname == h;
    var b :| b in others && others[b].hostname == g;
    assert a == b || b == top || a == top;
  }

  lemma SetsDetermined(b: Bucket, parts: Parts, c: Bucket, others: Parts)
    requires SameOutlines(parts, others) && MergedSets(b, parts) && MergedSets(c, others)
    ensures b.scanIds == c.scanIds && b.localIps == c.localIps && b.localPorts == c.localPorts && b.pids == c.pids
  {
  }

  lemma TimesDetermined(b: Bucket, parts: Parts, c: Bucket, others: Parts)
    requires SameOutlines(parts, others) && MergedTimes(b, parts) && MergedTimes(c, others)
    ensures b.first == c.first && b.last == c.last
  {
  }

  // ------------------------------------------------------------ the fast view

  predicate Shown(rules: AddressRules, rk: RawKey) { !rules.loopback(rules.normalize(rk.remoteIp)) }

  function DecodeGroup(rules: AddressRules, obs: ObsTable, q: Query, samples: Table, rk: RawKey): Option<Bucket>
    requires rk in RawKeys(obs, q)
  {
    Decode(rules, rk, AggregateRows(obs, q)[rk], Some(CsvRows(obs, q)[rk]), samples)
  }

  /** Decoded rows for key `k` among the SQL groups `rks`. */
  function PartsAmong(rules: AddressRules, obs: ObsTable, q: Query, samples: Table, rks: set<RawKey>, k: ServiceKey): Parts
    requires rks <= RawKeys(obs, q)
  {
    map rk | rk in rks && Shown(rules, rk) && KeyOf(rules, rk) == k && DecodeGroup(rules, obs, q, samples, rk).Some?
        :: DecodeGroup(rules, obs, q, samples, rk).value
  }

  function PartsOf(rules: AddressRules, obs: ObsTable, q: Query, samples: Table, k: ServiceKey): Parts {
    PartsAmong(rules, obs, q, samples, RawKeys(obs, q), k)
  }

  ghost predicate IsGroupService(rules: AddressRules, obs: ObsTable, q: Query, samples: Table, k: ServiceKey, s: Service) {
    exists b :: IsMergeOf(b, PartsOf(rules, obs, q, samples, k)) && s == Finish(b, q.current)
  }

  /** What the fast form returns: one service per key with a decodable row, merged from those rows. */
  ghost predicate IsGroupView(rules: AddressRules, obs: ObsTable, q: Query, samples: Table, view: map<ServiceKey, Service>) {
    && (forall k :: k in view <==> PartsOf(rules, obs, q, samples, k) != map[])
    && (forall k | k in view :: IsGroupService(rules, obs, q, samples, k, view[k]))
  }

  ghost predicate BucketAt(rules: AddressRules, obs: ObsTable, q: Query, samples: Table, rks: set<RawKey>, groups: map<ServiceKey, Bucket>, k: ServiceKey)
    requires rks <= RawKeys(obs, q)
  {
    var parts := PartsAmong(rules, obs, q, samples, rks, k);
    && (k in groups <==> parts != map[])
    && (k in groups ==> IsMergeOf(groups[k], parts))
  }

  lemma PartsGrow(rules: AddressRules, obs: ObsTable, q: Query, samples: Table, rks: set<RawKey>, rk: RawKey, k: ServiceKey)
    requires rks <= RawKeys(obs, q) && rk in RawKeys(obs, q) && rk !in rks
    ensures var prior, p := PartsAmong(rules, obs, q, samples, rks, k), DecodeGroup(rules, obs, q, samples, rk);
      && rk !in prior
      && PartsAmong(rules, obs, q, samples, rks + {rk}, k)
         == if Shown(rules, rk) && KeyOf(rules, rk) == k && p.Some? then prior[rk := p.value] else prior
  {
    hide DecodeGroup;
  }

  /** The loop body of the merge for a key that already has a bucket. */
  method MergeInto(bucket: Bucket, p: Bucket) returns (b: Bucket)
    ensures b == Merged(bucket, p)
    // A missing or empty name never replaces one; of two names the later marker's stays, and the bucket's own otherwise.
    ensures p.hostname == None || p.hostname == Some("") ==> b.hostname == bucket.hostname
    ensures p.hostname != None && p.hostname != Some("") ==>
      if bucket.hostname == None || bucket.hostname == Some("") || MarkerLess(bucket.marker, p.marker) then b.hostname == p.hostname
      else b.hostname == bucket.hostname
  {
    b := bucket.(scanIds := bucket.scanIds + p.scanIds, localIps := bucket.localIps + p.localIps,
                 localPorts := bucket.localPorts + p.localPorts, pids := bucket.pids + p.pids);
    if p.first < b.first { b := b.(first := p.first); }
    if p.last > b.last { b := b.(last := p.last); }
    if Truthy(p.hostname) && !Truthy(b.hostname) { b := b.(hostname := p.hostname); }
    if MarkerLess(b.marker, p.marker) {
      var previous := b.hostname;
      b := b.(sample := p.sample, marker := p.marker,
              hostname := if Truthy(p.hostname) then p.hostname else previous);
    }
  }

  /** `_aggregate_observation_groups`: the rows of the aggregate query arrive in no
      particular order. */
  method AggregateObservationGroups(rules: AddressRules, obs: ObsTable, q: Query, samples: Table) returns (view: map<ServiceKey, Service>)
    ensures IsGroupView(rules, obs, q, samples, view)
  {
    hide *;
    var aggs, csvs := AggregateRows(obs, q), CsvRows(obs, q);
    var groups: map<ServiceKey, Bucket> := map[];
    var todo := RawKeys(obs, q);
    ghost var done: set<RawKey> := {};
    NoGroups(rules, obs, q, samples);
    while todo != {}
      invariant todo !! done && todo + done == RawKeys(obs, q)
      invariant forall k :: BucketAt(rules, obs, q, samples, done, groups, k)
      decreases |todo|
    {
      var rk :| rk in todo;
      todo := todo - {rk};
      ghost var before := groups;
      if Shown(rules, rk) {
        var part := Decode(rules, rk, aggs[rk], Some(csvs[rk]), samples);
        DecodeGroupIs(rules, obs, q, samples, rk);
        if part.Some? {
          var key := KeyOf(rules, rk);
          if key !in groups {
            groups := groups[key := part.value];
          } else {
            var b := MergeInto(groups[key], part.value);
            groups := groups[key := b];
          }
        }
      }
      MergeTurn(rules, obs, q, samples, done, rk, before, groups);
      done := done + {rk};
    }
    assert done == RawKeys(obs, q);
    view := map k | k in groups :: Finish(groups[k], q.current);
    GroupsFinished(rules, obs, q, samples, groups, view);
  }

  lemma NoGroups(rules: AddressRules, obs: ObsTable, q: Query, samples: Table)
    ensures forall k :: BucketAt(rules, obs, q, samples, {}, map[], k)
  {
  }

  lemma GroupsFinished(rules: AddressRules, obs: ObsTable, q: Query, samples: Table, groups: map<ServiceKey, Bucket>, view: map<ServiceKey, Service>)
    requires forall k :: BucketAt(rules, obs, q, samples, RawKeys(obs, q), groups, k)
    requires view == map k | k in groups :: Finish(groups[k], q.current)
    ensures IsGroupView(rules, obs, q, samples, view)
  {
    hide DecodeGroup, IsMergeOf, Finish;
    forall k
      ensures k in view <==> PartsOf(rules, obs, q, samples, k) != map[]
      ensures k in view ==> IsGroupService(rules, obs, q, samples, k, view[k])
    {
      assert BucketAt(rules, obs, q, samples, RawKeys(obs, q), groups, k);
    }
  }

  lemma DecodeGroupIs(rules: AddressRules, obs: ObsTable, q: Query, samples: Table, rk: RawKey)
    requires rk in RawKeys(obs, q)
    ensures DecodeGroup(rules, obs, q, samples, rk) == Decode(rules, rk, AggregateRows(obs, q)[rk], Some(CsvRows(obs, q)[rk]), samples)
  {
  }

  /** The effect of one loop turn on the groups. */
  lemma MergeTurn(rules: AddressRules, obs: ObsTable, q: Query, samples: Table, done: set<RawKey>, rk: RawKey,
                  before: map<ServiceKey, Bucket>, after: map<ServiceKey, Bucket>)
    requires done <= RawKeys(obs, q) && rk in RawKeys(obs, q) && rk !in done
    requires forall k :: BucketAt(rules, obs, q, samples, done, before, k)
    requires var p, key := DecodeGroup(rules, obs, q, samples, rk), KeyOf(rules, rk);
      after == if Shown(rules, rk) && p.Some?
               then before[key := if key in before then Merged(before[key], p.value) else p.value]
               else before
    ensures forall k :: BucketAt(rules, obs, q, samples, done + {rk}, after, k)
  {
    hide DecodeGroup, IsMergeOf, Merged;
    forall k ensures BucketAt(rules, obs, q, samples, done + {rk}, after, k) {
      assert BucketAt(rules, obs, q, samples, done, before, k);
      PartsGrow(rules, obs, q, samples, done, rk, k);
      var p := DecodeGroup(rules, obs, q, samples, rk);
      var prior := PartsAmong(rules, obs, q, samples, done, k);
      if Shown(rules, rk) && KeyOf(rules, rk) == k && p.Some? {
        if k in before {
          MergeStep(before[k], prior, rk, p.value);
        } else {
          SinglePart(rk, p.value);
          assert prior[rk := p.value] == map[rk := p.value];
        }
      }
    }
  }
}
