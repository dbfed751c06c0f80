/** Who can still change an imported row under test, and how many tests are under way at once. */
module ImportTestLimits {
  import opened Wrappers
  import opened Ordering
  import opened ImportTests
  import Q = ScanTasks
  import L = ScanTaskLimits

  // --------------------------------------------------------------- fencing

  predicate ClaimsFor(e: Event, worker: string) { (e.ClaimTests? || e.ClaimRow?) && e.call.worker == worker }

  /** A renewal or a save by `worker`. */
  predicate ActsFor(e: Event, worker: string) { (e.RenewTests? || e.Save?) && e.worker == worker }

  lemma {:induction false} NotHeldBy(db: Db, e: Event, r: nat, worker: string)
    requires r in db.rows && db.rows[r].worker != Some(worker) && !ClaimsFor(e, worker)
    ensures r in Apply(db, e).rows && Apply(db, e).rows[r].worker != Some(worker)
  {
    hide ChosenRows, Expired, Refreshed, TouchedBy, Live, SuccessDevices, Q.Apply, Q.BatchCreated;
    match e
    case _ =>
  }

  lemma {:induction false} NotHeldThrough(db: Db, es: seq<Event>, r: nat, worker: string)
    requires r in db.rows && db.rows[r].worker != Some(worker) && forall e | e in es :: !ClaimsFor(e, worker)
    ensures r in After(db, es).rows && After(db, es).rows[r].worker != Some(worker)
    decreases |es|
  {
    hide Apply;
    if es == [] {
    } else {
      NotHeldThrough(db, es[..|es| - 1], r, worker);
      NotHeldBy(After(db, es[..|es| - 1]), es[|es| - 1], r, worker);
    }
  }

  lemma {:induction false} ForeignStep(db: Db, e: Event, r: nat, worker: string)
    requires r in db.rows && db.rows[r].worker != Some(worker) && ActsFor(e, worker)
    ensures r in Apply(db, e).rows && Apply(db, e).rows[r] == db.rows[r]
  {
    hide Refreshed;
  }

  /** Fencing over runs: from any state in which a worker does not hold the row, none of its
      renewals and saves changes the row until it claims again, in either way of claiming. */
  lemma StaleWorkerIsFenced(db: Db, es: seq<Event>, e: Event, r: nat, worker: string)
    requires r in db.rows && db.rows[r].worker != Some(worker)
    requires (forall f | f in es :: !ClaimsFor(f, worker)) && ActsFor(e, worker)
    ensures r in After(db, es).rows && r in After(db, es + [e]).rows
    ensures After(db, es + [e]).rows[r] == After(db, es).rows[r]
  {
    hide Apply;
    NotHeldThrough(db, es, r, worker);
    assert (es + [e])[..|es|] == es;
    ForeignStep(After(db, es), e, r, worker);
  }

  // ------------------------------------------------------- what a claim takes

  function RunningRows(rows: Rows): set<nat> { set r | r in rows && rows[r].status == Running }

  lemma SweepKeepsLive(rows: Rows, c: Q.ClaimCall)
    ensures Live(Swept(rows, Expired(rows, c.now, c.lockedRunning)), c.now) == Live(rows, c.now)
  {
  }

  /** A claim takes at most the free slots. */
  lemma ChosenBound(rows: Rows, c: Q.ClaimCall)
    ensures |ChosenRows(rows, c)| <= Q.ClaimLimit(c.capacity, c.limit, |Live(rows, c.now)|)
  {
    hide Q.ClaimLimit, Waiting, Live;
    NatOrders();
    SweepKeepsLive(rows, c);
    var order := ClaimOrder(rows, c);
    AscendingIsDistinct(order, NatLess);
    SetSize(order, IdSet(order));
  }

  lemma FreeSlots(capacity: int, limit: int, live: nat)
    requires live <= limit
    ensures live + Q.ClaimLimit(capacity, limit, live) <= limit
  {
  }

  lemma ClaimRuns(rows: Rows, c: Q.ClaimCall)
    ensures Live(ClaimedRows(rows, c), c.now) <= Live(rows, c.now) + ChosenRows(rows, c)
    ensures c.lockedRunning == {} ==> RunningRows(ClaimedRows(rows, c)) <= Live(rows, c.now) + ChosenRows(rows, c)
  {
    hide ChosenRows;
  }

  lemma ClaimFits(rows: Rows, c: Q.ClaimCall, after: set<nat>)
    requires after <= Live(rows, c.now) + ChosenRows(rows, c) && |Live(rows, c.now)| <= c.limit
    ensures |after| <= c.limit
  {
    hide Live, ChosenRows, Q.ClaimLimit;
    ChosenBound(rows, c);
    FreeSlots(c.capacity, c.limit, |Live(rows, c.now)|);
    L.UnionSize(after, Live(rows, c.now), ChosenRows(rows, c));
  }

  // -------------------------------------------------------------- live tests

  /** Claims share the limit, and claims and renewals know the time. */
  predicate Prompt(db: Db, e: Event, limit: nat) {
    && (e.ClaimTests? || e.ClaimRow? ==> e.call.limit == limit && e.call.now == db.queue.clock)
    && (e.RenewTests? ==> e.now == db.queue.clock)
  }

  lemma {:induction false} ClockAdvances(db: Db, e: Event)
    ensures Apply(db, e).queue.clock >= db.queue.clock
  {
    hide Claimed, ClaimedOne, Saved, Renewed, SuccessDevices, Q.Apply, Q.BatchCreated;
    match e
    case ClaimTests(c) => ClaimQueue(db, c);
    case Save(worker, r, success, now, _) => SaveQueue(db, worker, r, success, now);
    case ClaimRow(r, c) => ClaimRowQueue(db, r, c);
    case HandOver(b) => CreationKeepsClock(db.queue, SuccessDevices(db.rows, b));
    case InQueue(f) => L.ClockAdvances(db.queue, f);
    case _ =>
  }

  lemma ClaimRowQueue(db: Db, r: nat, c: Q.ClaimCall)
    ensures ClaimedOne(db, r, c).queue == db.queue
  {
  }

  lemma CreationKeepsClock(db: Q.Db, ds: seq<nat>)
    ensures Q.BatchCreated(db, Q.BatchType.Import, ds).Success? ==> Q.BatchCreated(db, Q.BatchType.Import, ds).value.clock >= db.clock
  {
    hide Q.BatchCreated;
    L.ClockAdvances(db, Q.CreateBatch(Q.BatchType.Import, ds));
  }

  lemma LiveShrinks(rows: Rows, now: nat, later: nat)
    requires now <= later
    ensures Live(rows, later) <= Live(rows, now)
  {
  }

  /** Only claims add live tests. */
  lemma {:induction false} LiveOnlyGrowsByClaims(db: Db, e: Event)
    requires !e.ClaimTests? && !e.ClaimRow? && (e.RenewTests? ==> e.now == db.queue.clock)
    ensures Live(Apply(db, e).rows, db.queue.clock) <= Live(db.rows, db.queue.clock)
  {
    hide Refreshed, SuccessDevices, Q.Apply, Q.BatchCreated;
    match e
    case _ =>
  }

  lemma LiveAfterOne(db: Db, r: nat, c: Q.ClaimCall, limit: nat)
    requires c.limit == limit && |Live(db.rows, c.now)| <= limit
    ensures |Live(ClaimedOne(db, r, c).rows, c.now)| <= limit
  {
    hide Refreshed;
    var before, after := Live(db.rows, c.now), Live(ClaimedOne(db, r, c).rows, c.now);
    if r in db.rows && db.rows[r].status == Pending && |before| < c.limit {
      assert after <= before + {r};
      L.UnionSize(after, before, {r});
    }
  }

  lemma LiveStep(db: Db, e: Event, limit: nat)
    requires Prompt(db, e, limit) && |Live(db.rows, db.queue.clock)| <= limit
    ensures |Live(Apply(db, e).rows, Apply(db, e).queue.clock)| <= limit
  {
    hide Live, ClaimedRows, ClaimedOne, ChosenRows, Refreshed;
    var after, clock := Apply(db, e).rows, db.queue.clock;
    ClockAdvances(db, e);
    LiveShrinks(after, clock, Apply(db, e).queue.clock);
    SubsetSize(Live(after, Apply(db, e).queue.clock), Live(after, clock));
    if e.ClaimTests? {
      ClaimRuns(db.rows, e.call);
      ClaimFits(db.rows, e.call, Live(ClaimedRows(db.rows, e.call), clock));
    } else if e.ClaimRow? {
      LiveAfterOne(db, e.row, e.call, limit);
    } else {
      LiveOnlyGrowsByClaims(db, e);
      SubsetSize(Live(after, clock), Live(db.rows, clock));
    }
  }

  /** The global limit: claims of either kind that know the time never take the live tests over
      it, whatever rows they skip. */
  lemma {:induction false} LimitBoundsLive(db: Db, es: seq<Event>, limit: nat)
    requires |Live(db.rows, db.queue.clock)| <= limit
    requires forall n | 0 <= n < |es| :: Prompt(After(db, es[..n]), es[n], limit)
    ensures |Live(After(db, es).rows, After(db, es).queue.clock)| <= limit
    decreases |es|
  {
    hide Apply, Live, Prompt;
    if es == [] {
    } else {
      var front := es[..|es| - 1];
      forall n | 0 <= n < |front| ensures Prompt(After(db, front[..n]), front[n], limit) {
        assert front[..n] == es[..n] && front[n] == es[n];
      }
      LimitBoundsLive(db, front, limit);
      LiveStep(After(db, front), es[|es| - 1], limit);
    }
  }

  // ----------------------------------------------------------- running tests

  /** Claims share the limit; sweeping ones skip no running row, and a claim of a single row, which
      does not sweep, finds no expired one. */
  predicate Thorough(db: Db, e: Event, limit: nat) {
    && (e.ClaimTests? ==> e.call.limit == limit && e.call.lockedRunning == {})
    && (e.ClaimRow? ==> e.call.limit == limit && RunningRows(db.rows) <= Live(db.rows, e.call.now))
  }

  lemma {:induction false} RunningOnlyGrowsByClaims(db: Db, e: Event)
    requires !e.ClaimTests? && !e.ClaimRow?
    ensures RunningRows(Apply(db, e).rows) <= RunningRows(db.rows)
  {
    hide Refreshed, SuccessDevices, Q.Apply, Q.BatchCreated;
    match e
    case _ =>
  }

  lemma LiveRun(rows: Rows, now: nat)
    ensures Live(rows, now) <= RunningRows(rows)
  {
  }

  lemma RunningAfterOne(db: Db, r: nat, c: Q.ClaimCall, limit: nat)
    requires c.limit == limit && |RunningRows(db.rows)| <= limit && RunningRows(db.rows) <= Live(db.rows, c.now)
    ensures |RunningRows(ClaimedOne(db, r, c).rows)| <= limit
  {
    hide Refreshed, Live;
    var before, after := RunningRows(db.rows), RunningRows(ClaimedOne(db, r, c).rows);
    SubsetSize(before, Live(db.rows, c.now));
    if r in db.rows && db.rows[r].status == Pending && |Live(db.rows, c.now)| < c.limit {
      assert after <= before + {r};
      L.UnionSize(after, before, {r});
    }
  }

  lemma RunningStep(db: Db, e: Event, limit: nat)
    requires Thorough(db, e, limit) && |RunningRows(db.rows)| <= limit
    ensures |RunningRows(Apply(db, e).rows)| <= limit
  {
    hide Live, ClaimedRows, ClaimedOne, ChosenRows, Refreshed, RunningRows;
    if e.ClaimTests? {
      LiveRun(db.rows, e.call.now);
      SubsetSize(Live(db.rows, e.call.now), RunningRows(db.rows));
      ClaimRuns(db.rows, e.call);
      ClaimFits(db.rows, e.call, RunningRows(ClaimedRows(db.rows, e.call)));
    } else if e.ClaimRow? {
      RunningAfterOne(db, e.row, e.call, limit);
    } else {
      RunningOnlyGrowsByClaims(db, e);
      SubsetSize(RunningRows(Apply(db, e).rows), RunningRows(db.rows));
    }
  }

  /** However stale the claims' timestamps: as long as sweeps skip no running row and no row is
      claimed on its own over an expired one, no more than `limit` tests run. */
  lemma {:induction false} LimitBoundsRunning(db: Db, es: seq<Event>, limit: nat)
    requires |RunningRows(db.rows)| <= limit
    requires forall n | 0 <= n < |es| :: Thorough(After(db, es[..n]), es[n], limit)
    ensures |RunningRows(After(db, es).rows)| <= limit
    decreases |es|
  {
    hide Apply, RunningRows, Thorough;
    if es == [] {
    } else {
      var front := es[..|es| - 1];
      forall n | 0 <= n < |front| ensures Thorough(After(db, front[..n]), front[n], limit) {
        assert front[..n] == es[..n] && front[n] == es[n];
      }
      LimitBoundsRunning(db, front, limit);
      RunningStep(After(db, front), es[|es| - 1], limit);
    }
  }

  /** Row 1 is running on a lease that ends at 10, row 2 was swept; it is 10. */
  function LapsedDb(): Db {
    Db(map[1 := ImportRow(1, None, Running, Some("a"), Some(10), Some(0), 1), 2 := ImportRow(1, None, Pending, None, None, None, 1)],
       map[1 := ImportBatch(Testing, 1, 1, 0, 0, None, None)],
       Q.Db(map[], map[], map[], map[], map[], 10, 1, 1, 1, 1, 1))
  }

  /** Claiming row 2 on its own takes the running tests over a limit of one, not the live ones. */
  lemma SingleClaimOverruns()
    ensures var db, e := LapsedDb(), ClaimRow(2, Q.ClaimCall("b", 1, 1, 60, 10, {}, {}));
      && Consistent(db) && Prompt(db, e, 1) && |RunningRows(db.rows)| == 1
      && |RunningRows(Apply(db, e).rows)| == 2 && |Live(Apply(db, e).rows, 10)| == 1
  {
    hide Refreshed, RunningRows, Live;
    var db, c := LapsedDb(), Q.ClaimCall("b", 1, 1, 60, 10, {}, {});
    assert OpenRows(db.rows, 1) == {1, 2};
    assert Live(db.rows, 10) == {} by { LapsedRows(); }
    LapsedRows();
    var one, both, second: set<nat> := {1}, {1, 2}, {2};
    assert |one| == 1 && |both| == 2 && |second| == 1;
  }

  lemma LapsedRows()
    ensures var rows, c := LapsedDb().rows, Q.ClaimCall("b", 1, 1, 60, 10, {}, {}); var after := rows[2 := Begun(rows[2], c)];
      && Live(rows, 10) == {} && RunningRows(rows) == {1} && Live(after, 10) == {2} && RunningRows(after) == {1, 2}
  {
  }
}
