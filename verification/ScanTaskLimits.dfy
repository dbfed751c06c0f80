/** The global limit, the claim order, the heartbeat bound, and what can still change a
    completed batch. */
module ScanTaskLimits {
  import opened Wrappers
  import opened Ordering
  import opened ScanTasks
  import opened ScanTaskInvariants
  import opened ScanAdmission
  import opened ScanTaskRuns

  function RunningTasks(tasks: Tasks): set<nat> { set t | t in tasks && tasks[t].status == Running }

  // --------------------------------------------------------- what a claim takes

  function IdList(ranks: seq<Rank>): (r: seq<nat>)
    ensures |r| == |ranks| && forall i | 0 <= i < |r| :: r[i] == ranks[i].id
  {
    seq(|ranks|, i requires 0 <= i < |ranks| => ranks[i].id)
  }

  lemma RankById(tasks: Tasks, locked: set<nat>, k: nat)
    ensures forall r | r in ClaimOrder(tasks, locked, k) :: r.id in Waiting(tasks, locked) && r == RankOf(tasks, r.id)
  {
    RankOrder();
    forall r | r in ClaimOrder(tasks, locked, k) ensures r.id in Waiting(tasks, locked) && r == RankOf(tasks, r.id) {
      assert r in WaitingRanks(tasks, locked);
    }
  }

  lemma ClaimCountExact(tasks: Tasks, locked: set<nat>, k: nat)
    ensures var r := ClaimOrder(tasks, locked, k);
      |IdsOf(r)| == |r| == if k <= |Waiting(tasks, locked)| then k else |Waiting(tasks, locked)|
  {
    hide WaitingRanks, Waiting;
    RankOrder();
    var r := ClaimOrder(tasks, locked, k);
    RankById(tasks, locked, k);
    RankCount(tasks, locked);
    AscendingIsDistinct(r, RankLess);
    var ids := IdList(r);
    forall i, j | 0 <= i < j < |ids| ensures ids[i] != ids[j] {
      assert r[i] in r && r[j] in r;
    }
    forall x ensures x in ids <==> x in IdsOf(r) {
      if x in IdsOf(r) {
        var k :| k in r && k.id == x;
        var i :| 0 <= i < |r| && r[i] == k;
        assert ids[i] == x;
      }
    }
    SetSize(ids, IdsOf(r));
  }

  lemma RankCount(tasks: Tasks, locked: set<nat>)
    ensures |WaitingRanks(tasks, locked)| == |Waiting(tasks, locked)|
  {
    RankImage(tasks, Waiting(tasks, locked));
  }

  function Ranks(tasks: Tasks, ids: set<nat>): set<Rank>
    requires ids <= tasks.Keys
  { set t | t in ids :: RankOf(tasks, t) }

  lemma {:induction false} RankImage(tasks: Tasks, ids: set<nat>)
    requires ids <= tasks.Keys
    ensures |Ranks(tasks, ids)| == |ids|
  {
    if ids == {} {
    } else {
      var t :| t in ids;
      RankImage(tasks, ids - {t});
      assert Ranks(tasks, ids) == Ranks(tasks, ids - {t}) + {RankOf(tasks, t)};
    }
  }

  /** A claim takes no more than its capacity and the free slots allow, stops early only when no
      unlocked pending task is left, and leaves none behind that should have gone first: one with
      a higher priority, or the same priority and an earlier creation, or else a smaller id. */
  lemma ClaimIsExact(tasks: Tasks, c: ClaimCall)
    requires c.capacity > 0
    ensures var swept, taken := SweptFor(tasks, c), ClaimedBy(tasks, c);
      var live, waiting := |Live(swept, c.now)|, Waiting(swept, c.lockedPending);
      && taken <= waiting && |taken| <= c.capacity && (taken != {} ==> live + |taken| <= c.limit)
      && (taken == waiting || |taken| == c.capacity || live + |taken| >= c.limit)
      && forall t, u | t in taken && u in waiting - taken ::
           || swept[t].priority > swept[u].priority
           || (swept[t].priority == swept[u].priority && swept[t].created < swept[u].created)
           || (swept[t].priority == swept[u].priority && swept[t].created == swept[u].created && t < u)
  {
    hide SweptFor, Waiting, Live, ClaimedBy;
    TakenByRank(tasks, c);
    var swept, taken := SweptFor(tasks, c), ClaimedBy(tasks, c);
    var waiting := Waiting(swept, c.lockedPending);
    if |taken| == |waiting| { SameSize(taken, waiting); }
    forall t, u | t in taken && u in waiting - taken ensures RankLess(RankOf(swept, t), RankOf(swept, u)) {}
  }

  lemma SameSize(a: set<nat>, b: set<nat>)
    requires a <= b && |a| == |b|
    ensures a == b
  {
    assert b == a + (b - a) && |b| == |a| + |b - a|;
  }

  lemma TakenByRank(tasks: Tasks, c: ClaimCall)
    requires c.capacity > 0
    ensures var swept := SweptFor(tasks, c);
      var waiting, allowed := Waiting(swept, c.lockedPending), ClaimLimit(c.capacity, c.limit, |Live(swept, c.now)|);
      && ClaimedBy(tasks, c) <= waiting
      && |ClaimedBy(tasks, c)| == (if allowed <= |waiting| then allowed else |waiting|)
      && forall t, u | t in ClaimedBy(tasks, c) && u in waiting - ClaimedBy(tasks, c) :: t in swept && u in swept && RankLess(RankOf(swept, t), RankOf(swept, u))
  {
    hide SweptFor, Waiting, ClaimLimit, Live;
    var swept := SweptFor(tasks, c);
    var allowed := ClaimLimit(c.capacity, c.limit, |Live(swept, c.now)|);
    ClaimCountExact(swept, c.lockedPending, allowed);
    RankById(swept, c.lockedPending, allowed);
    RankOrder();
    var r := ClaimOrder(swept, c.lockedPending, allowed);
    forall t, u | t in ClaimedBy(tasks, c) && u in Waiting(swept, c.lockedPending) - ClaimedBy(tasks, c)
      ensures t in swept && u in swept && RankLess(RankOf(swept, t), RankOf(swept, u))
    {
      WaitingKnown(swept, c.lockedPending, u);
      WaitingKnown(swept, c.lockedPending, t);
      assert RankOf(swept, u) in WaitingRanks(swept, c.lockedPending);
      assert RankOf(swept, u) !in r;
      assert RankOf(swept, t) in r;
    }
  }

  lemma WaitingKnown(tasks: Tasks, locked: set<nat>, t: nat)
    ensures t in Waiting(tasks, locked) ==> t in tasks && RankOf(tasks, t) in WaitingRanks(tasks, locked)
  {
  }

  // ------------------------------------------------------------ global limit

  lemma SweepKeepsLive(tasks: Tasks, c: ClaimCall)
    ensures Live(SweptFor(tasks, c), c.now) == Live(tasks, c.now)
    ensures c.lockedRunning == {} ==> RunningTasks(SweptFor(tasks, c)) <= Live(tasks, c.now)
  {
  }

  lemma ClaimBound(tasks: Tasks, c: ClaimCall, live: nat)
    requires |Live(tasks, c.now)| <= live
    ensures |Live(tasks, c.now)| + |ClaimedBy(tasks, c)| <= if c.limit > live then c.limit else live
  {
    hide SweptFor, Waiting, Live, ClaimedBy, RunningTasks;
    if c.capacity > 0 {
      SweepKeepsLive(tasks, c);
      TakenByRank(tasks, c);
    } else {
      NoCapacity(tasks, c);
    }
  }

  lemma NoCapacity(tasks: Tasks, c: ClaimCall)
    requires c.capacity <= 0
    ensures ClaimedBy(tasks, c) == {}
  {
  }

  lemma UnionSize(a: set<nat>, b: set<nat>, c: set<nat>)
    requires a <= b + c
    ensures |a| <= |b| + |c|
  {
    SubsetSize(a, b + c);
    assert |b + c| == |b| + |c - b| by { assert b + c == b + (c - b); }
    SubsetSize(c - b, c);
  }

  /** Only a claim makes a task run. */
  lemma OnlyClaimsStart(db: Db, e: Event)
    requires Consistent(db)
    ensures RunningTasks(Apply(db, e).tasks) <= RunningTasks(db.tasks) + (if e.Claim? then ClaimedBy(db.tasks, e.call) else {})
  {
    hide Consistent, Apply, ClaimedBy;
    var after := Apply(db, e).tasks;
    forall t | t in RunningTasks(after)
      ensures t in db.tasks && (db.tasks[t].status == Running || (e.Claim? && t in ClaimedBy(db.tasks, e.call)))
    {
      if t in db.tasks { EffectOnTask(db, e, t); } else { NewTasksArePending(db, e, t); }
    }
  }

  /** If no row was skipped, whatever runs after a claim had a live lease or was just taken. */
  lemma ClaimRuns(db: Db, c: ClaimCall)
    requires c.capacity > 0 && c.lockedRunning == {}
    ensures RunningTasks(Claimed(db, c).tasks) <= Live(db.tasks, c.now) + ClaimedBy(db.tasks, c)
  {
    hide ClaimedBy, Claimed;
    ClaimTasks(db, c);
    forall t | t in RunningTasks(Claimed(db, c).tasks) ensures t in Live(db.tasks, c.now) || t in ClaimedBy(db.tasks, c) {
      assert t in db.tasks && t !in ClaimedBy(db.tasks, c) ==> t !in Expired(db.tasks, c.now, c.lockedRunning);
    }
  }

  predicate Unskipped(e: Event, limit: nat) { e.Claim? ==> e.call.limit == limit && e.call.lockedRunning == {} }

  lemma LiveRun(tasks: Tasks, now: nat)
    ensures Live(tasks, now) <= RunningTasks(tasks)
  {
  }

  lemma LimitStep(db: Db, e: Event, limit: nat)
    requires Consistent(db) && Unskipped(e, limit) && |RunningTasks(db.tasks)| <= limit
    ensures |RunningTasks(Apply(db, e).tasks)| <= limit
  {
    hide Consistent, Claimed, ClaimedBy, RunningTasks, Live;
    if e.Claim? && e.call.capacity > 0 {
      var c := e.call;
      LiveRun(db.tasks, c.now);
      SubsetSize(Live(db.tasks, c.now), RunningTasks(db.tasks));
      ClaimRuns(db, c);
      UnionSize(RunningTasks(Apply(db, e).tasks), Live(db.tasks, c.now), ClaimedBy(db.tasks, c));
      ClaimBound(db.tasks, c, |Live(db.tasks, c.now)|);
    } else {
      OnlyClaimsStart(db, e);
      if e.Claim? { NoCapacity(db.tasks, e.call); }
      SubsetSize(RunningTasks(Apply(db, e).tasks), RunningTasks(db.tasks));
    }
  }

  /** The global limit, rows never skipped: in every run of any workers sharing one limit, no
      more than `limit` tasks are running, however stale the claims' timestamps are. */
  lemma {:induction false} LimitBoundsRunning(db: Db, es: seq<Event>, limit: nat)
    requires Consistent(db) && |RunningTasks(db.tasks)| <= limit
    requires forall e | e in es :: Unskipped(e, limit)
    ensures |RunningTasks(After(db, es).tasks)| <= limit
    decreases |es|
  {
    hide Consistent, Apply, RunningTasks;
    if es == [] {
    } else {
      var front := es[..|es| - 1];
      LimitBoundsRunning(db, front, limit);
      RunKeeps(db, front);
      LimitStep(After(db, front), es[|es| - 1], limit);
    }
  }

  /** Claims share the limit, and claims and renewals know the time. */
  predicate Prompt(db: Db, e: Event, limit: nat) {
    && (e.Claim? ==> e.call.limit == limit && e.call.now == db.clock)
    && (e.Renew? ==> e.now == db.clock)
  }

  lemma LiveStep(db: Db, e: Event, limit: nat)
    requires Consistent(db) && Prompt(db, e, limit) && |Live(db.tasks, db.clock)| <= limit
    ensures |Live(Apply(db, e).tasks, Apply(db, e).clock)| <= limit
  {
    hide Consistent, ClaimedBy, Live, Claimed;
    var claimed: set<nat> := if e.Claim? then ClaimedBy(db.tasks, e.call) else {};
    LiveOnlyGrowsByClaims(db, e);
    UnionSize(Live(Apply(db, e).tasks, Apply(db, e).clock), Live(db.tasks, db.clock), claimed);
    if e.Claim? { ClaimBound(db.tasks, e.call, |Live(db.tasks, db.clock)|); }
  }

  lemma {:induction false} ClockAdvances(db: Db, e: Event)
    ensures Apply(db, e).clock >= db.clock
  {
    match e
    case CreateBatch(kind, requested) =>
      var selected := Selected(db.devices, requested);
      if EnqueuedAll(WithBatch(db, kind), selected, kind, db.nextBatch).Success? { LoopKeepsClock(WithBatch(db, kind), selected, kind, db.nextBatch); }
    case _ =>
  }

  lemma {:induction false} LoopKeepsClock(db: Db, ds: seq<nat>, kind: BatchType, b: nat)
    requires EnqueuedAll(db, ds, kind, b).Success?
    ensures EnqueuedAll(db, ds, kind, b).value.clock == db.clock
    decreases |ds|
  {
    hide HasItem, ActiveOf, ActiveTasks;
    if ds == [] {
    } else {
      LoopKeepsClock(db, ds[..|ds| - 1], kind, b);
    }
  }

  lemma LiveOnlyGrowsByClaims(db: Db, e: Event)
    requires Consistent(db) && (e.Renew? ==> e.now == db.clock)
    ensures Live(Apply(db, e).tasks, Apply(db, e).clock) <= Live(db.tasks, db.clock) + (if e.Claim? then ClaimedBy(db.tasks, e.call) else {})
  {
    hide Consistent, Apply, ClaimedBy;
    var after, clock := Apply(db, e).tasks, Apply(db, e).clock;
    ClockAdvances(db, e);
    forall t | t in Live(after, clock)
      ensures t in Live(db.tasks, db.clock) || (e.Claim? && t in ClaimedBy(db.tasks, e.call))
    {
      if t in db.tasks { EffectOnTask(db, e, t); } else { NewTasksArePending(db, e, t); }
    }
  }

  /** The global limit, any rows skipped: claims that know the time never take the live leases
      over the limit. */
  lemma {:induction false} LimitBoundsLive(db: Db, es: seq<Event>, limit: nat)
    requires Consistent(db) && |Live(db.tasks, db.clock)| <= limit
    requires forall n | 0 <= n < |es| :: Prompt(After(db, es[..n]), es[n], limit)
    ensures |Live(After(db, es).tasks, After(db, es).clock)| <= limit
    decreases |es|
  {
    hide Consistent, Apply, Live, Prompt;
    if es == [] {
    } else {
      var front := es[..|es| - 1];
      forall n | 0 <= n < |front| ensures Prompt(After(db, front[..n]), front[n], limit) {
        assert front[..n] == es[..n] && front[n] == es[n];
      }
      LimitBoundsLive(db, front, limit);
      RunKeeps(db, front);
      LiveStep(After(db, front), es[|es| - 1], limit);
    }
  }

  // --------------------------------------------------------- heartbeat bound

  /** `worker` holds `t`, whose lease runs `lease` past its last heartbeat. */
  predicate Leased(db: Db, t: nat, worker: string, lease: nat) {
    && t in db.tasks && db.tasks[t].status == Running && db.tasks[t].worker == Some(worker)
    && db.tasks[t].heartbeat.Some? && db.tasks[t].lease == Some(db.tasks[t].heartbeat.value + lease)
  }

  /** The last heartbeat of `t` is at most two periods ago. */
  predicate Beating(db: Db, t: nat, period: nat) {
    t in db.tasks && db.tasks[t].heartbeat.Some? ==> db.clock <= db.tasks[t].heartbeat.value + 2 * period
  }

  predicate UsesLease(e: Event, lease: nat) { (e.Claim? ==> e.call.lease == lease) && (e.Renew? ==> e.lease == lease) }

  /** Still held by `worker` in the same attempt, or settled in it. */
  predicate Undisturbed(db: Db, t: nat, worker: string, lease: nat, attempts: nat) {
    && t in db.tasks && db.tasks[t].attempts == attempts
    && (Leased(db, t, worker, lease) || !db.tasks[t].status.Active())
  }

  lemma HeartbeatStep(db: Db, e: Event, t: nat, worker: string, lease: nat, period: nat, attempts: nat)
    requires Consistent(db) && Timely(db, e) && UsesLease(e, lease) && 2 * period < lease
    requires Undisturbed(db, t, worker, lease, attempts) && Beating(db, t, period)
    ensures Undisturbed(Apply(db, e), t, worker, lease, attempts)
  {
    hide Consistent, Apply, ClaimedBy;
    EffectOnTask(db, e, t);
    if !db.tasks[t].status.Active() { SettledStays(db, e, t); }
  }

  lemma SettledStays(db: Db, e: Event, t: nat)
    requires Consistent(db) && t in db.tasks && !db.tasks[t].status.Active()
    ensures t in Apply(db, e).tasks && Apply(db, e).tasks[t] == db.tasks[t]
  {
    hide Consistent, Apply;
    StepKeeps(db, e);
  }

  /** One missed heartbeat is harmless: while a task's last heartbeat is never more than two
      periods old and twice the period is less than the lease, no claim of any worker takes the
      task away from its holder, whatever else happens. */
  lemma {:induction false} HeartbeatKeepsLease(db: Db, es: seq<Event>, t: nat, worker: string, lease: nat, period: nat)
    requires Consistent(db) && Leased(db, t, worker, lease) && 2 * period < lease
    requires TimelyRun(db, es) && forall e | e in es :: UsesLease(e, lease)
    requires forall n | 0 <= n < |es| :: Beating(After(db, es[..n]), t, period)
    ensures Undisturbed(After(db, es), t, worker, lease, db.tasks[t].attempts)
    decreases |es|
  {
    hide Consistent, Apply, Beating, Timely;
    if es == [] {
    } else {
      var front := es[..|es| - 1];
      forall n | 0 <= n < |front| ensures Beating(After(db, front[..n]), t, period) && Timely(After(db, front[..n]), front[n]) {
        assert front[..n] == es[..n] && front[n] == es[n];
      }
      HeartbeatKeepsLease(db, front, t, worker, lease, period);
      RunKeeps(db, front);
      HeartbeatStep(After(db, front), es[|es| - 1], t, worker, lease, period, db.tasks[t].attempts);
    }
  }

  /** One task, claimed by "a" at time 0 for twice `period`. */
  function LeasedDb(period: nat): Db {
    var task := Task(1, Manual, 100, Running, 0, Some(0), None, Some("a"), Some(2 * period), Some(0), 1, None, None);
    Db(map[1 := true], map[1 := task], map[], map[], map[], 0, 2, 1, 1, 1, 1)
  }

  /** The clock runs for two periods, then worker "b" claims. */
  function LateClaim(period: nat): seq<Event> {
    [Tick(2 * period), Claim(ClaimCall("b", 1, 1, 2 * period, 2 * period, {}, {}))]
  }

  lemma LateStates(period: nat)
    ensures var db, es := LeasedDb(period), LateClaim(period); var late := db.(clock := 2 * period);
      After(db, es[..0]) == db && After(db, es[..1]) == late && After(db, es) == Claimed(late, es[1].call)
  {
    hide Claimed, LeasedDb;
    var db, es := LeasedDb(period), LateClaim(period);
    assert es[..0] == [] && es[..1] == [es[0]] && es[..1][..0] == [];
    assert LeasedDb(period).clock == 0 by { ClockStartsAtZero(period); }
  }

  lemma ClockStartsAtZero(period: nat)
    ensures LeasedDb(period).clock == 0
  {
  }

  /** The bound is tight: with twice the period equal to the lease there is a run, meeting every
      other condition, in which the task is taken from its holder. */
  lemma LeaseMustExceedTwoPeriods(period: nat)
    ensures var db, es, lease := LeasedDb(period), LateClaim(period), 2 * period;
      && Consistent(db) && Leased(db, 1, "a", lease) && TimelyRun(db, es) && (forall e | e in es :: UsesLease(e, lease))
      && (forall n | 0 <= n < |es| :: Beating(After(db, es[..n]), 1, period))
      && !Undisturbed(After(db, es), 1, "a", lease, db.tasks[1].attempts)
  {
    hide Propagated, ClaimedBy, Claimed, After;
    var db, es, lease := LeasedDb(period), LateClaim(period), 2 * period;
    var late, c := db.(clock := lease), es[1].call;
    LateStates(period);
    assert ActiveTasks(db.tasks) == {1};
    ClaimTasks(late, c);
    assert 1 in Expired(late.tasks, c.now, c.lockedRunning);
    assert 1 !in ClaimedBy(late.tasks, c) ==> Claimed(late, c).tasks[1] == Reset(late.tasks[1]);
    assert 1 in ClaimedBy(late.tasks, c) ==> Claimed(late, c).tasks[1] == Begun(SweptFor(late.tasks, c)[1], c.worker, c.now, c.lease);
    assert SweptFor(late.tasks, c)[1] == Reset(late.tasks[1]);
  }

  // ---------------------------------------------------------- what renewing buys

  /** Held by `worker` in the same attempt at least until `until`, or settled in that attempt. */
  predicate HeldUntil(db: Db, t: nat, worker: string, until: nat, attempts: nat) {
    && t in db.tasks && db.tasks[t].attempts == attempts
    && ((db.tasks[t].status == Running && db.tasks[t].worker == Some(worker) && db.tasks[t].lease.Some? && db.tasks[t].lease.value >= until)
        || !db.tasks[t].status.Active())
  }

  /** Claims come before `until`, and no renewal shortens a lease to end before it. */
  predicate Within(e: Event, until: nat) { (e.Claim? ==> e.call.now < until) && (e.Renew? ==> e.now + e.lease >= until) }

  predicate AllWithin(es: seq<Event>, until: nat) { forall n | 0 <= n < |es| :: Within(es[n], until) }

  lemma HeldStep(db: Db, e: Event, t: nat, worker: string, until: nat, attempts: nat)
    requires Consistent(db) && HeldUntil(db, t, worker, until, attempts) && Within(e, until)
    ensures HeldUntil(Apply(db, e), t, worker, until, attempts)
  {
    hide Consistent, Apply, ClaimedBy;
    EffectOnTask(db, e, t);
    if !db.tasks[t].status.Active() { SettledStays(db, e, t); }
  }

  /** A renewal that does not report a task lost protects it: until the new lease ends, no claim
      of any worker takes the task away; it stays in this attempt until it is settled. */
  lemma {:induction false} RenewalProtects(db: Db, es: seq<Event>, worker: string, ids: set<nat>, lease: nat, now: nat, t: nat)
    requires Consistent(db) && t in ids && Owns(db.tasks, t, worker, now)
    requires AllWithin(es, now + lease)
    ensures HeldUntil(After(db, [Renew(worker, ids, lease, now)] + es), t, worker, now + lease, db.tasks[t].attempts)
    decreases |es|
  {
    hide Consistent, Apply, After;
    var all := [Renew(worker, ids, lease, now)] + es;
    if es == [] {
      AfterOne(db, Renew(worker, ids, lease, now));
      assert all == [Renew(worker, ids, lease, now)];
      EffectOnTask(db, Renew(worker, ids, lease, now), t);
    } else {
      var front := es[..|es| - 1];
      assert es == front + [es[|es| - 1]];
      RenewalProtects(db, front, worker, ids, lease, now, t);
      assert all[..|all| - 1] == [Renew(worker, ids, lease, now)] + front && all[|all| - 1] == es[|es| - 1];
      AfterLast(db, all);
      RunKeeps(db, all[..|all| - 1]);
      HeldStep(After(db, all[..|all| - 1]), es[|es| - 1], t, worker, now + lease, db.tasks[t].attempts);
    }
  }

  lemma AfterOne(db: Db, e: Event)
    ensures After(db, [e]) == Apply(db, e)
  {
    assert [e][..0] == [];
  }

  lemma AfterLast(db: Db, es: seq<Event>)
    requires es != []
    ensures After(db, es) == Apply(After(db, es[..|es| - 1]), es[|es| - 1])
  {
  }

  // --------------------------------------------------------- completed batches

  lemma CompletedItems(db: Db, b: nat, i: nat)
    requires Linked(db) && b in db.batches && db.batches[b].status == BatchCompleted
    requires i in db.items && db.items[i].batch == b
    ensures db.items[i].task in db.tasks && !db.tasks[db.items[i].task].status.Active()
  {
    assert InStep(db.batches[b], db.items, b) && ItemOk(db.items[i], db.tasks, db.batches);
    assert ItemsWith(db.items, b, Pending) == {} && ItemsWith(db.items, b, Running) == {};
    assert i !in ItemsWith(db.items, b, Pending) && i !in ItemsWith(db.items, b, Running);
  }

  /** Propagating changes of active tasks does not reach a completed batch. */
  lemma CompletedUntouched(db: Db, before: Tasks, changed: set<nat>, b: nat)
    requires Linked(db.(tasks := before)) && b in db.batches && db.batches[b].status == BatchCompleted
    requires forall t | t in changed :: t in before ==> before[t].status.Active()
    ensures b in Propagated(db, changed).batches && Propagated(db, changed).batches[b] == db.batches[b]
  {
    hide Linked, InStep, Recounted;
    forall i | i in db.items && db.items[i].batch == b ensures db.items[i].task !in changed {
      CompletedItems(db.(tasks := before), b, i);
    }
    assert b !in BatchesOf(db.items, changed);
  }

  lemma ClaimedAreActive(tasks: Tasks, c: ClaimCall)
    ensures forall t | t in Expired(tasks, c.now, c.lockedRunning) + ClaimedBy(tasks, c) :: t in tasks && tasks[t].status.Active()
  {
    hide ClaimOrder, IdsOf, ClaimLimit;
    var swept := SweptFor(tasks, c);
    WaitingOnly(swept, c.lockedPending, ClaimLimit(c.capacity, c.limit, |Live(swept, c.now)|));
  }

  /** Enqueueing into the batch puts a new item in it, or finishes it again at another time. */
  predicate Reopens(db: Db, e: Event, b: nat)
    requires b in db.batches
  {
    && e.Enqueue? && e.batch == Some(b) && Enqueued(db, e.device, e.trigger, e.priority, e.batch).Success?
    && (!HasItem(db.items, b, e.device) || db.batches[b].finished != Some(db.clock))
  }

  lemma EnqueueIntoOther(db: Db, e: Event, b: nat)
    requires e.Enqueue? && b in db.batches && e.batch != Some(b)
    ensures b in Apply(db, e).batches && Apply(db, e).batches[b] == db.batches[b]
  {
    hide Recounted, HasItem;
  }

  /** Enqueueing a device of the batch again leaves its counters alone but not its finish time. */
  lemma EnqueueAgain(db: Db, e: Event, b: nat)
    requires Consistent(db) && e.Enqueue? && e.batch == Some(b) && b in db.batches && db.batches[b].status == BatchCompleted
    requires Enqueued(db, e.device, e.trigger, e.priority, e.batch).Success? && HasItem(db.items, b, e.device)
    ensures b in Apply(db, e).batches && Apply(db, e).batches[b] == db.batches[b].(finished := Some(db.clock))
  {
    hide TallyOf, Sound, ItemsOk, OneItemPerDevice, Linked, HasItem;
    SessionDevice(db, e.device, e.trigger, e.priority);
    CompletedInStep(db, b);
  }

  lemma CompletedInStep(db: Db, b: nat)
    requires Linked(db) && b in db.batches
    ensures InStep(db.batches[b], db.items, b)
  {
    hide InStep;
  }

  lemma SessionDevice(db: Db, device: nat, trigger: Trigger, priority: int)
    requires WithTask(db, device, trigger, priority).Success?
    ensures var r := WithTask(db, device, trigger, priority).value;
      && r.1 in r.0.tasks && r.0.tasks[r.1].device == device && r.0.tasks[r.1].status.Active()
      && r.0 == db.(tasks := r.0.tasks, nextTask := r.0.nextTask)
  {
    var active := ActiveOf(db.tasks, device);
    if active != {} { assert MinOf(active) in active; }
  }

  /** A device new to the batch makes it larger. */
  lemma EnqueueNew(db: Db, e: Event, b: nat)
    requires Consistent(db) && e.Enqueue? && e.batch == Some(b) && b in db.batches
    requires Enqueued(db, e.device, e.trigger, e.priority, e.batch).Success? && !HasItem(db.items, b, e.device)
    ensures b in Apply(db, e).batches && Apply(db, e).batches[b].tally.total == db.batches[b].tally.total + 1
  {
    hide TallyOf, Sound, Linked, HasItem, InStep;
    SessionDevice(db, e.device, e.trigger, e.priority);
    var r := WithTask(db, e.device, e.trigger, e.priority).value;
    var item := Item(b, r.1, e.device, r.0.tasks[r.1].status);
    NextItemFree(db);
    AddedItem(db.items, db.nextItem, item);
    TallyTotal(db.items, b);
    TallyTotal(db.items[db.nextItem := item], b);
    CompletedInStep(db, b);
    InStepTally(db, b);
  }

  lemma NextItemFree(db: Db)
    requires Linked(db)
    ensures db.nextItem !in db.items
  {
    hide BatchesOk, ItemOk;
  }

  lemma InStepTally(db: Db, b: nat)
    requires b in db.batches && InStep(db.batches[b], db.items, b)
    ensures db.batches[b].tally == TallyOf(db.items, b)
  {
  }

  /** What can change a completed batch: exactly an accepted enqueue that names it and either
      brings a device new to it or comes at another time than its finish. */
  lemma {:induction false} CompletedChangesOnly(db: Db, e: Event, b: nat)
    requires Consistent(db) && b in db.batches && db.batches[b].status == BatchCompleted
    ensures b in Apply(db, e).batches
    ensures Apply(db, e).batches[b] != db.batches[b] <==> Reopens(db, e, b)
  {
    hide ItemsOk, OneItemPerDevice, BatchesOk, Sound, HasItem, ClaimedBy, Expired, Propagated, BatchCreated, Enqueued;
    match e
    case Enqueue(device, trigger, priority, batch) =>
      if batch != Some(b) {
        EnqueueIntoOther(db, e, b);
      } else if Enqueued(db, device, trigger, priority, batch).Success? {
        CompletedInStep(db, b);
        if HasItem(db.items, b, device) { EnqueueAgain(db, e, b); } else { EnqueueNew(db, e, b); }
      }
    case CreateBatch(kind, requested) => BatchAdmission(db, kind, requested);
    case Claim(c) =>
      if c.capacity > 0 {
        ClaimedAreActive(db.tasks, c);
        var expired, chosen := Expired(db.tasks, c.now, c.lockedRunning), ClaimedBy(db.tasks, c);
        CompletedUntouched(db.(tasks := Started(Swept(db.tasks, expired), chosen, c.worker, c.now, c.lease)), db.tasks, expired + chosen, b);
      }
    case Persist(worker, t, o, now) =>
      if Owns(db.tasks, t, worker, now) {
        CompletedUntouched(db.(tasks := db.tasks[t := Settled(db.tasks[t], o, db.nextRun)], runs := db.runs[db.nextRun := ScanRun(t, o.success)],
                               nextRun := db.nextRun + 1), db.tasks, {t}, b);
      }
    case Fail(worker, t, now) =>
      if Owns(db.tasks, t, worker, now) { CompletedUntouched(db.(tasks := db.tasks[t := Aborted(db.tasks[t], db.clock)]), db.tasks, {t}, b); }
    case Cancel(device) =>
      var active := ActiveOf(db.tasks, device);
      if active != {} && db.tasks[MinOf(active)].status != Running {
        var t := MinOf(active);
        CompletedUntouched(db.(tasks := db.tasks[t := CancelledTask(db.tasks[t], db.clock)]), db.tasks, {t}, b);
      }
    case _ =>
  }

  /** One device, scanned once for batch 1, which completed at time 7; it is now 9. */
  function FinishedDb(): Db {
    var task := Task(1, Batched, PRIORITY_BATCH, Status.Success, 5, Some(6), Some(7), None, None, None, 1, Some(1), None);
    Db(map[1 := true], map[1 := task], map[1 := Item(1, 1, 1, Status.Success)],
       map[1 := Batch(All, Tally(1, 0, 0, 1, 0), BatchCompleted, Some(7))], map[1 := ScanRun(1, true)], 9, 2, 2, 2, 2, 10)
  }

  lemma FinishedTally()
    ensures TallyOf(FinishedDb().items, 1) == Tally(1, 0, 0, 1, 0)
  {
    var items := FinishedDb().items;
    assert ItemsWith(items, 1, Status.Success) == {1};
    assert ItemsWith(items, 1, Pending) == {} && ItemsWith(items, 1, Running) == {} && ItemsWith(items, 1, Failed) == {} && ItemsWith(items, 1, Cancelled) == {};
  }

  /** Enqueueing the device into its completed batch once more moves the batch's finish time. */
  lemma FinishTimeCanMove()
    ensures var db, e := FinishedDb(), Enqueue(1, Manual, 100, Some(1));
      Consistent(db) && db.batches[1].status == BatchCompleted
      && 1 in Apply(db, e).batches && Apply(db, e).batches[1] == db.batches[1].(finished := Some(9)) != db.batches[1]
  {
    hide TallyOf, EnqueuedAll, Selected;
    var db, e := FinishedDb(), Enqueue(1, Manual, 100, Some(1));
    FinishedTally();
    assert ActiveTasks(db.tasks) == {} && ActiveOf(db.tasks, 1) == {};
    assert db.items[1].batch == 1 && HasItem(db.items, 1, 1);
    EnqueueAgain(db, e, 1);
  }

  /** Over runs: a completed batch that nothing is enqueued into stays as it is. */
  lemma {:induction false} CompletedStays(db: Db, es: seq<Event>, b: nat)
    requires Consistent(db) && b in db.batches && db.batches[b].status == BatchCompleted
    requires forall e | e in es :: e.Enqueue? ==> e.batch != Some(b)
    ensures b in After(db, es).batches && After(db, es).batches[b] == db.batches[b]
    decreases |es|
  {
    hide Consistent, Apply;
    if es == [] {
    } else {
      var front := es[..|es| - 1];
      CompletedStays(db, front, b);
      RunKeeps(db, front);
      CompletedChangesOnly(After(db, front), es[|es| - 1], b);
    }
  }

  /** In every reachable state the stored counters are a recount of the items, which mirror their
      tasks; they sum to the total, and status and finish time follow from them. */
  lemma BatchBookkeeping(db: Db, es: seq<Event>, b: nat)
    requires Consistent(db) && b in After(db, es).batches
    ensures var d := After(db, es); var tally := d.batches[b].tally;
      && tally.pending == CountOf(d.items, b, Pending) && tally.running == CountOf(d.items, b, Running)
      && tally.success == CountOf(d.items, b, Status.Success) && tally.failed == CountOf(d.items, b, Failed) + CountOf(d.items, b, Cancelled)
      && tally.total == |ItemsIn(d.items, b)| == tally.pending + tally.running + tally.success + tally.failed
      && (d.batches[b].status == BatchCompleted <==> tally.pending == 0 && tally.running == 0)
      && (d.batches[b].status == BatchPending <==> tally.pending == tally.total > 0)
      && (d.batches[b].finished.Some? <==> d.batches[b].status == BatchCompleted)
      && (forall i | i in d.items :: d.items[i].task in d.tasks && d.items[i].status == d.tasks[d.items[i].task].status)
  {
    hide After, Sound;
    RunKeeps(db, es);
    TallyTotal(After(db, es).items, b);
    var d := After(db, es);
    assert InStep(d.batches[b], d.items, b);
    forall i | i in d.items ensures d.items[i].task in d.tasks && d.items[i].status == d.tasks[d.items[i].task].status {
      assert ItemOk(d.items[i], d.tasks, d.batches);
    }
  }
}
