/** The transactions of the scan queue as methods that update the tables in place, each proved
    to have exactly the effect of its step in `ScanTasks`. */
module ScanQueue {
  import opened Wrappers
  import opened Ordering
  import opened ScanTasks
  import opened ScanTaskInvariants
  import opened ScanAdmission
  import Effects = ScanTaskEffects

  /** Items of the tasks `ts` take status `s`. */
  function ItemsSet(items: Items, ts: set<nat>, s: Status): Items {
    map i | i in items :: if items[i].task in ts then items[i].(status := s) else items[i]
  }

  lemma ItemsSetMore(items: Items, ts: set<nat>, t: nat, s: Status)
    ensures ItemsSet(ItemsSet(items, ts, s), {t}, s) == ItemsSet(items, ts + {t}, s)
    ensures BatchesOf(items, ts + {t}) == BatchesOf(items, ts) + BatchesOf(items, {t})
    ensures BatchesOf(ItemsSet(items, ts, s), {t}) == BatchesOf(items, {t})
  {
    SetKeepsBatches(items, ts, s, {t});
  }

  lemma SetKeepsBatches(items: Items, ts: set<nat>, s: Status, us: set<nat>)
    ensures BatchesOf(ItemsSet(items, ts, s), us) == BatchesOf(items, us)
  {
    var changed := ItemsSet(items, ts, s);
    forall b ensures b in BatchesOf(changed, us) <==> b in BatchesOf(items, us) {
      if b in BatchesOf(items, us) {
        var i :| i in items && items[i].task in us && items[i].batch == b;
        assert changed[i].batch == b;
      }
    }
  }

  lemma NothingSet(items: Items, s: Status)
    ensures ItemsSet(items, {}, s) == items && BatchesOf(items, {}) == {}
  {
  }

  lemma ItemsSetMirrors(items: Items, tasks: Tasks, t: nat)
    requires t in tasks
    ensures ItemsSet(items, {t}, tasks[t].status) == Mirrored(items, tasks, {t})
  {
  }

  function UpdatedItem(items: Items, ids: set<nat>, s: Status): Items {
    map i | i in items :: if i in ids then items[i].(status := s) else items[i]
  }

  function ItemsOf(items: Items, t: nat): set<nat> { set i | i in items && items[i].task == t }

  lemma OneMoreItem(items: Items, seen: set<nat>, i: nat, s: Status)
    requires i in items && i !in seen
    ensures UpdatedItem(items, seen, s)[i := items[i].(status := s)] == UpdatedItem(items, seen + {i}, s)
    ensures (set j | j in items && j in seen + {i} :: items[j].batch) == (set j | j in items && j in seen :: items[j].batch) + {items[i].batch}
  {
  }

  lemma EveryItem(items: Items, t: nat, s: Status)
    ensures UpdatedItem(items, ItemsOf(items, t), s) == ItemsSet(items, {t}, s)
    ensures (set j | j in items && j in ItemsOf(items, t) :: items[j].batch) == BatchesOf(items, {t})
  {
  }

  lemma NoItemYet(items: Items, s: Status)
    ensures UpdatedItem(items, {}, s) == items
  {
  }

  lemma RefreshedOne(batches: Batches, items: Items, ids: set<nat>, b: nat, clock: nat)
    requires b !in ids
    ensures var before, after := Refreshed(batches, items, ids, clock), Refreshed(batches, items, ids + {b}, clock);
      after == if b in batches then before[b := Recounted(before[b], items, b, clock)] else before
  {
    hide Recounted;
  }

  lemma RefreshedNone(batches: Batches, items: Items, clock: nat)
    ensures Refreshed(batches, items, {}, clock) == batches
  {
  }

  lemma SweptMore(tasks: Tasks, gone: set<nat>, t: nat)
    requires t in tasks && t !in gone
    ensures Swept(tasks, gone)[t := Reset(tasks[t])] == Swept(tasks, gone + {t})
    ensures Swept(tasks, gone)[t] == tasks[t]
  {
  }

  lemma NoneSwept(tasks: Tasks)
    ensures Swept(tasks, {}) == tasks
  {
  }

  lemma StartedMore(tasks: Tasks, chosen: set<nat>, t: nat, worker: string, now: nat, lease: nat)
    requires t in tasks && t !in chosen
    ensures Started(tasks, chosen, worker, now, lease)[t := Begun(tasks[t], worker, now, lease)] == Started(tasks, chosen + {t}, worker, now, lease)
    ensures Started(tasks, chosen, worker, now, lease)[t] == tasks[t]
  {
  }

  lemma NoneStarted(tasks: Tasks, worker: string, now: nat, lease: nat)
    ensures Started(tasks, {}, worker, now, lease) == tasks
  {
  }

  /** Resetting the expired tasks' items and then starting the chosen ones' is mirroring them all. */
  lemma ClaimMirrors(tasks: Tasks, items: Items, expired: set<nat>, chosen: set<nat>, worker: string, now: nat, lease: nat)
    requires expired <= tasks.Keys && chosen <= tasks.Keys
    ensures ItemsSet(ItemsSet(items, expired, Pending), chosen, Running)
         == Mirrored(items, Started(Swept(tasks, expired), chosen, worker, now, lease), expired + chosen)
    ensures BatchesOf(items, expired + chosen) == BatchesOf(items, expired) + BatchesOf(items, chosen)
  {
    forall b ensures b in BatchesOf(items, expired + chosen) <==> b in BatchesOf(items, expired) + BatchesOf(items, chosen) {
      if b in BatchesOf(items, chosen) {
        var i :| i in items && items[i].task in chosen && items[i].batch == b;
        assert items[i].task in expired + chosen;
      }
      if b in BatchesOf(items, expired) {
        var i :| i in items && items[i].task in expired && items[i].batch == b;
        assert items[i].task in expired + chosen;
      }
    }
  }

  lemma ExpiredKnown(tasks: Tasks, c: ClaimCall)
    ensures Expired(tasks, c.now, c.lockedRunning) <= tasks.Keys
  {
  }

  /** The ids of a claim, in the order they were taken. */
  predicate ListsIds(ids: seq<nat>, ranks: seq<Rank>) { |ids| == |ranks| && forall i | 0 <= i < |ids| :: ids[i] == ranks[i].id }

  lemma TakenSoFar(ranks: seq<Rank>, n: nat)
    requires n < |ranks|
    ensures IdsOf(ranks[..n + 1]) == IdsOf(ranks[..n]) + {ranks[n].id}
    ensures ranks[..0] == [] && IdsOf(ranks[..0]) == {}
  {
    forall x ensures x in IdsOf(ranks[..n + 1]) <==> x in IdsOf(ranks[..n]) + {ranks[n].id} {
      if x in IdsOf(ranks[..n]) { var r :| r in ranks[..n] && r.id == x; assert r in ranks[..n + 1]; }
      assert ranks[n] in ranks[..n + 1];
    }
  }

  lemma RanksAreDistinct(tasks: Tasks, locked: set<nat>, k: nat)
    ensures var r := ClaimOrder(tasks, locked, k);
      && (forall i | 0 <= i < |r| :: r[i].id in tasks)
      && (forall i, n | 0 <= i < n < |r| :: r[i].id != r[n].id)
      && (forall n | 0 <= n < |r| :: r[n].id !in IdsOf(r[..n]))
  {
    RankOrder();
    var r := ClaimOrder(tasks, locked, k);
    AscendingIsDistinct(r, RankLess);
    forall i | 0 <= i < |r| ensures r[i].id in tasks && r[i] == RankOf(tasks, r[i].id) {
      assert r[i] in r && r[i] in WaitingRanks(tasks, locked);
    }
    forall n | 0 <= n < |r| ensures r[n].id !in IdsOf(r[..n]) {
      forall q | q in r[..n] ensures q.id != r[n].id { var i :| 0 <= i < n && r[i] == q; }
    }
  }

  lemma {:induction false} PrefixAdmitted(db: Db, ds: seq<nat>, n: nat, kind: BatchType, b: nat)
    requires EnqueuedAll(db, ds, kind, b).Success? && n < |ds|
    ensures EnqueuedAll(db, ds[..n], kind, b).Success?
    ensures var d := EnqueuedAll(db, ds[..n], kind, b).value; var step := InSession(d, ds[n], TriggerOf(kind), PriorityOf(kind), Some(b));
      step.Success? && EnqueuedAll(db, ds[..n + 1], kind, b) == Result.Success(step.value.0)
    decreases |ds|
  {
    hide InSession;
    assert ds[..n + 1][..n] == ds[..n] && ds[..n + 1][n] == ds[n];
    if n == |ds| - 1 {
      assert ds[..n + 1] == ds;
    } else {
      var front := ds[..|ds| - 1];
      PrefixAdmitted(db, front, n, kind, b);
      assert front[..n] == ds[..n] && front[..n + 1] == ds[..n + 1] && front[n] == ds[n];
    }
  }

  datatype LeaseLost = LeaseLost(task: nat)

  class TaskTables {
    var devices: map<nat, bool>
    var tasks: Tasks
    var items: Items
    var batches: Batches
    var runs: map<nat, ScanRun>
    var clock: nat
    var nextTask: nat
    var nextItem: nat
    var nextBatch: nat
    var nextRun: nat
    const queueSize: nat

    constructor (devices: map<nat, bool>, queueSize: nat)
      ensures State() == Db(devices, map[], map[], map[], map[], 0, 1, 1, 1, 1, queueSize) && Consistent(State())
    {
      this.devices, this.queueSize := devices, queueSize;
      tasks, items, batches, runs := map[], map[], map[], map[];
      clock, nextTask, nextItem, nextBatch, nextRun := 0, 1, 1, 1, 1;
    }

    function State(): Db
      reads this
    {
      Db(devices, tasks, items, batches, runs, clock, nextTask, nextItem, nextBatch, nextRun, queueSize)
    }

    /** `refresh_scan_batches`. */
    method RefreshBatches(ids: set<nat>)
      modifies `batches
      ensures State() == Refreshing(old(State()), ids)
    {
      hide Recounted, Refreshed, StrictTotalOrder, Ascending;
      NatOrders();
      var order := Ordered(ids, NatLess);
      AscendingIsDistinct(order, NatLess);
      var n := 0;
      ghost var done: set<nat> := {};
      RefreshedNone(batches, items, clock);
      while n < |order|
        invariant 0 <= n <= |order| && done == set i | 0 <= i < n :: order[i]
        invariant batches == Refreshed(old(batches), items, done, clock)
      {
        var b := order[n];
        RefreshedOne(old(batches), items, done, b, clock);
        RefreshedKeys(old(batches), items, done, clock);
        if b in batches { batches := batches[b := Recounted(batches[b], items, b, clock)]; }
        done := done + {b};
        n := n + 1;
      }
      assert done == ids by {
        forall x ensures x in done <==> x in ids { assert x in order <==> x in ids; }
      }
    }

    /** The loop over `task.items`: each takes the status, its batch is noted. */
    method SetItemStatus(t: nat, s: Status) returns (touched: set<nat>)
      modifies `items
      ensures items == ItemsSet(old(items), {t}, s) && touched == BatchesOf(old(items), {t})
    {
      hide ItemsSet, UpdatedItem, BatchesOf;
      touched := {};
      var todo := ItemsOf(items, t);
      ghost var seen: set<nat> := {};
      NoItemYet(items, s);
      while todo != {}
        invariant todo <= ItemsOf(old(items), t) && seen == ItemsOf(old(items), t) - todo
        invariant items == UpdatedItem(old(items), seen, s)
        invariant touched == set j | j in old(items) && j in seen :: old(items)[j].batch
        decreases |todo|
      {
        var i: nat :| i in todo;
        OneMoreItem(old(items), seen, i, s);
        UpdatedKept(old(items), seen, i, s);
        items := items[i := items[i].(status := s)];
        touched := touched + {items[i].batch};
        todo, seen := todo - {i}, seen + {i};
      }
      EveryItem(old(items), t, s);
      assert seen == ItemsOf(old(items), t);
    }

    /** Shared tail of every settlement: mirror the task's items, refresh their batches. */
    method Propagate(t: nat)
      requires t in tasks
      modifies `items, `batches
      ensures State() == Propagated(old(State()), {t})
    {
      hide ItemsSet, Mirrored, Refreshed, BatchesOf;
      ItemsSetMirrors(items, tasks, t);
      var touched := SetItemStatus(t, tasks[t].status);
      RefreshBatches(touched);
    }

    /** First half of `_enqueue_in_session`: the device's active task, or a new one. */
    method FindOrAddTask(device: nat, trigger: Trigger, priority: int) returns (r: Result<nat, Refusal>)
      modifies `tasks, `nextTask
      ensures match WithTask(old(State()), device, trigger, priority)
        case Failure(e) => r == Failure(e) && State() == old(State())
        case Success(p) => r == Result.Success(p.1) && State() == p.0 && p.1 in tasks
    {
      hide ActiveOf, ActiveTasks;
      if device !in devices { return Failure(NoDevice); }
      if !devices[device] { return Failure(CollectionDisabled); }
      var active := ActiveOf(tasks, device);
      if active == {} {
        if |ActiveTasks(tasks)| >= queueSize { return Failure(QueueFull); }
        tasks := tasks[nextTask := NewTask(device, trigger, priority, clock)];
        nextTask := nextTask + 1;
        return Result.Success(nextTask - 1);
      }
      var t := MinOf(active);
      ActiveKnown(tasks, device, t);
      ghost var before := tasks;
      if priority > tasks[t].priority { tasks := tasks[t := tasks[t].(priority := priority, trigger := trigger)]; }
      assert tasks == before[t := Bumped(before[t], trigger, priority)];
      r := Result.Success(t);
    }

    /** `_enqueue_in_session`; a refusal rolls back. */
    method EnqueueInSession(device: nat, trigger: Trigger, priority: int, batch: Option<nat>) returns (r: Result<nat, Refusal>)
      modifies `tasks, `nextTask, `items, `nextItem
      ensures match InSession(old(State()), device, trigger, priority, batch)
        case Failure(e) => r == Failure(e) && State() == old(State())
        case Success(p) => r == Result.Success(p.1) && State() == p.0
    {
      hide HasItem, WithTask;
      var saved, savedNext := tasks, nextTask;
      r := FindOrAddTask(device, trigger, priority);
      if r.Failure? || batch.None? { return; }
      var t := r.value;
      if !HasItem(items, batch.value, tasks[t].device) {
        if batch.value !in batches {
          tasks, nextTask := saved, savedNext;
          return Failure(NoBatch);
        }
        items := items[nextItem := Item(batch.value, t, tasks[t].device, tasks[t].status)];
        nextItem := nextItem + 1;
      }
    }

    /** `enqueue_device`. */
    method EnqueueDevice(device: nat, trigger: Trigger, priority: int, batch: Option<nat>) returns (r: Result<nat, Refusal>)
      modifies this
      ensures State() == Apply(old(State()), Enqueue(device, trigger, priority, batch))
      ensures Effects.Answers(old(State()), device, batch, r, tasks)
    {
      hide InSession, Refreshed, Effects.Answers;
      Effects.EnqueueAnswers(State(), device, trigger, priority, batch);
      r := EnqueueInSession(device, trigger, priority, batch);
      if r.Success? && batch.Some? { RefreshBatches({batch.value}); }
    }

    /** `create_batch`. */
    method CreateScanBatch(kind: BatchType, requested: seq<nat>) returns (r: Result<nat, Refusal>)
      requires Consistent(State())
      modifies this
      ensures State() == Apply(old(State()), CreateBatch(kind, requested))
      ensures r == if Overfull(old(State()), Selected(old(devices), requested)) then Failure(QueueFull) else Result.Success(old(nextBatch))
    {
      hide InSession, Refreshed, Selected, ActiveTasks, ActiveDevices, Consistent;
      var selected := Selected(devices, requested);
      if |ActiveTasks(tasks)| + |selected| - |ActiveDevices(tasks, selected)| > queueSize { return Failure(QueueFull); }
      ghost var start := WithBatch(State(), kind);
      BatchAdmission(State(), kind, requested);
      var b := nextBatch;
      batches := batches[b := EmptyBatch(kind)];
      nextBatch := nextBatch + 1;
      var n := 0;
      while n < |selected|
        invariant 0 <= n <= |selected|
        invariant EnqueuedAll(start, selected[..n], kind, b) == Result.Success(State())
      {
        PrefixAdmitted(start, selected, n, kind, b);
        var admitted := EnqueueInSession(selected[n], TriggerOf(kind), PriorityOf(kind), Some(b));
        assert admitted.Success?;
        n := n + 1;
      }
      assert selected[..n] == selected;
      RefreshBatches({b});
      r := Result.Success(b);
    }

    /** The expiry sweep of a claim. */
    method Sweep(c: ClaimCall) returns (touched: set<nat>)
      modifies `tasks, `items
      ensures tasks == SweptFor(old(tasks), c)
      ensures items == ItemsSet(old(items), Expired(old(tasks), c.now, c.lockedRunning), Pending)
      ensures touched == BatchesOf(old(items), Expired(old(tasks), c.now, c.lockedRunning))
    {
      hide Expired, ItemsSet, BatchesOf, Swept;
      touched := {};
      ghost var expired := Expired(tasks, c.now, c.lockedRunning);
      var todo := Expired(tasks, c.now, c.lockedRunning);
      ghost var seen: set<nat> := {};
      NoneSwept(tasks);
      NothingSet(items, Pending);
      ExpiredKnown(tasks, c);
      while todo != {}
        invariant todo <= expired && seen == expired - todo
        invariant tasks == Swept(old(tasks), seen)
        invariant items == ItemsSet(old(items), seen, Pending) && touched == BatchesOf(old(items), seen)
        decreases |todo|
      {
        var t: nat :| t in todo;
        SweptMore(old(tasks), seen, t);
        SweptKeys(old(tasks), seen);
        ItemsSetMore(old(items), seen, t, Pending);
        tasks := tasks[t := tasks[t].(status := Pending, worker := None, lease := None, heartbeat := None)];
        var more := SetItemStatus(t, Pending);
        touched := touched + more;
        todo, seen := todo - {t}, seen + {t};
      }
      assert seen == expired;
    }

    /** Starts the chosen tasks, in claim order. */
    method StartTasks(ranks: seq<Rank>, c: ClaimCall) returns (touched: set<nat>, ids: seq<nat>)
      requires forall i | 0 <= i < |ranks| :: ranks[i].id in tasks && ranks[i].id !in IdsOf(ranks[..i])
      modifies `tasks, `items
      ensures tasks == Started(old(tasks), IdsOf(ranks), c.worker, c.now, c.lease)
      ensures items == ItemsSet(old(items), IdsOf(ranks), Running) && touched == BatchesOf(old(items), IdsOf(ranks))
      ensures ListsIds(ids, ranks)
    {
      hide ItemsSet, BatchesOf, Started, IdsOf;
      touched, ids := {}, [];
      NoneStarted(tasks, c.worker, c.now, c.lease);
      NothingSet(items, Running);
      NoRanks();
      var n := 0;
      while n < |ranks|
        invariant 0 <= n <= |ranks| && |ids| == n && forall i | 0 <= i < n :: ids[i] == ranks[i].id
        invariant tasks == Started(old(tasks), IdsOf(ranks[..n]), c.worker, c.now, c.lease)
        invariant items == ItemsSet(old(items), IdsOf(ranks[..n]), Running) && touched == BatchesOf(old(items), IdsOf(ranks[..n]))
      {
        var t := ranks[n].id;
        TakenSoFar(ranks, n);
        StartedMore(old(tasks), IdsOf(ranks[..n]), t, c.worker, c.now, c.lease);
        StartedKeys(old(tasks), IdsOf(ranks[..n]), c.worker, c.now, c.lease);
        ItemsSetMore(old(items), IdsOf(ranks[..n]), t, Running);
        var task := tasks[t];
        tasks := tasks[t := task.(status := Running, worker := Some(c.worker), started := if task.started.Some? then task.started else Some(c.now),
                                  heartbeat := Some(c.now), lease := Some(c.now + c.lease), attempts := task.attempts + 1)];
        var more := SetItemStatus(t, Running);
        touched := touched + more;
        ids := ids + [t];
        n := n + 1;
      }
      assert ranks[..n] == ranks;
    }

    /** `claim_scan_tasks`. */
    method ClaimScanTasks(c: ClaimCall) returns (ids: seq<nat>)
      modifies this
      ensures State() == Apply(old(State()), Claim(c))
      ensures ListsIds(ids, if c.capacity <= 0 then [] else ClaimedRanks(old(tasks), c))
      ensures c.capacity > 0 ==>
        exists taken :: Effects.ClaimTakes(old(tasks), tasks, c, taken) && Effects.ListsTaken(old(tasks), taken, ids)
    {
      hide Effects.ClaimTakes, Effects.ListsTaken, Expired, ItemsSet, BatchesOf, Started, Swept, IdsOf, Mirrored, Refreshed, ClaimOrder, Live;
      if c.capacity <= 0 { return []; }
      ghost var expired := Expired(tasks, c.now, c.lockedRunning);
      ExpiredKnown(tasks, c);
      SweptKeys(tasks, expired);
      var touched := Sweep(c);
      var k := ClaimLimit(c.capacity, c.limit, |Live(tasks, c.now)|);
      RanksAreDistinct(tasks, c.lockedPending, k);
      var ranks := ClaimOrder(tasks, c.lockedPending, k);
      RankIds(tasks, ranks);
      ClaimMirrors(old(tasks), old(items), expired, IdsOf(ranks), c.worker, c.now, c.lease);
      SetKeepsBatches(old(items), expired, Pending, IdsOf(ranks));
      var more;
      more, ids := StartTasks(ranks, c);
      RefreshBatches(touched + more);
      Effects.ClaimIsComplete(old(State()), c);
      Effects.ClaimIsListed(old(tasks), c, ids);
    }

    /** `renew_scan_leases`: a requested task that is not returned is held, with its lease counted
        from `now`; a returned one was not held any more; nothing else changes. */
    method RenewScanLeases(worker: string, ids: set<nat>, lease: nat, now: nat) returns (lost: set<nat>)
      modifies `tasks
      ensures State() == Apply(old(State()), Renew(worker, ids, lease, now))
      ensures lost <= ids && tasks.Keys == old(tasks).Keys
      ensures forall t | t in ids && t !in lost ::
        && t in tasks && tasks[t] == old(tasks)[t].(heartbeat := Some(now), lease := Some(now + lease))
        && tasks[t].status == Running && tasks[t].worker == Some(worker)
      ensures forall t | t in tasks && (t !in ids || t in lost) :: tasks[t] == old(tasks)[t]
      ensures forall t | t in lost && t in tasks && tasks[t].status == Running && tasks[t].worker == Some(worker) ::
        tasks[t].lease.None? || tasks[t].lease.value <= now
    {
      if ids == {} {
        assert Renewed(tasks, {}, worker, now, lease) == tasks;
        return {};
      }
      lost := ids - Owned(tasks, ids, worker, now);
      tasks := Renewed(tasks, ids, worker, now, lease);
    }

    /** `_persist_outcome`. */
    method PersistOutcome(worker: string, t: nat, o: Outcome, now: nat) returns (r: Result<bool, LeaseLost>)
      modifies this
      ensures State() == Apply(old(State()), Persist(worker, t, o, now))
      ensures r == if Owns(old(tasks), t, worker, now) then Result.Success(o.success) else Failure(LeaseLost(t))
    {
      hide Propagated;
      if !Owns(tasks, t, worker, now) { return Failure(LeaseLost(t)); }
      var run := nextRun;
      runs := runs[run := ScanRun(t, o.success)];
      nextRun := nextRun + 1;
      tasks := tasks[t := tasks[t].(run := Some(run), finished := Some(o.finished), error := o.error,
                                    status := if o.success then Status.Success else Failed,
                                    worker := None, lease := None, heartbeat := None)];
      Propagate(t);
      r := Result.Success(o.success);
    }

    /** The end of `_execute_task`: persist, or on a transaction conflict, whose attempts were all
        rolled back, persist a failed outcome instead. */
    method PersistWithFallback(worker: string, t: nat, o: Outcome, now: nat, conflict: bool, failed: Outcome, later: nat)
      requires !failed.success
      modifies this
      ensures State() == After(old(State()), if conflict then [RolledBack(Persist(worker, t, o, now)), Persist(worker, t, failed, later)]
                                             else [Persist(worker, t, o, now)])
    {
      hide Persisted;
      TwoSteps(State(), RolledBack(Persist(worker, t, o, now)), Persist(worker, t, failed, later));
      OneStep(State(), Persist(worker, t, o, now));
      var r;
      if conflict { r := PersistOutcome(worker, t, failed, later); } else { r := PersistOutcome(worker, t, o, now); }
    }

    /** `_fail_unexpected_task`. */
    method FailUnexpectedTask(worker: string, t: nat, now: nat) returns (r: Result<(), LeaseLost>)
      modifies this
      ensures State() == Apply(old(State()), Fail(worker, t, now))
      ensures r == if Owns(old(tasks), t, worker, now) then Result.Success(()) else Failure(LeaseLost(t))
    {
      hide Propagated;
      if !Owns(tasks, t, worker, now) { return Failure(LeaseLost(t)); }
      tasks := tasks[t := tasks[t].(status := Failed, error := Some(INTERNAL_ERROR), finished := Some(clock),
                                    worker := None, lease := None, heartbeat := None)];
      Propagate(t);
      r := Result.Success(());
    }

    /** `cancel_device`. */
    method CancelDevice(device: nat) returns (done: bool)
      modifies this
      ensures State() == Apply(old(State()), Cancel(device))
      ensures OneActive(old(tasks)) ==> (done <==> ActiveOf(tasks, device) == {})
      ensures !done ==> State() == old(State())
    {
      hide Propagated, ActiveOf;
      var active := ActiveOf(tasks, device);
      if active == {} { return true; }
      var t := MinOf(active);
      ActiveKnown(tasks, device, t);
      CancelLeavesNone(tasks, device, t, clock);
      if tasks[t].status == Running { return false; }
      tasks := tasks[t := tasks[t].(status := Cancelled, finished := Some(clock))];
      Propagate(t);
      done := true;
    }
  }

  lemma OneStep(db: Db, e: Event)
    ensures After(db, [e]) == Apply(db, e)
  {
    assert [e][..0] == [];
  }

  lemma TwoSteps(db: Db, e: Event, f: Event)
    ensures After(db, [e, f]) == Apply(Apply(db, e), f)
  {
    assert [e, f][..1] == [e];
    OneStep(db, e);
  }

  lemma ActiveKnown(tasks: Tasks, device: nat, t: nat)
    requires t in ActiveOf(tasks, device)
    ensures t in tasks && tasks[t].device == device && tasks[t].status.Active()
  {
  }

  lemma CancelLeavesNone(tasks: Tasks, device: nat, t: nat, clock: nat)
    requires t in ActiveOf(tasks, device)
    ensures OneActive(tasks) ==> ActiveOf(tasks[t := CancelledTask(tasks[t], clock)], device) == {}
  {
  }

  lemma RankIds(tasks: Tasks, ranks: seq<Rank>)
    requires forall i | 0 <= i < |ranks| :: ranks[i].id in tasks
    ensures IdsOf(ranks) <= tasks.Keys
  {
  }

  lemma NoRanks()
    ensures IdsOf([]) == {}
  {
  }

  lemma SweptKeys(tasks: Tasks, gone: set<nat>)
    ensures Swept(tasks, gone).Keys == tasks.Keys
  {
  }

  lemma StartedKeys(tasks: Tasks, chosen: set<nat>, worker: string, now: nat, lease: nat)
    ensures Started(tasks, chosen, worker, now, lease).Keys == tasks.Keys
  {
  }

  lemma UpdatedKept(items: Items, seen: set<nat>, i: nat, s: Status)
    requires i in items && i !in seen
    ensures i in UpdatedItem(items, seen, s) && UpdatedItem(items, seen, s)[i] == items[i]
  {
  }

  lemma RefreshedKeys(batches: Batches, items: Items, ids: set<nat>, clock: nat)
    ensures Refreshed(batches, items, ids, clock).Keys == batches.Keys
  {
  }
}
