/** What every transaction on the task table keeps: task fields match task statuses, items
    mirror their tasks, stored batch counters equal a recount, runs and settled tasks are in
    bijection, each device has one active task, and the queue is never over its size. */
module ScanTaskInvariants {
  import opened Wrappers
  import opened Ordering
  import opened ScanTasks

  predicate TaskOk(t: Task) {
    && (t.worker.Some? <==> t.status == Running) && (t.lease.Some? <==> t.status == Running) && (t.heartbeat.Some? <==> t.status == Running)
    && (t.finished.Some? <==> !t.status.Active())
    && (t.run.Some? ==> t.status == Status.Success || t.status == Failed) && (t.status == Status.Success ==> t.run.Some?)
    && (t.started.Some? <==> t.attempts > 0) && (t.status == Running ==> t.attempts > 0)
  }

  ghost predicate TasksOk(tasks: Tasks, nextTask: nat) { forall t | t in tasks :: t < nextTask && TaskOk(tasks[t]) }

  ghost predicate OneActive(tasks: Tasks) {
    forall t, u | t in tasks && u in tasks && tasks[t].status.Active() && tasks[u].status.Active() && tasks[t].device == tasks[u].device :: t == u
  }

  predicate ItemOk(item: Item, tasks: Tasks, batches: Batches) {
    item.batch in batches && item.task in tasks && item.device == tasks[item.task].device && item.status == tasks[item.task].status
  }

  ghost predicate ItemsOk(items: Items, tasks: Tasks, batches: Batches, nextItem: nat) {
    forall i | i in items :: i < nextItem && ItemOk(items[i], tasks, batches)
  }

  ghost predicate OneItemPerDevice(items: Items) {
    forall i, j | i in items && j in items && items[i].batch == items[j].batch && items[i].device == items[j].device :: i == j
  }

  /** Counters equal a recount, and status and finish time follow from them. */
  predicate InStep(batch: Batch, items: Items, b: nat) {
    batch.tally == TallyOf(items, b) && batch.status == StatusOf(batch.tally) && (batch.finished.Some? <==> batch.status == BatchCompleted)
  }

  ghost predicate BatchesOk(batches: Batches, items: Items, nextBatch: nat) {
    forall b | b in batches :: b < nextBatch && InStep(batches[b], items, b)
  }

  ghost predicate RunsOk(runs: map<nat, ScanRun>, tasks: Tasks, nextRun: nat) {
    && (forall r | r in runs :: r < nextRun && runs[r].task in tasks && tasks[runs[r].task].run == Some(r)
                               && (runs[r].success <==> tasks[runs[r].task].status == Status.Success))
    && (forall t | t in tasks && tasks[t].run.Some? :: tasks[t].run.value in runs && runs[tasks[t].run.value].task == t)
  }

  predicate HasRoom(tasks: Tasks, queueSize: nat) { |ActiveTasks(tasks)| <= queueSize }

  ghost predicate Linked(db: Db) {
    && ItemsOk(db.items, db.tasks, db.batches, db.nextItem) && OneItemPerDevice(db.items)
    && BatchesOk(db.batches, db.items, db.nextBatch)
  }

  ghost predicate Sound(db: Db) {
    && TasksOk(db.tasks, db.nextTask) && OneActive(db.tasks) && RunsOk(db.runs, db.tasks, db.nextRun)
    && HasRoom(db.tasks, db.queueSize)
  }

  ghost predicate Consistent(db: Db) { Sound(db) && Linked(db) }

  // --------------------------------------------------------- one task's life

  /** Nothing a task went through is undone, and a settled task never changes. */
  predicate TaskStep(a: Task, b: Task) {
    && b.device == a.device && b.created == a.created && b.attempts >= a.attempts && b.priority >= a.priority
    && (!a.status.Active() ==> b == a)
  }

  ghost predicate Grows(before: Tasks, after: Tasks) {
    before.Keys <= after.Keys && forall t | t in before :: TaskStep(before[t], after[t])
  }

  /** The same tasks, none of them active that was not. */
  ghost predicate Shrinks(before: Tasks, after: Tasks) {
    && after.Keys == before.Keys
    && forall t | t in before :: TaskStep(before[t], after[t]) && (after[t].status.Active() ==> before[t].status.Active())
  }

  lemma ShrinkKeepsActive(before: Tasks, after: Tasks, queueSize: nat)
    requires Shrinks(before, after) && OneActive(before) && HasRoom(before, queueSize)
    ensures OneActive(after) && HasRoom(after, queueSize) && |ActiveTasks(after)| <= |ActiveTasks(before)|
  {
    SubsetSize(ActiveTasks(after), ActiveTasks(before));
  }

  // ------------------------------------------------------- the counters agree

  lemma TallyLocal(items: Items, others: Items, b: nat)
    requires forall i :: (i in items && items[i].batch == b) <==> (i in others && others[i].batch == b)
    requires forall i | i in items && items[i].batch == b :: others[i].status == items[i].status
    ensures TallyOf(others, b) == TallyOf(items, b)
  {
    forall s ensures ItemsWith(items, b, s) == ItemsWith(others, b, s) {
      forall i ensures i in ItemsWith(items, b, s) <==> i in ItemsWith(others, b, s) {}
    }
  }

  lemma RecountInStep(batch: Batch, items: Items, b: nat, clock: nat)
    ensures InStep(Recounted(batch, items, b, clock), items, b)
  {
  }

  lemma RefreshKeeps(batches: Batches, items: Items, others: Items, ids: set<nat>, clock: nat, nextBatch: nat)
    requires BatchesOk(batches, items, nextBatch)
    requires forall b | b in batches && b !in ids :: TallyOf(others, b) == TallyOf(items, b)
    ensures BatchesOk(Refreshed(batches, others, ids, clock), others, nextBatch)
  {
    hide InStep, TallyOf;
    var updated := Refreshed(batches, others, ids, clock);
    forall b | b in updated ensures b < nextBatch && InStep(updated[b], others, b) {
      if b in ids { RecountInStep(batches[b], others, b, clock); } else { InStepMoves(batches[b], items, others, b); }
    }
  }

  lemma InStepMoves(batch: Batch, items: Items, others: Items, b: nat)
    requires InStep(batch, items, b) && TallyOf(others, b) == TallyOf(items, b)
    ensures InStep(batch, others, b)
  {
  }

  lemma MirrorTally(items: Items, tasks: Tasks, changed: set<nat>, b: nat)
    requires b !in BatchesOf(items, changed)
    ensures TallyOf(Mirrored(items, tasks, changed), b) == TallyOf(items, b)
  {
    hide TallyOf;
    var others := Mirrored(items, tasks, changed);
    forall i | i in items && items[i].batch == b ensures others[i] == items[i] {}
    TallyLocal(items, others, b);
  }

  /** Mirroring the changed tasks and refreshing their batches puts everything back in step. */
  lemma PropagateKeeps(db: Db, before: Tasks, changed: set<nat>)
    requires Linked(db.(tasks := before)) && db.tasks.Keys == before.Keys
    requires forall t | t in before :: db.tasks[t].device == before[t].device
    requires forall t | t in before && t !in changed :: db.tasks[t].status == before[t].status
    ensures Linked(Propagated(db, changed))
  {
    hide TallyOf, InStep;
    var d := Propagated(db, changed);
    forall b | b in db.batches && b !in BatchesOf(db.items, changed) ensures TallyOf(d.items, b) == TallyOf(db.items, b) {
      MirrorTally(db.items, db.tasks, changed, b);
    }
    RefreshKeeps(db.batches, db.items, d.items, BatchesOf(db.items, changed), db.clock, db.nextBatch);
    assert forall i | i in db.items :: ItemOk(db.items[i], before, db.batches);
    assert ItemsOk(d.items, d.tasks, d.batches, d.nextItem);
  }

  // ---------------------------------------------------------------- each step

  lemma ChangedOnly(db: Db, tasks: Tasks, runs: map<nat, ScanRun>, nextRun: nat, changed: set<nat>)
    requires Consistent(db) && Shrinks(db.tasks, tasks)
    requires TasksOk(tasks, db.nextTask) && RunsOk(runs, tasks, nextRun)
    requires forall t | t in tasks && t !in changed :: tasks[t].status == db.tasks[t].status
    ensures Consistent(Propagated(db.(tasks := tasks, runs := runs, nextRun := nextRun), changed))
  {
    hide TaskOk, BatchesOk, ItemsOk, OneItemPerDevice, OneActive, HasRoom, RunsOk;
    ShrinkKeepsActive(db.tasks, tasks, db.queueSize);
    PropagateKeeps(db.(tasks := tasks, runs := runs, nextRun := nextRun), db.tasks, changed);
  }

  lemma RunsMove(runs: map<nat, ScanRun>, before: Tasks, after: Tasks, nextRun: nat)
    requires RunsOk(runs, before, nextRun) && after.Keys == before.Keys
    requires forall t | t in before :: after[t].run == before[t].run && (after[t].status == Status.Success <==> before[t].status == Status.Success)
    ensures RunsOk(runs, after, nextRun)
  {
  }

  lemma WaitingOnly(tasks: Tasks, locked: set<nat>, k: nat)
    ensures forall t | t in IdsOf(ClaimOrder(tasks, locked, k)) :: t in Waiting(tasks, locked)
  {
    RankOrder();
    forall t | t in IdsOf(ClaimOrder(tasks, locked, k)) ensures t in Waiting(tasks, locked) {
      var r :| r in ClaimOrder(tasks, locked, k) && r.id == t;
      assert r in WaitingRanks(tasks, locked);
    }
  }

  /** A claim only resets expired running tasks and only starts pending ones. */
  lemma ClaimTasks(db: Db, c: ClaimCall)
    requires c.capacity > 0
    ensures var d := Claimed(db, c); var expired, chosen := Expired(db.tasks, c.now, c.lockedRunning), ClaimedBy(db.tasks, c);
      && d.tasks.Keys == db.tasks.Keys
      && (forall t | t in chosen :: t in db.tasks && SweptFor(db.tasks, c)[t].status == Pending && d.tasks[t] == Begun(SweptFor(db.tasks, c)[t], c.worker, c.now, c.lease))
      && (forall t | t in expired && t !in chosen :: d.tasks[t] == Reset(db.tasks[t]))
      && (forall t | t in db.tasks && t !in expired && t !in chosen :: d.tasks[t] == db.tasks[t])
      && (forall t | t in chosen && t !in expired :: SweptFor(db.tasks, c)[t] == db.tasks[t])
  {
    hide ClaimOrder, ClaimLimit, Mirrored, Refreshed, IdsOf;
    var swept := SweptFor(db.tasks, c);
    WaitingOnly(swept, c.lockedPending, ClaimLimit(c.capacity, c.limit, |Live(swept, c.now)|));
  }

  lemma ClaimKeeps(db: Db, c: ClaimCall)
    requires Consistent(db)
    ensures Consistent(Claimed(db, c))
    ensures Shrinks(db.tasks, Claimed(db, c).tasks)
  {
    hide ClaimedBy, Expired, Propagated, Linked, OneActive, HasRoom, RunsOk, TaskOk, Swept, Started;
    if c.capacity > 0 {
      var expired, chosen := Expired(db.tasks, c.now, c.lockedRunning), ClaimedBy(db.tasks, c);
      var tasks := Started(Swept(db.tasks, expired), chosen, c.worker, c.now, c.lease);
      PropagatedTasks(db.(tasks := tasks), expired + chosen);
      ClaimedTasks(db, c);
      RunsMove(db.runs, db.tasks, tasks, db.nextRun);
      ChangedOnly(db, tasks, db.runs, db.nextRun, expired + chosen);
    }
  }

  /** What a claim does to one task. */
  predicate ClaimStep(before: Task, after: Task, c: ClaimCall) {
    || after == before
    || (before.status == Running && after == Reset(before))
    || (before.status == Running && after == Begun(Reset(before), c.worker, c.now, c.lease))
    || (before.status == Pending && after == Begun(before, c.worker, c.now, c.lease))
  }

  lemma ClaimStepKeeps(before: Task, after: Task, c: ClaimCall)
    requires TaskOk(before) && ClaimStep(before, after, c)
    ensures TaskOk(after) && TaskStep(before, after) && after.run == before.run
    ensures after.status.Active() <==> before.status.Active()
    ensures after.status == Status.Success <==> before.status == Status.Success
  {
  }

  lemma ClaimSteps(db: Db, c: ClaimCall, t: nat)
    requires c.capacity > 0 && t in db.tasks
    ensures var d := Claimed(db, c);
      && t in d.tasks && ClaimStep(db.tasks[t], d.tasks[t], c)
      && (t !in Expired(db.tasks, c.now, c.lockedRunning) && t !in ClaimedBy(db.tasks, c) ==> d.tasks[t] == db.tasks[t])
      && (t in ClaimedBy(db.tasks, c) ==> d.tasks[t].status == Running && d.tasks[t].worker == Some(c.worker))
      && d.tasks[t].attempts == db.tasks[t].attempts + (if t in ClaimedBy(db.tasks, c) then 1 else 0)
  {
    hide ClaimedBy, Propagated;
    ClaimTasks(db, c);
    assert Claimed(db, c).tasks == Started(Swept(db.tasks, Expired(db.tasks, c.now, c.lockedRunning)), ClaimedBy(db.tasks, c), c.worker, c.now, c.lease) by {
      PropagatedTasks(db.(tasks := Started(Swept(db.tasks, Expired(db.tasks, c.now, c.lockedRunning)), ClaimedBy(db.tasks, c), c.worker, c.now, c.lease)),
                      Expired(db.tasks, c.now, c.lockedRunning) + ClaimedBy(db.tasks, c));
    }
  }

  lemma PropagatedTasks(db: Db, changed: set<nat>)
    ensures Propagated(db, changed).tasks == db.tasks
  {
  }

  lemma ClaimedTasks(db: Db, c: ClaimCall)
    requires TasksOk(db.tasks, db.nextTask) && c.capacity > 0
    ensures var tasks := Claimed(db, c).tasks;
      && Shrinks(db.tasks, tasks) && TasksOk(tasks, db.nextTask)
      && (forall t | t in tasks :: tasks[t].run == db.tasks[t].run && (tasks[t].status == Status.Success <==> db.tasks[t].status == Status.Success))
      && (forall t | t in tasks && t !in Expired(db.tasks, c.now, c.lockedRunning) + ClaimedBy(db.tasks, c) :: tasks[t] == db.tasks[t])
  {
    hide Claimed, ClaimedBy, Expired, TaskOk, TaskStep, ClaimStep;
    ClaimKeys(db, c);
    forall t | t in db.tasks
      ensures t in Claimed(db, c).tasks && ClaimStep(db.tasks[t], Claimed(db, c).tasks[t], c)
      ensures t !in Expired(db.tasks, c.now, c.lockedRunning) && t !in ClaimedBy(db.tasks, c) ==> Claimed(db, c).tasks[t] == db.tasks[t]
    {
      ClaimSteps(db, c, t);
    }
    forall t | t in db.tasks
      ensures var after := Claimed(db, c).tasks[t];
        && TaskOk(after) && TaskStep(db.tasks[t], after) && after.run == db.tasks[t].run
        && (after.status.Active() <==> db.tasks[t].status.Active()) && (after.status == Status.Success <==> db.tasks[t].status == Status.Success)
    {
      ClaimStepKeeps(db.tasks[t], Claimed(db, c).tasks[t], c);
    }
  }

  lemma ClaimKeys(db: Db, c: ClaimCall)
    ensures Claimed(db, c).tasks.Keys == db.tasks.Keys
  {
  }

  lemma RenewKeeps(db: Db, ids: set<nat>, worker: string, now: nat, lease: nat)
    requires Consistent(db)
    ensures Consistent(db.(tasks := Renewed(db.tasks, ids, worker, now, lease)))
    ensures Shrinks(db.tasks, Renewed(db.tasks, ids, worker, now, lease))
  {
    hide InStep, BatchesOk, OneActive, OneItemPerDevice, HasRoom, RunsOk;
    var tasks := Renewed(db.tasks, ids, worker, now, lease);
    ShrinkKeepsActive(db.tasks, tasks, db.queueSize);
    RunsMove(db.runs, db.tasks, tasks, db.nextRun);
    forall i | i in db.items ensures ItemOk(db.items[i], tasks, db.batches) {
      assert ItemOk(db.items[i], db.tasks, db.batches);
    }
  }

  lemma PersistKeeps(db: Db, worker: string, t: nat, o: Outcome, now: nat)
    requires Consistent(db)
    ensures Consistent(Persisted(db, worker, t, o, now))
    ensures Shrinks(db.tasks, Persisted(db, worker, t, o, now).tasks)
  {
    hide Linked, OneActive, HasRoom, RunsOk, Mirrored, Refreshed, BatchesOf;
    if Owns(db.tasks, t, worker, now) {
      var tasks := db.tasks[t := Settled(db.tasks[t], o, db.nextRun)];
      var runs := db.runs[db.nextRun := ScanRun(t, o.success)];
      assert TaskOk(db.tasks[t]);
      RunsAdd(db.runs, db.tasks, db.nextRun, t, o);
      ChangedOnly(db, tasks, runs, db.nextRun + 1, {t});
    }
  }

  lemma RunsAdd(runs: map<nat, ScanRun>, tasks: Tasks, nextRun: nat, t: nat, o: Outcome)
    requires RunsOk(runs, tasks, nextRun) && t in tasks && tasks[t].run == None
    ensures RunsOk(runs[nextRun := ScanRun(t, o.success)], tasks[t := Settled(tasks[t], o, nextRun)], nextRun + 1)
  {
  }

  lemma FailKeeps(db: Db, worker: string, t: nat, now: nat)
    requires Consistent(db)
    ensures Consistent(FailedUnexpectedly(db, worker, t, now))
    ensures Shrinks(db.tasks, FailedUnexpectedly(db, worker, t, now).tasks)
  {
    hide Linked;
    if Owns(db.tasks, t, worker, now) {
      var tasks := db.tasks[t := Aborted(db.tasks[t], db.clock)];
      assert TaskOk(db.tasks[t]);
      RunsMove(db.runs, db.tasks, tasks, db.nextRun);
      ChangedOnly(db, tasks, db.runs, db.nextRun, {t});
    }
  }

  lemma CancelKeeps(db: Db, device: nat)
    requires Consistent(db)
    ensures Consistent(CancelOf(db, device))
    ensures Shrinks(db.tasks, CancelOf(db, device).tasks)
  {
    hide Linked;
    var active := ActiveOf(db.tasks, device);
    if active != {} && db.tasks[MinOf(active)].status != Running {
      var t := MinOf(active);
      var tasks := db.tasks[t := CancelledTask(db.tasks[t], db.clock)];
      assert TaskOk(db.tasks[t]);
      RunsMove(db.runs, db.tasks, tasks, db.nextRun);
      ChangedOnly(db, tasks, db.runs, db.nextRun, {t});
    }
  }
}
