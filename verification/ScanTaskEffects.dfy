/** What each transaction on the task table does, row by row and in terms of the columns alone. */
module ScanTaskEffects {
  import opened Wrappers
  import opened Ordering
  import opened ScanTasks
  import opened ScanTaskInvariants
  import opened ScanAdmission
  import opened ScanTaskRuns
  import opened ScanTaskLimits

  /** `worker` has task `t` on a lease that has not ended at `now`. */
  ghost predicate Holds(tasks: Tasks, t: nat, worker: string, now: nat) {
    t in tasks && tasks[t].status == Running && tasks[t].worker == Some(worker) && tasks[t].lease.Some? && now < tasks[t].lease.value
  }

  ghost predicate OthersStay(before: Tasks, after: Tasks, t: nat) {
    after.Keys == before.Keys && forall u | u in before && u != t :: after[u] == before[u]
  }

  // ------------------------------------------------------------------ claim

  /** Running, and its lease is missing or over, and the sweep does not skip it. */
  ghost predicate Lapsed(tasks: Tasks, t: nat, c: ClaimCall)
    requires t in tasks
  {
    tasks[t].status == Running && t !in c.lockedRunning && (tasks[t].lease.Some? ==> tasks[t].lease.value <= c.now)
  }

  /** Pending, or about to be, and not skipped. */
  ghost predicate Ready(tasks: Tasks, t: nat, c: ClaimCall)
    requires t in tasks
  {
    (tasks[t].status == Pending || Lapsed(tasks, t, c)) && t !in c.lockedPending
  }

  /** What becomes of one task: taken for the worker with its start kept, put back, or left alone. */
  ghost predicate TakenOrNot(before: Tasks, after: Tasks, c: ClaimCall, taken: set<nat>, t: nat)
    requires t in before && t in after
  {
    var a, b := before[t], after[t];
    if t in taken then
      && Ready(before, t, c)
      && b.status == Running && b.worker == Some(c.worker) && b.heartbeat == Some(c.now) && b.lease == Some(c.now + c.lease)
      && b.attempts == a.attempts + 1 && b.started == (if a.started.Some? then a.started else Some(c.now))
      && b == a.(status := b.status, worker := b.worker, heartbeat := b.heartbeat, lease := b.lease, attempts := b.attempts, started := b.started)
    else if Lapsed(before, t, c) then
      && b.status == Pending && b.worker == None && b.heartbeat == None && b.lease == None
      && b == a.(status := b.status, worker := b.worker, heartbeat := b.heartbeat, lease := b.lease)
    else b == a
  }

  /** Task `t` goes before task `u`: by priority, then age, then id. */
  ghost predicate GoesFirst(tasks: Tasks, t: nat, u: nat)
    requires t in tasks && u in tasks
  {
    || tasks[t].priority > tasks[u].priority
    || (tasks[t].priority == tasks[u].priority && tasks[t].created < tasks[u].created)
    || (tasks[t].priority == tasks[u].priority && tasks[t].created == tasks[u].created && t < u)
  }

  /** Running on a lease that has not ended. */
  ghost function OnLease(tasks: Tasks, now: nat): set<nat> {
    set t | t in tasks && tasks[t].status == Running && tasks[t].lease.Some? && now < tasks[t].lease.value
  }

  /** As many as capacity and limit allow. */
  ghost predicate TakesEnough(before: Tasks, c: ClaimCall, taken: set<nat>) {
    && |taken| <= c.capacity && (taken != {} ==> |OnLease(before, c.now)| + |taken| <= c.limit)
    && ((forall t | t in before && Ready(before, t, c) :: t in taken) || |taken| == c.capacity || |OnLease(before, c.now)| + |taken| >= c.limit)
  }

  /** The tasks taken are the first of those ready, as many as capacity and limit allow. */
  ghost predicate ClaimTakes(before: Tasks, after: Tasks, c: ClaimCall, taken: set<nat>) {
    && after.Keys == before.Keys && taken <= before.Keys
    && (forall t | t in before :: TakenOrNot(before, after, c, taken, t))
    && (forall t, u | t in taken && u in before && u !in taken && Ready(before, u, c) :: GoesFirst(before, t, u))
    && TakesEnough(before, c, taken)
  }

  lemma ReadyIsWaiting(tasks: Tasks, c: ClaimCall, t: nat)
    requires t in tasks
    ensures t in Waiting(SweptFor(tasks, c), c.lockedPending) <==> Ready(tasks, t, c)
    ensures t in Expired(tasks, c.now, c.lockedRunning) <==> Lapsed(tasks, t, c)
    ensures SweptFor(tasks, c).Keys == tasks.Keys
    ensures SweptFor(tasks, c)[t] == if Lapsed(tasks, t, c) then Reset(tasks[t]) else tasks[t]
  {
  }

  lemma ClaimRow(db: Db, c: ClaimCall, t: nat)
    requires c.capacity > 0 && t in db.tasks
    ensures t in Claimed(db, c).tasks && TakenOrNot(db.tasks, Claimed(db, c).tasks, c, ClaimedBy(db.tasks, c), t)
  {
    hide ClaimedBy, Claimed, Lapsed, Expired, Waiting, SweptFor;
    ClaimTasks(db, c);
    ClaimIsExact(db.tasks, c);
    ReadyIsWaiting(db.tasks, c, t);
  }

  lemma ClaimIsFull(tasks: Tasks, c: ClaimCall)
    requires c.capacity > 0
    ensures TakesEnough(tasks, c, ClaimedBy(tasks, c)) && ClaimedBy(tasks, c) <= tasks.Keys
  {
    hide ClaimedBy, Ready, Lapsed, Waiting, SweptFor, Expired, Live;
    ClaimIsExact(tasks, c);
    SweepKeepsLive(tasks, c);
    LiveIsOnLease(tasks, c.now);
    OnlyKnownAreClaimed(tasks, c);
    forall t | t in tasks ensures t in Waiting(SweptFor(tasks, c), c.lockedPending) <==> Ready(tasks, t, c) { ReadyIsWaiting(tasks, c, t); }
  }

  lemma LiveIsOnLease(tasks: Tasks, now: nat)
    ensures Live(tasks, now) == OnLease(tasks, now)
  {
  }

  lemma ClaimIsOrderly(tasks: Tasks, c: ClaimCall, t: nat, u: nat)
    requires c.capacity > 0 && t in ClaimedBy(tasks, c) && t in tasks && u in tasks && u !in ClaimedBy(tasks, c) && Ready(tasks, u, c)
    ensures GoesFirst(tasks, t, u)
  {
    hide ClaimedBy, Ready, Lapsed, Waiting, SweptFor, Expired, Live;
    ClaimIsExact(tasks, c);
    ReadyIsWaiting(tasks, c, t);
    ReadyIsWaiting(tasks, c, u);
  }

  /** A claim with some capacity, completely: which tasks it takes, what it writes, what it puts back. */
  lemma ClaimIsComplete(db: Db, c: ClaimCall)
    requires c.capacity > 0
    ensures ClaimTakes(db.tasks, Claimed(db, c).tasks, c, ClaimedBy(db.tasks, c))
  {
    hide ClaimedBy, Claimed, TakenOrNot, Ready, GoesFirst, TakesEnough;
    var before, taken := db.tasks, ClaimedBy(db.tasks, c);
    ClaimIsFull(before, c);
    ClaimKeys(db, c);
    forall t | t in before ensures TakenOrNot(before, Claimed(db, c).tasks, c, taken, t) { ClaimRow(db, c, t); }
    forall t, u | t in taken && u in before && u !in taken && Ready(before, u, c) ensures GoesFirst(before, t, u) { ClaimIsOrderly(before, c, t, u); }
  }

  /** `ids` lists the tasks `taken`, each once, in the order in which they go. */
  ghost predicate ListsTaken(tasks: Tasks, taken: set<nat>, ids: seq<nat>) {
    && (forall t :: t in ids <==> t in taken) && (forall t | t in ids :: t in tasks)
    && forall i, j | 0 <= i < j < |ids| :: GoesFirst(tasks, ids[i], ids[j])
  }

  lemma ClaimIsListed(tasks: Tasks, c: ClaimCall, ids: seq<nat>)
    requires c.capacity > 0 && |ids| == |ClaimedRanks(tasks, c)| && forall i | 0 <= i < |ids| :: ids[i] == ClaimedRanks(tasks, c)[i].id
    ensures ListsTaken(tasks, ClaimedBy(tasks, c), ids)
  {
    hide SweptFor, Waiting, Live, ClaimLimit;
    var ranks, swept := ClaimedRanks(tasks, c), SweptFor(tasks, c);
    RankOrder();
    RankById(swept, c.lockedPending, ClaimLimit(c.capacity, c.limit, |Live(swept, c.now)|));
    OnlyKnownAreClaimed(tasks, c);
    forall t ensures t in ids <==> t in ClaimedBy(tasks, c) {
      if t in ClaimedBy(tasks, c) {
        var r :| r in ranks && r.id == t;
        var i :| 0 <= i < |ranks| && ranks[i] == r;
        assert ids[i] == t;
      }
      if i :| 0 <= i < |ids| && ids[i] == t { assert ranks[i] in ranks; }
    }
    forall i, j | 0 <= i < j < |ids| ensures GoesFirst(tasks, ids[i], ids[j]) {
      assert ranks[i] in ranks && ranks[j] in ranks && RankLess(ranks[i], ranks[j]);
      assert ids[i] in ids && ids[j] in ids;
      ReadyIsWaiting(tasks, c, ids[i]);
      ReadyIsWaiting(tasks, c, ids[j]);
    }
  }

  lemma ClaimKeys(db: Db, c: ClaimCall)
    requires c.capacity > 0
    ensures Claimed(db, c).tasks.Keys == db.tasks.Keys
  {
    hide ClaimedBy, Claimed, SweptFor, Expired;
    ClaimTasks(db, c);
  }

  // ------------------------------------------------------ renew, settle, cancel

  /** A renewal moves the heartbeat and lease of the held tasks it names and touches no other. */
  lemma RenewIsComplete(db: Db, worker: string, ids: set<nat>, lease: nat, now: nat)
    ensures var d := Apply(db, Renew(worker, ids, lease, now));
      && d == db.(tasks := d.tasks) && d.tasks.Keys == db.tasks.Keys
      && forall t | t in db.tasks ::
           if t in ids && Holds(db.tasks, t, worker, now) then
             d.tasks[t].heartbeat == Some(now) && d.tasks[t].lease == Some(now + lease)
             && d.tasks[t] == db.tasks[t].(heartbeat := d.tasks[t].heartbeat, lease := d.tasks[t].lease)
           else d.tasks[t] == db.tasks[t]
  {
  }

  /** The settled columns of a task: no worker, heartbeat or lease, and everything else as given. */
  ghost predicate SettledAs(a: Task, b: Task, status: Status, finished: nat, error: Option<string>, run: Option<nat>) {
    && b.status == status && b.finished == Some(finished) && b.error == error && b.run == run
    && b.worker == None && b.heartbeat == None && b.lease == None
    && b == a.(status := b.status, finished := b.finished, error := b.error, run := b.run, worker := b.worker, heartbeat := b.heartbeat, lease := b.lease)
  }

  /** An outcome is persisted by the holder only: the task succeeds or fails as the outcome says, and one run is added. */
  lemma PersistIsComplete(db: Db, worker: string, t: nat, o: Outcome, now: nat)
    ensures var d := Apply(db, Persist(worker, t, o, now));
      if Holds(db.tasks, t, worker, now) then
        && OthersStay(db.tasks, d.tasks, t)
        && SettledAs(db.tasks[t], d.tasks[t], if o.success then Status.Success else Failed, o.finished, o.error, Some(db.nextRun))
        && d.runs.Keys == db.runs.Keys + {db.nextRun} && d.runs[db.nextRun].task == t && d.runs[db.nextRun].success == o.success
        && (forall r | r in db.runs && r != db.nextRun :: d.runs[r] == db.runs[r])
      else d == db
  {
    hide Mirrored, Refreshed, BatchesOf;
  }

  /** An unexpected failure settles the holder's task as failed now, without a run. */
  lemma FailIsComplete(db: Db, worker: string, t: nat, now: nat)
    ensures var d := Apply(db, Fail(worker, t, now));
      if Holds(db.tasks, t, worker, now) then
        && OthersStay(db.tasks, d.tasks, t) && d.runs == db.runs
        && SettledAs(db.tasks[t], d.tasks[t], Failed, db.clock, Some("internal error"), db.tasks[t].run)
      else d == db
  {
    hide Mirrored, Refreshed, BatchesOf;
  }

  /** Cancelling a device settles its pending task as cancelled now; a running one stays. */
  lemma CancelIsComplete(db: Db, device: nat)
    requires OneActive(db.tasks)
    ensures var d := Apply(db, Cancel(device));
      && d.tasks.Keys == db.tasks.Keys && d.runs == db.runs
      && forall t | t in db.tasks ::
           if db.tasks[t].device == device && db.tasks[t].status == Pending then
             d.tasks[t].status == Cancelled && d.tasks[t].finished == Some(db.clock)
             && d.tasks[t] == db.tasks[t].(status := d.tasks[t].status, finished := d.tasks[t].finished)
           else d.tasks[t] == db.tasks[t]
  {
    hide Mirrored, Refreshed, BatchesOf;
    var active := ActiveOf(db.tasks, device);
    if active != {} {
      var t := MinOf(active);
      assert t in active;
      forall u | u in db.tasks && db.tasks[u].device == device && db.tasks[u].status == Pending ensures u == t {}
    } else {
      forall u | u in db.tasks && db.tasks[u].device == device ensures db.tasks[u].status != Pending { assert u !in active; }
    }
  }

  // ---------------------------------------------------------------- enqueue

  /** A device's task that is pending or running. */
  ghost predicate Queued(tasks: Tasks, device: nat, t: nat) {
    t in tasks && tasks[t].device == device && (tasks[t].status == Pending || tasks[t].status == Running)
  }

  ghost predicate HasQueued(tasks: Tasks, device: nat) { exists t :: Queued(tasks, device, t) }

  ghost predicate HasItemFor(items: Items, b: nat, device: nat) { exists i :: i in items && items[i].batch == b && items[i].device == device }

  /** What an enqueue answers: why it is refused, or the device's queued task. */
  ghost predicate Answers(db: Db, device: nat, batch: Option<nat>, r: Result<nat, Refusal>, after: Tasks) {
    var queued := |set t | t in db.tasks && (db.tasks[t].status == Pending || db.tasks[t].status == Running)|;
    if device !in db.devices then r == Failure(NoDevice)
    else if !db.devices[device] then r == Failure(CollectionDisabled)
    else if !HasQueued(db.tasks, device) && queued >= db.queueSize then r == Failure(QueueFull)
    else if batch.Some? && batch.value !in db.batches && !HasItemFor(db.items, batch.value, device) then r == Failure(NoBatch)
    else r.Success? && Queued(after, device, r.value) && (HasQueued(db.tasks, device) ==> Queued(db.tasks, device, r.value))
  }

  lemma ActiveIsQueued(tasks: Tasks, device: nat)
    ensures ActiveTasks(tasks) == set t | t in tasks && (tasks[t].status == Pending || tasks[t].status == Running)
    ensures forall t :: t in ActiveOf(tasks, device) <==> Queued(tasks, device, t)
    ensures ActiveOf(tasks, device) != {} <==> HasQueued(tasks, device)
  {
    if HasQueued(tasks, device) {
      var t :| Queued(tasks, device, t);
      assert t in ActiveOf(tasks, device);
    }
    if ActiveOf(tasks, device) != {} {
      var t :| t in ActiveOf(tasks, device);
      assert Queued(tasks, device, t);
    }
  }

  lemma FoundOrAdded(db: Db, device: nat, trigger: Trigger, priority: int)
    ensures match WithTask(db, device, trigger, priority)
      case Failure(e) => Answers(db, device, None, Failure(e), db.tasks) && (e != NoBatch)
      case Success(p) =>
        && Answers(db, device, None, Result.Success(p.1), p.0.tasks)
        && p.0 == db.(tasks := p.0.tasks, nextTask := p.0.nextTask) && p.1 in p.0.tasks && p.0.tasks[p.1].device == device
  {
    hide ActiveTasks, ActiveOf;
    ActiveIsQueued(db.tasks, device);
    if device in db.devices && db.devices[device] && HasQueued(db.tasks, device) {
      var t := MinOf(ActiveOf(db.tasks, device));
      assert t in ActiveOf(db.tasks, device);
    }
  }

  /** Every enqueue is answered, with the device's queued task or the first reason against it. */
  lemma EnqueueAnswers(db: Db, device: nat, trigger: Trigger, priority: int, batch: Option<nat>)
    ensures match Enqueued(db, device, trigger, priority, batch)
      case Failure(e) => Answers(db, device, batch, Failure(e), db.tasks)
      case Success(p) => Answers(db, device, batch, Result.Success(p.1), p.0.tasks)
  {
    hide WithTask, Refreshed, HasQueued, Queued;
    FoundOrAdded(db, device, trigger, priority);
    if batch.Some? && WithTask(db, device, trigger, priority).Success? { ItemIsItem(db.items, batch.value, device); }
  }

  lemma ItemIsItem(items: Items, b: nat, device: nat)
    ensures HasItem(items, b, device) <==> HasItemFor(items, b, device)
  {
  }

  // ------------------------------------------------------------ create batch

  /** Requested devices are taken in the order of their first mention. */
  lemma {:induction false} DistinctKeepsOrder(ds: seq<nat>, i: nat, j: nat)
    requires i < j < |Distinct(ds)|
    ensures exists n :: 0 <= n < |ds| && ds[n] == Distinct(ds)[i] && Distinct(ds)[j] !in ds[..n + 1]
    decreases |ds|
  {
    var front, last := ds[..|ds| - 1], ds[|ds| - 1];
    assert ds == front + [last];
    var r := Distinct(front);
    if j < |r| {
      DistinctKeepsOrder(front, i, j);
      var n :| 0 <= n < |front| && front[n] == r[i] && r[j] !in front[..n + 1];
      assert ds[n] == r[i] && ds[..n + 1] == front[..n + 1];
    } else {
      assert r[i] in front;
      var n :| 0 <= n < |front| && front[n] == r[i];
      assert ds[n] == r[i] && last !in front && ds[..n + 1] == front[..n + 1];
      forall x | x in front[..n + 1] ensures x in front {}
    }
  }

  /** Filtering keeps the order: of two kept devices the first comes first in the list. */
  lemma {:induction false} CollectibleKeepsOrder(devices: map<nat, bool>, ds: seq<nat>, i: nat, j: nat)
    requires i < j < |KeepCollectible(devices, ds)|
    ensures exists m, n :: 0 <= m < n < |ds| && ds[m] == KeepCollectible(devices, ds)[i] && ds[n] == KeepCollectible(devices, ds)[j]
    decreases |ds|
  {
    hide Collectible;
    var front, last := ds[..|ds| - 1], ds[|ds| - 1];
    assert ds == front + [last];
    var r := KeepCollectible(devices, front);
    if j < |r| {
      CollectibleKeepsOrder(devices, front, i, j);
      var m, n :| 0 <= m < n < |front| && front[m] == r[i] && front[n] == r[j];
      assert ds[m] == r[i] && ds[n] == r[j];
    } else {
      assert r[i] in front;
      var m :| 0 <= m < |front| && front[m] == r[i];
      assert ds[m] == r[i] && ds[|ds| - 1] == last;
    }
  }

  /** The trigger and priority of a batch's tasks. */
  ghost predicate BatchTask(kind: BatchType, trigger: Trigger, priority: int) {
    if kind == BatchType.Import then trigger == Imported && priority == 60 else trigger == Batched && priority == 80
  }

  /** Task by task, what enqueueing the devices `ds` with one trigger and priority does: an active one of
      them is raised if it ranks lower, one without gets a pending task, and all others stay. */
  ghost predicate Serves(db: Db, d: Db, ds: seq<nat>, trigger: Trigger, priority: int) {
    && (forall t | t in db.tasks :: t in d.tasks &&
          if db.tasks[t].device in ds && (db.tasks[t].status == Pending || db.tasks[t].status == Running) && db.tasks[t].priority < priority
          then d.tasks[t] == db.tasks[t].(priority := priority, trigger := trigger) else d.tasks[t] == db.tasks[t])
    && (forall t | t in d.tasks && t !in db.tasks :: d.tasks[t].device in ds &&
          d.tasks[t] == Task(d.tasks[t].device, trigger, priority, Pending, db.clock, None, None, None, None, None, 0, None, None))
  }

  lemma ServesOne(db: Db, device: nat, trigger: Trigger, priority: int, batch: Option<nat>)
    requires Sound(db) && InSession(db, device, trigger, priority, batch).Success?
    ensures Serves(db, InSession(db, device, trigger, priority, batch).value.0, [device], trigger, priority)
  {
    hide RunsOk, HasRoom, TaskOk, HasItem;
    var active := ActiveOf(db.tasks, device);
    if active != {} { assert MinOf(active) in active; }
    forall t | t in db.tasks && db.tasks[t].device == device && db.tasks[t].status.Active() ensures active == {t} && MinOf(active) == t {
      assert t in active;
      forall u | u in active ensures u == t {}
    }
    assert db.nextTask !in db.tasks;
  }

  lemma ServesMore(db: Db, mid: Db, d: Db, front: seq<nat>, last: nat, trigger: Trigger, priority: int)
    requires Serves(db, mid, front, trigger, priority) && Serves(mid, d, [last], trigger, priority) && mid.clock == db.clock
    ensures Serves(db, d, front + [last], trigger, priority)
  {
    forall x ensures x in front + [last] <==> x in front || x in [last] {}
  }

  lemma {:induction false} LoopServes(db: Db, ds: seq<nat>, kind: BatchType, b: nat)
    requires Sound(db) && LinkedBut(db, {b}) && EnqueuedAll(db, ds, kind, b).Success?
    ensures var d := EnqueuedAll(db, ds, kind, b).value;
      Sound(d) && LinkedBut(d, {b}) && d.clock == db.clock && Serves(db, d, ds, TriggerOf(kind), PriorityOf(kind))
    decreases |ds|
  {
    hide Sound, LinkedBut, Serves, InSession, Grows;
    if ds == [] {
      ServesNone(db, TriggerOf(kind), PriorityOf(kind));
    } else {
      var front, last := ds[..|ds| - 1], ds[|ds| - 1];
      LoopServes(db, front, kind, b);
      var mid := EnqueuedAll(db, front, kind, b).value;
      InSessionKeeps(mid, last, TriggerOf(kind), PriorityOf(kind), Some(b), {b});
      ServesOne(mid, last, TriggerOf(kind), PriorityOf(kind), Some(b));
      ServesMore(db, mid, EnqueuedAll(db, ds, kind, b).value, front, last, TriggerOf(kind), PriorityOf(kind));
      assert ds == front + [last];
    }
  }

  lemma ServesNone(db: Db, trigger: Trigger, priority: int)
    ensures Serves(db, db, [], trigger, priority)
  {
  }

  /** Creating a batch, task by task: an import batch queues with priority 60, any other with 80. */
  lemma CreateIsComplete(db: Db, kind: BatchType, requested: seq<nat>, trigger: Trigger, priority: int)
    requires Consistent(db) && BatchCreated(db, kind, requested).Success? && BatchTask(kind, trigger, priority)
    ensures var d := BatchCreated(db, kind, requested).value;
      && Serves(db, d, Selected(db.devices, requested), trigger, priority)
      && (forall x :: x in Selected(db.devices, requested) <==> x in requested && x in db.devices && db.devices[x])
      && db.nextBatch in d.batches && d.batches[db.nextBatch].kind == kind
  {
    hide Sound, Linked, LinkedBut, Serves, EnqueuedAll, Selected, Recounted, InStep;
    EmptyBatchLinks(db, kind);
    SelectedDevices(db.devices, requested);
    var start, selected := WithBatch(db, kind), Selected(db.devices, requested);
    SoundWithBatch(db, kind);
    LoopServes(start, selected, kind, db.nextBatch);
    var d := EnqueuedAll(start, selected, kind, db.nextBatch).value;
    ServesFrom(db, start, d, BatchCreated(db, kind, requested).value, selected, trigger, priority);
    BatchesStay(start, selected, kind, db.nextBatch);
    KindKept(start, d, db.nextBatch);
    SelectedMeans(db.devices, requested);
  }

  lemma SoundWithBatch(db: Db, kind: BatchType)
    requires Sound(db)
    ensures Sound(WithBatch(db, kind))
  {
    hide TasksOk, OneActive, RunsOk, HasRoom;
  }

  lemma SelectedMeans(devices: map<nat, bool>, requested: seq<nat>)
    ensures forall x :: x in Selected(devices, requested) <==> x in requested && x in devices && devices[x]
  {
  }

  lemma ServesFrom(db: Db, start: Db, d: Db, e: Db, ds: seq<nat>, trigger: Trigger, priority: int)
    requires Serves(start, d, ds, trigger, priority) && start.tasks == db.tasks && start.clock == db.clock && e.tasks == d.tasks
    ensures Serves(db, e, ds, trigger, priority)
  {
  }

  lemma {:induction false} BatchesStay(db: Db, ds: seq<nat>, kind: BatchType, b: nat)
    requires EnqueuedAll(db, ds, kind, b).Success?
    ensures EnqueuedAll(db, ds, kind, b).value.batches == db.batches
    decreases |ds|
  {
    hide HasItem, ActiveOf, ActiveTasks;
    if ds != [] { BatchesStay(db, ds[..|ds| - 1], kind, b); }
  }

  lemma KindKept(start: Db, d: Db, b: nat)
    requires d.batches == start.batches && b in start.batches
    ensures b in Refreshing(d, {b}).batches && Refreshing(d, {b}).batches[b].kind == start.batches[b].kind
  {
  }
}
