/** Safety of the lease protocol over whole runs of any number of workers. */
module ScanTaskRuns {
  import opened Wrappers
  import opened Ordering
  import opened ScanTasks
  import opened ScanTaskInvariants
  import opened ScanAdmission

  // --------------------------------------------- what one event does to a task

  /** Queueing may raise priorities and add pending tasks, nothing else. */
  ghost predicate OnlyQueued(before: Tasks, after: Tasks) {
    && before.Keys <= after.Keys
    && (forall t | t in before :: after[t] == before[t].(priority := after[t].priority, trigger := after[t].trigger))
    && (forall t | t in before :: after[t] == before[t] || after[t].priority > before[t].priority)
    && (forall t | t in after && t !in before :: after[t].status == Pending && after[t].attempts == 0)
  }

  ghost predicate IdsBelow(tasks: Tasks, next: nat) { forall t | t in tasks :: t < next }

  lemma WithTaskQueues(db: Db, device: nat, trigger: Trigger, priority: int)
    requires IdsBelow(db.tasks, db.nextTask) && WithTask(db, device, trigger, priority).Success?
    ensures var r := WithTask(db, device, trigger, priority).value;
      OnlyQueued(db.tasks, r.0.tasks) && IdsBelow(r.0.tasks, r.0.nextTask) && r.1 in r.0.tasks
  {
    hide ActiveTasks;
    var active := ActiveOf(db.tasks, device);
    if active != {} { assert MinOf(active) in active; }
  }

  lemma InSessionQueues(db: Db, device: nat, trigger: Trigger, priority: int, batch: Option<nat>)
    requires IdsBelow(db.tasks, db.nextTask) && InSession(db, device, trigger, priority, batch).Success?
    ensures var d := InSession(db, device, trigger, priority, batch).value.0;
      OnlyQueued(db.tasks, d.tasks) && IdsBelow(d.tasks, d.nextTask)
  {
    hide WithTask, OnlyQueued, IdsBelow, HasItem;
    WithTaskQueues(db, device, trigger, priority);
  }

  /** An accepted enqueue names the device's one active task, whose priority is now at least the
      requested one; all other tasks are as before. */
  lemma EnqueueServes(db: Db, device: nat, trigger: Trigger, priority: int, batch: Option<nat>)
    requires Consistent(db) && Enqueued(db, device, trigger, priority, batch).Success?
    ensures var d, t := Enqueued(db, device, trigger, priority, batch).value.0, Enqueued(db, device, trigger, priority, batch).value.1;
      && Collectible(db.devices, device) && ActiveOf(d.tasks, device) == {t} && d.tasks[t].priority >= priority
      && (t in db.tasks ==> d.tasks[t] == db.tasks[t] || (d.tasks[t].priority == priority && d.tasks[t].trigger == trigger))
      && (t !in db.tasks ==> d.tasks[t].status == Pending && d.tasks[t].priority == priority && d.tasks[t].trigger == trigger && d.tasks[t].created == db.clock)
      && (forall u | u in db.tasks && u != t :: u in d.tasks && d.tasks[u] == db.tasks[u])
  {
    hide Attached, Refreshed, Linked, RunsOk, HasRoom, TaskOk, ActiveTasks;
    EnqueueKeeps(db, device, trigger, priority, batch);
    var d, t := Enqueued(db, device, trigger, priority, batch).value.0, Enqueued(db, device, trigger, priority, batch).value.1;
    var r := WithTask(db, device, trigger, priority).value;
    AttachedTasks(r.0, batch, r.1);
    FoundTask(db, device, trigger, priority);
    OnlyOne(d.tasks, device, t);
  }

  lemma AttachedTasks(db: Db, batch: Option<nat>, t: nat)
    requires t in db.tasks
    ensures batch.Some? && Attached(db, batch.value, t).Success? ==> Attached(db, batch.value, t).value.tasks == db.tasks
  {
  }

  lemma OnlyOne(tasks: Tasks, device: nat, t: nat)
    requires OneActive(tasks) && t in tasks && tasks[t].device == device && tasks[t].status.Active()
    ensures ActiveOf(tasks, device) == {t}
  {
  }

  lemma FoundTask(db: Db, device: nat, trigger: Trigger, priority: int)
    requires WithTask(db, device, trigger, priority).Success? && TasksOk(db.tasks, db.nextTask)
    ensures var tasks, t := WithTask(db, device, trigger, priority).value.0.tasks, WithTask(db, device, trigger, priority).value.1;
      && t in tasks && tasks[t].device == device && tasks[t].status.Active() && tasks[t].priority >= priority && Collectible(db.devices, device)
      && (t in db.tasks ==> tasks[t] == db.tasks[t] || (tasks[t].priority == priority && tasks[t].trigger == trigger))
      && (t !in db.tasks ==> tasks[t].status == Pending && tasks[t].priority == priority && tasks[t].trigger == trigger && tasks[t].created == db.clock)
      && (forall u | u in db.tasks && u != t :: u in tasks && tasks[u] == db.tasks[u])
  {
    hide ActiveTasks, TaskOk;
    var active := ActiveOf(db.tasks, device);
    if active != {} { assert MinOf(active) in active; }
  }

  lemma QueuedTwice(a: Tasks, b: Tasks, c: Tasks)
    requires OnlyQueued(a, b) && OnlyQueued(b, c)
    ensures OnlyQueued(a, c)
  {
  }

  lemma {:induction false} LoopQueues(db: Db, ds: seq<nat>, kind: BatchType, b: nat)
    requires IdsBelow(db.tasks, db.nextTask) && EnqueuedAll(db, ds, kind, b).Success?
    ensures var d := EnqueuedAll(db, ds, kind, b).value; OnlyQueued(db.tasks, d.tasks) && IdsBelow(d.tasks, d.nextTask)
    decreases |ds|
  {
    hide InSession, IdsBelow;
    if ds == [] {
    } else {
      LoopQueues(db, ds[..|ds| - 1], kind, b);
      var mid := EnqueuedAll(db, ds[..|ds| - 1], kind, b).value;
      InSessionQueues(mid, ds[|ds| - 1], TriggerOf(kind), PriorityOf(kind), Some(b));
      QueuedTwice(db.tasks, mid.tasks, EnqueuedAll(db, ds, kind, b).value.tasks);
    }
  }

  predicate Queues(e: Event) { e.Enqueue? || e.CreateBatch? }

  lemma QueueingQueues(db: Db, e: Event)
    requires IdsBelow(db.tasks, db.nextTask) && Queues(e)
    ensures OnlyQueued(db.tasks, Apply(db, e).tasks)
  {
    hide InSession, EnqueuedAll, Selected, Overfull, IdsBelow;
    match e
    case Enqueue(device, trigger, priority, batch) =>
      if InSession(db, device, trigger, priority, batch).Success? { InSessionQueues(db, device, trigger, priority, batch); }
    case CreateBatch(kind, requested) =>
      var selected := Selected(db.devices, requested);
      var start := WithBatch(db, kind);
      if !Overfull(db, selected) && EnqueuedAll(start, selected, kind, db.nextBatch).Success? { LoopQueues(start, selected, kind, db.nextBatch); }
  }

  /** The worker whose lease an event relies on. */
  function ActorOf(e: Event): Option<string> {
    match e
    case Renew(worker, _, _, _) => Some(worker)
    case Persist(worker, _, _, _) => Some(worker)
    case Fail(worker, _, _) => Some(worker)
    case _ => None
  }

  /** Every way an event can change a task. */
  predicate Effect(db: Db, e: Event, t: nat, before: Task, after: Task)
    requires t in db.tasks
  {
    match e
    case Tick(_) => after == before
    case Enqueue(_, _, _, _) => after == before.(priority := after.priority, trigger := after.trigger)
    case CreateBatch(_, _) => after == before.(priority := after.priority, trigger := after.trigger)
    case Claim(c) =>
      && ClaimStep(before, after, c) && (t in ClaimedBy(db.tasks, c) <==> after.attempts != before.attempts)
      && (t in ClaimedBy(db.tasks, c) ==> after.status == Running && after.worker == Some(c.worker) && after.attempts == before.attempts + 1)
      && (after != before && before.status == Running ==> t in Expired(db.tasks, c.now, c.lockedRunning))
    case Renew(w, ids, lease, now) =>
      after == if t in ids && Owns(db.tasks, t, w, now) then before.(heartbeat := Some(now), lease := Some(now + lease)) else before
    case Persist(w, u, o, now) => after == if u == t && Owns(db.tasks, t, w, now) then Settled(before, o, db.nextRun) else before
    case Fail(w, u, now) => after == if u == t && Owns(db.tasks, t, w, now) then Aborted(before, db.clock) else before
    case Cancel(_) => after == before || (before.status == Pending && after == CancelledTask(before, db.clock))
    case RolledBack(_) => after == before
  }

  lemma {:induction false} EffectOnTask(db: Db, e: Event, t: nat)
    requires Consistent(db) && t in db.tasks
    ensures t in Apply(db, e).tasks && Effect(db, e, t, db.tasks[t], Apply(db, e).tasks[t])
  {
    hide ClaimedBy, Expired, ClaimStep, Enqueued, BatchCreated, Claimed, CancelOf, Persisted, FailedUnexpectedly, Linked, OneActive, RunsOk, HasRoom;
    match e
    case Enqueue(_, _, _, _) => QueueingQueues(db, e);
    case CreateBatch(_, _) => QueueingQueues(db, e);
    case Claim(c) => ClaimEffect(db, c, t);
    case Cancel(device) => CancelEffect(db, device, t);
    case Persist(_, _, _, _) => OwnerEffect(db, e, t);
    case Fail(_, _, _) => OwnerEffect(db, e, t);
    case _ =>
  }

  lemma OwnerEffect(db: Db, e: Event, t: nat)
    requires t in db.tasks && (e.Persist? || e.Fail?)
    ensures t in Apply(db, e).tasks && Effect(db, e, t, db.tasks[t], Apply(db, e).tasks[t])
  {
    hide Mirrored, Refreshed, BatchesOf;
  }

  lemma ClaimEffect(db: Db, c: ClaimCall, t: nat)
    requires TasksOk(db.tasks, db.nextTask) && t in db.tasks
    ensures t in Claimed(db, c).tasks && Effect(db, Claim(c), t, db.tasks[t], Claimed(db, c).tasks[t])
  {
    hide ClaimedBy, Expired, Claimed;
    assert TaskOk(db.tasks[t]);
    if c.capacity > 0 {
      ClaimSteps(db, c, t);
      if db.tasks[t].status == Running { WaitingAreNotRunning(db, c, t); }
    } else {
      NothingClaimed(db, c);
    }
  }

  lemma NothingClaimed(db: Db, c: ClaimCall)
    requires c.capacity <= 0
    ensures ClaimedBy(db.tasks, c) == {} && Claimed(db, c) == db
  {
  }

  /** A claimed task that was running had expired. */
  lemma WaitingAreNotRunning(db: Db, c: ClaimCall, t: nat)
    requires t in db.tasks && db.tasks[t].status == Running
    ensures t in ClaimedBy(db.tasks, c) ==> t in Expired(db.tasks, c.now, c.lockedRunning)
  {
    hide ClaimOrder, IdsOf, ClaimLimit;
    var swept := SweptFor(db.tasks, c);
    WaitingOnly(swept, c.lockedPending, ClaimLimit(c.capacity, c.limit, |Live(swept, c.now)|));
  }

  lemma CancelEffect(db: Db, device: nat, t: nat)
    requires t in db.tasks
    ensures t in CancelOf(db, device).tasks && Effect(db, Cancel(device), t, db.tasks[t], CancelOf(db, device).tasks[t])
  {
    var active := ActiveOf(db.tasks, device);
    if active != {} { assert MinOf(active) in active; }
  }

  /** Tasks that appear are pending and unclaimed. */
  lemma {:induction false} NewTasksArePending(db: Db, e: Event, t: nat)
    requires Consistent(db) && t !in db.tasks && t in Apply(db, e).tasks
    ensures Apply(db, e).tasks[t].status == Pending && Apply(db, e).tasks[t].attempts == 0 && Queues(e)
  {
    hide Enqueued, BatchCreated, Claimed, ClaimedBy, Mirrored, Refreshed, BatchesOf, Linked, OneActive, RunsOk, HasRoom;
    match e
    case Enqueue(_, _, _, _) => QueueingQueues(db, e);
    case CreateBatch(_, _) => QueueingQueues(db, e);
    case Claim(c) => ClaimKeys(db, c);
    case Cancel(device) => CancelKeys(db, device);
    case _ =>
  }

  lemma CancelKeys(db: Db, device: nat)
    ensures CancelOf(db, device).tasks.Keys == db.tasks.Keys
  {
    var active := ActiveOf(db.tasks, device);
    if active != {} { assert MinOf(active) in active; }
  }

  // ----------------------------------------------------------- settle once

  /** A settled task never changes again, whatever follows. */
  lemma SettledForever(db: Db, es: seq<Event>, t: nat)
    requires Consistent(db) && t in db.tasks && !db.tasks[t].status.Active()
    ensures t in After(db, es).tasks && After(db, es).tasks[t] == db.tasks[t]
  {
    hide Consistent, After;
    RunKeeps(db, es);
  }

  /** However often it was attempted, rolled back or retried, a task has at most one scan run,
      and exactly the tasks that name a run have one. */
  lemma OneRunPerTask(db: Db, es: seq<Event>, r: nat, s: nat)
    requires Consistent(db)
    ensures var d := After(db, es);
      && (r in d.runs && s in d.runs && d.runs[r].task == d.runs[s].task ==> r == s)
      && (r in d.runs ==> d.runs[r].task in d.tasks && !d.tasks[d.runs[r].task].status.Active() && d.tasks[d.runs[r].task].run == Some(r))
  {
    hide After, Linked, OneActive, HasRoom;
    RunKeeps(db, es);
    var d := After(db, es);
    if r in d.runs { assert TaskOk(d.tasks[d.runs[r].task]); }
  }

  // -------------------------------------------------------------- fencing

  /** No step of a worker touches a task that another worker holds. */
  lemma ForeignStep(db: Db, e: Event, t: nat)
    requires Consistent(db) && t in db.tasks && ActorOf(e).Some? && db.tasks[t].worker != ActorOf(e)
    ensures t in Apply(db, e).tasks && Apply(db, e).tasks[t] == db.tasks[t]
  {
    hide Consistent, Apply, ClaimedBy, ClaimStep, Expired;
    EffectOnTask(db, e, t);
  }

  predicate ClaimsFor(e: Event, worker: string) { e.Claim? && e.call.worker == worker }

  lemma NotHeldBy(db: Db, e: Event, t: nat, worker: string)
    requires Consistent(db) && t in db.tasks && db.tasks[t].worker != Some(worker) && !ClaimsFor(e, worker)
    ensures t in Apply(db, e).tasks && Apply(db, e).tasks[t].worker != Some(worker)
  {
    hide Consistent, Apply, ClaimedBy, Expired;
    EffectOnTask(db, e, t);
  }

  lemma {:induction false} NotHeldThrough(db: Db, es: seq<Event>, t: nat, worker: string)
    requires Consistent(db) && t in db.tasks && db.tasks[t].worker != Some(worker)
    requires forall e | e in es :: !ClaimsFor(e, worker)
    ensures t in After(db, es).tasks && After(db, es).tasks[t].worker != Some(worker)
    decreases |es|
  {
    hide Consistent, Apply;
    if es != [] {
      var before := es[..|es| - 1];
      NotHeldThrough(db, before, t, worker);
      RunKeeps(db, before);
      NotHeldBy(After(db, before), es[|es| - 1], t, worker);
    }
  }

  /** Fencing over runs: from any state in which a worker does not hold the task, none of its
      steps changes the task until it claims again. */
  lemma StaleWorkerIsFenced(db: Db, es: seq<Event>, e: Event, t: nat, worker: string)
    requires Consistent(db) && t in db.tasks && db.tasks[t].worker != Some(worker)
    requires forall f | f in es :: !ClaimsFor(f, worker)
    requires ActorOf(e) == Some(worker)
    ensures t in After(db, es).tasks && t in After(db, es + [e]).tasks
    ensures After(db, es + [e]).tasks[t] == After(db, es).tasks[t]
  {
    hide Consistent, Apply;
    NotHeldThrough(db, es, t, worker);
    RunKeeps(db, es);
    assert (es + [e])[..|es|] == es;
    ForeignStep(After(db, es), e, t);
  }

  /** The worker that claimed `t` last in a run. */
  function LastClaimer(db: Db, es: seq<Event>, t: nat): Option<string> {
    if es == [] then None
    else
      var front, last := es[..|es| - 1], es[|es| - 1];
      if last.Claim? && t in ClaimedBy(After(db, front).tasks, last.call) then Some(last.call.worker) else LastClaimer(db, front, t)
  }

  /** How often `t` was claimed in a run. */
  function ClaimCount(db: Db, es: seq<Event>, t: nat): nat {
    if es == [] then 0
    else
      var front, last := es[..|es| - 1], es[|es| - 1];
      ClaimCount(db, front, t) + if last.Claim? && t in ClaimedBy(After(db, front).tasks, last.call) then 1 else 0
  }

  ghost predicate Held(db: Db, es: seq<Event>, t: nat) {
    var d := After(db, es);
    t in d.tasks ==>
      && d.tasks[t].attempts == ClaimCount(db, es, t)
      && (d.tasks[t].status == Running ==> d.tasks[t].worker == LastClaimer(db, es, t) && LastClaimer(db, es, t).Some?)
  }

  lemma OnlyKnownAreClaimed(tasks: Tasks, c: ClaimCall)
    ensures ClaimedBy(tasks, c) <= tasks.Keys
  {
    hide ClaimOrder, IdsOf, ClaimLimit;
    var swept := SweptFor(tasks, c);
    WaitingOnly(swept, c.lockedPending, ClaimLimit(c.capacity, c.limit, |Live(swept, c.now)|));
  }

  /** From a state without the task: its attempt count is the number of claims it went through,
      and while it runs it is held by the worker that claimed it last. */
  lemma {:induction false} HeldByLastClaimer(db: Db, es: seq<Event>, t: nat)
    requires Consistent(db) && t !in db.tasks
    ensures Held(db, es, t)
    decreases |es|
  {
    hide Consistent, Apply, ClaimedBy, Expired;
    if es != [] {
      var front, last := es[..|es| - 1], es[|es| - 1];
      HeldByLastClaimer(db, front, t);
      RunKeeps(db, front);
      var d := After(db, front);
      if last.Claim? { OnlyKnownAreClaimed(d.tasks, last.call); }
      if t in d.tasks {
        EffectOnTask(d, last, t);
      } else if t in Apply(d, last).tasks {
        NewTasksArePending(d, last, t);
        NeverClaimed(db, front, t);
      }
    }
  }

  lemma {:induction false} NeverClaimed(db: Db, es: seq<Event>, t: nat)
    requires Consistent(db) && t !in After(db, es).tasks
    ensures ClaimCount(db, es, t) == 0 && LastClaimer(db, es, t) == None
    decreases |es|
  {
    hide Consistent, Apply, ClaimedBy;
    if es != [] {
      var front, last := es[..|es| - 1], es[|es| - 1];
      RunKeeps(db, front);
      var d := After(db, front);
      if last.Claim? { OnlyKnownAreClaimed(d.tasks, last.call); }
      if t in d.tasks { EffectOnTask(d, last, t); }
      NeverClaimed(db, front, t);
    }
  }

  /** Only the worker that claimed a task last can settle it, and then with its one run. */
  lemma SettlerClaimedLast(db: Db, es: seq<Event>, t: nat, worker: string, o: Outcome, now: nat)
    requires Consistent(db) && t !in db.tasks && t in After(db, es).tasks
    requires After(db, es + [Persist(worker, t, o, now)]) != After(db, es)
    ensures LastClaimer(db, es, t) == Some(worker)
    ensures var d := After(db, es + [Persist(worker, t, o, now)]);
      && t in d.tasks && d.tasks[t].run == Some(After(db, es).nextRun) && d.tasks[t].attempts == ClaimCount(db, es, t)
      && d.tasks[t].status == (if o.success then Status.Success else Failed)
      && d.tasks[t].finished == Some(o.finished) && d.tasks[t].error == o.error
  {
    hide Consistent, Propagated, LastClaimer, ClaimCount;
    HeldByLastClaimer(db, es, t);
    var e := Persist(worker, t, o, now);
    assert (es + [e])[..|es|] == es;
    RunKeeps(db, es);
    EffectOnTask(After(db, es), e, t);
  }

  /** In every reachable state worker, lease and heartbeat are set exactly while a task runs, and
      its finish time exactly once it is settled. */
  lemma LeaseFieldsWhileRunning(db: Db, es: seq<Event>, t: nat)
    requires Consistent(db) && t in After(db, es).tasks
    ensures var task := After(db, es).tasks[t];
      && (task.worker.Some? <==> task.status == Running) && (task.lease.Some? <==> task.status == Running)
      && (task.heartbeat.Some? <==> task.status == Running) && (task.finished.Some? <==> !task.status.Active())
  {
    hide After, Linked, OneActive, RunsOk, HasRoom;
    RunKeeps(db, es);
    assert TaskOk(After(db, es).tasks[t]);
  }

  /** In every reachable state the active tasks fit the queue and no device has two of them. */
  lemma QueueStaysBounded(db: Db, es: seq<Event>, device: nat)
    requires Consistent(db)
    ensures var d := After(db, es); |ActiveTasks(d.tasks)| <= d.queueSize && |ActiveOf(d.tasks, device)| <= 1
  {
    hide After, Linked, TasksOk, RunsOk, ActiveTasks;
    RunKeeps(db, es);
    var active := ActiveOf(After(db, es).tasks, device);
    if t :| t in active {
      forall u | u in active ensures u == t {}
      assert active == {t};
    }
  }
}
