/** The shared task table: tasks, batches, mirrored batch items and scan runs, and every
    transaction on them as a function of the database state. Each transaction is one atomic
    step; `now` is the start of the transaction, which may lag behind the clock. */
module ScanTasks {
  import opened Wrappers
  import opened Ordering

  datatype Status = Pending | Running | Success | Failed | Cancelled {
    predicate Active() { Pending? || Running? }
  }

  datatype Trigger = Manual | Scheduled | Imported | Batched

  datatype Task = Task(
    device: nat, trigger: Trigger, priority: int, status: Status, created: nat,
    started: Option<nat>, finished: Option<nat>,
    worker: Option<string>, lease: Option<nat>, heartbeat: Option<nat>,
    attempts: nat, run: Option<nat>, error: Option<string>)

  datatype Item = Item(batch: nat, task: nat, device: nat, status: Status)

  datatype BatchType = All | Cluster | Import | Retry

  datatype BatchStatus = BatchPending | BatchRunning | BatchCompleted

  datatype Tally = Tally(total: nat, pending: nat, running: nat, success: nat, failed: nat)

  datatype Batch = Batch(kind: BatchType, tally: Tally, status: BatchStatus, finished: Option<nat>)

  /** A stored scan run; `task` is the task whose outcome it holds. */
  datatype ScanRun = ScanRun(task: nat, success: bool)

  type Tasks = map<nat, Task>
  type Items = map<nat, Item>
  type Batches = map<nat, Batch>

  datatype Db = Db(
    devices: map<nat, bool>, tasks: Tasks, items: Items, batches: Batches, runs: map<nat, ScanRun>,
    clock: nat, nextTask: nat, nextItem: nat, nextBatch: nat, nextRun: nat, queueSize: nat)

  // ---------------------------------------------------------- batch counters

  function ItemsWith(items: Items, b: nat, s: Status): set<nat> {
    set i | i in items && items[i].batch == b && items[i].status == s
  }

  function CountOf(items: Items, b: nat, s: Status): nat { |ItemsWith(items, b, s)| }

  /** The five counters as `refresh_scan_batches` recounts them. */
  function TallyOf(items: Items, b: nat): Tally {
    var pending, running := CountOf(items, b, Pending), CountOf(items, b, Running);
    var success, failed, cancelled := CountOf(items, b, Status.Success), CountOf(items, b, Failed), CountOf(items, b, Cancelled);
    Tally(pending + running + success + failed + cancelled, pending, running, success, failed + cancelled)
  }

  function StatusOf(t: Tally): BatchStatus {
    if t.pending > 0 || t.running > 0 then
      if t.running > 0 || t.success > 0 || t.failed > 0 then BatchRunning else BatchPending
    else BatchCompleted
  }

  function Recounted(batch: Batch, items: Items, b: nat, clock: nat): Batch {
    var tally := TallyOf(items, b);
    batch.(tally := tally, status := StatusOf(tally), finished := if StatusOf(tally) == BatchCompleted then Some(clock) else None)
  }

  function Refreshed(batches: Batches, items: Items, ids: set<nat>, clock: nat): Batches {
    map b | b in batches :: if b in ids then Recounted(batches[b], items, b, clock) else batches[b]
  }

  /** Items of the changed tasks take over their task's status. */
  function Mirrored(items: Items, tasks: Tasks, changed: set<nat>): Items {
    map i | i in items ::
      if items[i].task in changed && items[i].task in tasks then items[i].(status := tasks[items[i].task].status) else items[i]
  }

  function BatchesOf(items: Items, changed: set<nat>): set<nat> {
    set i | i in items && items[i].task in changed :: items[i].batch
  }

  /** What follows every change of task statuses: items mirror it, their batches are refreshed. */
  function Propagated(db: Db, changed: set<nat>): Db {
    var items := Mirrored(db.items, db.tasks, changed);
    db.(items := items, batches := Refreshed(db.batches, items, BatchesOf(db.items, changed), db.clock))
  }

  // ---------------------------------------------------------------- enqueue

  datatype Refusal = NoDevice | CollectionDisabled | QueueFull | NoBatch

  function ActiveTasks(tasks: Tasks): set<nat> { set t | t in tasks && tasks[t].status.Active() }

  function ActiveOf(tasks: Tasks, device: nat): set<nat> {
    set t | t in tasks && tasks[t].device == device && tasks[t].status.Active()
  }

  function NewTask(device: nat, trigger: Trigger, priority: int, clock: nat): Task {
    Task(device, trigger, priority, Pending, clock, None, None, None, None, None, 0, None, None)
  }

  function Bumped(t: Task, trigger: Trigger, priority: int): Task {
    if priority > t.priority then t.(priority := priority, trigger := trigger) else t
  }

  /** The device's active task, or a new one if the queue has room. */
  function WithTask(db: Db, device: nat, trigger: Trigger, priority: int): Result<(Db, nat), Refusal> {
    if device !in db.devices then Failure(NoDevice)
    else if !db.devices[device] then Failure(CollectionDisabled)
    else
      var active := ActiveOf(db.tasks, device);
      if active == {} then
        if |ActiveTasks(db.tasks)| >= db.queueSize then Failure(QueueFull)
        else Result.Success((db.(tasks := db.tasks[db.nextTask := NewTask(device, trigger, priority, db.clock)], nextTask := db.nextTask + 1), db.nextTask))
      else
        var t := MinOf(active);
        Result.Success((db.(tasks := db.tasks[t := Bumped(db.tasks[t], trigger, priority)]), t))
  }

  predicate HasItem(items: Items, b: nat, device: nat) { exists i | i in items :: items[i].batch == b && items[i].device == device }

  function Attached(db: Db, b: nat, t: nat): Result<Db, Refusal>
    requires t in db.tasks
  {
    if HasItem(db.items, b, db.tasks[t].device) then Result.Success(db)
    else if b !in db.batches then Failure(NoBatch)
    else
      var item := Item(b, t, db.tasks[t].device, db.tasks[t].status);
      Result.Success(db.(items := db.items[db.nextItem := item], nextItem := db.nextItem + 1))
  }

  /** `_enqueue_in_session`. */
  function InSession(db: Db, device: nat, trigger: Trigger, priority: int, batch: Option<nat>): Result<(Db, nat), Refusal> {
    match WithTask(db, device, trigger, priority)
    case Failure(e) => Failure(e)
    case Success(r) =>
      if batch.None? then Result.Success(r)
      else
        match Attached(r.0, batch.value, r.1)
        case Failure(e) => Failure(e)
        case Success(d) => Result.Success((d, r.1))
  }

  function Refreshing(db: Db, ids: set<nat>): Db { db.(batches := Refreshed(db.batches, db.items, ids, db.clock)) }

  /** `enqueue_device`. */
  function Enqueued(db: Db, device: nat, trigger: Trigger, priority: int, batch: Option<nat>): Result<(Db, nat), Refusal> {
    match InSession(db, device, trigger, priority, batch)
    case Failure(e) => Failure(e)
    case Success(r) => if batch.None? then Result.Success(r) else Result.Success((Refreshing(r.0, {batch.value}), r.1))
  }

  // ----------------------------------------------------------- create batch

  /** `dict.fromkeys`: first occurrences, in order. */
  function Distinct(ds: seq<nat>): (r: seq<nat>)
    ensures forall d :: d in r <==> d in ds
    ensures forall i, j | 0 <= i < j < |r| :: r[i] != r[j]
  {
    if ds == [] then []
    else
      var last := ds[|ds| - 1];
      var front := Distinct(ds[..|ds| - 1]);
      assert ds == ds[..|ds| - 1] + [last];
      if last in front then front else front + [last]
  }

  predicate Collectible(devices: map<nat, bool>, d: nat) { d in devices && devices[d] }

  function KeepCollectible(devices: map<nat, bool>, ds: seq<nat>): (r: seq<nat>)
    ensures forall d :: d in r <==> d in ds && Collectible(devices, d)
    ensures (forall i, j | 0 <= i < j < |ds| :: ds[i] != ds[j]) ==> (forall i, j | 0 <= i < j < |r| :: r[i] != r[j])
  {
    if ds == [] then []
    else
      var last := ds[|ds| - 1];
      var front := KeepCollectible(devices, ds[..|ds| - 1]);
      assert ds == ds[..|ds| - 1] + [last];
      if Collectible(devices, last) then front + [last] else front
  }

  /** Distinct requested devices that exist and may be collected. */
  function Selected(devices: map<nat, bool>, ds: seq<nat>): seq<nat> { KeepCollectible(devices, Distinct(ds)) }

  function ActiveDevices(tasks: Tasks, ds: seq<nat>): set<nat> {
    set t | t in tasks && tasks[t].status.Active() && tasks[t].device in ds :: tasks[t].device
  }

  const PRIORITY_IMPORT := 60
  const PRIORITY_BATCH := 80

  function TriggerOf(kind: BatchType): Trigger { if kind == Import then Imported else Batched }

  function PriorityOf(kind: BatchType): int { if kind == Import then PRIORITY_IMPORT else PRIORITY_BATCH }

  function EmptyBatch(kind: BatchType): Batch { Batch(kind, Tally(0, 0, 0, 0, 0), BatchPending, None) }

  /** The enqueue loop of `_create_batch_in_session`, which could stop at the first refusal. */
  function EnqueuedAll(db: Db, ds: seq<nat>, kind: BatchType, b: nat): Result<Db, Refusal> {
    if ds == [] then Result.Success(db)
    else
      match EnqueuedAll(db, ds[..|ds| - 1], kind, b)
      case Failure(e) => Failure(e)
      case Success(d) =>
        match InSession(d, ds[|ds| - 1], TriggerOf(kind), PriorityOf(kind), Some(b))
        case Failure(e) => Failure(e)
        case Success(r) => Result.Success(r.0)
  }

  function WithBatch(db: Db, kind: BatchType): Db {
    db.(batches := db.batches[db.nextBatch := EmptyBatch(kind)], nextBatch := db.nextBatch + 1)
  }

  predicate Overfull(db: Db, selected: seq<nat>) {
    |ActiveTasks(db.tasks)| + |selected| - |ActiveDevices(db.tasks, selected)| > db.queueSize
  }

  /** `_create_batch_in_session`; the new batch is `db.nextBatch`. */
  function BatchCreated(db: Db, kind: BatchType, ds: seq<nat>): Result<Db, Refusal> {
    var selected := Selected(db.devices, ds);
    if Overfull(db, selected) then Failure(QueueFull)
    else
      match EnqueuedAll(WithBatch(db, kind), selected, kind, db.nextBatch)
      case Failure(e) => Failure(e)
      case Success(d) => Result.Success(Refreshing(d, {db.nextBatch}))
  }

  // ------------------------------------------------------------------ claim

  /** Running tasks without a live lease at `now`, except rows locked by others. */
  function Expired(tasks: Tasks, now: nat, locked: set<nat>): set<nat> {
    set t | t in tasks && t !in locked && tasks[t].status == Running && (tasks[t].lease.None? || tasks[t].lease.value <= now)
  }

  function Reset(t: Task): Task { t.(status := Pending, worker := None, lease := None, heartbeat := None) }

  function Swept(tasks: Tasks, expired: set<nat>): Tasks {
    map t | t in tasks :: if t in expired then Reset(tasks[t]) else tasks[t]
  }

  /** Running tasks whose lease is live at `now`. */
  function Live(tasks: Tasks, now: nat): set<nat> {
    set t | t in tasks && tasks[t].status == Running && tasks[t].lease.Some? && tasks[t].lease.value > now
  }

  function ClaimLimit(capacity: int, limit: int, active: nat): nat {
    var free := if limit > active then limit - active else 0;
    if capacity <= 0 then 0 else if capacity <= free then capacity else free
  }

  /** Position of a pending task in the claim order. */
  datatype Rank = Rank(priority: int, created: nat, id: nat)

  predicate RankLess(a: Rank, b: Rank) {
    || a.priority > b.priority
    || (a.priority == b.priority && (a.created < b.created || (a.created == b.created && a.id < b.id)))
  }

  lemma RankOrder()
    ensures StrictTotalOrder(RankLess)
  {
  }

  function RankOf(tasks: Tasks, t: nat): Rank
    requires t in tasks
  {
    Rank(tasks[t].priority, tasks[t].created, t)
  }

  function Waiting(tasks: Tasks, locked: set<nat>): set<nat> { set t | t in tasks && t !in locked && tasks[t].status == Pending }

  function WaitingRanks(tasks: Tasks, locked: set<nat>): set<Rank> { set t | t in Waiting(tasks, locked) :: RankOf(tasks, t) }

  /** `ORDER BY priority DESC, created_at, id LIMIT k`, skipping locked rows. */
  function ClaimOrder(tasks: Tasks, locked: set<nat>, k: nat): seq<Rank> {
    RankOrder();
    First(WaitingRanks(tasks, locked), RankLess, k)
  }

  function IdsOf(ranks: seq<Rank>): set<nat> { set r | r in ranks :: r.id }

  function Begun(t: Task, worker: string, now: nat, lease: nat): Task {
    t.(status := Running, worker := Some(worker), started := if t.started.Some? then t.started else Some(now),
       heartbeat := Some(now), lease := Some(now + lease), attempts := t.attempts + 1)
  }

  function Started(tasks: Tasks, chosen: set<nat>, worker: string, now: nat, lease: nat): Tasks {
    map t | t in tasks :: if t in chosen then Begun(tasks[t], worker, now, lease) else tasks[t]
  }

  /** Arguments of one claim; `lockedRunning` and `lockedPending` are the rows its two queries skip. */
  datatype ClaimCall = ClaimCall(
    worker: string, capacity: int, limit: int, lease: nat, now: nat, lockedRunning: set<nat>, lockedPending: set<nat>)

  /** Tasks as the claim finds them after its expiry sweep. */
  function SweptFor(tasks: Tasks, c: ClaimCall): Tasks { Swept(tasks, Expired(tasks, c.now, c.lockedRunning)) }

  function ClaimedRanks(tasks: Tasks, c: ClaimCall): seq<Rank> {
    var swept := SweptFor(tasks, c);
    ClaimOrder(swept, c.lockedPending, ClaimLimit(c.capacity, c.limit, |Live(swept, c.now)|))
  }

  /** Tasks the claim starts. */
  function ClaimedBy(tasks: Tasks, c: ClaimCall): set<nat> {
    if c.capacity <= 0 then {} else IdsOf(ClaimedRanks(tasks, c))
  }

  /** `claim_scan_tasks`. */
  function Claimed(db: Db, c: ClaimCall): Db {
    if c.capacity <= 0 then db
    else
      var expired, chosen := Expired(db.tasks, c.now, c.lockedRunning), ClaimedBy(db.tasks, c);
      Propagated(db.(tasks := Started(Swept(db.tasks, expired), chosen, c.worker, c.now, c.lease)), expired + chosen)
  }

  // ----------------------------------------------------- renew, settle, cancel

  /** `worker` holds a lease on `t` that is live at `now`. */
  predicate Owns(tasks: Tasks, t: nat, worker: string, now: nat) {
    && t in tasks && tasks[t].status == Running && tasks[t].worker == Some(worker)
    && tasks[t].lease.Some? && tasks[t].lease.value > now
  }

  function Owned(tasks: Tasks, ids: set<nat>, worker: string, now: nat): set<nat> {
    set t | t in ids && Owns(tasks, t, worker, now)
  }

  /** `renew_scan_leases`. */
  function Renewed(tasks: Tasks, ids: set<nat>, worker: string, now: nat, lease: nat): Tasks {
    map t | t in tasks ::
      if t in ids && Owns(tasks, t, worker, now) then tasks[t].(heartbeat := Some(now), lease := Some(now + lease)) else tasks[t]
  }

  datatype Outcome = Outcome(success: bool, finished: nat, error: Option<string>)

  function Settled(t: Task, o: Outcome, run: nat): Task {
    t.(run := Some(run), finished := Some(o.finished), error := o.error, status := if o.success then Status.Success else Failed,
       worker := None, lease := None, heartbeat := None)
  }

  /** `_persist_outcome`; a lost lease raises and changes nothing. */
  function Persisted(db: Db, worker: string, t: nat, o: Outcome, now: nat): Db {
    if !Owns(db.tasks, t, worker, now) then db
    else
      Propagated(db.(tasks := db.tasks[t := Settled(db.tasks[t], o, db.nextRun)],
                     runs := db.runs[db.nextRun := ScanRun(t, o.success)], nextRun := db.nextRun + 1), {t})
  }

  const INTERNAL_ERROR := "internal error"

  function Aborted(t: Task, clock: nat): Task {
    t.(status := Failed, error := Some(INTERNAL_ERROR), finished := Some(clock), worker := None, lease := None, heartbeat := None)
  }

  /** `_fail_unexpected_task`. */
  function FailedUnexpectedly(db: Db, worker: string, t: nat, now: nat): Db {
    if !Owns(db.tasks, t, worker, now) then db
    else Propagated(db.(tasks := db.tasks[t := Aborted(db.tasks[t], db.clock)]), {t})
  }

  function CancelledTask(t: Task, clock: nat): Task { t.(status := Cancelled, finished := Some(clock)) }

  /** `cancel_device`: only a pending task can be cancelled. */
  function CancelOf(db: Db, device: nat): Db {
    var active := ActiveOf(db.tasks, device);
    if active == {} then db
    else
      var t := MinOf(active);
      if db.tasks[t].status == Running then db
      else Propagated(db.(tasks := db.tasks[t := CancelledTask(db.tasks[t], db.clock)]), {t})
  }

  // ----------------------------------------------------------------- events

  datatype Event =
    | Tick(elapsed: nat)
    | Enqueue(device: nat, trigger: Trigger, priority: int, batch: Option<nat>)
    | CreateBatch(kind: BatchType, requested: seq<nat>)
    | Claim(call: ClaimCall)
    | Renew(worker: string, ids: set<nat>, lease: nat, now: nat)
    | Persist(worker: string, task: nat, outcome: Outcome, now: nat)
    | Fail(worker: string, task: nat, now: nat)
    | Cancel(device: nat)
    /** An attempt that was rolled back. */
    | RolledBack(attempt: Event)

  function Apply(db: Db, e: Event): Db {
    match e
    case Tick(elapsed) => db.(clock := db.clock + elapsed)
    case Enqueue(device, trigger, priority, batch) =>
      (match Enqueued(db, device, trigger, priority, batch) case Failure(_) => db case Success(r) => r.0)
    case CreateBatch(kind, requested) =>
      (match BatchCreated(db, kind, requested) case Failure(_) => db case Success(d) => d)
    case Claim(call) => Claimed(db, call)
    case Renew(worker, ids, lease, now) => db.(tasks := Renewed(db.tasks, ids, worker, now, lease))
    case Persist(worker, task, outcome, now) => Persisted(db, worker, task, outcome, now)
    case Fail(worker, task, now) => FailedUnexpectedly(db, worker, task, now)
    case Cancel(device) => CancelOf(db, device)
    case RolledBack(_) => db
  }

  /** No transaction starts in the future. */
  predicate Timely(db: Db, e: Event) {
    match e
    case Claim(call) => call.now <= db.clock
    case Renew(_, _, _, now) => now <= db.clock
    case Persist(_, _, _, now) => now <= db.clock
    case Fail(_, _, now) => now <= db.clock
    case _ => true
  }

  /** The state after a run, oldest event first. */
  function After(db: Db, es: seq<Event>): Db {
    if es == [] then db else Apply(After(db, es[..|es| - 1]), es[|es| - 1])
  }

  predicate TimelyRun(db: Db, es: seq<Event>) {
    forall n | 0 <= n < |es| :: Timely(After(db, es[..n]), es[n])
  }
}
