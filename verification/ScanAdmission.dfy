/** Admission: enqueueing one device and creating a batch keep the table consistent, and the
    capacity test before a batch's loop is exactly what the loop needs. */
module ScanAdmission {
  import opened Wrappers
  import opened Ordering
  import opened ScanTasks
  import opened ScanTaskInvariants

  /** Linked, except that the counters of the batches `ids` may be out of date. */
  ghost predicate LinkedBut(db: Db, ids: set<nat>) {
    && ItemsOk(db.items, db.tasks, db.batches, db.nextItem) && OneItemPerDevice(db.items)
    && forall b | b in db.batches :: b < db.nextBatch && (b !in ids ==> InStep(db.batches[b], db.items, b))
  }

  lemma LinkedIsLinkedBut(db: Db, ids: set<nat>)
    requires Linked(db)
    ensures LinkedBut(db, ids)
  {
    hide InStep;
  }

  lemma RefreshingLinks(db: Db, ids: set<nat>)
    requires LinkedBut(db, ids)
    ensures Linked(Refreshing(db, ids))
  {
    hide InStep, Recounted;
    forall b | b in db.batches && b in ids ensures InStep(Recounted(db.batches[b], db.items, b, db.clock), db.items, b) {
      RecountInStep(db.batches[b], db.items, b, db.clock);
    }
    forall i | i in db.items ensures ItemOk(db.items[i], db.tasks, Refreshing(db, ids).batches) {
      assert ItemOk(db.items[i], db.tasks, db.batches);
    }
  }

  // ------------------------------------------------------------- one device

  lemma ActiveGrows(tasks: Tasks, t: nat, task: Task)
    requires t !in tasks && task.status.Active()
    ensures |ActiveTasks(tasks[t := task])| == |ActiveTasks(tasks)| + 1
  {
    assert ActiveTasks(tasks[t := task]) == ActiveTasks(tasks) + {t};
  }

  lemma ActiveSame(tasks: Tasks, t: nat, task: Task)
    requires t in tasks && task.status == tasks[t].status && task.device == tasks[t].device
    ensures ActiveTasks(tasks[t := task]) == ActiveTasks(tasks)
    ensures forall d :: ActiveOf(tasks[t := task], d) == ActiveOf(tasks, d)
  {
  }

  lemma ItemsStay(items: Items, before: Tasks, after: Tasks, batches: Batches, nextItem: nat)
    requires ItemsOk(items, before, batches, nextItem) && before.Keys <= after.Keys
    requires forall t | t in before :: after[t].device == before[t].device && after[t].status == before[t].status
    ensures ItemsOk(items, after, batches, nextItem)
  {
    forall i | i in items ensures ItemOk(items[i], after, batches) { assert ItemOk(items[i], before, batches); }
  }

  lemma AddedTaskKeeps(db: Db, device: nat, trigger: Trigger, priority: int)
    requires Sound(db) && |ActiveTasks(db.tasks)| < db.queueSize && ActiveOf(db.tasks, device) == {}
    ensures var task := NewTask(device, trigger, priority, db.clock); var tasks := db.tasks[db.nextTask := task];
      && db.nextTask !in db.tasks && Grows(db.tasks, tasks)
      && Sound(db.(tasks := tasks, nextTask := db.nextTask + 1)) && |ActiveTasks(tasks)| == |ActiveTasks(db.tasks)| + 1
  {
    var task := NewTask(device, trigger, priority, db.clock);
    var tasks := db.tasks[db.nextTask := task];
    assert db.nextTask !in db.tasks;
    ActiveGrows(db.tasks, db.nextTask, task);
    forall t | t in db.tasks && db.tasks[t].device == device ensures !db.tasks[t].status.Active() {
      assert t !in ActiveOf(db.tasks, device);
    }
    assert OneActive(tasks);
  }

  lemma BumpKeeps(db: Db, t: nat, trigger: Trigger, priority: int)
    requires Sound(db) && t in db.tasks && db.tasks[t].status.Active()
    ensures var tasks := db.tasks[t := Bumped(db.tasks[t], trigger, priority)];
      Sound(db.(tasks := tasks)) && Grows(db.tasks, tasks) && ActiveTasks(tasks) == ActiveTasks(db.tasks)
      && (forall u | u in db.tasks :: tasks[u].device == db.tasks[u].device && tasks[u].status == db.tasks[u].status)
  {
    hide RunsOk;
    var task := Bumped(db.tasks[t], trigger, priority);
    var tasks := db.tasks[t := task];
    ActiveSame(db.tasks, t, task);
    RunsMove(db.runs, db.tasks, tasks, db.nextRun);
    assert TaskOk(db.tasks[t]);
  }

  /** The device's one active task is found or added; the count grows by one if it is new. */
  lemma WithTaskKeeps(db: Db, device: nat, trigger: Trigger, priority: int, ids: set<nat>)
    requires Sound(db) && LinkedBut(db, ids) && WithTask(db, device, trigger, priority).Success?
    ensures var r := WithTask(db, device, trigger, priority).value;
      && Sound(r.0) && LinkedBut(r.0, ids) && Grows(db.tasks, r.0.tasks)
      && r.1 in r.0.tasks && r.0.tasks[r.1].status.Active() && r.0.tasks[r.1].device == device
      && |ActiveTasks(r.0.tasks)| == |ActiveTasks(db.tasks)| + (if ActiveOf(db.tasks, device) == {} then 1 else 0)
      && ActiveTasks(db.tasks) <= ActiveTasks(r.0.tasks)
      && r.0 == db.(tasks := r.0.tasks, nextTask := r.0.nextTask)
      && (forall d | d != device :: ActiveOf(r.0.tasks, d) == ActiveOf(db.tasks, d))
  {
    hide InStep, OneItemPerDevice, Bumped, RunsOk, OneActive, TasksOk, ItemsOk, HasRoom;
    var r := WithTask(db, device, trigger, priority).value;
    var active := ActiveOf(db.tasks, device);
    if active == {} {
      AddedTaskKeeps(db, device, trigger, priority);
      ItemsStay(db.items, db.tasks, r.0.tasks, db.batches, db.nextItem);
    } else {
      var t := MinOf(active);
      assert t in active;
      BumpKeeps(db, t, trigger, priority);
      ItemsStay(db.items, db.tasks, r.0.tasks, db.batches, db.nextItem);
    }
  }

  function ItemsIn(items: Items, b: nat): set<nat> { set i | i in items && items[i].batch == b }

  function DevicesIn(items: Items, b: nat): set<nat> { set i | i in items && items[i].batch == b :: items[i].device }

  lemma ItemDevices(items: Items, b: nat, device: nat)
    ensures HasItem(items, b, device) <==> device in DevicesIn(items, b)
  {
    if HasItem(items, b, device) {
      var i :| i in items && items[i].batch == b && items[i].device == device;
      assert items[i].device in DevicesIn(items, b);
    }
  }

  lemma AddedItem(items: Items, id: nat, item: Item)
    requires id !in items
    ensures var more := items[id := item];
      && DevicesIn(more, item.batch) == DevicesIn(items, item.batch) + {item.device}
      && |ItemsIn(more, item.batch)| == |ItemsIn(items, item.batch)| + 1
      && (forall o | o != item.batch :: TallyOf(more, o) == TallyOf(items, o))
      && (forall i | i in items :: more[i] == items[i])
  {
    hide TallyOf;
    var more := items[id := item];
    forall i | i in items ensures more[i] == items[i] {}
    assert ItemsIn(more, item.batch) == ItemsIn(items, item.batch) + {id};
    forall x ensures x in DevicesIn(more, item.batch) <==> x in DevicesIn(items, item.batch) + {item.device} {
      if x == item.device { assert more[id].device in DevicesIn(more, item.batch); }
    }
    forall o | o != item.batch ensures TallyOf(more, o) == TallyOf(items, o) { TallyLocal(items, more, o); }
  }

  lemma AttachedKeeps(db: Db, b: nat, t: nat, ids: set<nat>)
    requires LinkedBut(db, ids) && b in ids && t in db.tasks && Attached(db, b, t).Success?
    ensures var d := Attached(db, b, t).value; var had := HasItem(db.items, b, db.tasks[t].device);
      && LinkedBut(d, ids) && d == db.(items := d.items, nextItem := d.nextItem)
      && DevicesIn(d.items, b) == DevicesIn(db.items, b) + {db.tasks[t].device}
      && |ItemsIn(d.items, b)| == |ItemsIn(db.items, b)| + (if had then 0 else 1)
      && (forall i | i in db.items :: i in d.items && d.items[i] == db.items[i])
      && (forall i | i in d.items && i !in db.items :: d.items[i].batch == b && d.items[i].task == t)
  {
    hide InStep, DevicesIn, HasItem, TallyOf, ItemsIn;
    var d := Attached(db, b, t).value;
    ItemDevices(db.items, b, db.tasks[t].device);
    if HasItem(db.items, b, db.tasks[t].device) {
      assert DevicesIn(d.items, b) == DevicesIn(db.items, b) + {db.tasks[t].device};
    } else {
      var item := Item(b, t, db.tasks[t].device, db.tasks[t].status);
      assert db.nextItem !in db.items;
      AddedItem(db.items, db.nextItem, item);
      NoSuchItem(db.items, b, db.tasks[t].device);
      AddedItemLinks(db, item, ids);
    }
  }

  lemma NoSuchItem(items: Items, b: nat, device: nat)
    requires !HasItem(items, b, device)
    ensures forall i | i in items && items[i].batch == b :: items[i].device != device
  {
  }

  lemma AddedItemLinks(db: Db, item: Item, ids: set<nat>)
    requires LinkedBut(db, ids) && item.batch in ids && ItemOk(item, db.tasks, db.batches)
    requires forall i | i in db.items && db.items[i].batch == item.batch :: db.items[i].device != item.device
    ensures LinkedBut(db.(items := db.items[db.nextItem := item], nextItem := db.nextItem + 1), ids)
  {
    hide TallyOf, InStep;
    var more := db.items[db.nextItem := item];
    assert db.nextItem !in db.items;
    AddedItem(db.items, db.nextItem, item);
    forall o | o in db.batches && o !in ids ensures InStep(db.batches[o], more, o) {
      InStepMoves(db.batches[o], db.items, more, o);
    }
  }

  /** One `_enqueue_in_session`. */
  lemma InSessionKeeps(db: Db, device: nat, trigger: Trigger, priority: int, batch: Option<nat>, ids: set<nat>)
    requires Sound(db) && LinkedBut(db, ids) && (batch.Some? ==> batch.value in ids)
    requires InSession(db, device, trigger, priority, batch).Success?
    ensures var d := InSession(db, device, trigger, priority, batch).value.0;
      && Sound(d) && LinkedBut(d, ids) && Grows(db.tasks, d.tasks)
      && d == db.(tasks := d.tasks, nextTask := d.nextTask, items := d.items, nextItem := d.nextItem)
  {
    hide LinkedBut, WithTask, Attached, TasksOk, OneActive, RunsOk, HasRoom, Grows;
    WithTaskKeeps(db, device, trigger, priority, ids);
    var r := WithTask(db, device, trigger, priority).value;
    if batch.Some? { AttachedKeeps(r.0, batch.value, r.1, ids); }
  }

  lemma EnqueueKeeps(db: Db, device: nat, trigger: Trigger, priority: int, batch: Option<nat>)
    requires Consistent(db) && Enqueued(db, device, trigger, priority, batch).Success?
    ensures var d := Enqueued(db, device, trigger, priority, batch).value.0; Consistent(d) && Grows(db.tasks, d.tasks)
  {
    hide LinkedBut, Linked, InSession, Refreshed, TasksOk, OneActive, RunsOk, HasRoom, Grows;
    var ids := if batch.Some? then {batch.value} else {};
    LinkedIsLinkedBut(db, ids);
    InSessionKeeps(db, device, trigger, priority, batch, ids);
    var d := InSession(db, device, trigger, priority, batch).value.0;
    RefreshingLinks(d, ids);
    if batch.None? { NothingOutOfDate(d); }
  }

  lemma NothingOutOfDate(db: Db)
    requires LinkedBut(db, {})
    ensures Linked(db)
  {
    hide InStep;
  }

  // ---------------------------------------------------------------- batches

  /** Selected devices that need a new task. */
  function NewTasks(tasks: Tasks, ds: seq<nat>): int { |ds| - |ActiveDevices(tasks, ds)| }

  lemma ActiveDeviceIsActive(tasks: Tasks, ds: seq<nat>, d: nat)
    ensures d in ActiveDevices(tasks, ds) <==> d in ds && ActiveOf(tasks, d) != {}
  {
    if d in ds && ActiveOf(tasks, d) != {} {
      var t :| t in ActiveOf(tasks, d);
      assert tasks[t].device in ActiveDevices(tasks, ds);
    }
    if d in ActiveDevices(tasks, ds) {
      var t :| t in tasks && tasks[t].status.Active() && tasks[t].device == d;
      assert t in ActiveOf(tasks, d);
    }
  }

  predicate AllDistinct(ds: seq<nat>) { forall i, j | 0 <= i < j < |ds| :: ds[i] != ds[j] }

  lemma LastDevice(tasks: Tasks, ds: seq<nat>)
    requires ds != [] && AllDistinct(ds)
    ensures var front, last := ds[..|ds| - 1], ds[|ds| - 1];
      && AllDistinct(front) && last !in front && (forall d :: d in ds <==> d in front || d == last)
      && NewTasks(tasks, ds) == NewTasks(tasks, front) + (if ActiveOf(tasks, last) == {} then 1 else 0)
  {
    hide ActiveDevices, ActiveOf;
    var front, last := ds[..|ds| - 1], ds[|ds| - 1];
    assert ds == front + [last];
    forall d
      ensures d in ActiveDevices(tasks, ds) <==> d in ds && ActiveOf(tasks, d) != {}
      ensures d in ActiveDevices(tasks, front) <==> d in front && ActiveOf(tasks, d) != {}
    {
      ActiveDeviceIsActive(tasks, ds, d);
      ActiveDeviceIsActive(tasks, front, d);
    }
    assert ActiveDevices(tasks, ds) == ActiveDevices(tasks, front) + if ActiveOf(tasks, last) == {} then {} else {last};
  }

  /** The new items of batch `b` are one per device of `ds`, each tied to the device's active task. */
  ghost predicate Joined(db: Db, d: Db, ds: seq<nat>, b: nat) {
    && (forall i | i in db.items :: i in d.items && d.items[i] == db.items[i])
    && (forall i | i in d.items && i !in db.items :: d.items[i].batch == b && d.items[i].task in d.tasks && d.tasks[d.items[i].task].status.Active())
    && DevicesIn(d.items, b) == DevicesIn(db.items, b) + (set x | x in ds)
    && |ItemsIn(d.items, b)| == |ItemsIn(db.items, b)| + |ds|
  }

  /** With room for the new tasks, the loop is never refused. */
  lemma {:induction false} LoopNeverFails(db: Db, ds: seq<nat>, kind: BatchType, b: nat)
    requires Sound(db) && LinkedBut(db, {b}) && b in db.batches && AllDistinct(ds)
    requires forall x | x in ds :: Collectible(db.devices, x) && x !in DevicesIn(db.items, b)
    requires |ActiveTasks(db.tasks)| + NewTasks(db.tasks, ds) <= db.queueSize
    ensures EnqueuedAll(db, ds, kind, b).Success?
    ensures var d := EnqueuedAll(db, ds, kind, b).value;
      && Sound(d) && LinkedBut(d, {b}) && Grows(db.tasks, d.tasks) && Joined(db, d, ds, b)
      && |ActiveTasks(d.tasks)| == |ActiveTasks(db.tasks)| + NewTasks(db.tasks, ds)
      && d == db.(tasks := d.tasks, nextTask := d.nextTask, items := d.items, nextItem := d.nextItem)
      && (forall x | x !in ds :: ActiveOf(d.tasks, x) == ActiveOf(db.tasks, x))
    decreases |ds|
  {
    hide Sound, LinkedBut, Grows, Joined, ActiveTasks, ActiveOf, NewTasks, DevicesIn, InSession, Collectible;
    if ds == [] {
      NothingJoined(db, b);
      return;
    }
    var front, last := ds[..|ds| - 1], ds[|ds| - 1];
    LastDevice(db.tasks, ds);
    LoopNeverFails(db, front, kind, b);
    var mid := EnqueuedAll(db, front, kind, b).value;
    LastStep(db, mid, front, last, kind, b);
    var d := InSession(mid, last, TriggerOf(kind), PriorityOf(kind), Some(b)).value.0;
    GrowsTwice(db.tasks, mid.tasks, d.tasks);
    assert ds == front + [last];
  }

  lemma GrowsTwice(a: Tasks, b: Tasks, c: Tasks)
    requires Grows(a, b) && Grows(b, c)
    ensures Grows(a, c)
  {
  }

  lemma NothingJoined(db: Db, b: nat)
    ensures Joined(db, db, [], b) && Grows(db.tasks, db.tasks) && NewTasks(db.tasks, []) == 0
  {
    assert ActiveDevices(db.tasks, []) == {};
    var none: seq<nat> := [];
    assert (set x | x in none) == {};
  }

  /** The loop's step for the last device. */
  lemma LastStep(db: Db, mid: Db, front: seq<nat>, last: nat, kind: BatchType, b: nat)
    requires Sound(mid) && LinkedBut(mid, {b}) && b in mid.batches && Joined(db, mid, front, b)
    requires last !in front && Collectible(mid.devices, last) && last !in DevicesIn(db.items, b)
    requires |ActiveTasks(mid.tasks)| + (if ActiveOf(mid.tasks, last) == {} then 1 else 0) <= mid.queueSize
    ensures InSession(mid, last, TriggerOf(kind), PriorityOf(kind), Some(b)).Success?
    ensures var d := InSession(mid, last, TriggerOf(kind), PriorityOf(kind), Some(b)).value.0;
      && Sound(d) && LinkedBut(d, {b}) && Grows(mid.tasks, d.tasks) && Joined(db, d, front + [last], b)
      && |ActiveTasks(d.tasks)| == |ActiveTasks(mid.tasks)| + (if ActiveOf(mid.tasks, last) == {} then 1 else 0)
      && d == mid.(tasks := d.tasks, nextTask := d.nextTask, items := d.items, nextItem := d.nextItem)
      && (forall x | x != last :: ActiveOf(d.tasks, x) == ActiveOf(mid.tasks, x))
  {
    hide TasksOk, OneActive, RunsOk, HasRoom, LinkedBut, Joined, ActiveTasks, ActiveOf, DevicesIn, HasItem, Grows;
    var trigger, priority := TriggerOf(kind), PriorityOf(kind);
    assert WithTask(mid, last, trigger, priority).Success?;
    WithTaskKeeps(mid, last, trigger, priority, {b});
    var r := WithTask(mid, last, trigger, priority).value;
    JoinedDevices(db, mid, front, last, b);
    ItemDevices(mid.items, b, last);
    AttachedKeeps(r.0, b, r.1, {b});
    var d := InSession(mid, last, trigger, priority, Some(b)).value.0;
    JoinOne(db, mid, r.0.tasks, d, front, last, b, r.1);
  }

  lemma JoinedDevices(db: Db, mid: Db, front: seq<nat>, last: nat, b: nat)
    requires Joined(db, mid, front, b) && last !in front && last !in DevicesIn(db.items, b)
    ensures last !in DevicesIn(mid.items, b)
  {
  }

  lemma JoinOne(db: Db, mid: Db, tasks: Tasks, d: Db, front: seq<nat>, last: nat, b: nat, t: nat)
    requires Joined(db, mid, front, b) && Grows(mid.tasks, tasks) && d.tasks == tasks
    requires t in tasks && tasks[t].status.Active()
    requires ActiveTasks(mid.tasks) <= ActiveTasks(tasks)
    requires forall i | i in mid.items :: i in d.items && d.items[i] == mid.items[i]
    requires forall i | i in d.items && i !in mid.items :: d.items[i].batch == b && d.items[i].task == t
    requires DevicesIn(d.items, b) == DevicesIn(mid.items, b) + {last} && |ItemsIn(d.items, b)| == |ItemsIn(mid.items, b)| + 1
    ensures Joined(db, d, front + [last], b)
  {
    hide DevicesIn;
    forall i | i in mid.items && i !in db.items ensures tasks[mid.items[i].task].status.Active() {
      assert mid.items[i].task in ActiveTasks(mid.tasks);
    }
    assert (set x | x in front + [last]) == (set x | x in front) + {last};
  }

  /** The total is the number of the batch's items. */
  lemma TallyTotal(items: Items, b: nat)
    ensures TallyOf(items, b).total == |ItemsIn(items, b)|
  {
    hide ItemsWith, ItemsIn;
    Statuses(items, b);
    FiveParts(ItemsIn(items, b), ItemsWith(items, b, Pending), ItemsWith(items, b, Running), ItemsWith(items, b, Status.Success),
              ItemsWith(items, b, Failed), ItemsWith(items, b, Cancelled));
  }

  lemma Statuses(items: Items, b: nat)
    ensures forall i :: i in ItemsIn(items, b) <==> exists s :: i in ItemsWith(items, b, s)
    ensures forall i, s, t | i in ItemsWith(items, b, s) && i in ItemsWith(items, b, t) :: s == t
  {
    forall i ensures i in ItemsIn(items, b) <==> exists s :: i in ItemsWith(items, b, s) {
      if i in ItemsIn(items, b) { assert i in ItemsWith(items, b, items[i].status); }
    }
  }

  lemma FiveParts(all: set<nat>, p: set<nat>, r: set<nat>, s: set<nat>, f: set<nat>, c: set<nat>)
    requires forall i :: i in all <==> i in p || i in r || i in s || i in f || i in c
    requires p !! r && (p + r) !! s && (p + r + s) !! f && (p + r + s + f) !! c
    ensures |all| == |p| + |r| + |s| + |f| + |c|
  {
    assert all == p + r + s + f + c;
  }

  lemma EmptyBatchLinks(db: Db, kind: BatchType)
    requires Linked(db)
    ensures LinkedBut(WithBatch(db, kind), {db.nextBatch}) && db.nextBatch !in db.batches
    ensures ItemsIn(db.items, db.nextBatch) == {} && DevicesIn(db.items, db.nextBatch) == {}
  {
    hide InStep;
    assert db.nextBatch !in db.batches;
    forall i | i in db.items ensures db.items[i].batch != db.nextBatch && ItemOk(db.items[i], db.tasks, WithBatch(db, kind).batches) {
      assert ItemOk(db.items[i], db.tasks, db.batches);
    }
  }

  /** Creating a batch is refused, changing nothing, exactly when the new tasks would not fit.
      Otherwise the loop is never refused: the batch gets one item per distinct requested device
      that exists and may be collected, each tied to that device's active task. */
  lemma BatchAdmission(db: Db, kind: BatchType, requested: seq<nat>)
    requires Consistent(db)
    ensures var selected := Selected(db.devices, requested); var b := db.nextBatch;
      && (BatchCreated(db, kind, requested).Success? <==> |ActiveTasks(db.tasks)| + NewTasks(db.tasks, selected) <= db.queueSize)
      && (BatchCreated(db, kind, requested).Failure? ==> Apply(db, CreateBatch(kind, requested)) == db)
      && (BatchCreated(db, kind, requested).Success? ==>
            var d := BatchCreated(db, kind, requested).value;
            && Consistent(d) && Grows(db.tasks, d.tasks) && Joined(db, d, selected, b)
            && b !in db.batches && d.batches.Keys == db.batches.Keys + {b}
            && (forall o | o in db.batches :: d.batches[o] == db.batches[o])
            && DevicesIn(d.items, b) == (set x | x in requested && Collectible(db.devices, x))
            && d.batches[b].tally.total == |ItemsIn(d.items, b)| == |selected|
            && |ActiveTasks(d.tasks)| == |ActiveTasks(db.tasks)| + NewTasks(db.tasks, selected))
  {
    hide TasksOk, OneActive, RunsOk, HasRoom, LinkedBut, Linked, Joined, ActiveTasks, DevicesIn, Grows, TallyOf, EnqueuedAll, Selected, ActiveDevices;
    var selected, b := Selected(db.devices, requested), db.nextBatch;
    EmptyBatchLinks(db, kind);
    SelectedDevices(db.devices, requested);
    if |ActiveTasks(db.tasks)| + NewTasks(db.tasks, selected) <= db.queueSize {
      var start := WithBatch(db, kind);
      LoopNeverFails(start, selected, kind, b);
      var d := EnqueuedAll(start, selected, kind, b).value;
      RefreshingLinks(d, {b});
      JoinedFirst(start, d, selected, b);
      TallyTotal(d.items, b);
      JoinedRefreshed(db, start, d, selected, b);
    }
  }

  lemma SelectedDevices(devices: map<nat, bool>, requested: seq<nat>)
    ensures AllDistinct(Selected(devices, requested))
    ensures forall x :: x in Selected(devices, requested) <==> x in requested && Collectible(devices, x)
  {
  }

  lemma JoinedFirst(db: Db, d: Db, ds: seq<nat>, b: nat)
    requires Joined(db, d, ds, b) && ItemsIn(db.items, b) == {} && DevicesIn(db.items, b) == {}
    ensures |ItemsIn(d.items, b)| == |ds| && DevicesIn(d.items, b) == set x | x in ds
  {
    hide DevicesIn, ItemsIn;
  }

  lemma JoinedRefreshed(db: Db, start: Db, d: Db, ds: seq<nat>, b: nat)
    requires Joined(start, d, ds, b) && start.items == db.items
    ensures Joined(db, Refreshing(d, {b}), ds, b)
  {
    hide DevicesIn, ItemsIn;
  }

  // ------------------------------------------------------------- every step

  /** No transaction, and no tick, breaks consistency or undoes what a task went through. */
  lemma {:induction false} StepKeeps(db: Db, e: Event)
    requires Consistent(db)
    ensures Consistent(Apply(db, e)) && Grows(db.tasks, Apply(db, e).tasks)
  {
    hide Consistent, Enqueued, BatchCreated, Claimed, Renewed, Persisted, FailedUnexpectedly, CancelOf;
    match e
    case Tick(_) => TickKeeps(db, e.elapsed);
    case Enqueue(device, trigger, priority, batch) =>
      if Enqueued(db, device, trigger, priority, batch).Success? { EnqueueKeeps(db, device, trigger, priority, batch); } else { Unchanged(db); }
    case CreateBatch(kind, requested) =>
      BatchAdmission(db, kind, requested);
      Unchanged(db);
    case Claim(call) => ClaimKeeps(db, call);
    case Renew(worker, ids, lease, now) => RenewKeeps(db, ids, worker, now, lease);
    case Persist(worker, task, outcome, now) => PersistKeeps(db, worker, task, outcome, now);
    case Fail(worker, task, now) => FailKeeps(db, worker, task, now);
    case Cancel(device) => CancelKeeps(db, device);
    case RolledBack(_) => Unchanged(db);
  }

  lemma TickKeeps(db: Db, elapsed: nat)
    requires Consistent(db)
    ensures Consistent(db.(clock := db.clock + elapsed)) && Grows(db.tasks, db.tasks)
  {
    hide TasksOk, OneActive, RunsOk, HasRoom, ItemsOk, OneItemPerDevice, BatchesOk;
  }

  lemma Unchanged(db: Db)
    ensures Grows(db.tasks, db.tasks)
  {
  }

  /** Over whole runs. */
  lemma {:induction false} RunKeeps(db: Db, es: seq<Event>)
    requires Consistent(db)
    ensures Consistent(After(db, es)) && Grows(db.tasks, After(db, es).tasks)
    decreases |es|
  {
    hide Consistent, Grows, Apply;
    Unchanged(db);
    if es != [] {
      var before := es[..|es| - 1];
      RunKeeps(db, before);
      StepKeeps(After(db, before), es[|es| - 1]);
      GrowsTwice(db.tasks, After(db, before).tasks, After(db, es).tasks);
    }
  }
}
