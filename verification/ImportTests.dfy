/** Connection tests of imported rows: leases, batch completion, and the hand-over of a
    completed batch to the scan queue. The model starts once a batch's rows are all stored. */
module ImportTests {
  import opened Wrappers
  import opened Ordering
  import Q = ScanTasks
  import I = ScanTaskInvariants
  import A = ScanAdmission

  datatype TestStatus = Pending | Running | Succeeded | Failed | NotApplicable {
    predicate Open() { Pending? || Running? }
  }

  datatype ImportRow = ImportRow(
    batch: nat, device: Option<nat>, status: TestStatus,
    worker: Option<string>, lease: Option<nat>, heartbeat: Option<nat>, attempts: nat)

  datatype BatchStatus = Testing | Completed

  datatype ImportBatch = ImportBatch(
    status: BatchStatus, pending: nat, running: nat, success: nat, failed: nat, finished: Option<nat>, scanBatch: Option<nat>)

  type Rows = map<nat, ImportRow>
  type Batches = map<nat, ImportBatch>

  /** Import tables next to the scan queue's, sharing its clock. */
  datatype Db = Db(rows: Rows, batches: Batches, queue: Q.Db)

  // ---------------------------------------------------------------- refresh

  function RowsWith(rows: Rows, b: nat, s: TestStatus): set<nat> { set r | r in rows && rows[r].batch == b && rows[r].status == s }

  function Recounted(batch: ImportBatch, rows: Rows, b: nat, clock: nat): ImportBatch {
    var pending, running := |RowsWith(rows, b, Pending)|, |RowsWith(rows, b, Running)|;
    var open := pending > 0 || running > 0;
    batch.(pending := pending, running := running, success := |RowsWith(rows, b, Succeeded)|, failed := |RowsWith(rows, b, Failed)|,
           status := if open then Testing else Completed, finished := if open then None else Some(clock))
  }

  function Refreshed(batches: Batches, rows: Rows, ids: set<nat>, clock: nat): Batches {
    map b | b in batches :: if b in ids then Recounted(batches[b], rows, b, clock) else batches[b]
  }

  /** Batches that a refresh of `ids` finds completed for the first time. */
  function NewlyCompleted(batches: Batches, rows: Rows, ids: set<nat>, clock: nat): set<nat> {
    set b | b in ids && b in batches && batches[b].status != Completed && Recounted(batches[b], rows, b, clock).status == Completed
  }

  // ------------------------------------------------------------------ claim

  function Expired(rows: Rows, now: nat, locked: set<nat>): set<nat> {
    set r | r in rows && r !in locked && rows[r].status == Running && (rows[r].lease.None? || rows[r].lease.value <= now)
  }

  function Reset(r: ImportRow): ImportRow { r.(status := Pending, worker := None, lease := None, heartbeat := None) }

  function Swept(rows: Rows, expired: set<nat>): Rows { map r | r in rows :: if r in expired then Reset(rows[r]) else rows[r] }

  function Live(rows: Rows, now: nat): set<nat> {
    set r | r in rows && rows[r].status == Running && rows[r].lease.Some? && rows[r].lease.value > now
  }

  function Waiting(rows: Rows, locked: set<nat>): set<nat> { set r | r in rows && r !in locked && rows[r].status == Pending }

  function Begun(r: ImportRow, c: Q.ClaimCall): ImportRow {
    r.(status := Running, worker := Some(c.worker), lease := Some(c.now + c.lease), heartbeat := Some(c.now), attempts := r.attempts + 1)
  }

  function Started(rows: Rows, chosen: set<nat>, c: Q.ClaimCall): Rows { map r | r in rows :: if r in chosen then Begun(rows[r], c) else rows[r] }

  /** `ORDER BY id LIMIT k`. */
  function ClaimOrder(rows: Rows, c: Q.ClaimCall): seq<nat> {
    NatOrders();
    var swept := Swept(rows, Expired(rows, c.now, c.lockedRunning));
    First(Waiting(swept, c.lockedPending), NatLess, Q.ClaimLimit(c.capacity, c.limit, |Live(swept, c.now)|))
  }

  function ChosenRows(rows: Rows, c: Q.ClaimCall): set<nat> { IdSet(ClaimOrder(rows, c)) }

  function ClaimedRows(rows: Rows, c: Q.ClaimCall): Rows {
    Started(Swept(rows, Expired(rows, c.now, c.lockedRunning)), ChosenRows(rows, c), c)
  }

  function BatchesOf(rows: Rows, ids: set<nat>): set<nat> { set r | r in rows && r in ids :: rows[r].batch }

  function TouchedBy(rows: Rows, c: Q.ClaimCall): set<nat> { BatchesOf(rows, Expired(rows, c.now, c.lockedRunning) + ChosenRows(rows, c)) }

  /** `claim_import_tests`; its refresh's completions are dropped. */
  function Claimed(db: Db, c: Q.ClaimCall): Db {
    if c.capacity <= 0 then db
    else
      var rows := ClaimedRows(db.rows, c);
      db.(rows := rows, batches := Refreshed(db.batches, rows, TouchedBy(db.rows, c), db.queue.clock))
  }

  /** `_claim_specific`, as one atomic step: a pending row is claimed on its own if a slot is free. */
  function ClaimedOne(db: Db, r: nat, c: Q.ClaimCall): Db {
    if r in db.rows && db.rows[r].status == Pending && |Live(db.rows, c.now)| < c.limit then
      var rows := db.rows[r := Begun(db.rows[r], c)];
      db.(rows := rows, batches := Refreshed(db.batches, rows, {rows[r].batch}, db.queue.clock))
    else db
  }

  predicate Owns(rows: Rows, r: nat, worker: string, now: nat) {
    r in rows && rows[r].status == Running && rows[r].worker == Some(worker) && rows[r].lease.Some? && rows[r].lease.value > now
  }

  function Renewed(rows: Rows, ids: set<nat>, worker: string, now: nat, lease: nat): Rows {
    map r | r in rows :: if r in ids && Owns(rows, r, worker, now) then rows[r].(heartbeat := Some(now), lease := Some(now + lease)) else rows[r]
  }

  // ------------------------------------------------------------------- save

  function SavedRow(r: ImportRow, success: bool): ImportRow {
    r.(status := if success then Succeeded else Failed, worker := None, lease := None, heartbeat := None)
  }

  /** `_save_result_for_worker`: the new state, and the batch it reports completed. */
  function Saved(db: Db, worker: string, r: nat, success: bool, now: nat): (Db, Option<nat>) {
    if !Owns(db.rows, r, worker, now) then (db, None)
    else
      var b := db.rows[r].batch;
      var rows := db.rows[r := SavedRow(db.rows[r], success)];
      (db.(rows := rows, batches := Refreshed(db.batches, rows, {b}, db.queue.clock)),
       if b in NewlyCompleted(db.batches, rows, {b}, db.queue.clock) then Some(b) else None)
  }

  // -------------------------------------------------------------- hand-over

  function Devices(rows: Rows, ids: seq<nat>): seq<nat> {
    if ids == [] then []
    else
      var last := ids[|ids| - 1];
      Devices(rows, ids[..|ids| - 1]) + if last in rows && rows[last].device.Some? then [rows[last].device.value] else []
  }

  /** Devices of the batch's successful rows. */
  function SuccessDevices(rows: Rows, b: nat): seq<nat> {
    NatOrders();
    Devices(rows, Ordered(RowsWith(rows, b, Succeeded), NatLess))
  }

  /** `create_import_scan_batch`: the new state, and the scan batch if there is one. */
  function HandedOver(db: Db, b: nat): Result<(Db, Option<nat>), Q.Refusal> {
    if b !in db.batches then Success((db, None))
    else if db.batches[b].scanBatch.Some? then Success((db, db.batches[b].scanBatch))
    else
      match Q.BatchCreated(db.queue, Q.BatchType.Import, SuccessDevices(db.rows, b))
      case Failure(e) => Failure(e)
      case Success(queue) =>
        var id := db.queue.nextBatch;
        Success((db.(queue := queue, batches := db.batches[b := db.batches[b].(scanBatch := Some(id))]), Some(id)))
  }

  // ----------------------------------------------------------------- events

  datatype Event =
    | ClaimTests(call: Q.ClaimCall)
    | RenewTests(worker: string, ids: set<nat>, lease: nat, now: nat)
    | ClaimRow(row: nat, call: Q.ClaimCall)
    /** `heeded` tells the normal end of a test, which acts on a reported completion, from the end
        after an internal failure, which does not look at it. */
    | Save(worker: string, row: nat, success: bool, now: nat, heeded: bool)
    | HandOver(batch: nat)
    | InQueue(event: Q.Event)

  function Apply(db: Db, e: Event): Db {
    match e
    case ClaimTests(c) => Claimed(db, c)
    case RenewTests(worker, ids, lease, now) => db.(rows := Renewed(db.rows, ids, worker, now, lease))
    case ClaimRow(r, c) => ClaimedOne(db, r, c)
    case Save(worker, r, success, now, _) => Saved(db, worker, r, success, now).0
    case HandOver(b) => (match HandedOver(db, b) case Failure(_) => db case Success(p) => p.0)
    case InQueue(e) => db.(queue := Q.Apply(db.queue, e))
  }

  function After(db: Db, es: seq<Event>): Db { if es == [] then db else Apply(After(db, es[..|es| - 1]), es[|es| - 1]) }

  /** The event reports batch `b` completed. */
  predicate Reports(db: Db, e: Event, b: nat) { e.Save? && Saved(db, e.worker, e.row, e.success, e.now).1 == Some(b) }

  function ReportCount(db: Db, es: seq<Event>, b: nat): nat {
    if es == [] then 0
    else ReportCount(db, es[..|es| - 1], b) + if Reports(After(db, es[..|es| - 1]), es[|es| - 1], b) then 1 else 0
  }

  // -------------------------------------------------------------- invariant

  function OpenRows(rows: Rows, b: nat): set<nat> { set r | r in rows && rows[r].batch == b && rows[r].status.Open() }

  /** A batch is completed exactly when none of its rows is pending or running. */
  ghost predicate Stated(rows: Rows, batches: Batches) {
    forall b | b in batches :: batches[b].status == Completed <==> OpenRows(rows, b) == {}
  }

  ghost predicate Consistent(db: Db) { Stated(db.rows, db.batches) && I.Consistent(db.queue) }

  lemma RecountStates(batch: ImportBatch, rows: Rows, b: nat, clock: nat)
    ensures Recounted(batch, rows, b, clock).status == Completed <==> OpenRows(rows, b) == {}
  {
    var pending, running := RowsWith(rows, b, Pending), RowsWith(rows, b, Running);
    assert OpenRows(rows, b) == pending + running;
    assert |pending| == 0 <==> pending == {};
  }

  /** Refreshing every batch whose open rows changed puts them all back in step. */
  lemma RefreshStates(batches: Batches, before: Rows, after: Rows, ids: set<nat>, clock: nat)
    requires Stated(before, batches)
    requires forall b | b in batches && b !in ids :: OpenRows(after, b) == OpenRows(before, b)
    ensures Stated(after, Refreshed(batches, after, ids, clock))
  {
    hide OpenRows, Recounted;
    var updated := Refreshed(batches, after, ids, clock);
    forall b | b in updated ensures updated[b].status == Completed <==> OpenRows(after, b) == {} {
      if b in ids { RecountStates(batches[b], after, b, clock); }
    }
  }

  // ------------------------------------------------------------------ steps

  lemma ChosenWait(rows: Rows, c: Q.ClaimCall)
    ensures forall r | r in ChosenRows(rows, c) :: r in rows && (rows[r].status == Pending || r in Expired(rows, c.now, c.lockedRunning))
    ensures forall r | r in Expired(rows, c.now, c.lockedRunning) :: r in rows && rows[r].status == Running
  {
    NatOrders();
    var swept := Swept(rows, Expired(rows, c.now, c.lockedRunning));
    forall r | r in ChosenRows(rows, c) ensures r in rows && (rows[r].status == Pending || r in Expired(rows, c.now, c.lockedRunning)) {
      assert r in Waiting(swept, c.lockedPending);
    }
  }

  /** A claim leaves every row of every batch as open or closed as it was. */
  lemma ClaimKeepsOpen(rows: Rows, c: Q.ClaimCall, b: nat)
    ensures OpenRows(ClaimedRows(rows, c), b) == OpenRows(rows, b)
    ensures ClaimedRows(rows, c).Keys == rows.Keys
  {
    hide ChosenRows, Expired;
    ChosenWait(rows, c);
  }

  /** The refresh inside a claim, whose result is dropped, never completes a batch. */
  lemma ClaimNeverCompletes(db: Db, c: Q.ClaimCall)
    requires Consistent(db)
    ensures NewlyCompleted(db.batches, ClaimedRows(db.rows, c), TouchedBy(db.rows, c), db.queue.clock) == {}
    ensures forall b | b in db.batches :: Claimed(db, c).batches[b].status == db.batches[b].status
  {
    hide ClaimedRows, TouchedBy, OpenRows, Recounted, I.Consistent;
    forall b | b in db.batches
      ensures Recounted(db.batches[b], ClaimedRows(db.rows, c), b, db.queue.clock).status == db.batches[b].status
    {
      ClaimKeepsOpen(db.rows, c, b);
      RecountStates(db.batches[b], ClaimedRows(db.rows, c), b, db.queue.clock);
    }
  }

  lemma ClaimStates(db: Db, c: Q.ClaimCall)
    requires Stated(db.rows, db.batches)
    ensures Stated(Claimed(db, c).rows, Claimed(db, c).batches)
  {
    hide ClaimedRows, TouchedBy, OpenRows, Recounted;
    forall b ensures OpenRows(ClaimedRows(db.rows, c), b) == OpenRows(db.rows, b) { ClaimKeepsOpen(db.rows, c, b); }
    RefreshStates(db.batches, db.rows, ClaimedRows(db.rows, c), TouchedBy(db.rows, c), db.queue.clock);
  }

  lemma ClaimOneKeepsOpen(rows: Rows, r: nat, c: Q.ClaimCall, b: nat)
    requires r in rows && rows[r].status == Pending
    ensures OpenRows(rows[r := Begun(rows[r], c)], b) == OpenRows(rows, b)
  {
  }

  lemma ClaimOneStates(db: Db, r: nat, c: Q.ClaimCall)
    requires Stated(db.rows, db.batches)
    ensures var d := ClaimedOne(db, r, c);
      && Stated(d.rows, d.batches) && d.queue == db.queue && d.batches.Keys == db.batches.Keys
      && forall b | b in db.batches :: d.batches[b].status == db.batches[b].status && d.batches[b].scanBatch == db.batches[b].scanBatch
  {
    hide OpenRows, Live;
    if r in db.rows && db.rows[r].status == Pending {
      var rows := db.rows[r := Begun(db.rows[r], c)];
      forall b ensures OpenRows(rows, b) == OpenRows(db.rows, b) { ClaimOneKeepsOpen(db.rows, r, c, b); }
      RefreshStates(db.batches, db.rows, rows, {rows[r].batch}, db.queue.clock);
    }
  }

  lemma SaveOpens(rows: Rows, r: nat, success: bool, b: nat)
    requires r in rows
    ensures OpenRows(rows[r := SavedRow(rows[r], success)], b) == OpenRows(rows, b) - {r}
  {
  }

  lemma SaveStates(db: Db, worker: string, r: nat, success: bool, now: nat)
    requires Stated(db.rows, db.batches)
    ensures var d := Saved(db, worker, r, success, now).0; Stated(d.rows, d.batches)
  {
    hide OpenRows, Recounted, Refreshed;
    if Owns(db.rows, r, worker, now) {
      var rows := db.rows[r := SavedRow(db.rows[r], success)];
      forall b | b in db.batches && b != db.rows[r].batch ensures OpenRows(rows, b) == OpenRows(db.rows, b) {
        SaveOpens(db.rows, r, success, b);
        OpenHere(db.rows, r, b);
      }
      RefreshStates(db.batches, db.rows, rows, {db.rows[r].batch}, db.queue.clock);
    }
  }

  lemma OpenHere(rows: Rows, r: nat, b: nat)
    requires r in rows
    ensures r in OpenRows(rows, b) <==> rows[r].batch == b && rows[r].status.Open()
  {
  }

  lemma RenewKeepsOpen(rows: Rows, ids: set<nat>, worker: string, now: nat, lease: nat, b: nat)
    ensures OpenRows(Renewed(rows, ids, worker, now, lease), b) == OpenRows(rows, b)
  {
  }

  lemma {:induction false} StepKeeps(db: Db, e: Event)
    requires Consistent(db)
    ensures Consistent(Apply(db, e))
  {
    hide I.Consistent, OpenRows, Claimed, ClaimedOne, Saved, SuccessDevices, Q.Apply, Q.BatchCreated;
    match e
    case ClaimRow(r, c) => ClaimOneStates(db, r, c);
    case ClaimTests(c) =>
      ClaimStates(db, c);
      ClaimQueue(db, c);
    case RenewTests(worker, ids, lease, now) =>
      forall b ensures OpenRows(Renewed(db.rows, ids, worker, now, lease), b) == OpenRows(db.rows, b) { RenewKeepsOpen(db.rows, ids, worker, now, lease, b); }
    case Save(worker, r, success, now, _) =>
      SaveStates(db, worker, r, success, now);
      SaveQueue(db, worker, r, success, now);
    case HandOver(b) => A.BatchAdmission(db.queue, Q.BatchType.Import, SuccessDevices(db.rows, b));
    case InQueue(e) => A.StepKeeps(db.queue, e);
  }

  lemma ClaimQueue(db: Db, c: Q.ClaimCall)
    ensures Claimed(db, c).queue == db.queue
  {
  }

  lemma SaveQueue(db: Db, worker: string, r: nat, success: bool, now: nat)
    ensures Saved(db, worker, r, success, now).0.queue == db.queue
  {
  }

  lemma {:induction false} RunKeeps(db: Db, es: seq<Event>)
    requires Consistent(db)
    ensures Consistent(After(db, es))
    decreases |es|
  {
    hide Consistent, Apply;
    if es == [] {
    } else {
      RunKeeps(db, es[..|es| - 1]);
      StepKeeps(After(db, es[..|es| - 1]), es[|es| - 1]);
    }
  }

  // ------------------------------------------------------------- completion

  /** A save reports its batch exactly if it is accepted and its row was the last open one. */
  lemma SaveReportsLast(db: Db, worker: string, r: nat, success: bool, now: nat, b: nat)
    requires Consistent(db)
    ensures Saved(db, worker, r, success, now).1 == Some(b) <==>
      Owns(db.rows, r, worker, now) && db.rows[r].batch == b && b in db.batches && OpenRows(db.rows, b) == {r}
  {
    hide I.Consistent, Recounted, OpenRows;
    if Owns(db.rows, r, worker, now) {
      var rows, here := db.rows[r := SavedRow(db.rows[r], success)], db.rows[r].batch;
      OpenHere(db.rows, r, here);
      SaveOpens(db.rows, r, success, here);
      if here in db.batches { RecountStates(db.batches[here], rows, here, db.queue.clock); }
      assert r in OpenRows(db.rows, here);
    }
  }

  /** The only step that completes a testing batch is the save that reports it; a completed batch
      stays completed. */
  lemma {:induction false} CompletionStep(db: Db, e: Event, b: nat)
    requires Consistent(db) && b in db.batches
    ensures b in Apply(db, e).batches
    ensures db.batches[b].status == Completed ==> Apply(db, e).batches[b].status == Completed && !Reports(db, e, b)
    ensures db.batches[b].status == Testing ==> (Apply(db, e).batches[b].status == Completed <==> Reports(db, e, b))
  {
    hide I.Consistent, OpenRows, Claimed, ClaimedOne, SuccessDevices, Q.Apply, Q.BatchCreated, Recounted, NewlyCompleted;
    match e
    case ClaimRow(r, c) => ClaimOneStates(db, r, c);
    case ClaimTests(c) =>
      ClaimNeverCompletes(db, c);
      ClaimBatches(db, c);
    case Save(worker, r, success, now, _) =>
      SaveReportsLast(db, worker, r, success, now, b);
      if Owns(db.rows, r, worker, now) {
        var rows := db.rows[r := SavedRow(db.rows[r], success)];
        OpenHere(db.rows, r, b);
        SaveOpens(db.rows, r, success, b);
        RecountStates(db.batches[b], rows, b, db.queue.clock);
      }
    case _ =>
  }

  lemma ClaimBatches(db: Db, c: Q.ClaimCall)
    ensures Claimed(db, c).batches.Keys == db.batches.Keys
  {
  }

  /** Completion fires once: over every run, the number of saves that report a batch is one if the
      run takes it from testing to completed, and none otherwise. */
  lemma {:induction false} CompletionFiresOnce(db: Db, es: seq<Event>, b: nat)
    requires Consistent(db) && b in db.batches
    ensures b in After(db, es).batches
    ensures db.batches[b].status == Completed ==> After(db, es).batches[b].status == Completed
    ensures ReportCount(db, es, b) == if db.batches[b].status == Testing && After(db, es).batches[b].status == Completed then 1 else 0
    decreases |es|
  {
    hide Consistent, Apply, Reports;
    if es == [] {
    } else {
      var front := es[..|es| - 1];
      CompletionFiresOnce(db, front, b);
      RunKeeps(db, front);
      CompletionStep(After(db, front), es[|es| - 1], b);
    }
  }

  // -------------------------------------------------------------- hand-over

  lemma {:induction false} DevicesOf(rows: Rows, ids: seq<nat>)
    ensures forall d :: d in Devices(rows, ids) <==> exists r :: r in ids && r in rows && rows[r].device == Some(d)
    decreases |ids|
  {
    if ids == [] {
    } else {
      var front, last := ids[..|ids| - 1], ids[|ids| - 1];
      assert ids == front + [last];
      DevicesOf(rows, front);
      forall d ensures d in Devices(rows, ids) <==> exists r :: r in ids && r in rows && rows[r].device == Some(d) {
        if d in Devices(rows, front) {
          var r :| r in front && r in rows && rows[r].device == Some(d);
          assert r in ids;
        }
        if r :| r in ids && r in rows && rows[r].device == Some(d) { assert r == last || r in front; }
      }
    }
  }

  lemma SuccessDevicesOf(rows: Rows, b: nat)
    ensures forall d :: d in SuccessDevices(rows, b) <==> exists r :: r in rows && rows[r].batch == b && rows[r].status == Succeeded && rows[r].device == Some(d)
  {
    NatOrders();
    DevicesOf(rows, Ordered(RowsWith(rows, b, Succeeded), NatLess));
  }

  /** A hand-over that creates a scan batch puts in it exactly the collectible devices of the
      import batch's successful rows, one item each. */
  lemma HandOverIsExact(db: Db, b: nat)
    requires Consistent(db) && b in db.batches && db.batches[b].scanBatch == None && HandedOver(db, b).Success?
    ensures var d, id := HandedOver(db, b).value.0, db.queue.nextBatch;
      && d.batches[b].scanBatch == Some(id) && HandedOver(db, b).value.1 == Some(id) && id !in db.queue.batches && id in d.queue.batches
      && (forall x :: x in A.DevicesIn(d.queue.items, id) <==>
            Q.Collectible(db.queue.devices, x)
            && exists r :: r in db.rows && db.rows[r].batch == b && db.rows[r].status == Succeeded && db.rows[r].device == Some(x))
      && |A.ItemsIn(d.queue.items, id)| == |Q.Selected(db.queue.devices, SuccessDevices(db.rows, b))|
  {
    hide I.Consistent, Stated, SuccessDevices, Q.BatchCreated, Q.Selected, A.DevicesIn, A.ItemsIn;
    SuccessDevicesOf(db.rows, b);
    A.BatchAdmission(db.queue, Q.BatchType.Import, SuccessDevices(db.rows, b));
  }

  /** The event creates a scan batch for import batch `b`. */
  predicate Creates(db: Db, e: Event, b: nat) {
    e.HandOver? && e.batch == b && b in db.batches && db.batches[b].scanBatch == None && HandedOver(db, b).Success?
  }

  function CreationCount(db: Db, es: seq<Event>, b: nat): nat {
    if es == [] then 0
    else CreationCount(db, es[..|es| - 1], b) + if Creates(After(db, es[..|es| - 1]), es[|es| - 1], b) then 1 else 0
  }

  lemma {:induction false} HandOverStep(db: Db, e: Event, b: nat)
    requires b in db.batches
    ensures b in Apply(db, e).batches
    ensures Creates(db, e, b) ==> Apply(db, e).batches[b].scanBatch == Some(db.queue.nextBatch)
    ensures !Creates(db, e, b) ==> Apply(db, e).batches[b].scanBatch == db.batches[b].scanBatch
  {
    hide ClaimedRows, TouchedBy, SuccessDevices, Q.Apply, Q.BatchCreated, Owns, Renewed;
    match e
    case _ =>
  }

  /** Over every run an import batch gets at most one scan batch, and keeps it. */
  lemma {:induction false} OneScanBatch(db: Db, es: seq<Event>, b: nat)
    requires b in db.batches
    ensures b in After(db, es).batches
    ensures db.batches[b].scanBatch.Some? ==> After(db, es).batches[b].scanBatch == db.batches[b].scanBatch && CreationCount(db, es, b) == 0
    ensures db.batches[b].scanBatch == None ==> CreationCount(db, es, b) == if After(db, es).batches[b].scanBatch.Some? then 1 else 0
    decreases |es|
  {
    hide Apply, HandedOver;
    if es == [] {
    } else {
      OneScanBatch(db, es[..|es| - 1], b);
      HandOverStep(After(db, es[..|es| - 1]), es[|es| - 1], b);
    }
  }

  // ----------------------------------------------- when a batch is handed over

  /** The queue has room for the batch's successful devices. */
  predicate HasRoomFor(db: Db, b: nat) { !Q.Overfull(db.queue, Q.Selected(db.queue.devices, SuccessDevices(db.rows, b))) }

  /** Event `k` of the run is the normal end of a test whose save reports batch `b`. */
  predicate NormalReport(db: Db, es: seq<Event>, k: nat, b: nat) {
    k < |es| && es[k].Save? && es[k].heeded && Reports(After(db, es[..k]), es[k], b)
  }

  /** Hand-overs only come from the normal end of a test that reported the batch. */
  ghost predicate Disciplined(db: Db, es: seq<Event>) {
    forall m | 0 <= m < |es| && es[m].HandOver? :: exists k | 0 <= k < m :: NormalReport(db, es, k, es[m].batch)
  }

  lemma HandOverSucceeds(db: Db, b: nat)
    requires I.Consistent(db.queue) && b in db.batches && db.batches[b].scanBatch == None
    ensures Creates(db, HandOver(b), b) <==> HasRoomFor(db, b)
  {
    hide I.Consistent, SuccessDevices, Q.BatchCreated, Q.Selected, Q.ActiveTasks, Q.ActiveDevices, A.DevicesIn, A.ItemsIn, A.Joined;
    A.BatchAdmission(db.queue, Q.BatchType.Import, SuccessDevices(db.rows, b));
  }

  lemma Prefix(db: Db, es: seq<Event>, n: nat)
    requires n < |es|
    ensures After(db, es[..n + 1]) == Apply(After(db, es[..n]), es[n])
  {
    assert es[..n + 1][..n] == es[..n];
  }

  /** A batch keeps its scan batch, and its completion, from one point of a run to a later one. */
  lemma {:induction false} LaterOn(db: Db, es: seq<Event>, b: nat, m: nat, n: nat)
    requires Consistent(db) && b in db.batches && m <= n <= |es|
    ensures b in After(db, es[..m]).batches && b in After(db, es[..n]).batches
    ensures After(db, es[..m]).batches[b].scanBatch.Some? ==> After(db, es[..n]).batches[b].scanBatch.Some?
    ensures After(db, es[..m]).batches[b].status == Completed ==> After(db, es[..n]).batches[b].status == Completed
    decreases n
  {
    hide Consistent, Apply, Reports, Creates;
    if m == n {
      CompletionFiresOnce(db, es[..n], b);
    } else {
      LaterOn(db, es, b, m, n - 1);
      Prefix(db, es, n - 1);
      RunKeeps(db, es[..n - 1]);
      CompletionStep(After(db, es[..n - 1]), es[n - 1], b);
      HandOverStep(After(db, es[..n - 1]), es[n - 1], b);
    }
  }

  lemma CreatedIsSome(db: Db, e: Event, b: nat)
    requires Creates(db, e, b)
    ensures b in Apply(db, e).batches && Apply(db, e).batches[b].scanBatch.Some?
  {
    hide SuccessDevices, Q.BatchCreated;
  }

  /** A scan batch that appeared in a run was created by one of its events. */
  lemma {:induction false} CreatedSomewhere(db: Db, es: seq<Event>, b: nat) returns (m: nat)
    requires b in db.batches && db.batches[b].scanBatch == None
    requires b in After(db, es).batches && After(db, es).batches[b].scanBatch.Some?
    ensures m < |es| && Creates(After(db, es[..m]), es[m], b)
    decreases |es|
  {
    hide Apply, Creates;
    var n := |es| - 1;
    var front := es[..n];
    OneScanBatch(db, front, b);
    if After(db, front).batches[b].scanBatch.Some? {
      m := CreatedSomewhere(db, front, b);
      assert front[..m] == es[..m];
    } else {
      HandOverStep(After(db, front), es[n], b);
      m := n;
    }
  }

  /** Over every run in which hand-overs come from tests that ended normally: a batch gets its scan
      batch if and only if its last save was such an end and the queue had room when the
      completion it reported was handed over. */
  lemma HandedOverExactly(db: Db, es: seq<Event>, b: nat)
    requires Consistent(db) && b in db.batches && db.batches[b].scanBatch == None && Disciplined(db, es)
    ensures b in After(db, es).batches
    ensures After(db, es).batches[b].scanBatch.Some? <==>
      exists k, m | 0 <= k < m < |es| :: NormalReport(db, es, k, b) && es[m] == HandOver(b) && HasRoomFor(After(db, es[..m]), b)
  {
    hide Consistent, Apply, NormalReport, HasRoomFor, Creates;
    OneScanBatch(db, es, b);
    if After(db, es).batches[b].scanBatch.Some? {
      var m := CreatedSomewhere(db, es, b);
      CreationHasRoom(db, es, b, m);
      var k :| 0 <= k < m && NormalReport(db, es, k, es[m].batch);
      assert NormalReport(db, es, k, b) && es[m] == HandOver(b) && HasRoomFor(After(db, es[..m]), b);
    }
    if k, m :| 0 <= k < m < |es| && NormalReport(db, es, k, b) && es[m] == HandOver(b) && HasRoomFor(After(db, es[..m]), b) {
      RoomCreates(db, es, b, m);
      LaterOn(db, es, b, m + 1, |es|);
      assert es[..|es|] == es;
    }
  }

  lemma CreationHasRoom(db: Db, es: seq<Event>, b: nat, m: nat)
    requires Consistent(db) && m < |es| && Creates(After(db, es[..m]), es[m], b)
    ensures es[m] == HandOver(b) && HasRoomFor(After(db, es[..m]), b)
  {
    hide I.Consistent, Stated, After, HasRoomFor, HandedOver;
    RunKeeps(db, es[..m]);
    HandOverSucceeds(After(db, es[..m]), b);
  }

  lemma RoomCreates(db: Db, es: seq<Event>, b: nat, m: nat)
    requires Consistent(db) && b in db.batches && m < |es| && es[m] == HandOver(b) && HasRoomFor(After(db, es[..m]), b)
    ensures b in After(db, es[..m + 1]).batches && After(db, es[..m + 1]).batches[b].scanBatch.Some?
  {
    hide I.Consistent, Stated, After, HasRoomFor, Creates, Apply;
    RunKeeps(db, es[..m]);
    OneScanBatch(db, es[..m], b);
    var d := After(db, es[..m]);
    Prefix(db, es, m);
    HandOverStep(d, es[m], b);
    if d.batches[b].scanBatch == None {
      HandOverSucceeds(d, b);
      CreatedIsSome(d, es[m], b);
    } else {
      NoSecondCreation(d, es[m], b);
    }
  }

  lemma NoSecondCreation(db: Db, e: Event, b: nat)
    requires b in db.batches && db.batches[b].scanBatch.Some?
    ensures !Creates(db, e, b)
  {
  }

  /** A completion reported to a test that ended in an internal failure is lost: the batch never
      gets a scan batch. */
  lemma FailedEndLosesBatch(db: Db, es: seq<Event>, b: nat, k: nat)
    requires Consistent(db) && b in db.batches && db.batches[b].scanBatch == None && Disciplined(db, es)
    requires k < |es| && es[k].Save? && !es[k].heeded && Reports(After(db, es[..k]), es[k], b)
    ensures b in After(db, es).batches && After(db, es).batches[b].scanBatch == None
  {
    hide Consistent, Apply, Reports, HasRoomFor;
    HandedOverExactly(db, es, b);
    forall j | 0 <= j < |es| && NormalReport(db, es, j, b) ensures j == k {
      ReportsAreOne(db, es, b, j, k);
      ReportsAreOne(db, es, b, k, j);
    }
  }

  /** Batch 1 has two rows, one tested, one being tested by worker "a"; their devices may be collected. */
  function LastTestDb(): Db {
    Db(map[1 := ImportRow(1, Some(1), Succeeded, None, None, None, 1), 2 := ImportRow(1, Some(2), Running, Some("a"), Some(60), Some(0), 1)],
       map[1 := ImportBatch(Testing, 0, 1, 1, 0, None, None)],
       Q.Db(map[1 := true, 2 := true], map[], map[], map[], map[], 30, 1, 1, 1, 1, 1))
  }

  /** The failed result that worker "a" saves for the second row after an internal failure. */
  function FailedSave(): Event { Save("a", 2, false, 30, false) }

  /** A batch that completes with a collectible device to scan and room in the queue, and is not
      handed over in any continuation of the run. */
  lemma CompletionCanBeLost(es: seq<Event>)
    ensures var db, done := LastTestDb(), After(LastTestDb(), [FailedSave()]);
      && Consistent(db) && Reports(db, FailedSave(), 1)
      && 1 in done.batches && done.batches[1].status == Completed && done.batches[1].scanBatch == None
      && 1 in Q.Selected(done.queue.devices, SuccessDevices(done.rows, 1)) && HasRoomFor(done, 1)
    ensures var run := [FailedSave()] + es;
      Disciplined(LastTestDb(), run) ==> 1 in After(LastTestDb(), run).batches && After(LastTestDb(), run).batches[1].scanBatch == None
  {
    hide Consistent, Reports, HasRoomFor, Q.Selected, SuccessDevices, Apply, LastTestDb, After;
    LastSaveReports();
    LastSaveLeaves();
    var db, run := LastTestDb(), [FailedSave()] + es;
    assert run[..0] == [] && [FailedSave()][..0] == [];
    if Disciplined(db, run) {
      StartOfRun(db);
      FailedEndLosesBatch(db, run, 1, 0);
    }
  }

  lemma StartOfRun(db: Db)
    ensures After(db, []) == db
  {
  }

  lemma LastSaveReports()
    ensures Consistent(LastTestDb()) && Reports(LastTestDb(), FailedSave(), 1)
    ensures 1 in LastTestDb().batches && LastTestDb().batches[1].scanBatch == None
  {
    var rows := LastTestDb().rows;
    assert OpenRows(rows, 1) == {2};
    SaveReportsLast(LastTestDb(), "a", 2, false, 30, 1);
  }

  lemma LastSaveLeaves()
    ensures var done := After(LastTestDb(), [FailedSave()]);
      && 1 in done.batches && done.batches[1].status == Completed && done.batches[1].scanBatch == None
      && 1 in Q.Selected(done.queue.devices, SuccessDevices(done.rows, 1)) && HasRoomFor(done, 1)
  {
    hide SuccessDevices, Q.Selected, Apply;
    AfterOne(LastTestDb(), FailedSave());
    LastSaveReports();
    CompletionStep(LastTestDb(), FailedSave(), 1);
    OneToScan();
  }

  lemma OneToScan()
    ensures var done := Apply(LastTestDb(), FailedSave());
      && 1 in done.batches && done.batches[1].scanBatch == None
      && 1 in Q.Selected(done.queue.devices, SuccessDevices(done.rows, 1)) && HasRoomFor(done, 1)
  {
    hide SuccessDevices, Apply, LastTestDb, Q.KeepCollectible, Q.Distinct;
    var done := Apply(LastTestDb(), FailedSave());
    RowsAfterSave();
    SuccessDevicesOf(done.rows, 1);
    assert forall d :: d in SuccessDevices(done.rows, 1) <==> d == 1;
    OneSelected(done.queue.devices, SuccessDevices(done.rows, 1));
  }

  lemma RowsAfterSave()
    ensures var done := Apply(LastTestDb(), FailedSave());
      && 1 in done.batches && done.batches[1].scanBatch == None
      && done.queue.devices == map[1 := true, 2 := true] && done.queue.tasks == map[] && done.queue.queueSize == 1
      && 1 in done.rows && done.rows[1].batch == 1 && done.rows[1].status == Succeeded && done.rows[1].device == Some(1)
      && done.rows.Keys == {1, 2} && done.rows[2].status == Failed
  {
    hide RowsWith;
  }

  lemma OneSelected(devices: map<nat, bool>, ds: seq<nat>)
    requires 1 in devices && devices[1] && forall d :: d in ds <==> d == 1
    ensures 1 in Q.Selected(devices, ds) && |Q.Selected(devices, ds)| == 1
  {
    hide Q.KeepCollectible, Q.Distinct;
    var selected := Q.Selected(devices, ds);
    SetSize(selected, {1});
  }

  /** After a report of `b` there is no other. */
  lemma ReportsAreOne(db: Db, es: seq<Event>, b: nat, j: nat, k: nat)
    requires Consistent(db) && b in db.batches && j < |es| && k < |es|
    requires Reports(After(db, es[..j]), es[j], b) && Reports(After(db, es[..k]), es[k], b)
    ensures j >= k
  {
    hide Consistent, Apply, Reports;
    if j < k {
      LaterOn(db, es, b, j, j);
      RunKeeps(db, es[..j]);
      CompletionStep(After(db, es[..j]), es[j], b);
      Prefix(db, es, j);
      LaterOn(db, es, b, j + 1, k);
      RunKeeps(db, es[..k]);
      CompletionStep(After(db, es[..k]), es[k], b);
      assert false;
    }
  }

  // ---------------------------------------------------------- what renewing buys

  /** Held by `worker` in the same attempt at least until `until`, or settled in that attempt. */
  predicate HeldUntil(db: Db, r: nat, worker: string, until: nat, attempts: nat) {
    && r in db.rows && db.rows[r].attempts == attempts
    && ((db.rows[r].status == Running && db.rows[r].worker == Some(worker) && db.rows[r].lease.Some? && db.rows[r].lease.value >= until)
        || !db.rows[r].status.Open())
  }

  /** Claims come before `until`, and no renewal shortens a lease to end before it. */
  predicate Within(e: Event, until: nat) { (e.ClaimTests? ==> e.call.now < until) && (e.RenewTests? ==> e.now + e.lease >= until) }

  predicate AllWithin(es: seq<Event>, until: nat) { forall n | 0 <= n < |es| :: Within(es[n], until) }

  lemma {:induction false} HeldStep(db: Db, e: Event, r: nat, worker: string, until: nat, attempts: nat)
    requires HeldUntil(db, r, worker, until, attempts) && Within(e, until)
    ensures HeldUntil(Apply(db, e), r, worker, until, attempts)
  {
    hide ChosenRows, Refreshed, TouchedBy, Live, SuccessDevices, Q.Apply, Q.BatchCreated;
    match e
    case ClaimTests(c) => ChosenWait(db.rows, c);
    case _ =>
  }

  /** A renewal that does not report a row lost protects it: until the new lease ends, no claim of
      any worker takes the row away; it stays in this attempt until its result is saved. */
  lemma {:induction false} RenewalProtects(db: Db, es: seq<Event>, worker: string, ids: set<nat>, lease: nat, now: nat, r: nat)
    requires r in ids && Owns(db.rows, r, worker, now) && AllWithin(es, now + lease)
    ensures HeldUntil(After(db, [RenewTests(worker, ids, lease, now)] + es), r, worker, now + lease, db.rows[r].attempts)
    decreases |es|
  {
    hide Apply, After;
    var e := RenewTests(worker, ids, lease, now);
    var all := [e] + es;
    if es == [] {
      assert all == [e];
      AfterOne(db, e);
    } else {
      var front := es[..|es| - 1];
      RenewalProtects(db, front, worker, ids, lease, now, r);
      assert all[..|all| - 1] == [e] + front && all[|all| - 1] == es[|es| - 1];
      assert all[..|all|] == all;
      Prefix(db, all, |all| - 1);
      HeldStep(After(db, all[..|all| - 1]), es[|es| - 1], r, worker, now + lease, db.rows[r].attempts);
    }
  }

  lemma AfterOne(db: Db, e: Event)
    ensures After(db, [e]) == Apply(db, e)
    ensures e.RenewTests? ==> After(db, [e]).rows == Renewed(db.rows, e.ids, e.worker, e.now, e.lease)
  {
    assert [e][..0] == [];
  }
}
