/** What each import-test transaction does, row by row and in terms of the columns alone, and what
    that makes of rows and counters over whole runs. */
module ImportTestEffects {
  import opened Wrappers
  import opened Ordering
  import opened ImportTests
  import opened ImportTestLimits
  import Q = ScanTasks
  import I = ScanTaskInvariants
  import E = ScanTaskEffects

  /** `worker` has row `r` on a lease that has not ended at `now`. */
  ghost predicate Holds(rows: Rows, r: nat, worker: string, now: nat) {
    r in rows && rows[r].status == Running && rows[r].worker == Some(worker) && rows[r].lease.Some? && now < rows[r].lease.value
  }

  ghost predicate OthersStay(before: Rows, after: Rows, r: nat) {
    after.Keys == before.Keys && forall x | x in before && x != r :: after[x] == before[x]
  }

  // ------------------------------------------------------------------- save

  /** A save by the holder, and no other, settles the row as succeeded or failed, as it says. */
  lemma SaveIsComplete(db: Db, worker: string, r: nat, success: bool, now: nat, heeded: bool)
    ensures var d := Apply(db, Save(worker, r, success, now, heeded));
      && d.queue == db.queue
      && if Holds(db.rows, r, worker, now) then
           var a, b := db.rows[r], d.rows[r];
           && OthersStay(db.rows, d.rows, r)
           && b.status == (if success then Succeeded else Failed) && b.worker == None && b.lease == None && b.heartbeat == None
           && b.batch == a.batch && b.device == a.device && b.attempts == a.attempts
         else d == db
  {
    hide Refreshed;
  }

  /** A renewal moves the heartbeat and lease of the held rows it names and touches no other. */
  lemma RenewIsComplete(db: Db, worker: string, ids: set<nat>, lease: nat, now: nat)
    ensures var d := Apply(db, RenewTests(worker, ids, lease, now));
      && d == db.(rows := d.rows) && d.rows.Keys == db.rows.Keys
      && forall r | r in db.rows ::
           if r in ids && Holds(db.rows, r, worker, now) then
             d.rows[r].heartbeat == Some(now) && d.rows[r].lease == Some(now + lease)
             && d.rows[r] == db.rows[r].(heartbeat := d.rows[r].heartbeat, lease := d.rows[r].lease)
           else d.rows[r] == db.rows[r]
  {
  }

  // ------------------------------------------------------------------ claim

  /** Running, and its lease is missing or over, and the sweep does not skip it. */
  ghost predicate Lapsed(rows: Rows, r: nat, c: Q.ClaimCall)
    requires r in rows
  {
    rows[r].status == Running && r !in c.lockedRunning && (rows[r].lease.Some? ==> rows[r].lease.value <= c.now)
  }

  ghost predicate Ready(rows: Rows, r: nat, c: Q.ClaimCall)
    requires r in rows
  {
    (rows[r].status == Pending || Lapsed(rows, r, c)) && r !in c.lockedPending
  }

  /** The row is now tested by the claim's worker, for one attempt more. */
  ghost predicate TestedBy(a: ImportRow, b: ImportRow, c: Q.ClaimCall) {
    && b.status == Running && b.worker == Some(c.worker) && b.heartbeat == Some(c.now) && b.lease == Some(c.now + c.lease)
    && b.attempts == a.attempts + 1 && b.batch == a.batch && b.device == a.device
  }

  ghost predicate TakenOrNot(before: Rows, after: Rows, c: Q.ClaimCall, taken: set<nat>, r: nat)
    requires r in before && r in after
  {
    var a, b := before[r], after[r];
    if r in taken then Ready(before, r, c) && TestedBy(a, b, c)
    else if Lapsed(before, r, c) then
      && b.status == Pending && b.worker == None && b.heartbeat == None && b.lease == None
      && b.attempts == a.attempts && b.batch == a.batch && b.device == a.device
    else b == a
  }

  /** Running on a lease that has not ended. */
  ghost function OnLease(rows: Rows, now: nat): set<nat> {
    set r | r in rows && rows[r].status == Running && rows[r].lease.Some? && now < rows[r].lease.value
  }

  /** The rows taken are the ready ones with the smallest ids, as many as capacity and limit allow. */
  ghost predicate ClaimTakes(before: Rows, after: Rows, c: Q.ClaimCall, ids: seq<nat>) {
    var taken := set r | r in ids;
    && after.Keys == before.Keys && taken <= before.Keys && (forall i, j | 0 <= i < j < |ids| :: ids[i] < ids[j])
    && (forall r | r in before :: TakenOrNot(before, after, c, taken, r))
    && (forall r, x | r in taken && x in before && x !in taken && Ready(before, x, c) :: r < x)
    && |ids| <= c.capacity && (ids != [] ==> |OnLease(before, c.now)| + |ids| <= c.limit)
    && ((forall r | r in before && Ready(before, r, c) :: r in taken) || |ids| == c.capacity || |OnLease(before, c.now)| + |ids| >= c.limit)
  }

  lemma ReadyIsWaiting(rows: Rows, c: Q.ClaimCall, r: nat)
    requires r in rows
    ensures var swept := Swept(rows, Expired(rows, c.now, c.lockedRunning));
      && (r in Waiting(swept, c.lockedPending) <==> Ready(rows, r, c)) && swept.Keys == rows.Keys
      && swept[r] == if Lapsed(rows, r, c) then Reset(rows[r]) else rows[r]
  {
  }

  lemma LiveIsOnLease(rows: Rows, now: nat)
    ensures Live(rows, now) == OnLease(rows, now)
  {
  }

  lemma OrderFacts(rows: Rows, c: Q.ClaimCall)
    requires c.capacity > 0
    ensures var ids := ClaimOrder(rows, c); var taken := set r | r in ids;
      && taken == ChosenRows(rows, c) && taken <= rows.Keys && (forall i, j | 0 <= i < j < |ids| :: ids[i] < ids[j])
      && (forall r | r in taken :: Ready(rows, r, c))
      && (forall r, x | r in taken && x in rows && x !in taken && Ready(rows, x, c) :: r < x)
      && |ids| <= c.capacity && (ids != [] ==> |OnLease(rows, c.now)| + |ids| <= c.limit)
      && ((forall r | r in rows && Ready(rows, r, c) :: r in taken) || |ids| == c.capacity || |OnLease(rows, c.now)| + |ids| >= c.limit)
  {
    hide Waiting, Swept, Expired, Live, Ready, Lapsed, OnLease;
    NatOrders();
    var swept := Swept(rows, Expired(rows, c.now, c.lockedRunning));
    var ids, waiting := ClaimOrder(rows, c), Waiting(swept, c.lockedPending);
    SweepKeepsLive(rows, c);
    LiveIsOnLease(rows, c.now);
    WaitingKnown(swept, c.lockedPending);
    SweptKeys(rows, c);
    forall r | r in rows ensures r in waiting <==> Ready(rows, r, c) { ReadyIsWaiting(rows, c, r); }
    forall i, j | 0 <= i < j < |ids| ensures ids[i] < ids[j] { assert NatLess(ids[i], ids[j]); }
    forall r, x | r in ids && x in rows && x !in ids && Ready(rows, x, c) ensures r < x { assert NatLess(r, x); }
    if |ids| == |waiting| {
      AscendingIsDistinct(ids, NatLess);
      SetSize(ids, IdSet(ids));
      WholeSet(IdSet(ids), waiting);
    }
  }

  lemma WholeSet(a: set<nat>, b: set<nat>)
    requires a <= b && |a| == |b|
    ensures a == b
  {
    assert b == a + (b - a) && |b| == |a| + |b - a|;
  }

  lemma WaitingKnown(rows: Rows, locked: set<nat>)
    ensures Waiting(rows, locked) <= rows.Keys
  {
  }

  lemma SweptKeys(rows: Rows, c: Q.ClaimCall)
    ensures Swept(rows, Expired(rows, c.now, c.lockedRunning)).Keys == rows.Keys
  {
  }

  lemma ClaimedRow(rows: Rows, c: Q.ClaimCall, r: nat)
    requires r in rows && (r in ChosenRows(rows, c) ==> Ready(rows, r, c))
    ensures ClaimedRows(rows, c).Keys == rows.Keys && TakenOrNot(rows, ClaimedRows(rows, c), c, ChosenRows(rows, c), r)
  {
    hide ChosenRows;
  }

  /** A claim with some capacity, completely: which rows it takes, in what order, what it writes, what it puts back. */
  lemma ClaimIsComplete(db: Db, c: Q.ClaimCall)
    requires c.capacity > 0
    ensures ClaimTakes(db.rows, Claimed(db, c).rows, c, ClaimOrder(db.rows, c)) && Claimed(db, c).queue == db.queue
  {
    hide ClaimedRows, ClaimOrder, ChosenRows, TakenOrNot, Ready, OnLease, Refreshed, TouchedBy;
    OrderFacts(db.rows, c);
    NoRowsClaimed(db.rows, c);
    forall r | r in db.rows ensures TakenOrNot(db.rows, ClaimedRows(db.rows, c), c, ChosenRows(db.rows, c), r) { ClaimedRow(db.rows, c, r); }
  }

  lemma NoRowsClaimed(rows: Rows, c: Q.ClaimCall)
    ensures ClaimedRows(rows, c).Keys == rows.Keys
  {
    hide ChosenRows;
  }

  /** A claim of one row takes it if it is pending and fewer tests than the limit are on a lease. */
  lemma SingleClaimIsComplete(db: Db, r: nat, c: Q.ClaimCall)
    ensures var d := Apply(db, ClaimRow(r, c));
      && d.queue == db.queue
      && if r in db.rows && db.rows[r].status == Pending && |OnLease(db.rows, c.now)| < c.limit
         then OthersStay(db.rows, d.rows, r) && TestedBy(db.rows[r], d.rows[r], c)
         else d == db
  {
    hide Refreshed, Live, OnLease;
    LiveIsOnLease(db.rows, c.now);
  }

  // -------------------------------------------------------------- hand-over

  /** A hand-over that creates a scan batch creates an import batch, whose devices queue with priority 60. */
  lemma HandOverServes(db: Db, b: nat)
    requires Consistent(db) && b in db.batches && db.batches[b].scanBatch == None && HandedOver(db, b).Success?
    ensures var d, ds := HandedOver(db, b).value.0, SuccessDevices(db.rows, b);
      && E.Serves(db.queue, d.queue, Q.Selected(db.queue.devices, ds), Q.Imported, 60)
      && db.queue.nextBatch in d.queue.batches && d.queue.batches[db.queue.nextBatch].kind == Q.BatchType.Import
      && d.rows == db.rows && d.batches.Keys == db.batches.Keys && (forall o | o in db.batches && o != b :: d.batches[o] == db.batches[o])
      && d.batches[b] == db.batches[b].(scanBatch := Some(db.queue.nextBatch))
  {
    hide I.Consistent, Stated, SuccessDevices, Q.BatchCreated, Q.Selected, E.Serves;
    E.CreateIsComplete(db.queue, Q.BatchType.Import, SuccessDevices(db.rows, b), Q.Imported, 60);
  }

  // -------------------------------------------------------------- over runs

  /** The save by the holder that settles row `r`. */
  ghost predicate Settles(db: Db, e: Event, r: nat) { e.Save? && e.row == r && Holds(db.rows, r, e.worker, e.now) }

  lemma {:induction false} LifeStep(db: Db, e: Event, r: nat)
    requires r in db.rows
    ensures r in Apply(db, e).rows
    ensures !db.rows[r].status.Open() ==> Apply(db, e).rows[r] == db.rows[r] && !Settles(db, e, r)
    ensures db.rows[r].status.Open() ==>
      if Settles(db, e, r) then Apply(db, e).rows[r].status == (if e.success then Succeeded else Failed)
      else Apply(db, e).rows[r].status.Open()
  {
    hide Refreshed, TouchedBy, Live, SuccessDevices, Q.Apply, Q.BatchCreated, ChosenRows;
    match e
    case ClaimTests(c) => ChosenWait(db.rows, c);
    case _ =>
  }

  /** Event `n` of the run settles row `r` with this result. */
  ghost predicate SettlesAt(db: Db, es: seq<Event>, n: nat, r: nat, success: bool) {
    n < |es| && Settles(After(db, es[..n]), es[n], r) && es[n].success == success
  }

  ghost predicate SavedAs(db: Db, es: seq<Event>, r: nat, success: bool) { exists n: nat :: SettlesAt(db, es, n, r, success) }

  lemma SavedLater(db: Db, es: seq<Event>, r: nat, success: bool)
    requires es != []
    ensures SavedAs(db, es, r, success) <==> SavedAs(db, es[..|es| - 1], r, success) || SettlesAt(db, es, |es| - 1, r, success)
  {
    hide Settles, After;
    var front := es[..|es| - 1];
    if n: nat :| SettlesAt(db, es, n, r, success) && n < |es| - 1 {
      assert front[..n] == es[..n];
      assert SettlesAt(db, front, n, r, success);
    }
    if n: nat :| SettlesAt(db, front, n, r, success) {
      assert front[..n] == es[..n];
      assert SettlesAt(db, es, n, r, success);
    }
  }

  lemma NothingSaved(db: Db, r: nat, success: bool)
    ensures !SavedAs(db, [], r, success)
  {
  }

  lemma LastSave(db: Db, es: seq<Event>, r: nat)
    requires es != [] && r in After(db, es[..|es| - 1]).rows
    ensures SettlesAt(db, es, |es| - 1, r, true) <==> Settles(After(db, es[..|es| - 1]), es[|es| - 1], r) && es[|es| - 1].success
    ensures SettlesAt(db, es, |es| - 1, r, false) <==> Settles(After(db, es[..|es| - 1]), es[|es| - 1], r) && !es[|es| - 1].success
  {
    hide Settles, After;
  }

  /** Over every run a settled row never changes, and a row open at the start ends as succeeded if and
      only if a save by its holder reported success, as failed if and only if one reported failure, and
      otherwise stays open. */
  lemma {:induction false} RowLife(db: Db, es: seq<Event>, r: nat)
    requires r in db.rows
    ensures var d := After(db, es);
      && r in d.rows
      && (!db.rows[r].status.Open() ==> d.rows[r] == db.rows[r] && !SavedAs(db, es, r, true) && !SavedAs(db, es, r, false))
      && (db.rows[r].status.Open() ==>
            && (d.rows[r].status == Succeeded <==> SavedAs(db, es, r, true))
            && (d.rows[r].status == Failed <==> SavedAs(db, es, r, false))
            && (d.rows[r].status.Open() <==> !SavedAs(db, es, r, true) && !SavedAs(db, es, r, false)))
    decreases |es|
  {
    hide Apply, Settles, SavedAs, SettlesAt;
    if es == [] {
      NothingSaved(db, r, true);
      NothingSaved(db, r, false);
    } else {
      var front := es[..|es| - 1];
      RowLife(db, front, r);
      LifeStep(After(db, front), es[|es| - 1], r);
      SavedLater(db, es, r, true);
      SavedLater(db, es, r, false);
      LastSave(db, es, r);
    }
  }

  /** No row is settled twice. */
  lemma SettledOnce(db: Db, es: seq<Event>, r: nat, m: nat, n: nat, success: bool, other: bool)
    requires r in db.rows && m < n && SettlesAt(db, es, m, r, success)
    ensures !SettlesAt(db, es, n, r, other)
  {
    hide Apply, Settles, SavedAs;
    if n < |es| {
      RowLife(db, es[..m], r);
      var mid := es[..m + 1];
      LifeStep(After(db, es[..m]), es[m], r);
      Prefix(db, es, m);
      SplitRun(db, es[..n], m + 1);
      assert es[..n][..m + 1] == mid;
      RowLife(After(db, mid), es[..n][m + 1..], r);
      LifeStep(After(db, es[..n]), es[n], r);
    }
  }

  lemma {:induction false} SplitRun(db: Db, es: seq<Event>, n: nat)
    requires n <= |es|
    ensures After(db, es) == After(After(db, es[..n]), es[n..])
    decreases |es|
  {
    hide Apply;
    if n == |es| {
      assert es[..n] == es;
    } else {
      var front := es[..|es| - 1];
      SplitRun(db, front, n);
      assert front[..n] == es[..n] && front[n..] == es[n..][..|es| - n - 1];
    }
  }

  /** Counters are a recount, and a batch has a finish time exactly when it is completed. */
  ghost predicate Counted(rows: Rows, batches: Batches) {
    forall b | b in batches ::
      && batches[b].pending == |set r | r in rows && rows[r].batch == b && rows[r].status == Pending|
      && batches[b].running == |set r | r in rows && rows[r].batch == b && rows[r].status == Running|
      && batches[b].success == |set r | r in rows && rows[r].batch == b && rows[r].status == Succeeded|
      && batches[b].failed == |set r | r in rows && rows[r].batch == b && rows[r].status == Failed|
      && (batches[b].finished.Some? <==> batches[b].status == Completed)
  }

  ghost predicate CountedAt(rows: Rows, batch: ImportBatch, b: nat) {
    && batch.pending == |RowsWith(rows, b, Pending)| && batch.running == |RowsWith(rows, b, Running)|
    && batch.success == |RowsWith(rows, b, Succeeded)| && batch.failed == |RowsWith(rows, b, Failed)|
    && (batch.finished.Some? <==> batch.status == Completed)
  }

  lemma CountedEach(rows: Rows, batches: Batches)
    ensures Counted(rows, batches) <==> forall b | b in batches :: CountedAt(rows, batches[b], b)
  {
    forall b
      ensures RowsWith(rows, b, Pending) == set r | r in rows && rows[r].batch == b && rows[r].status == Pending
      ensures RowsWith(rows, b, Running) == set r | r in rows && rows[r].batch == b && rows[r].status == Running
      ensures RowsWith(rows, b, Succeeded) == set r | r in rows && rows[r].batch == b && rows[r].status == Succeeded
      ensures RowsWith(rows, b, Failed) == set r | r in rows && rows[r].batch == b && rows[r].status == Failed
    {}
  }

  /** No row of batch `b` changes its status. */
  ghost predicate SameStatuses(before: Rows, after: Rows, b: nat) {
    && (forall r | r in before && before[r].batch == b :: r in after && after[r].batch == b && after[r].status == before[r].status)
    && (forall r | r in after && after[r].batch == b :: r in before && before[r].batch == b)
  }

  lemma CountsLocal(before: Rows, after: Rows, batch: ImportBatch, b: nat)
    requires SameStatuses(before, after, b) && CountedAt(before, batch, b)
    ensures CountedAt(after, batch, b)
  {
    forall s ensures RowsWith(after, b, s) == RowsWith(before, b, s) {}
  }

  lemma RecountCounts(rows: Rows, batch: ImportBatch, b: nat, clock: nat)
    ensures CountedAt(rows, Recounted(batch, rows, b, clock), b)
  {
    hide RowsWith;
  }

  lemma RefreshCounts(batches: Batches, before: Rows, after: Rows, ids: set<nat>, clock: nat)
    requires Counted(before, batches) && forall b | b in batches && b !in ids :: SameStatuses(before, after, b)
    ensures Counted(after, Refreshed(batches, after, ids, clock))
  {
    hide Counted, CountedAt, Recounted, SameStatuses;
    var updated := Refreshed(batches, after, ids, clock);
    CountedEach(before, batches);
    CountedEach(after, updated);
    forall b | b in updated ensures CountedAt(after, updated[b], b) {
      if b in ids { RecountCounts(after, batches[b], b, clock); } else { CountsLocal(before, after, batches[b], b); }
    }
  }

  /** A refresh recounts the given batches, says when one is completed, and reports those it newly completes. */
  lemma RefreshIsComplete(batches: Batches, rows: Rows, ids: set<nat>, clock: nat)
    ensures var after, reported := Refreshed(batches, rows, ids, clock), NewlyCompleted(batches, rows, ids, clock);
      && after.Keys == batches.Keys && (forall b | b in batches && b !in ids :: after[b] == batches[b])
      && Counted(rows, map b | b in after && b in ids :: after[b])
      && (forall b | b in batches && b in ids ::
            var open := exists r | r in rows :: rows[r].batch == b && (rows[r].status == Pending || rows[r].status == Running);
            && after[b].status == (if open then Testing else Completed) && after[b].finished == (if open then None else Some(clock))
            && after[b].scanBatch == batches[b].scanBatch
            && (b in reported <==> !open && batches[b].status == Testing))
      && reported <= ids
  {
    hide Recounted, Counted, CountedAt;
    var after := Refreshed(batches, rows, ids, clock);
    var part := map b | b in after && b in ids :: after[b];
    CountedEach(rows, part);
    forall b | b in part ensures CountedAt(rows, part[b], b) { RecountCounts(rows, batches[b], b, clock); }
    forall b | b in batches
      ensures var open := exists r | r in rows :: rows[r].batch == b && (rows[r].status == Pending || rows[r].status == Running);
        var n := Recounted(batches[b], rows, b, clock);
        n.status == (if open then Testing else Completed) && n.finished == (if open then None else Some(clock)) && n.scanBatch == batches[b].scanBatch
    {
      RecountSays(batches[b], rows, b, clock);
    }
  }

  lemma RecountSays(batch: ImportBatch, rows: Rows, b: nat, clock: nat)
    ensures var open := exists r | r in rows :: rows[r].batch == b && (rows[r].status == Pending || rows[r].status == Running);
      var n := Recounted(batch, rows, b, clock);
      n.status == (if open then Testing else Completed) && n.finished == (if open then None else Some(clock)) && n.scanBatch == batch.scanBatch
  {
    var open := exists r | r in rows :: rows[r].batch == b && (rows[r].status == Pending || rows[r].status == Running);
    if r :| r in rows && rows[r].batch == b && (rows[r].status == Pending || rows[r].status == Running) {
      assert r in RowsWith(rows, b, Pending) || r in RowsWith(rows, b, Running);
    }
    if !open { assert RowsWith(rows, b, Pending) == {} && RowsWith(rows, b, Running) == {}; }
  }

  lemma ClaimLocal(rows: Rows, c: Q.ClaimCall, b: nat)
    requires b !in TouchedBy(rows, c)
    ensures SameStatuses(rows, ClaimedRows(rows, c), b)
  {
    hide ChosenRows, Expired;
    forall r | r in rows && rows[r].batch == b ensures r !in Expired(rows, c.now, c.lockedRunning) + ChosenRows(rows, c) {}
  }

  lemma SameRowsCounted(rows: Rows, batches: Batches, after: Batches)
    requires Counted(rows, batches) && after.Keys == batches.Keys
    requires forall b | b in batches :: after[b] == batches[b].(scanBatch := after[b].scanBatch)
    ensures Counted(rows, after)
  {
    hide CountedAt;
    CountedEach(rows, batches);
    CountedEach(rows, after);
    forall b | b in after ensures CountedAt(rows, after[b], b) { SameCount(rows, batches[b], after[b], b); }
  }

  lemma SameCount(rows: Rows, a: ImportBatch, z: ImportBatch, b: nat)
    requires CountedAt(rows, a, b) && z == a.(scanBatch := z.scanBatch)
    ensures CountedAt(rows, z, b)
  {
    hide RowsWith;
  }

  lemma RenewCounts(rows: Rows, batches: Batches, ids: set<nat>, worker: string, now: nat, lease: nat)
    requires Counted(rows, batches)
    ensures Counted(Renewed(rows, ids, worker, now, lease), batches)
  {
    hide CountedAt, Counted;
    var after := Renewed(rows, ids, worker, now, lease);
    CountedEach(rows, batches);
    CountedEach(after, batches);
    forall b | b in batches ensures CountedAt(after, batches[b], b) {
      RenewLocal(rows, ids, worker, now, lease, b);
      CountsLocal(rows, after, batches[b], b);
    }
  }

  lemma RenewLocal(rows: Rows, ids: set<nat>, worker: string, now: nat, lease: nat, b: nat)
    ensures SameStatuses(rows, Renewed(rows, ids, worker, now, lease), b)
  {
  }

  lemma OneRowLocal(rows: Rows, r: nat, row: ImportRow, b: nat)
    requires r in rows && row.batch == rows[r].batch && b != row.batch
    ensures SameStatuses(rows, rows[r := row], b)
  {
  }

  lemma {:induction false} StepCounts(db: Db, e: Event)
    requires Counted(db.rows, db.batches)
    ensures Counted(Apply(db, e).rows, Apply(db, e).batches)
  {
    hide Counted, ClaimedRows, TouchedBy, Refreshed, SuccessDevices, Q.Apply, Q.BatchCreated, Live, SameStatuses, Renewed;
    match e
    case ClaimTests(c) =>
      if c.capacity > 0 {
        forall b | b !in TouchedBy(db.rows, c) ensures SameStatuses(db.rows, ClaimedRows(db.rows, c), b) { ClaimLocal(db.rows, c, b); }
        RefreshCounts(db.batches, db.rows, ClaimedRows(db.rows, c), TouchedBy(db.rows, c), db.queue.clock);
      }
    case ClaimRow(r, c) =>
      if r in db.rows {
        var row := Begun(db.rows[r], c);
        var after := db.rows[r := row];
        forall b | b !in {row.batch} ensures SameStatuses(db.rows, after, b) { OneRowLocal(db.rows, r, row, b); }
        RefreshCounts(db.batches, db.rows, after, {row.batch}, db.queue.clock);
      }
    case RenewTests(worker, ids, lease, now) => RenewCounts(db.rows, db.batches, ids, worker, now, lease);
    case Save(worker, r, success, now, _) =>
      if r in db.rows {
        var row := SavedRow(db.rows[r], success);
        var after := db.rows[r := row];
        forall b | b !in {row.batch} ensures SameStatuses(db.rows, after, b) { OneRowLocal(db.rows, r, row, b); }
        RefreshCounts(db.batches, db.rows, after, {row.batch}, db.queue.clock);
      }
    case HandOver(b) => SameRowsCounted(db.rows, db.batches, Apply(db, e).batches);
    case InQueue(_) =>
  }

  /** In every reachable state the stored counters are a recount of the rows. */
  lemma {:induction false} RunCounts(db: Db, es: seq<Event>)
    requires Counted(db.rows, db.batches)
    ensures Counted(After(db, es).rows, After(db, es).batches)
    decreases |es|
  {
    hide Counted, Apply;
    if es == [] {
    } else {
      RunCounts(db, es[..|es| - 1]);
      StepCounts(After(db, es[..|es| - 1]), es[|es| - 1]);
    }
  }
}
