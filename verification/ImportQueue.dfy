/** The import-test transactions as methods on the tables, each proved to be its step in
    `ImportTests`. */
module ImportQueue {
  import opened Wrappers
  import opened Ordering
  import opened ImportTests
  import Effects = ImportTestEffects
  import Q = ScanTasks
  import I = ScanTaskInvariants
  import ScanQueue
  import Admission = ScanAdmission

  lemma RefreshedOne(batches: Batches, rows: Rows, ids: set<nat>, b: nat, clock: nat)
    requires b !in ids
    ensures var before, after := Refreshed(batches, rows, ids, clock), Refreshed(batches, rows, ids + {b}, clock);
      && after == (if b in batches then before[b := Recounted(batches[b], rows, b, clock)] else before)
      && (b in batches ==> b in before && before[b] == batches[b]) && (b in before ==> b in batches)
    ensures NewlyCompleted(batches, rows, ids + {b}, clock) == NewlyCompleted(batches, rows, ids, clock)
      + if b in batches && batches[b].status != Completed && Recounted(batches[b], rows, b, clock).status == Completed then {b} else {}
  {
    hide Recounted;
  }

  lemma RefreshedNone(batches: Batches, rows: Rows, clock: nat)
    ensures Refreshed(batches, rows, {}, clock) == batches && NewlyCompleted(batches, rows, {}, clock) == {}
  {
  }

  lemma SweptMore(rows: Rows, gone: set<nat>, r: nat)
    requires r in rows && r !in gone
    ensures Swept(rows, gone)[r := Reset(rows[r])] == Swept(rows, gone + {r})
    ensures r in Swept(rows, gone) && Swept(rows, gone)[r] == rows[r]
    ensures BatchesOf(rows, gone + {r}) == BatchesOf(rows, gone) + {rows[r].batch}
  {
    OneMoreBatch(rows, gone, r);
  }

  lemma OneMoreBatch(rows: Rows, ids: set<nat>, r: nat)
    requires r in rows
    ensures BatchesOf(rows, ids + {r}) == BatchesOf(rows, ids) + {rows[r].batch}
  {
    forall b ensures b in BatchesOf(rows, ids + {r}) <==> b in BatchesOf(rows, ids) || b == rows[r].batch {
      if b in BatchesOf(rows, ids) { var x :| x in rows && x in ids && rows[x].batch == b; assert x in ids + {r}; }
      assert r in ids + {r};
    }
  }

  lemma NoneTouched(rows: Rows, c: Q.ClaimCall)
    ensures Swept(rows, {}) == rows && Started(rows, {}, c) == rows && BatchesOf(rows, {}) == {}
  {
  }

  lemma StartedMore(rows: Rows, chosen: set<nat>, r: nat, c: Q.ClaimCall)
    requires r in rows && r !in chosen
    ensures Started(rows, chosen, c)[r := Begun(rows[r], c)] == Started(rows, chosen + {r}, c)
    ensures r in Started(rows, chosen, c) && Started(rows, chosen, c)[r] == rows[r]
    ensures BatchesOf(rows, chosen + {r}) == BatchesOf(rows, chosen) + {rows[r].batch}
  {
    OneMoreBatch(rows, chosen, r);
  }

  lemma SweptBatches(rows: Rows, gone: set<nat>, ids: set<nat>)
    ensures BatchesOf(Swept(rows, gone), ids) == BatchesOf(rows, ids) && Swept(rows, gone).Keys == rows.Keys
  {
    var swept := Swept(rows, gone);
    forall b ensures b in BatchesOf(swept, ids) <==> b in BatchesOf(rows, ids) {
      if b in BatchesOf(rows, ids) { var x :| x in rows && x in ids && rows[x].batch == b; assert swept[x].batch == b; }
    }
  }

  lemma BothBatches(rows: Rows, a: set<nat>, b: set<nat>)
    ensures BatchesOf(rows, a + b) == BatchesOf(rows, a) + BatchesOf(rows, b)
  {
    forall x ensures x in BatchesOf(rows, a + b) <==> x in BatchesOf(rows, a) + BatchesOf(rows, b) {
      if x in BatchesOf(rows, a) { var r :| r in rows && r in a && rows[r].batch == x; assert r in a + b; }
      if x in BatchesOf(rows, b) { var r :| r in rows && r in b && rows[r].batch == x; assert r in a + b; }
    }
  }

  lemma ExpiredKnown(rows: Rows, now: nat, locked: set<nat>)
    ensures Expired(rows, now, locked) <= rows.Keys
  {
  }

  /** The rows to claim after the sweep, in id order. */
  function Candidates(swept: Rows, c: Q.ClaimCall): seq<nat> {
    NatOrders();
    First(Waiting(swept, c.lockedPending), NatLess, Q.ClaimLimit(c.capacity, c.limit, |Live(swept, c.now)|))
  }

  lemma CandidatesKnown(swept: Rows, c: Q.ClaimCall)
    ensures var ids := Candidates(swept, c);
      (forall i | 0 <= i < |ids| :: ids[i] in swept) && (forall i, j | 0 <= i < j < |ids| :: ids[i] != ids[j])
  {
    NatOrders();
    var ids := Candidates(swept, c);
    AscendingIsDistinct(ids, NatLess);
    forall i | 0 <= i < |ids| ensures ids[i] in swept { assert ids[i] in ids && ids[i] in Waiting(swept, c.lockedPending); }
  }

  lemma PrefixSet(ids: seq<nat>, n: nat)
    requires n < |ids| && forall i, j | 0 <= i < j < |ids| :: ids[i] != ids[j]
    ensures IdSet(ids[..n + 1]) == IdSet(ids[..n]) + {ids[n]} && ids[n] !in IdSet(ids[..n])
  {
    forall x ensures x in ids[..n + 1] <==> x in ids[..n] || x == ids[n] {
      if x in ids[..n] { var i :| 0 <= i < n && ids[i] == x; assert ids[..n + 1][i] == x; }
      assert ids[..n + 1][n] == ids[n];
    }
  }

  datatype TestLeaseLost = TestLeaseLost(row: nat)

  class ImportTables {
    var rows: Rows
    var batches: Batches
    const queue: ScanQueue.TaskTables

    constructor (rows: Rows, batches: Batches, queue: ScanQueue.TaskTables)
      ensures this.rows == rows && this.batches == batches && this.queue == queue
    {
      this.rows, this.batches, this.queue := rows, batches, queue;
    }

    function State(): Db
      reads this, queue
    {
      Db(rows, batches, queue.State())
    }

    /** `refresh_import_batches`. */
    method RefreshImportBatches(ids: set<nat>) returns (completed: set<nat>)
      modifies `batches
      ensures batches == Refreshed(old(batches), rows, ids, queue.clock)
      ensures completed == NewlyCompleted(old(batches), rows, ids, queue.clock)
      ensures Effects.Counted(rows, map b | b in batches && b in ids :: batches[b])
    {
      Effects.RefreshIsComplete(batches, rows, ids, queue.clock);
      hide Effects.Counted, Recounted, Refreshed, NewlyCompleted;
      completed := {};
      var todo := ids;
      ghost var done: set<nat> := {};
      RefreshedNone(batches, rows, queue.clock);
      while todo != {}
        invariant todo <= ids && done == ids - todo
        invariant batches == Refreshed(old(batches), rows, done, queue.clock)
        invariant completed == NewlyCompleted(old(batches), rows, done, queue.clock)
        decreases |todo|
      {
        var b := MinOf(todo);
        RefreshedOne(old(batches), rows, done, b, queue.clock);
        if b in batches {
          var wasCompleted := batches[b].status == Completed;
          batches := batches[b := Recounted(batches[b], rows, b, queue.clock)];
          if batches[b].status == Completed && !wasCompleted { completed := completed + {b}; }
        }
        todo, done := todo - {b}, done + {b};
      }
      assert done == ids;
    }

    method SweepRows(c: Q.ClaimCall) returns (affected: set<nat>)
      modifies `rows
      ensures var expired := Expired(old(rows), c.now, c.lockedRunning);
        rows == Swept(old(rows), expired) && affected == BatchesOf(old(rows), expired)
    {
      hide Expired, Swept, BatchesOf;
      affected := {};
      var todo := Expired(rows, c.now, c.lockedRunning);
      ghost var expired, seen: set<nat> := todo, {};
      ExpiredKnown(rows, c.now, c.lockedRunning);
      NoneTouched(rows, c);
      while todo != {}
        invariant todo <= expired && seen == expired - todo
        invariant rows == Swept(old(rows), seen) && affected == BatchesOf(old(rows), seen)
        decreases |todo|
      {
        var r: nat :| r in todo;
        SweptMore(old(rows), seen, r);
        affected := affected + {rows[r].batch};
        rows := rows[r := rows[r].(status := Pending, worker := None, lease := None, heartbeat := None)];
        todo, seen := todo - {r}, seen + {r};
      }
      assert seen == expired;
    }

    method StartRows(ids: seq<nat>, c: Q.ClaimCall) returns (affected: set<nat>)
      requires (forall i | 0 <= i < |ids| :: ids[i] in rows) && (forall i, j | 0 <= i < j < |ids| :: ids[i] != ids[j])
      modifies `rows
      ensures rows == Started(old(rows), IdSet(ids), c) && affected == BatchesOf(old(rows), IdSet(ids))
    {
      hide Started, BatchesOf;
      affected := {};
      var n := 0;
      ghost var chosen: set<nat> := {};
      NoneTouched(rows, c);
      while n < |ids|
        invariant 0 <= n <= |ids| && chosen == IdSet(ids[..n])
        invariant rows == Started(old(rows), chosen, c) && affected == BatchesOf(old(rows), chosen)
      {
        var r := ids[n];
        PrefixSet(ids, n);
        StartedMore(old(rows), chosen, r, c);
        affected := affected + {rows[r].batch};
        rows := rows[r := rows[r].(status := Running, worker := Some(c.worker), lease := Some(c.now + c.lease), heartbeat := Some(c.now),
                                   attempts := rows[r].attempts + 1)];
        chosen := chosen + {r};
        n := n + 1;
      }
      assert ids[..n] == ids;
    }

    /** `claim_import_tests`. */
    method ClaimImportTests(c: Q.ClaimCall) returns (ids: seq<nat>)
      modifies `rows, `batches
      ensures State() == Apply(old(State()), ClaimTests(c))
      ensures ids == if c.capacity <= 0 then [] else ClaimOrder(old(rows), c)
      ensures c.capacity > 0 ==> Effects.ClaimTakes(old(rows), rows, c, ids)
    {
      if c.capacity > 0 { Effects.ClaimIsComplete(State(), c); }
      hide Effects.ClaimTakes, Expired, Swept, Started, BatchesOf, Refreshed, NewlyCompleted;
      if c.capacity <= 0 { return []; }
      ghost var expired := Expired(rows, c.now, c.lockedRunning);
      var affected := SweepRows(c);
      ids := Candidates(rows, c);
      CandidatesKnown(rows, c);
      ghost var chosen := IdSet(ids);
      SweptBatches(old(rows), expired, chosen);
      BothBatches(old(rows), expired, chosen);
      var more := StartRows(ids, c);
      var dropped := RefreshImportBatches(affected + more);
    }

    /** `renew_import_test_leases`: a requested row that is not returned is held, with its lease
        counted from `now`; a returned one was not held any more; nothing else changes. */
    method RenewImportTestLeases(worker: string, ids: set<nat>, lease: nat, now: nat) returns (lost: set<nat>)
      modifies `rows
      ensures State() == Apply(old(State()), RenewTests(worker, ids, lease, now))
      ensures lost <= ids && rows.Keys == old(rows).Keys
      ensures forall r | r in ids && r !in lost ::
        && r in rows && rows[r] == old(rows)[r].(heartbeat := Some(now), lease := Some(now + lease))
        && rows[r].status == Running && rows[r].worker == Some(worker)
      ensures forall r | r in rows && (r !in ids || r in lost) :: rows[r] == old(rows)[r]
      ensures forall r | r in lost && r in rows && rows[r].status == Running && rows[r].worker == Some(worker) ::
        rows[r].lease.None? || rows[r].lease.value <= now
    {
      if ids == {} {
        assert Renewed(rows, {}, worker, now, lease) == rows;
        return {};
      }
      lost := set r | r in ids && !Owns(rows, r, worker, now);
      rows := Renewed(rows, ids, worker, now, lease);
    }

    /** `_claim_specific`; whether its refresh completes a batch is not looked at. */
    method ClaimSpecific(r: nat, c: Q.ClaimCall)
      modifies `rows, `batches
      ensures State() == Apply(old(State()), ClaimRow(r, c))
    {
      hide Refreshed, NewlyCompleted, Live;
      if r !in rows || rows[r].status != Pending || |Live(rows, c.now)| >= c.limit { return; }
      rows := rows[r := rows[r].(status := Running, worker := Some(c.worker), lease := Some(c.now + c.lease), heartbeat := Some(c.now),
                                 attempts := rows[r].attempts + 1)];
      var dropped := RefreshImportBatches({rows[r].batch});
    }

    /** `_save_result_for_worker`. */
    method SaveResult(worker: string, r: nat, success: bool, now: nat, ghost heeded: bool) returns (result: Result<Option<nat>, TestLeaseLost>)
      modifies `rows, `batches
      ensures State() == Apply(old(State()), Save(worker, r, success, now, heeded))
      ensures result == if Owns(old(rows), r, worker, now) then Success(Saved(old(State()), worker, r, success, now).1) else Failure(TestLeaseLost(r))
      ensures if Effects.Holds(old(rows), r, worker, now) then
          && Effects.OthersStay(old(rows), rows, r)
          && rows[r].status == (if success then Succeeded else Failed) && rows[r].worker == None && rows[r].lease == None && rows[r].heartbeat == None
          && rows[r].batch == old(rows)[r].batch && rows[r].device == old(rows)[r].device && rows[r].attempts == old(rows)[r].attempts
        else result.Failure? && rows == old(rows) && batches == old(batches)
    {
      Effects.SaveIsComplete(State(), worker, r, success, now, heeded);
      hide Refreshed, NewlyCompleted;
      if !Owns(rows, r, worker, now) { return Failure(TestLeaseLost(r)); }
      rows := rows[r := rows[r].(status := if success then Succeeded else Failed, worker := None, lease := None, heartbeat := None)];
      var b := rows[r].batch;
      var completed := RefreshImportBatches({b});
      result := Success(if b in completed then Some(b) else None);
    }

    /** `create_import_scan_batch`. */
    method CreateImportScanBatch(b: nat) returns (r: Result<Option<nat>, Q.Refusal>)
      requires I.Consistent(queue.State())
      modifies `batches, queue
      ensures State() == Apply(old(State()), HandOver(b))
      ensures r == match HandedOver(old(State()), b) case Failure(e) => Failure(e) case Success(p) => Success(p.1)
      ensures b !in old(batches) ==> r == Success(None) && State() == old(State())
      ensures b in old(batches) && old(batches)[b].scanBatch.Some? ==> r == Success(old(batches)[b].scanBatch) && State() == old(State())
      ensures b in old(batches) && old(batches)[b].scanBatch.None? ==>
        if r.Failure? then r == Failure(Q.QueueFull) && State() == old(State())
        else r == Success(Some(old(queue.nextBatch))) && b in batches && batches[b].scanBatch == r.value
    {
      hide Q.BatchCreated, SuccessDevices, I.Consistent, Q.Selected, Q.Overfull;
      if b !in batches { return Success(None); }
      if batches[b].scanBatch.Some? { return Success(batches[b].scanBatch); }
      CreationRefused(queue.State(), SuccessDevices(rows, b));
      var created := queue.CreateScanBatch(Q.BatchType.Import, SuccessDevices(rows, b));
      if created.Failure? { return Failure(created.error); }
      batches := batches[b := batches[b].(scanBatch := Some(created.value))];
      r := Success(Some(created.value));
    }

    /** The normal end of `test_row`: save, and hand over a batch this completed. */
    method EndTest(worker: string, r: nat, success: bool, now: nat)
      requires ImportTests.Consistent(State())
      modifies `rows, `batches, queue
      ensures var save, completed := Save(worker, r, success, now, true), Saved(old(State()), worker, r, success, now).1;
        State() == After(old(State()), if completed.Some? then [save, HandOver(completed.value)] else [save])
      ensures ImportTests.Consistent(State())
    {
      hide Apply, Saved, HandedOver, Stated, I.Consistent, After;
      ghost var save := Save(worker, r, success, now, true);
      LostSave(State(), worker, r, success, now);
      StepKeeps(State(), save);
      OneStep(State(), save);
      var saved := SaveResult(worker, r, success, now, true);
      if saved.Success? && saved.value.Some? {
        StepKeeps(State(), HandOver(saved.value.value));
        TwoSteps(old(State()), save, HandOver(saved.value.value));
        var handed := CreateImportScanBatch(saved.value.value);
      }
    }

    /** The end of `test_row` after an internal failure: reclaim the row if it was swept, save a
        failed result, and drop whatever that completes. */
    method EndFailedTest(worker: string, r: nat, c: Q.ClaimCall, now: nat)
      modifies `rows, `batches
      ensures State() == After(old(State()), [ClaimRow(r, c), Save(worker, r, false, now, false)])
    {
      hide Apply, After;
      TwoSteps(State(), ClaimRow(r, c), Save(worker, r, false, now, false));
      ClaimSpecific(r, c);
      var dropped := SaveResult(worker, r, false, now, false);
    }
  }

  lemma OneStep(db: Db, e: Event)
    ensures After(db, [e]) == Apply(db, e)
  {
    assert [e][..0] == [];
  }

  lemma TwoSteps(db: Db, e: Event, f: Event)
    ensures After(db, [e, f]) == Apply(Apply(db, e), f)
  {
    OneStep(db, e);
    assert [e, f][..1] == [e];
  }

  lemma LostSave(db: Db, worker: string, r: nat, success: bool, now: nat)
    ensures !Owns(db.rows, r, worker, now) ==> Saved(db, worker, r, success, now).1 == None
  {
  }

  lemma CreationRefused(queue: Q.Db, ds: seq<nat>)
    requires I.Consistent(queue)
    ensures Q.BatchCreated(queue, Q.BatchType.Import, ds) ==
      if Q.Overfull(queue, Q.Selected(queue.devices, ds)) then Failure(Q.QueueFull)
      else Success(Q.Apply(queue, Q.CreateBatch(Q.BatchType.Import, ds)))
  {
    hide I.Consistent, Q.EnqueuedAll, Q.Selected, Q.ActiveTasks, Q.ActiveDevices;
    Admission.BatchAdmission(queue, Q.BatchType.Import, ds);
  }
}
