/**
 What a lease does: a claimed run is taken again only after its lease or its recovery, and then it is taken.
 */
module Leases {
  import opened Records
  import opened RunTables
  import opened RunInvariants
  import opened RunCommits
  import opened Protocol
  import opened ProtocolInvariants
  import opened RunTheorems
  import Knowledge

  /** The step delivers the run's task to a new worker, and the worker gets the run. */
  ghost predicate Takes(s: System, l: Label, id: Id) {
    l.Deliver? && l.id == id && l.worker !in s.workers && l.worker in Step(s, l).workers
  }

  lemma TakesIsClaim(s: System, l: Label, id: Id)
    ensures Takes(s, l, id) <==> l.Deliver? && l.worker !in s.workers && l.id == id && ClaimTry(s.db, id, l.now).Claimed?
  {
    hide ClaimTry, NextDb, NextDispatcher, NextQueue, LockFree, Knowledge.Apply, NextWorker;
  }

  /**
   A delivered task takes its run exactly when the run is stored, has not ended, and is queued or has a lease that
   has ended. The run is then running under the next attempt and leased for 95 seconds, without the citations, the
   report and the evidence status of an earlier attempt. Otherwise the delivery changes nothing.
   */
  lemma DeliveryTakes(s: System, w: nat, id: Id, now: int)
    requires SystemOk(s) && w !in s.workers
    ensures Takes(s, Deliver(w, id, now), id) <==>
            && id in s.db.runs && s.db.runs[id].status !in {Succeeded, Failed, Cancelled}
            && (s.db.runs[id].status == Queued || s.db.runs[id].lease.None? || s.db.runs[id].lease.value <= now)
    ensures var s' := Step(s, Deliver(w, id, now));
            if Takes(s, Deliver(w, id, now), id) then
              && id in s'.db.runs && s'.workers[w].copy == s'.db.runs[id].data
              && (var row, r := s'.db.runs[id], s'.db.runs[id].data;
                  && row.status == r.status == Running && row.attempt == r.attempt == s.db.runs[id].attempt + 1
                  && row.lease == Some(now + 95) && r.startedAt == Some(now)
                  && r.citations == [] && r.report == None && r.evidence == NotEvaluated)
            else s'.db == s.db && s'.workers == s.workers
  {
    hide SystemOk, LogsOk, ClaimedEvents, Step;
    DeliverMoves(s, w, id, now);
    SystemLogs(s);
    if id in s.db.runs { RowOf(s.db, id); }
  }

  /** Until its recovery, a run that was taken has ended or is leased at least so long. */
  ghost predicate LeasedUntil(db: Tables, id: Id, until: int) {
    && id in db.runs
    && (Terminal(db.runs[id].status) ||
        (db.runs[id].status == Running && db.runs[id].lease.Some? && db.runs[id].lease.value >= until))
  }

  lemma StepKeepsLease(s: System, l: Label, id: Id, until: int)
    requires SystemOk(s) && LeasedUntil(s.db, id, until) && !RecoverStep(s, l, id)
    ensures LeasedUntil(Step(s, l).db, id, until)
    ensures Takes(s, l, id) ==> l.now >= until
  {
    hide SystemOk, LogsOk, Step, Commit, TxOf, Legal, Takes, IsWorkerTx, NextWorkers;
    StepDb(s, l);
    SystemLogs(s);
    RowOf(s.db, id);
    StepIsLegal(s, l);
    TakesIsClaim(s, l, id);
    if TxOf(s, l).Some? {
      CommitRow(s.db, TxOf(s, l).value, id);
      RecoveryIsStep(s, l, id);
      RowKeepsLease(s.db, TxOf(s, l).value, id, until);
    }
  }

  lemma RecoveryIsStep(s: System, l: Label, id: Id)
    requires TxOf(s, l).Some?
    ensures RecoversRun(s.db, TxOf(s, l).value, id) <==> RecoverStep(s, l, id)
  {
    hide ClaimTry, VerdictOf;
  }

  lemma RowKeepsLease(db: Tables, tx: Tx, id: Id, until: int)
    requires LogsOk(db) && LeasedUntil(db, id, until) && !RecoversRun(db, tx, id) && Legal(tx)
    ensures var row := RowAfter(db, tx, id);
            Terminal(row.status) || (row.status == Running && row.lease.Some? && row.lease.value >= until)
  {
    hide LogsOk, Notifies;
    RowOf(db, id);
  }

  lemma {:induction false} LeaseHolds(s: System, ls: seq<Label>, id: Id, until: int)
    requires SystemOk(s) && LeasedUntil(s.db, id, until)
    requires forall k | 0 <= k < |ls| :: !RecoverStep(After(s, ls[..k]), ls[k], id)
    ensures LeasedUntil(After(s, ls).db, id, until)
    decreases |ls|
  {
    hide SystemOk, Step, LeasedUntil, RecoverStep;
    if ls != [] {
      var init := ls[..|ls| - 1];
      forall k | 0 <= k < |init| ensures !RecoverStep(After(s, init[..k]), init[k], id) { assert init[..k] == ls[..k]; }
      LeaseHolds(s, init, id, until);
      ReachableOk(s, init);
      assert ls[..|ls| - 1] == init;
      StepKeepsLease(After(s, init), ls[|ls| - 1], id, until);
    }
  }

  /**
   Over any history, if a delivery at t takes a run and a later one at u takes it again with no recovery of the run
   in between, then the second comes at least 95 seconds after the first.
   */
  lemma TakenAgainAfterLease(s: System, first: Label, ls: seq<Label>, second: Label, id: Id)
    requires SystemOk(s) && Takes(s, first, id)
    requires forall k | 0 <= k < |ls| :: !RecoverStep(After(Step(s, first), ls[..k]), ls[k], id)
    ensures Takes(After(Step(s, first), ls), second, id) ==> second.now >= first.now + 95
  {
    hide SystemOk, Step, LeasedUntil, RecoverStep, Takes;
    var s1 := Step(s, first);
    StepOk(s, first);
    TakenIsLeased(s, first, id);
    LeaseHolds(s1, ls, id, first.now + 95);
    ReachableOk(s1, ls);
    if Takes(After(s1, ls), second, id) {
      DeliverIsNoRecovery(After(s1, ls), second, id);
      StepKeepsLease(After(s1, ls), second, id, first.now + 95);
    }
  }

  lemma DeliverIsNoRecovery(s: System, l: Label, id: Id)
    requires Takes(s, l, id)
    ensures l.Deliver? && !RecoverStep(s, l, id)
  {
    hide Step;
  }

  lemma TakenIsLeased(s: System, l: Label, id: Id)
    requires SystemOk(s) && Takes(s, l, id)
    ensures l.Deliver? && LeasedUntil(Step(s, l).db, id, l.now + 95)
  {
    hide SystemOk, Step;
    assert l.Deliver? && l.id == id && l == Deliver(l.worker, id, l.now);
    DeliveryTakes(s, l.worker, id, l.now);
  }

  /** A delivery that takes its run adds the started and completed events of the new attempt to its log. */
  lemma DeliveryLogs(s: System, w: nat, id: Id, now: int)
    requires SystemOk(s) && Takes(s, Deliver(w, id, now), id)
    ensures var es, es' := EventsOf(s.db, id), EventsOf(Step(s, Deliver(w, id, now)).db, id);
            && id in s.db.runs && |es'| == |es| + 2 && es'[..|es|] == es
            && es'[|es|].stage == es'[|es| + 1].stage == QueueStage
            && es'[|es|].kind == Started && es'[|es| + 1].kind == Completed
            && es'[|es|].attempt == es'[|es| + 1].attempt == s.db.runs[id].attempt + 1
  {
    hide SystemOk, LogsOk, Step;
    TakesIsClaim(s, Deliver(w, id, now), id);
    DeliverMoves(s, w, id, now);
    SystemLogs(s);
    RowOf(s.db, id);
  }
}
