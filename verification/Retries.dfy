/**
 When a row whose task the queue refused is offered again.
 */
module Retries {
  import opened Records
  import opened RunTables
  import opened RunCommits
  import opened Protocol
  import Knowledge

  /** The wait after an offer that failed, by how often the row was offered before. */
  function Wait(attempts: nat): nat {
    if attempts >= 6 then 64 else [1, 2, 4, 8, 16, 32][attempts]
  }

  lemma DelayIsWait(attempts: nat)
    ensures RetryDelay(attempts) == Wait(attempts)
  {
    assert Pow2(1) == 2 && Pow2(2) == 4 && Pow2(3) == 8;
    assert Pow2(4) == 16 && Pow2(5) == 32 && Pow2(6) == 64;
  }

  /** The step refuses, marks, recovers or gives up the row. */
  predicate Touches(s: System, l: Label, key: OutboxKey) {
    || (l.EnqueueFails? && s.dispatcher.batch != [] && !s.dispatcher.accepted && s.dispatcher.batch[0].key == key)
    || (l.MarkSent? && s.dispatcher.batch != [] && s.dispatcher.accepted && s.dispatcher.batch[0].key == key)
    || (l.RecoverRuns? && key.DiagnosisKey? && key.run in s.db.runs && s.db.runs[key.run].status == Running)
    || (l.EndNotify? && l.delivery.LastAttemptUndelivered? && key == NotificationKey(l.id))
  }

  lemma CommitKeepsRow(db: Tables, tx: Tx, key: OutboxKey)
    requires key in db.outbox
    requires !(tx.PostponeTx? && tx.key == key) && !(tx.SentTx? && tx.key == key)
    requires tx.RecoverAllTx? ==> !(key.DiagnosisKey? && key.run in db.runs && db.runs[key.run].status == Running)
    requires tx.NotifyOutcomeTx? && tx.d.LastAttemptUndelivered? ==> key != NotificationKey(tx.id)
    ensures key in Commit(db, tx).outbox && Commit(db, tx).outbox[key] == db.outbox[key]
  {
    hide Log, RowWith, ClaimedRow, FinishedRun, CitingRun, NotifiedRun, EnqueuedRun, RecoveredRun, ClaimedEvents, FinishedEvents,
         AdmittedEvents, Notifies, CitationClash, BusinessKeyTaken, AlertEvidence, RetryDelay;
  }

  lemma StepKeepsRow(s: System, l: Label, key: OutboxKey)
    requires key in s.db.outbox && !Touches(s, l, key)
    ensures key in Step(s, l).db.outbox && Step(s, l).db.outbox[key] == s.db.outbox[key]
  {
    hide Commit, NextWorkers, NextDispatcher, NextQueue, LockFree, Knowledge.Apply, VerdictOf;
    if TxOf(s, l).Some? { CommitKeepsRow(s.db, TxOf(s, l).value, key); }
  }

  lemma {:induction false} RowStands(s: System, ls: seq<Label>, key: OutboxKey)
    requires key in s.db.outbox && forall k | 0 <= k < |ls| :: !Touches(After(s, ls[..k]), ls[k], key)
    ensures key in After(s, ls).db.outbox && After(s, ls).db.outbox[key] == s.db.outbox[key]
    decreases |ls|
  {
    hide Step, Touches;
    if ls != [] {
      var init := ls[..|ls| - 1];
      forall k | 0 <= k < |init| ensures !Touches(After(s, init[..k]), init[k], key) { assert init[..k] == ls[..k]; }
      RowStands(s, init, key);
      StepKeepsRow(After(s, init), ls[|ls| - 1], key);
    }
  }

  lemma RefusedRow(s: System, now: int)
    requires s.dispatcher.batch != [] && !s.dispatcher.accepted && s.dispatcher.batch[0].key in s.db.outbox
    ensures var item, s' := s.dispatcher.batch[0], Step(s, EnqueueFails(now));
            && item.key in s'.db.outbox
            && s'.db.outbox[item.key].state == s.db.outbox[item.key].state
            && s'.db.outbox[item.key].attempts == s.db.outbox[item.key].attempts + 1
            && s'.db.outbox[item.key].nextAt == now + Wait(item.attempts)
  {
    hide RetryDelay, Wait, NextWorkers, NextQueue, LockFree, Knowledge.Apply;
    DelayIsWait(s.dispatcher.batch[0].attempts);
  }

  lemma SelectsOne(s: System, key: OutboxKey, later: int)
    requires s.dispatcher == Idle
    ensures Step(s, SelectBatch([key], later)).dispatcher.batch != [] <==>
            key in s.db.outbox && s.db.outbox[key].state == Pending && s.db.outbox[key].nextAt <= later
  {
    hide NextDb, NextWorkers, NextQueue, LockFree, Knowledge.Apply;
    assert [key][0] == key;
  }

  /**
   After a refused offer, and until its row is refused again, marked, recovered or given up, an idle dispatcher reads
   a pending row exactly from 1, 2, 4, 8, 16, 32 and then always 64 seconds after the refusal.
   */
  lemma OfferedAgainAfterWait(s: System, now: int, ls: seq<Label>, later: int)
    requires s.dispatcher.batch != [] && !s.dispatcher.accepted
    requires s.dispatcher.batch[0].key in s.db.outbox && s.db.outbox[s.dispatcher.batch[0].key].state == Pending
    requires forall k | 0 <= k < |ls| :: !Touches(After(Step(s, EnqueueFails(now)), ls[..k]), ls[k], s.dispatcher.batch[0].key)
    ensures var item, t := s.dispatcher.batch[0], After(Step(s, EnqueueFails(now)), ls);
            t.dispatcher == Idle ==>
              (Step(t, SelectBatch([item.key], later)).dispatcher.batch != [] <==>
               later >= now + (if item.attempts >= 6 then 64 else [1, 2, 4, 8, 16, 32][item.attempts]))
  {
    hide Step, After, Touches;
    RefusedRow(s, now);
    RowStands(Step(s, EnqueueFails(now)), ls, s.dispatcher.batch[0].key);
    var t := After(Step(s, EnqueueFails(now)), ls);
    if t.dispatcher == Idle { SelectsOne(t, s.dispatcher.batch[0].key, later); }
  }
}
