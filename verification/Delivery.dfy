/**
 No accepted run is lost: outbox rows, the dispatcher's batch and the external queue over every run of
 the system.
 */
module Delivery {
  import opened Records
  import opened RunTables
  import opened RunInvariants
  import opened RunCommits
  import opened Protocol
  import opened ProtocolInvariants
  import Knowledge

  /** Every admitted run keeps its diagnosis row, whatever crashes. */
  lemma OutboxRowSurvives(s: System, ls: seq<Label>, id: Id)
    requires SystemOk(s) && id in After(s, ls).db.runs
    ensures DiagnosisKey(id) in After(s, ls).db.outbox
  {
    ReachableOk(s, ls);
    hide After;
  }

  /** A recovered run is queued again and its row is due again. */
  lemma RecoveredIsPending(s: System, now: int, id: Id)
    requires SystemOk(s) && IsRunning(s.db, id)
    ensures var s' := Step(s, RecoverRuns(now));
            && s'.db.runs[id].status == Queued && s'.db.runs[id].data.dispatch == DispatchPending
            && DiagnosisKey(id) in s'.db.outbox && Due(s'.db, DiagnosisKey(id), now)
            && s'.dispatcher == Idle
  {
    hide Log, LogsOk, CitesOk, EvidenceOk, WorkersOk, DistinctAttempts, VerdictsOk;
  }

  // -------------------------------------------------- sent means accepted since recovery

  /** At step j the queue took, or already held, the task of `key`. */
  ghost predicate AcceptsAt(s: System, ls: seq<Label>, j: nat, key: OutboxKey) {
    && j < |ls| && ls[j].Enqueue?
    && var d := After(s, ls[..j]).dispatcher; d.batch != [] && !d.accepted && d.batch[0].key == key
  }

  /** Step k recovers the run of `key`. */
  ghost predicate RecoversAt(s: System, ls: seq<Label>, k: nat, key: OutboxKey) {
    k < |ls| && ls[k].RecoverRuns? && key.DiagnosisKey? && IsRunning(After(s, ls[..k]).db, key.run)
  }

  ghost predicate AcceptedSince(s: System, ls: seq<Label>, j: nat, key: OutboxKey) {
    AcceptsAt(s, ls, j, key) && forall k | j < k < |ls| :: !RecoversAt(s, ls, k, key)
  }

  lemma Earlier(s: System, ls: seq<Label>, key: OutboxKey, j: nat)
    requires ls != [] && AcceptedSince(s, ls[..|ls| - 1], j, key) && !RecoversAt(s, ls, |ls| - 1, key)
    ensures AcceptedSince(s, ls, j, key)
  {
    hide After, IsRunning;
    var init := ls[..|ls| - 1];
    assert ls[..j] == init[..j];
    forall k | j < k < |ls| ensures !RecoversAt(s, ls, k, key) {
      if k < |init| { assert ls[..k] == init[..k] && !RecoversAt(s, init, k, key); }
    }
  }

  lemma {:induction false} AcceptedWasEnqueued(s: System, ls: seq<Label>) returns (j: nat)
    requires s.dispatcher == Idle
    requires After(s, ls).dispatcher.accepted && After(s, ls).dispatcher.batch != []
    ensures AcceptedSince(s, ls, j, After(s, ls).dispatcher.batch[0].key)
    decreases |ls|
  {
    hide NextDb, NextWorkers, NextQueue, AcceptedSince, RecoversAt;
    var init, l := ls[..|ls| - 1], ls[|ls| - 1];
    var d := After(s, init).dispatcher;
    var key := After(s, ls).dispatcher.batch[0].key;
    if l.Enqueue? && d.batch != [] && !d.accepted {
      j := |ls| - 1;
      JustNow(s, ls, key);
    } else {
      j := AcceptedWasEnqueued(s, init);
      NotRecovering(s, ls, key);
      Earlier(s, ls, key, j);
    }
  }

  lemma JustNow(s: System, ls: seq<Label>, key: OutboxKey)
    requires ls != [] && AcceptsAt(s, ls, |ls| - 1, key)
    ensures AcceptedSince(s, ls, |ls| - 1, key)
  {
  }

  lemma NotRecovering(s: System, ls: seq<Label>, key: OutboxKey)
    requires ls != [] && !ls[|ls| - 1].RecoverRuns?
    ensures !RecoversAt(s, ls, |ls| - 1, key)
  {
  }

  lemma SentCommit(db: Tables, tx: Tx, key: OutboxKey)
    requires key in Commit(db, tx).outbox && Commit(db, tx).outbox[key].state == Sent
    ensures tx == SentTx(key) || (key in db.outbox && db.outbox[key].state == Sent)
    ensures tx.RecoverAllTx? ==> !(key.DiagnosisKey? && IsRunning(db, key.run))
  {
    hide Log, Notifies, BusinessKeyTaken, AlertEvidence, CitationClash;
  }

  /** Only the mark after an accepted enqueue sets a row to sent. */
  lemma SentStep(s: System, l: Label, key: OutboxKey)
    requires key in Step(s, l).db.outbox && Step(s, l).db.outbox[key].state == Sent
    ensures (l.MarkSent? && s.dispatcher.batch != [] && s.dispatcher.accepted && s.dispatcher.batch[0].key == key)
            || (key in s.db.outbox && s.db.outbox[key].state == Sent)
    ensures l.RecoverRuns? ==> !(key.DiagnosisKey? && IsRunning(s.db, key.run))
  {
    hide Commit, IsRunning, NextWorkers, NextDispatcher, NextQueue;
    if TxOf(s, l).Some? { SentCommit(s.db, TxOf(s, l).value, key); }
  }

  /**
   A row is sent only if the queue accepted or already held its task at some step, and the run has not been
   recovered since.
   */
  lemma {:induction false} SentWasAccepted(s: System, ls: seq<Label>, key: OutboxKey) returns (j: nat)
    requires s.dispatcher == Idle && s.db.outbox == map[]
    requires key in After(s, ls).db.outbox && After(s, ls).db.outbox[key].state == Sent
    ensures AcceptedSince(s, ls, j, key)
    decreases |ls|
  {
    hide Step, AcceptedSince;
    var init, l := ls[..|ls| - 1], ls[|ls| - 1];
    SentStep(After(s, init), l, key);
    if l.MarkSent? && After(s, init).dispatcher.batch != [] && After(s, init).dispatcher.accepted &&
       After(s, init).dispatcher.batch[0].key == key {
      j := AcceptedWasEnqueued(s, init);
    } else {
      j := SentWasAccepted(s, init, key);
    }
    Earlier(s, ls, key, j);
  }

  // ------------------------------------------------------------------ tasks

  /** A row's alerts never change: they are written with the row, and later writes keep them. */
  lemma CommitAlerts(db: Tables, tx: Tx, key: OutboxKey)
    requires key in db.outbox
    ensures key in Commit(db, tx).outbox && Commit(db, tx).outbox[key].alerts == db.outbox[key].alerts
  {
    hide Log, RowWith, ClaimedRow, FinishedRun, CitingRun, NotifiedRun, EnqueuedRun, RecoveredRun, ClaimedEvents, FinishedEvents,
         AdmittedEvents, Notifies, CitationClash, BusinessKeyTaken, AlertEvidence, RetryDelay;
  }

  /** The dispatcher's items carry the alerts of their rows. */
  ghost predicate BatchOk(s: System) {
    forall i | 0 <= i < |s.dispatcher.batch| ::
      var item := s.dispatcher.batch[i];
      item.key in s.db.outbox && s.db.outbox[item.key].alerts == item.alerts
  }

  /** A held task is named by what is stored about the run it carries. */
  ghost predicate TaskOk(s: System, t: TaskId)
    requires t in s.queue
  {
    match t
    case NotifyTask(run) => s.queue[t] == run
    case ByRun(run) => s.namespaced && s.queue[t] == run
    case ByAlerts(alerts) =>
      !s.namespaced && DiagnosisKey(s.queue[t]) in s.db.outbox && s.db.outbox[DiagnosisKey(s.queue[t])].alerts == alerts
  }

  ghost predicate DispatchOk(s: System) {
    BatchOk(s) && forall t | t in s.queue :: TaskOk(s, t)
  }

  /** Rows keep their alerts over a step. */
  ghost predicate SameAlerts(s: System, s': System) {
    forall key | key in s.db.outbox :: key in s'.db.outbox && s'.db.outbox[key].alerts == s.db.outbox[key].alerts
  }

  lemma StepAlerts(s: System, l: Label)
    ensures SameAlerts(s, Step(s, l)) && Step(s, l).namespaced == s.namespaced
  {
    hide Commit, TxOf, NextWorkers, NextDispatcher, NextQueue, LockFree, Knowledge.Apply;
    if TxOf(s, l).Some? {
      forall key | key in s.db.outbox
        ensures key in Commit(s.db, TxOf(s, l).value).outbox
        ensures Commit(s.db, TxOf(s, l).value).outbox[key].alerts == s.db.outbox[key].alerts
      {
        CommitAlerts(s.db, TxOf(s, l).value, key);
      }
    }
  }

  lemma StepBatch(s: System, l: Label)
    requires BatchOk(s)
    ensures var batch := NextDispatcher(s, l).batch;
            forall i | 0 <= i < |batch| :: batch[i].key in s.db.outbox && s.db.outbox[batch[i].key].alerts == batch[i].alerts
  {
    hide CanMark;
  }

  lemma StepQueue(s: System, l: Label, t: TaskId)
    requires DispatchOk(s) && t in NextQueue(s, l)
    ensures (t in s.queue && NextQueue(s, l)[t] == s.queue[t]) ||
            (var item := if s.dispatcher.batch == [] then Item(NotificationKey(""), 0, []) else s.dispatcher.batch[0];
             l.Enqueue? && s.dispatcher.batch != [] && t == TaskFor(s.namespaced, item) && NextQueue(s, l)[t] == item.key.run)
  {
    hide DispatchOk;
  }

  lemma StepDispatchOk(s: System, l: Label)
    requires DispatchOk(s)
    ensures DispatchOk(Step(s, l))
  {
    hide NextDb, NextWorkers, NextDispatcher, NextQueue, LockFree, Knowledge.Apply;
    StepAlerts(s, l);
    StepBatch(s, l);
    var s' := Step(s, l);
    forall t | t in s'.queue ensures TaskOk(s', t) {
      StepQueue(s, l, t);
    }
  }

  lemma {:induction false} ReachableDispatchOk(s: System, ls: seq<Label>)
    requires DispatchOk(s)
    ensures DispatchOk(After(s, ls))
    decreases |ls|
  {
    hide Step, DispatchOk;
    if ls != [] {
      ReachableDispatchOk(s, ls[..|ls| - 1]);
      StepDispatchOk(After(s, ls[..|ls| - 1]), ls[|ls| - 1]);
    }
  }

  lemma InitialDispatchOk(s: System)
    requires Initial(s)
    ensures DispatchOk(s)
  {
  }

  /** The queue holds a diagnosis task that carries the run. */
  ghost predicate HoldsTask(queue: map<TaskId, Id>, run: Id) {
    exists t | t in queue :: !t.NotifyTask? && queue[t] == run
  }

  /**
   Over any history of dispatches, crashes between enqueue and mark, and re-dispatches, the queue never holds
   two diagnosis tasks of one run, with and without a namespace.
   */
  lemma OneTaskPerRun(s: System, ls: seq<Label>, t: TaskId, u: TaskId)
    requires DispatchOk(s) && t in After(s, ls).queue && u in After(s, ls).queue
    requires !t.NotifyTask? && !u.NotifyTask? && After(s, ls).queue[t] == After(s, ls).queue[u]
    ensures t == u
  {
    hide After, BatchOk;
    ReachableDispatchOk(s, ls);
    assert TaskOk(After(s, ls), t) && TaskOk(After(s, ls), u);
  }

  /** Some other run with the same alerts has a task in the queue. */
  ghost predicate Shadowed(s: System, run: Id) {
    && DiagnosisKey(run) in s.db.outbox
    && exists other: Id | other != run && HoldsTask(s.queue, other) ::
         DiagnosisKey(other) in s.db.outbox &&
         s.db.outbox[DiagnosisKey(other)].alerts == s.db.outbox[DiagnosisKey(run)].alerts
  }

  /**
   An accepted enqueue leaves a task of that very run in the queue exactly when the client has a namespace, or
   no other run with equal alerts has a task there; and it adds nothing when the run's task is still held.
   */
  lemma EnqueueServesRun(s: System)
    requires DispatchOk(s) && s.dispatcher.batch != [] && !s.dispatcher.accepted && s.dispatcher.batch[0].key.DiagnosisKey?
    ensures var run, s' := s.dispatcher.batch[0].key.run, Step(s, Enqueue);
            && s'.dispatcher.accepted && s'.db == s.db
            && (HoldsTask(s'.queue, run) <==> s.namespaced || !Shadowed(s, run))
            && (HoldsTask(s.queue, run) ==> s'.queue == s.queue)
  {
    hide DispatchOk, Shadowed, HoldsTask;
    var item := s.dispatcher.batch[0];
    var task, run := TaskFor(s.namespaced, item), item.key.run;
    EnqueueStep(s);
    FirstItem(s);
    OfferServes(s, run);
  }

  lemma EnqueueStep(s: System)
    requires s.dispatcher.batch != [] && !s.dispatcher.accepted
    ensures var s', item := Step(s, Enqueue), s.dispatcher.batch[0];
            && s'.namespaced == s.namespaced
            && s'.queue == Offered(s.queue, TaskFor(s.namespaced, item), item.key.run)
            && s'.dispatcher == s.dispatcher.(accepted := true) && s'.db == s.db
  {
    hide LockFree, Knowledge.Apply, TaskFor, Offered;
  }

  lemma FirstItem(s: System)
    requires DispatchOk(s) && s.dispatcher.batch != []
    ensures var item := s.dispatcher.batch[0]; item.key in s.db.outbox && s.db.outbox[item.key].alerts == item.alerts
  {
    hide TaskOk;
  }

  /** The task id of a run, from what is stored about it. */
  ghost function TaskOfRun(s: System, run: Id): TaskId
    requires DiagnosisKey(run) in s.db.outbox
  {
    if s.namespaced then ByRun(run) else ByAlerts(s.db.outbox[DiagnosisKey(run)].alerts)
  }

  lemma HeldTask(s: System, run: Id)
    requires DispatchOk(s) && DiagnosisKey(run) in s.db.outbox
    ensures HoldsTask(s.queue, run) <==> TaskOfRun(s, run) in s.queue && s.queue[TaskOfRun(s, run)] == run
  {
    hide BatchOk;
    if HoldsTask(s.queue, run) {
      var t :| t in s.queue && !t.NotifyTask? && s.queue[t] == run;
      assert TaskOk(s, t);
    }
  }

  lemma OfferServes(s: System, run: Id)
    requires DispatchOk(s) && DiagnosisKey(run) in s.db.outbox
    ensures var queue := Offered(s.queue, TaskOfRun(s, run), run);
            && (HoldsTask(queue, run) <==> s.namespaced || !Shadowed(s, run))
            && (HoldsTask(s.queue, run) ==> queue == s.queue)
  {
    hide BatchOk;
    var task := TaskOfRun(s, run);
    var queue := Offered(s.queue, task, run);
    HeldTask(s, run);
    if task !in s.queue {
      assert task in queue && queue[task] == run;
      NotShadowed(s, run);
    } else {
      assert TaskOk(s, task);
      assert HoldsTask(s.queue, s.queue[task]);
      if s.queue[task] == run { NotShadowed(s, run); }
    }
  }

  lemma NotShadowed(s: System, run: Id)
    requires DispatchOk(s) && DiagnosisKey(run) in s.db.outbox
    requires TaskOfRun(s, run) in s.queue ==> s.queue[TaskOfRun(s, run)] == run
    ensures s.namespaced || !Shadowed(s, run)
  {
    hide BatchOk, DispatchOk, HoldsTask;
    forall other: Id | other != run && DiagnosisKey(other) in s.db.outbox && !s.namespaced &&
                       s.db.outbox[DiagnosisKey(other)].alerts == s.db.outbox[DiagnosisKey(run)].alerts
      ensures !HoldsTask(s.queue, other)
    {
      HeldTask(s, other);
    }
  }

  // ------------------------------------------------------------- a run without a task

  const KeyA := DiagnosisKey("a")
  const KeyB := DiagnosisKey("b")

  /** Two runs with the same alerts are admitted, read in one batch, enqueued and marked in turn. */
  const SharedHistory :=
    [AdmitRun("a", ["i"], ManualKey("i", "1"), ["alert"], 0), AdmitRun("b", ["i"], ManualKey("i", "2"), ["alert"], 0),
     SelectBatch([KeyA, KeyB], 0), Enqueue, MarkSent, Enqueue, MarkSent]

  lemma AfterNext(s: System, ls: seq<Label>, i: nat)
    requires i < |ls|
    ensures After(s, ls[..i + 1]) == Step(After(s, ls[..i]), ls[i])
  {
    hide Step;
    assert ls[..i + 1][..i] == ls[..i];
  }

  /** Both runs are stored with pending rows, and nothing was read or queued. */
  ghost predicate BothPending(s: System) {
    && !s.namespaced && s.dispatcher == Idle && s.queue == map[]
    && "a" in s.db.runs && "b" in s.db.runs
    && KeyA in s.db.outbox && s.db.outbox[KeyA] == OutboxRow(Pending, 0, 0, ["alert"])
    && KeyB in s.db.outbox && s.db.outbox[KeyB] == OutboxRow(Pending, 0, 0, ["alert"])
  }

  /** One admission into tables that have neither the run, nor its key, nor its row. */
  lemma AdmitStep(s: System, id: Id, key: string)
    requires id !in s.db.runs && !BusinessKeyTaken(s.db, ManualKey("i", key)) && DiagnosisKey(id) !in s.db.outbox
    ensures var s' := Step(s, AdmitRun(id, ["i"], ManualKey("i", key), ["alert"], 0));
            && s'.namespaced == s.namespaced && s'.dispatcher == s.dispatcher && s'.queue == s.queue
            && s'.db.outbox == s.db.outbox[DiagnosisKey(id) := OutboxRow(Pending, 0, 0, ["alert"])]
            && s'.db.runs == s.db.runs[id := NewRow(ManualKey("i", key), id, ["i"], 0)]
  {
    hide AdmittedEvents, AlertEvidence, LockFree, Knowledge.Apply, NewRow;
  }

  lemma BothAdmitted(s: System)
    requires Initial(s) && !s.namespaced
    ensures BothPending(After(s, SharedHistory[..2]))
  {
    hide Step;
    var ls := SharedHistory;
    AfterNext(s, ls, 0);
    AfterNext(s, ls, 1);
    assert After(s, ls[..0]) == s;
    AdmitStep(s, "a", "1");
    AdmitStep(Step(s, ls[0]), "b", "2");
  }

  lemma BothRead(s: System)
    requires BothPending(s)
    ensures var s' := Step(s, SelectBatch([KeyA, KeyB], 0));
            && s'.db == s.db && s'.queue == map[] && s'.namespaced == s.namespaced
            && s'.dispatcher == Dispatcher([Item(KeyA, 0, ["alert"]), Item(KeyB, 0, ["alert"])], false)
  {
    hide LockFree, Knowledge.Apply;
    var keys := [KeyA, KeyB];
    assert Items(s.db, keys) == [Item(KeyA, 0, ["alert"]), Item(KeyB, 0, ["alert"])];
  }

  lemma MarkStep(s: System)
    requires s.dispatcher.batch != [] && s.dispatcher.accepted && s.dispatcher.batch[0].key.DiagnosisKey?
    requires s.dispatcher.batch[0].key.run in s.db.runs && s.dispatcher.batch[0].key in s.db.outbox
    ensures var s', key := Step(s, MarkSent), s.dispatcher.batch[0].key;
            && s'.queue == s.queue && s'.dispatcher == Dispatcher(s.dispatcher.batch[1..], false)
            && s'.namespaced == s.namespaced && s'.db.runs.Keys == s.db.runs.Keys
            && s'.db.outbox.Keys == s.db.outbox.Keys && s'.db.outbox[key].state == Sent
  {
    hide LockFree, Knowledge.Apply, RowWith;
  }

  /**
   Without a namespace the code loses a run: from empty tables, two runs with the same alerts end with both rows
   sent and no task for the second.
   */
  lemma SharedTaskHidesRun(s: System)
    requires Initial(s) && !s.namespaced
    ensures var t := After(s, SharedHistory);
            && "b" in t.db.runs && KeyB in t.db.outbox && t.db.outbox[KeyB].state == Sent
            && !HoldsTask(t.queue, "b") && HoldsTask(t.queue, "a")
  {
    hide Step, Initial;
    var ls := SharedHistory;
    BothAdmitted(s);
    var s2 := After(s, ls[..2]);
    BothRead(s2);
    AfterNext(s, ls, 2);
    var s3 := After(s, ls[..3]);
    AfterNext(s, ls, 3);
    EnqueueStep(s3);
    var s4 := After(s, ls[..4]);
    AfterNext(s, ls, 4);
    MarkStep(s4);
    var s5 := After(s, ls[..5]);
    AfterNext(s, ls, 5);
    EnqueueStep(s5);
    var s6 := After(s, ls[..6]);
    AfterNext(s, ls, 6);
    MarkStep(s6);
    assert ls[..7] == ls;
    assert s6.queue == map[ByAlerts(["alert"]) := "a"];
  }
}
