/**
 What a run's end says about its attempt: failed sources are published as failures, every incident of a succeeded
 run was searched, and a notice is owed exactly when the settings ask for one.
 */
module Outcomes {
  import opened Records
  import opened RunTables
  import opened RunInvariants
  import opened RunCommits
  import opened Protocol
  import opened ProtocolInvariants
  import opened RunTheorems
  import KnowledgeInvariants

  // --------------------------------------------------------------- errored searches

  /** The log has an errored retrieval event of the attempt. */
  ghost predicate SourceErrored(es: seq<Event>, attempt: nat) {
    exists i | 0 <= i < |es| :: es[i].stage == RetrievalStage && es[i].kind == Errored && es[i].attempt == attempt
  }

  lemma LogErrored(es: seq<Event>, a: nat, stage: Stage, kind: EventKind, attempt: nat)
    ensures SourceErrored(Log(es, a, stage, kind), attempt) <==>
            SourceErrored(es, attempt) || (stage == RetrievalStage && kind == Errored && a == attempt)
  {
    var es' := Log(es, a, stage, kind);
    if SourceErrored(es, attempt) {
      var i :| 0 <= i < |es| && es[i].stage == RetrievalStage && es[i].kind == Errored && es[i].attempt == attempt;
      assert es'[i] == es[i];
    }
    assert es'[|es|].stage == stage && es'[|es|].kind == kind && es'[|es|].attempt == a;
    assert forall i | 0 <= i < |es| :: es'[i] == es[i];
  }

  ghost predicate AddsError(db: Tables, tx: Tx, id: Id, attempt: nat) {
    || (tx.WorkerRetrievalTx? && tx.copy.id == id && tx.copy.attempt == attempt && !tx.found &&
        RetrievalTry(db, tx.copy, tx.incident).Committed?)
    || (tx.WorkerEventTx? && tx.copy.id == id && tx.copy.attempt == attempt && tx.stage == RetrievalStage && tx.kind == Errored &&
        Owned(db, tx.copy))
  }

  lemma NoneErrored(attempt: nat)
    ensures !SourceErrored([], attempt) && !SourceErrored(AdmittedEvents(), attempt)
  {
    hide Log;
    LogErrored([], 0, ReceiveStage, Completed, attempt);
    LogErrored(Log([], 0, ReceiveStage, Completed), 0, QueueStage, Completed, attempt);
  }

  lemma FinishedErrored(es: seq<Event>, a: nat, cfg: Settings, v: Verdict, attempt: nat)
    ensures SourceErrored(FinishedEvents(es, a, cfg, v), attempt) <==> SourceErrored(es, attempt)
  {
    hide Log, SourceErrored, Notifies;
    var kind := if v.status == Succeeded then Completed else Errored;
    LogErrored(es, a, ReportStage, kind, attempt);
    LogErrored(Log(es, a, ReportStage, kind), a, NotificationStage, Skipped, attempt);
  }

  lemma ClaimedErrored(es: seq<Event>, a: nat, attempt: nat)
    ensures SourceErrored(ClaimedEvents(es, a), attempt) <==> SourceErrored(es, attempt)
  {
    hide Log, SourceErrored;
    LogErrored(es, a, QueueStage, Started, attempt);
    LogErrored(Log(es, a, QueueStage, Started), a, QueueStage, Completed, attempt);
  }

  /** Errored retrieval events come from failed searches that commit, and from nothing else. */
  lemma CommitErrored(db: Tables, tx: Tx, id: Id, attempt: nat)
    requires LogsOk(db)
    ensures SourceErrored(EventsOf(Commit(db, tx), id), attempt) <==>
            SourceErrored(EventsOf(db, id), attempt) || AddsError(db, tx, id, attempt)
  {
    hide Commit, Log, SourceErrored, RowOk, BusinessKeyTaken, LogsOk, AdmittedEvents, FinishedEvents, ClaimedEvents;
    CommitEvents(db, tx, id);
    LogOf(db, id);
    var es := EventsOf(db, id);
    match tx {
      case InsertRunTx(_, _, _, _, _) => NoneErrored(attempt);
      case ClaimRunTx(i, now) => if i == id && ClaimTry(db, i, now).Claimed? { ClaimedErrored(es, db.runs[i].data.attempt + 1, attempt); }
      case RecoverAllTx(_) => if IsRunning(db, id) { LogErrored(es, db.runs[id].data.attempt, QueueStage, Errored, attempt); }
      case WorkerEventTx(r, stage, kind) => LogErrored(es, r.attempt, stage, kind, attempt);
      case WorkerRetrievalTx(r, _, found) => LogErrored(es, r.attempt, RetrievalStage, if found then Completed else Errored, attempt);
      case WorkerFinishTx(r, cfg, v, _, _) => FinishedErrored(es, r.attempt, cfg, v, attempt);
      case NotifyBeginTx(_, a) => LogErrored(es, a, NotificationStage, Started, attempt);
      case NotifyOutcomeTx(_, d) =>
        if id in db.runs {
          LogErrored(es, db.runs[id].data.attempt, NotificationStage, if d.Delivered? then Completed else Errored, attempt);
        }
      case _ =>
    }
  }

  // ------------------------------------------------------------------ the invariant

  /** No retrieval event runs ahead of the run's attempt. */
  ghost predicate NoneAhead(db: Tables, id: Id) {
    forall a: nat | a > AttemptOf(db, id) :: !SourceErrored(EventsOf(db, id), a)
  }

  /** A working owner remembers a failed search exactly when the log has one of its attempt. */
  ghost predicate FailureOk(db: Tables, w: Worker) {
    Owned(db, w.copy) && !w.phase.Failing? && !w.phase.Done? ==>
      (w.sourceFailed <==> SourceErrored(EventsOf(db, w.copy.id), w.copy.attempt))
  }

  /** The number of incidents whose search the worker has recorded. */
  ghost function Searched(w: Worker): nat {
    var n := |w.copy.incidents|;
    match w.phase
    case AtIncident(k) => if k <= n then k else n
    case Searching(k, _) => if k <= n then k else n
    case Qualifying(k, _, _, _) => if k < n then k + 1 else n
    case Citing(k, _, _, _, _, _, _, _) => if k < n then k + 1 else n
    case Judging => n
    case Finishing(_) => n
    case Failing(_) => 0
    case Done => 0
  }

  ghost predicate SearchedOk(db: Tables, w: Worker) {
    forall j | 0 <= j < Searched(w) :: RetrievalRef(w.copy.id, w.copy.attempt, w.copy.incidents[j]) in db.evidence
  }

  /** What an ended run says. */
  ghost predicate EndOk(db: Tables, id: Id)
    requires id in db.runs
  {
    var row, r := db.runs[id], db.runs[id].data;
    Terminal(row.status) ==>
      && (row.status == Succeeded || row.status == Failed)
      && (row.status == Failed <==> r.evidence == SourceUnavailable)
      && (row.status == Failed <==> r.error.Some?)
      && (SourceErrored(EventsOf(db, id), row.attempt) ==> row.status == Failed)
      && (row.status == Succeeded ==>
            forall j | 0 <= j < |r.incidents| :: RetrievalRef(id, row.attempt, r.incidents[j]) in db.evidence)
  }

  ghost predicate Owed(cfg: Settings, row: RunRow) {
    && Terminal(row.status) && cfg.webhook
    && (row.status == Failed || (row.data.score.Some? && cfg.threshold > 0 && row.data.score.value < cfg.threshold))
  }

  ghost predicate NoticeOk(db: Tables, cfg: Settings, id: Id) {
    NotificationKey(id) in db.outbox <==> id in db.runs && Owed(cfg, db.runs[id])
  }

  ghost predicate OutcomesOk(s: System) {
    && (forall id: Id :: NoneAhead(s.db, id) && NoticeOk(s.db, s.settings, id))
    && (forall id | id in s.db.runs :: EndOk(s.db, id))
    && (forall i | i in s.workers :: FailureOk(s.db, s.workers[i]) && SearchedOk(s.db, s.workers[i]))
  }

  // ------------------------------------------------------------- the acting worker

  /** What an action does to the worker's memory of failed searches and to its place. */
  lemma NextMemory(w: Worker, a: Action, s: System)
    requires w.phase.Searching? || HoldsLock(w) ==> w.phase.k < |w.copy.incidents|
    ensures var w', tx := NextWorker(w, a, s), WorkerTx(w, a, s.settings);
            && w'.copy == w.copy
            && (!w'.phase.Failing? && !w'.phase.Done? ==>
                  && !w.phase.Failing? && !w.phase.Done?
                  && (tx.Some? ==> !tx.value.WorkerFinishTx? && Outcome(s.db, w, tx).Committed?)
                  && (w'.sourceFailed <==> w.sourceFailed || (tx.Some? && tx.value.WorkerRetrievalTx? && !tx.value.found))
                  && (tx.Some? && tx.value.WorkerEventTx? ==> tx.value.kind == Errored ==> tx.value.stage != RetrievalStage)
                  && (if tx.Some? && tx.value.WorkerRetrievalTx?
                      then Searched(w') <= Searched(w) + 1 && Searched(w) < |w.copy.incidents| &&
                           tx.value.incident == w.copy.incidents[Searched(w)]
                      else Searched(w') <= Searched(w)))
  {
    hide Eligible, VerdictOf;
  }

  lemma ActedFailure(s: System, w: Worker, a: Action)
    requires LogsOk(s.db) && FailureOk(s.db, w) && CopyOk(s.db, w)
    requires w.phase.Searching? || HoldsLock(w) ==> w.phase.k < |w.copy.incidents|
    ensures FailureOk(ActedDb(s, w, a), NextWorker(w, a, s))
  {
    hide LogsOk, Commit, Legal, IsWorkerTx, WorkerTx, NextWorker, SourceErrored, Searched;
    var tx := WorkerTx(w, a, s.settings);
    NextMemory(w, a, s);
    if tx.Some? {
      WorkerTxLegal(w, a, s.settings);
      WorkerTxShape(w, a, s.settings);
      OwnCommit(s.db, tx.value);
      CommitErrored(s.db, tx.value, w.copy.id, w.copy.attempt);
    }
  }

  lemma WorkerTxShape(w: Worker, a: Action, cfg: Settings)
    requires WorkerTx(w, a, cfg).Some?
    ensures var tx := WorkerTx(w, a, cfg).value;
            tx.WorkerEventTx? || tx.WorkerRetrievalTx? || tx.WorkerCiteTx? || tx.WorkerFinishTx?
  {
  }

  lemma CommitEvidence(db: Tables, tx: Tx)
    ensures db.evidence.Keys <= Commit(db, tx).evidence.Keys
    ensures tx.WorkerRetrievalTx? && RetrievalTry(db, tx.copy, tx.incident).Committed? ==>
              RetrievalRef(tx.copy.id, tx.copy.attempt, tx.incident) in Commit(db, tx).evidence
  {
    hide Log, RowWith, ClaimedRow, FinishedRun, CitingRun, NotifiedRun, EnqueuedRun, RecoveredRun, ClaimedEvents, FinishedEvents,
         AdmittedEvents, Notifies, CitationClash, BusinessKeyTaken, MarkedOutbox, RetryDelay, AlertEvidence;
  }

  lemma ActedSearched(s: System, w: Worker, a: Action)
    requires SearchedOk(s.db, w)
    requires w.phase.Searching? || HoldsLock(w) ==> w.phase.k < |w.copy.incidents|
    ensures SearchedOk(ActedDb(s, w, a), NextWorker(w, a, s))
  {
    hide Commit, WorkerTx, NextWorker, Searched, RetrievalTry;
    var tx := WorkerTx(w, a, s.settings);
    NextMemory(w, a, s);
    StoppedSearched(NextWorker(w, a, s));
    if tx.Some? {
      WorkerTxLegal(w, a, s.settings);
      CommitEvidence(s.db, tx.value);
    }
  }

  lemma StoppedSearched(w: Worker)
    ensures w.phase.Failing? || w.phase.Done? ==> Searched(w) == 0
  {
  }

  // ----------------------------------------------------------------- the other workers

  /** A worker that does not act owns its run afterwards only if it did before, and nobody added to its log. */
  lemma StillOwned(s: System, l: Label, j: nat)
    requires SystemOk(s) && j in s.workers && (l.Act? ==> l.worker != j)
    requires Owned(Step(s, l).db, s.workers[j].copy)
    ensures Owned(s.db, s.workers[j].copy)
    ensures TxOf(s, l).Some? ==> !AddsError(s.db, TxOf(s, l).value, s.workers[j].copy.id, s.workers[j].copy.attempt)
  {
    hide SystemOk, WorkersOk, DistinctAttempts, LogsOk, TxOf, Commit, WorkerOk, KnowledgeInvariants.StateOk, IsWorkerTx, Legal, Step;
    var w := s.workers[j];
    StepDb(s, l);
    SystemLogs(s);
    WorkerOf(s, j);
    WorkerOkFacts(s, w);
    StepIsLegal(s, l);
    if TxOf(s, l).Some? {
      var tx := TxOf(s, l).value;
      if l.Act? {
        ActorIsAnother(s, l, j);
      } else {
        OnlyActsAreWorkers(s, l);
      }
      NotWorkersAddNothing(s.db, tx, w.copy.id, w.copy.attempt);
      CommitBystander(s.db, tx, w.copy.id, w.copy.attempt);
    }
  }

  lemma NotWorkersAddNothing(db: Tables, tx: Tx, id: Id, attempt: nat)
    ensures !IsWorkerTx(tx) ==> !AddsError(db, tx, id, attempt)
    ensures IsWorkerTx(tx) && (tx.copy.id != id || tx.copy.attempt != attempt) ==> !AddsError(db, tx, id, attempt)
  {
  }

  lemma OtherWorker(s: System, l: Label, j: nat)
    requires SystemOk(s) && j in s.workers && (l.Act? ==> l.worker != j)
    requires FailureOk(s.db, s.workers[j]) && SearchedOk(s.db, s.workers[j])
    ensures FailureOk(Step(s, l).db, s.workers[j]) && SearchedOk(Step(s, l).db, s.workers[j])
  {
    hide SystemOk, LogsOk, TxOf, Commit, Step, SourceErrored, Searched, AddsError;
    var w := s.workers[j];
    StepDb(s, l);
    SystemLogs(s);
    if TxOf(s, l).Some? {
      CommitEvidence(s.db, TxOf(s, l).value);
      CommitErrored(s.db, TxOf(s, l).value, w.copy.id, w.copy.attempt);
    }
    if Owned(Step(s, l).db, w.copy) { StillOwned(s, l, j); }
  }

  lemma DeliveredWorker(s: System, id: Id, now: int)
    requires LogsOk(s.db) && NoneAhead(s.db, id) && ClaimTry(s.db, id, now).Claimed?
    ensures var w := Worker(ClaimTry(s.db, id, now).run, AtIncident(0), NoEvidence, false);
            FailureOk(Claim(s.db, id, now), w) && SearchedOk(Claim(s.db, id, now), w)
  {
    hide LogsOk, ClaimedEvents, SourceErrored;
    RowOf(s.db, id);
    var a := s.db.runs[id].data.attempt + 1;
    ClaimedErrored(EventsOf(s.db, id), a, a);
  }

  lemma StepWorkersRemember(s: System, l: Label)
    requires SystemOk(s) && OutcomesOk(s)
    ensures forall i | i in Step(s, l).workers :: FailureOk(Step(s, l).db, Step(s, l).workers[i]) && SearchedOk(Step(s, l).db, Step(s, l).workers[i])
  {
    hide SystemOk, FailureOk, SearchedOk, EndOk, NoticeOk, NoneAhead, Step;
    forall i | i in Step(s, l).workers
      ensures FailureOk(Step(s, l).db, Step(s, l).workers[i]) && SearchedOk(Step(s, l).db, Step(s, l).workers[i])
    {
      if l.Act? && l.worker == i {
        ActedMemory(s, i, l.action);
      } else if i in s.workers {
        OthersStand(s, l, i);
        OtherWorker(s, l, i);
      } else {
        NewWorkerIsDelivered(s, l, i);
        DeliverMoves(s, i, l.id, l.now);
        SystemLogs(s);
        DeliveredWorker(s, l.id, l.now);
      }
    }
  }

  lemma OthersStand(s: System, l: Label, i: nat)
    requires i in s.workers && i in Step(s, l).workers && !(l.Act? && l.worker == i)
    ensures Step(s, l).workers[i] == s.workers[i]
  {
    hide NextDb, NextWorker, NextDispatcher, NextQueue, LockFree;
  }

  lemma NewWorkerIsDelivered(s: System, l: Label, i: nat)
    requires i !in s.workers && i in Step(s, l).workers
    ensures l == Deliver(i, l.id, l.now) && ClaimTry(s.db, l.id, l.now).Claimed?
  {
    hide NextDb, NextWorker, NextDispatcher, NextQueue, LockFree, ClaimTry;
  }

  lemma ActedMemory(s: System, i: nat, a: Action)
    requires SystemOk(s) && OutcomesOk(s) && i in Step(s, Act(i, a)).workers
    ensures var s' := Step(s, Act(i, a)); FailureOk(s'.db, s'.workers[i]) && SearchedOk(s'.db, s'.workers[i])
  {
    hide SystemOk, LogsOk, FailureOk, SearchedOk, EndOk, NoticeOk, NoneAhead, Commit, WorkerTx, NextWorker, NextDispatcher, NextQueue,
         LockFree, CopyOk, CountOk;
    SystemLogs(s);
    assert i in s.workers;
    WorkerFacts(s, i);
    InRange(s, i);
    ActedFailure(s, s.workers[i], a);
    ActedSearched(s, s.workers[i], a);
  }

  lemma InRange(s: System, i: nat)
    requires WorkersOk(s) && i in s.workers
    ensures s.workers[i].phase.Searching? || HoldsLock(s.workers[i]) ==> s.workers[i].phase.k < |s.workers[i].copy.incidents|
  {
    assert WorkerOk(s, s.workers[i]);
  }

  // --------------------------------------------------------------------- the runs

  lemma StepNoneAhead(s: System, l: Label, id: Id)
    requires SystemOk(s) && NoneAhead(s.db, id)
    ensures NoneAhead(Step(s, l).db, id)
  {
    hide SystemOk, LogsOk, Commit, Step, TxOf, SourceErrored, Legal, IsWorkerTx;
    StepDb(s, l);
    SystemLogs(s);
    if id in s.db.runs { StepAdvances(s, l, id); }
    if TxOf(s, l).Some? {
      var tx := TxOf(s, l).value;
      forall a: nat | a > AttemptOf(Step(s, l).db, id) ensures !SourceErrored(EventsOf(Step(s, l).db, id), a) {
        CommitErrored(s.db, tx, id, a);
        AddedIsCurrent(s.db, tx, id, a);
      }
    }
  }

  lemma AddedIsCurrent(db: Tables, tx: Tx, id: Id, attempt: nat)
    ensures AddsError(db, tx, id, attempt) ==> id in db.runs && db.runs[id].attempt == attempt && db.runs[id].status == Running
  {
  }

  /** A run that had ended keeps what it says. */
  lemma EndedKeeps(db: Tables, tx: Tx, id: Id)
    requires LogsOk(db) && Legal(tx) && id in db.runs && EndOk(db, id) && Terminal(db.runs[id].status)
    ensures id in Commit(db, tx).runs && EndOk(Commit(db, tx), id)
  {
    hide LogsOk, Commit, Legal, IsWorkerTx, SourceErrored, RowAfter, SamePublication;
    CommitRow(db, tx, id);
    EndedRow(db, tx, id);
    CommitEvidence(db, tx);
    CommitErrored(db, tx, id, db.runs[id].attempt);
    AddedIsCurrent(db, tx, id, db.runs[id].attempt);
  }

  lemma EndedRow(db: Tables, tx: Tx, id: Id)
    requires LogsOk(db) && Legal(tx) && id in db.runs && Terminal(db.runs[id].status)
    ensures var row, row' := db.runs[id], RowAfter(db, tx, id);
            && row'.status == row.status && row'.attempt == row.attempt && row'.data.evidence == row.data.evidence
            && row'.data.error == row.data.error && row'.data.incidents == row.data.incidents && row'.data.score == row.data.score
  {
    hide LogsOk, Notifies;
    RowOf(db, id);
  }

  /** A run ends only by its owner's finish. */
  lemma EndsByFinish(db: Tables, tx: Tx, id: Id)
    requires LogsOk(db) && id in db.runs && !Terminal(db.runs[id].status) && Terminal(RowAfter(db, tx, id).status)
    ensures tx.WorkerFinishTx? && tx.copy.id == id && Owned(db, tx.copy)
  {
    hide LogsOk, Notifies;
    RowOf(db, id);
  }

  /** The verdict an owner publishes tells its failed searches. */
  lemma PublishedEnd(s: System, w: Worker, a: Action)
    requires LogsOk(s.db) && FailureOk(s.db, w) && SearchedOk(s.db, w) && CopyOk(s.db, w) && CountOk(s.db, w)
    requires Owned(s.db, w.copy) && WorkerTx(w, a, s.settings).Some? && WorkerTx(w, a, s.settings).value.WorkerFinishTx?
    ensures w.copy.id in ActedDb(s, w, a).runs && EndOk(ActedDb(s, w, a), w.copy.id)
  {
    hide LogsOk, Commit, SourceErrored, Notifies, HasCited;
    var tx := WorkerTx(w, a, s.settings).value;
    CommitRow(s.db, tx, w.copy.id);
    CommitEvidence(s.db, tx);
    CommitErrored(s.db, tx, w.copy.id, w.copy.attempt);
  }

  lemma StepEnds(s: System, l: Label, id: Id)
    requires SystemOk(s) && OutcomesOk(s) && id in Step(s, l).db.runs
    ensures EndOk(Step(s, l).db, id)
  {
    hide SystemOk, LogsOk, Commit, Step, TxOf, EndOk, NoticeOk, NoneAhead, FailureOk, SearchedOk, Legal, IsWorkerTx, CopyOk, CountOk,
         RowAfter;
    StepDb(s, l);
    SystemLogs(s);
    StepIsLegal(s, l);
    if TxOf(s, l).Some? {
      var tx := TxOf(s, l).value;
      if id !in s.db.runs {
        NewRunIsOpen(s.db, tx, id);
      } else if Terminal(s.db.runs[id].status) {
        EndedKeeps(s.db, tx, id);
      } else {
        CommitRow(s.db, tx, id);
        if Terminal(RowAfter(s.db, tx, id).status) {
          EndsByFinish(s.db, tx, id);
          FinishIsActed(s, l);
          WorkerFacts(s, l.worker);
          PublishedEnd(s, s.workers[l.worker], l.action);
        } else {
          OpenIsOk(Step(s, l).db, id);
        }
      }
    }
  }

  lemma OpenIsOk(db: Tables, id: Id)
    requires id in db.runs && !Terminal(db.runs[id].status)
    ensures EndOk(db, id)
  {
  }

  lemma NewRunIsOpen(db: Tables, tx: Tx, id: Id)
    requires id !in db.runs && id in Commit(db, tx).runs
    ensures !Terminal(Commit(db, tx).runs[id].status) && EndOk(Commit(db, tx), id)
  {
    hide Log, ClaimedRow, FinishedRun, AdmittedEvents, FinishedEvents, ClaimedEvents, Notifies, CitationClash, BusinessKeyTaken,
         MarkedOutbox, RetryDelay, AlertEvidence, SourceErrored;
  }

  lemma FinishIsActed(s: System, l: Label)
    requires TxOf(s, l).Some? && TxOf(s, l).value.WorkerFinishTx?
    ensures l.Act? && l.worker in s.workers && WorkerTx(s.workers[l.worker], l.action, s.settings) == TxOf(s, l)
    ensures TxOf(s, l).value.copy == s.workers[l.worker].copy && TxOf(s, l).value.cfg == s.settings
  {
    hide VerdictOf;
  }

  /**
   What a worker that owns its run publishes: its text, score, instant and duration, and a verdict by whether a search
   failed. The citations stay the row's, and the rest of the run is the copy the worker claimed.
   */
  lemma PublishWrites(s: System, i: nat, text: string, now: int, elapsed: int)
    requires i in s.workers && s.workers[i].phase.Finishing? && Owned(s.db, s.workers[i].copy)
    ensures var w, s' := s.workers[i], Step(s, Act(i, Publish(text, now, elapsed)));
            && w.copy.id in s'.db.runs
            && (var before, r := s.db.runs[w.copy.id].data, s'.db.runs[w.copy.id].data;
                && r.report == Some(text) && r.score == w.phase.score && r.finishedAt == Some(now) && r.durationMs == Some(elapsed)
                && (if w.sourceFailed then r.status == Failed && r.evidence == SourceUnavailable && r.error.Some?
                    else r.status == Succeeded && r.evidence == w.state && r.error.None?)
                && r.citations == before.citations && r.revision == before.revision + 1
                && r.dispatch == w.copy.dispatch && r.attempt == w.copy.attempt && r.incidents == w.copy.incidents
                && r.startedAt == w.copy.startedAt && r.receivedAt == w.copy.receivedAt)
  {
    hide Step, FinishedEvents, Notifies;
    StepDb(s, Act(i, Publish(text, now, elapsed)));
  }

  /** A publication logs its report, completed or errored, and a skipped notice exactly when it owes none. */
  lemma PublishLogs(s: System, i: nat, text: string, now: int, elapsed: int)
    requires i in s.workers && s.workers[i].phase.Finishing? && Owned(s.db, s.workers[i].copy)
    ensures var w, s' := s.workers[i], Step(s, Act(i, Publish(text, now, elapsed)));
            var es, es' := EventsOf(s.db, w.copy.id), EventsOf(s'.db, w.copy.id);
            var score := w.phase.score;
            var owed := s.settings.webhook &&
                        (w.sourceFailed || (score.Some? && s.settings.threshold > 0 && score.value < s.settings.threshold));
            && |es'| == |es| + (if owed then 1 else 2) && es'[..|es|] == es
            && es'[|es|].stage == ReportStage && es'[|es|].kind == (if w.sourceFailed then Errored else Completed)
            && es'[|es|].attempt == w.copy.attempt
            && (!owed ==> es'[|es| + 1].stage == NotificationStage && es'[|es| + 1].kind == Skipped)
  {
    hide Step, Log;
    StepDb(s, Act(i, Publish(text, now, elapsed)));
    var w := s.workers[i];
    var es, kind := EventsOf(s.db, w.copy.id), if w.sourceFailed then Errored else Completed;
    LogAdds(es, w.copy.attempt, ReportStage, kind);
    LogAdds(Log(es, w.copy.attempt, ReportStage, kind), w.copy.attempt, NotificationStage, Skipped);
  }

  lemma LogAdds(es: seq<Event>, attempt: nat, stage: Stage, kind: EventKind)
    ensures var es' := Log(es, attempt, stage, kind);
            && |es'| == |es| + 1 && es'[..|es|] == es && (forall i | 0 <= i < |es| :: es'[i] == es[i])
            && es'[|es|].stage == stage && es'[|es|].kind == kind && es'[|es|].attempt == attempt
  {
    hide MaxSequence, CountEvents;
  }

  /** A worker that gave up publishes the failure, with its error, and no score. */
  lemma FailureWrites(s: System, i: nat, now: int, elapsed: int)
    requires i in s.workers && s.workers[i].phase.Failing? && Owned(s.db, s.workers[i].copy)
    ensures var w, s' := s.workers[i], Step(s, Act(i, PublishFailure(now, elapsed)));
            && w.copy.id in s'.db.runs
            && (var before, r := s.db.runs[w.copy.id].data, s'.db.runs[w.copy.id].data;
                && r.status == Failed && r.evidence == SourceUnavailable && r.error == Some(w.phase.error) && r.score == None
                && r.report == Some(SafeReport) && r.finishedAt == Some(now) && r.durationMs == Some(elapsed)
                && r.citations == before.citations && r.revision == before.revision + 1)
  {
    hide Step, FinishedEvents, Notifies;
    StepDb(s, Act(i, PublishFailure(now, elapsed)));
  }

  /** The score a judge gave is the score that is published; a judge that failed, or was skipped, gives none. */
  lemma ScoreIsPublished(s: System, i: nat, judged: bool, score: Option<int>, text: string, now: int, elapsed: int)
    requires i in s.workers && Owned(s.db, s.workers[i].copy)
    requires if judged then s.workers[i].phase.Judging?
             else s.workers[i].phase.AtIncident? && s.workers[i].phase.k >= |s.workers[i].copy.incidents|
    ensures var id := s.workers[i].copy.id;
            var s' := Step(Step(s, Act(i, if judged then EndJudge(score) else SkipJudge)), Act(i, Publish(text, now, elapsed)));
            id in s'.db.runs && s'.db.runs[id].data.report == Some(text) &&
            s'.db.runs[id].data.score == if judged then score else None
  {
    hide Step, Log, FinishedEvents, Notifies, Eligible;
    var a := if judged then EndJudge(score) else SkipJudge;
    var s1 := Step(s, Act(i, a));
    StepDb(s, Act(i, a));
    JudgedMoves(s, i, judged, score);
    PublishWrites(s1, i, text, now, elapsed);
  }

  lemma JudgedMoves(s: System, i: nat, judged: bool, score: Option<int>)
    requires i in s.workers && Owned(s.db, s.workers[i].copy)
    requires if judged then s.workers[i].phase.Judging?
             else s.workers[i].phase.AtIncident? && s.workers[i].phase.k >= |s.workers[i].copy.incidents|
    ensures var s1 := Step(s, Act(i, if judged then EndJudge(score) else SkipJudge));
            && s1.db.runs == s.db.runs && i in s1.workers && s1.workers[i].copy == s.workers[i].copy
            && s1.workers[i].phase == Finishing(if judged then score else None)
  {
    hide LockFree, NextDispatcher, NextQueue, Log;
  }

  /** An owner's qualified hit is cited: its row, its evidence with the chunk, and its place in the run's list. */
  lemma QualifiedHitIsCited(s: System, i: nat)
    requires SystemOk(s) && i in s.workers && s.workers[i].phase.Citing? && s.workers[i].phase.ok && Owned(s.db, s.workers[i].copy)
    ensures var w, s' := s.workers[i], Step(s, Act(i, CommitHit));
            && w.phase.k < |w.copy.incidents| && w.copy.id in s'.db.runs
            && (var incident := w.copy.incidents[w.phase.k];
                var ev, key := ChunkRef(w.copy.id, w.copy.attempt, incident, w.phase.chunkId), CitationKey(w.copy.id, incident, w.phase.chunkId);
                && s'.db.runs[w.copy.id].data.citations == s.db.runs[w.copy.id].data.citations + [ev]
                && key in s'.db.citations
                && s'.db.citations[key] == CitationRow(RetrievalRef(w.copy.id, w.copy.attempt, incident), ev)
                && ev in s'.db.evidence
                && (ev !in s.db.evidence ==>
                      s'.db.evidence[ev] == EvidenceRow(w.copy.id, Some(incident), Some(w.copy.attempt), Some(w.phase.chunk))))
  {
    hide SystemOk, Step, LogsOk, EvidenceOk, CiteTx, CitesOk, WorkersOk;
    SystemTables(s);
    InRange(s, i);
    StepDb(s, Act(i, CommitHit));
    var w := s.workers[i];
    CiteDoes(s.db, w.copy, w.copy.incidents[w.phase.k], w.phase.chunkId, w.phase.chunk);
  }

  lemma CiteDoes(db: Tables, r: Run, incident: Id, id: ChunkId, chunk: Chunk)
    requires LogsOk(db) && CitesOk(db) && Owned(db, r)
    ensures var db' := CiteTx(db, r, incident, id, chunk);
            var ev, key := ChunkRef(r.id, r.attempt, incident, id), CitationKey(r.id, incident, id);
            && r.id in db'.runs && db'.runs[r.id].data.citations == db.runs[r.id].data.citations + [ev]
            && key in db'.citations && db'.citations[key] == CitationRow(RetrievalRef(r.id, r.attempt, incident), ev)
            && ev in db'.evidence
            && (ev !in db.evidence ==> db'.evidence[ev] == EvidenceRow(r.id, Some(incident), Some(r.attempt), Some(chunk)))
  {
    hide LogsOk, CitesOk, CitationClash;
    RowOf(db, r.id);
    ClashIsOwn(db, r, incident, id);
  }

  lemma SystemTables(s: System)
    requires SystemOk(s)
    ensures LogsOk(s.db) && CitesOk(s.db) && WorkersOk(s)
  {
  }

  lemma ClashIsOwn(db: Tables, r: Run, incident: Id, chunk: ChunkId)
    requires LogsOk(db) && CitesOk(db) && Owned(db, r)
    ensures var ev, key := ChunkRef(r.id, r.attempt, incident, chunk), CitationKey(r.id, incident, chunk);
            CitationClash(db, key, ev) ==> key in db.citations && db.citations[key] == CitationRow(RetrievalRef(r.id, r.attempt, incident), ev)
  {
    hide LogsOk;
    RowOf(db, r.id);
    var ev, key := ChunkRef(r.id, r.attempt, incident, chunk), CitationKey(r.id, incident, chunk);
    if k :| k in db.citations && db.citations[k].evidence == ev {
      assert CitationOk(db, k);
      assert k == key;
    }
    if key in db.citations { assert CitationOk(db, key); }
  }

  /** A delivered notice is sent; one that was not is pending again, or failed with its row dead after the last attempt. */
  lemma NoticeOutcome(s: System, id: Id, d: Delivery)
    requires id in s.db.runs
    ensures var s', key := Step(s, EndNotify(id, d)), NotificationKey(id);
            && id in s'.db.runs
            && (var before, r := s.db.runs[id].data, s'.db.runs[id].data;
                && (r.notification == NotifySent <==> d == Delivered)
                && (r.notification == NotifyPending <==> d == Undelivered)
                && (r.notification == NotifyFailed <==> d == LastAttemptUndelivered)
                && r == before.(notification := r.notification, revision := before.revision + 1))
            && (key in s.db.outbox ==>
                  s'.db.outbox == if d == LastAttemptUndelivered
                                  then s.db.outbox[key := s.db.outbox[key].(state := Dead)] else s.db.outbox)
  {
    hide LockFree, NextWorkers, NextDispatcher, NextQueue, Log;
  }

  /** The mark after an accepted offer sends the row, which is then no longer due, and enqueues its run. */
  lemma MarkSends(s: System)
    requires s.dispatcher.batch != [] && s.dispatcher.accepted && s.dispatcher.batch[0].key in s.db.outbox
    requires s.dispatcher.batch[0].key.DiagnosisKey? ==> s.dispatcher.batch[0].key.run in s.db.runs
    ensures var key, s' := s.dispatcher.batch[0].key, Step(s, MarkSent);
            && s'.db.outbox == s.db.outbox[key := s.db.outbox[key].(state := Sent, attempts := s.db.outbox[key].attempts + 1)]
            && (forall now :: !Due(s'.db, key, now))
            && (key.DiagnosisKey? ==> key.run in s'.db.runs && s'.db.runs[key.run].data.dispatch == DispatchState.Enqueued)
            && s'.dispatcher.batch == s.dispatcher.batch[1..]
  {
    hide LockFree, NextWorkers, NextQueue;
  }

  // -------------------------------------------------------------------- the notices

  /** A notice row appears with a finish that calls for it, and stays. */
  lemma CommitNotices(db: Tables, tx: Tx, id: Id)
    ensures NotificationKey(id) in Commit(db, tx).outbox <==>
            NotificationKey(id) in db.outbox ||
            (tx.WorkerFinishTx? && tx.copy.id == id && Owned(db, tx.copy) && tx.cfg.webhook &&
             (tx.v.status == Failed || (tx.v.score.Some? && tx.cfg.threshold > 0 && tx.v.score.value < tx.cfg.threshold)))
  {
    hide Log, RowWith, ClaimedRow, FinishedRun, CitingRun, NotifiedRun, EnqueuedRun, RecoveredRun, ClaimedEvents, FinishedEvents,
         AdmittedEvents, CitationClash, BusinessKeyTaken, RetryDelay, AlertEvidence;
  }

  lemma StepNotices(s: System, l: Label, id: Id)
    requires SystemOk(s) && NoticeOk(s.db, s.settings, id)
    ensures NoticeOk(Step(s, l).db, Step(s, l).settings, id)
  {
    hide SystemOk, LogsOk, Commit, Step, TxOf, Legal, IsWorkerTx, RowAfter;
    StepDb(s, l);
    SettingsStay(s, l);
    SystemLogs(s);
    StepIsLegal(s, l);
    if TxOf(s, l).Some? {
      var tx := TxOf(s, l).value;
      CommitNotices(s.db, tx, id);
      if tx.WorkerFinishTx? { FinishIsActed(s, l); }
      if id in s.db.runs {
        CommitRow(s.db, tx, id);
        NoticeRow(s.db, tx, id, s.settings);
      } else if id in Commit(s.db, tx).runs {
        NewRunIsOpen(s.db, tx, id);
      }
    }
  }

  lemma SettingsStay(s: System, l: Label)
    ensures Step(s, l).settings == s.settings
  {
    hide NextDb, NextWorkers, NextDispatcher, NextQueue, LockFree;
  }

  lemma NoticeRow(db: Tables, tx: Tx, id: Id, cfg: Settings)
    requires LogsOk(db) && Legal(tx) && id in db.runs && (tx.WorkerFinishTx? ==> tx.cfg == cfg)
    ensures Owed(cfg, RowAfter(db, tx, id)) <==>
            Owed(cfg, db.runs[id]) ||
            (tx.WorkerFinishTx? && tx.copy.id == id && Owned(db, tx.copy) && cfg.webhook &&
             (tx.v.status == Failed || (tx.v.score.Some? && cfg.threshold > 0 && tx.v.score.value < cfg.threshold)))
  {
    hide LogsOk, Notifies;
    RowOf(db, id);
  }

  // ----------------------------------------------------------------- every reachable state

  lemma StepOutcomes(s: System, l: Label)
    requires SystemOk(s) && OutcomesOk(s)
    ensures OutcomesOk(Step(s, l))
  {
    hide SystemOk, Step, EndOk, NoticeOk, NoneAhead, FailureOk, SearchedOk;
    StepWorkersRemember(s, l);
    forall id: Id ensures NoneAhead(Step(s, l).db, id) && NoticeOk(Step(s, l).db, Step(s, l).settings, id) {
      StepNoneAhead(s, l, id);
      StepNotices(s, l, id);
    }
    forall id | id in Step(s, l).db.runs ensures EndOk(Step(s, l).db, id) { StepEnds(s, l, id); }
  }

  lemma {:induction false} ReachableOutcomes(s: System, ls: seq<Label>)
    requires SystemOk(s) && OutcomesOk(s)
    ensures OutcomesOk(After(s, ls)) && After(s, ls).settings == s.settings
    decreases |ls|
  {
    hide SystemOk, OutcomesOk, Step;
    if ls != [] {
      var t := After(s, ls[..|ls| - 1]);
      ReachableOutcomes(s, ls[..|ls| - 1]);
      ReachableOk(s, ls[..|ls| - 1]);
      StepOutcomes(t, ls[|ls| - 1]);
      SettingsStay(t, ls[|ls| - 1]);
    }
  }

  lemma InitialOutcomes(s: System)
    requires Initial(s)
    ensures OutcomesOk(s)
  {
    hide SourceErrored;
    forall id: Id ensures NoneAhead(s.db, id) {
      forall a: nat ensures !SourceErrored(EventsOf(s.db, id), a) { NoneErrored(a); }
    }
  }

  /**
   In every reachable state, a run that has ended succeeded or failed; it failed exactly when it says that a source
   was unavailable, and exactly when it has an error; and it failed if its log has an errored search of its attempt.
   So a run succeeded only if no search of its attempt failed.
   */
  lemma SourceFailureIsPublished(s: System, ls: seq<Label>, id: Id)
    requires SystemOk(s) && OutcomesOk(s)
    ensures var db := After(s, ls).db;
            id in db.runs && Terminal(db.runs[id].status) ==>
              var row, es := db.runs[id], EventsOf(db, id);
              && row.status in {Succeeded, Failed}
              && (row.status == Failed <==> row.data.evidence == SourceUnavailable)
              && (row.status == Failed <==> row.data.error.Some?)
              && ((exists i | 0 <= i < |es| ::
                     es[i].stage == RetrievalStage && es[i].kind == Errored && es[i].attempt == row.attempt) ==> row.status == Failed)
  {
    hide SystemOk, After, NoticeOk, NoneAhead, FailureOk, SearchedOk;
    ReachableOutcomes(s, ls);
  }

  /** In every reachable state, every incident of a succeeded run has a search recorded under the run's attempt. */
  lemma EveryIncidentSearched(s: System, ls: seq<Label>, id: Id, incident: Id)
    requires SystemOk(s) && OutcomesOk(s)
    ensures var db := After(s, ls).db;
            id in db.runs && db.runs[id].status == Succeeded && incident in db.runs[id].data.incidents ==>
              RetrievalRef(id, db.runs[id].attempt, incident) in db.evidence
  {
    hide SystemOk, After, NoticeOk, NoneAhead, FailureOk, SearchedOk, SourceErrored;
    ReachableOutcomes(s, ls);
  }

  /**
   In every reachable state, a notice row exists for a run exactly when the run has ended, a webhook is set, and the
   run failed or was scored under a positive threshold.
   */
  lemma NoticeIsOwed(s: System, ls: seq<Label>, id: Id)
    requires SystemOk(s) && OutcomesOk(s)
    ensures var db, cfg := After(s, ls).db, s.settings;
            NotificationKey(id) in db.outbox <==>
            && id in db.runs && db.runs[id].status in {Succeeded, Failed, Cancelled} && cfg.webhook
            && (db.runs[id].status == Failed ||
                (db.runs[id].data.score.Some? && cfg.threshold > 0 && db.runs[id].data.score.value < cfg.threshold))
  {
    hide SystemOk, After, EndOk, NoneAhead, FailureOk, SearchedOk, SourceErrored;
    ReachableOutcomes(s, ls);
    assert NoticeOk(After(s, ls).db, After(s, ls).settings, id);
  }
}
