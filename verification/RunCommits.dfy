/**
 The transactions of the run protocol as one type, and what every commit keeps and advances.
 */
module RunCommits {
  import opened Records
  import opened RunTables
  import opened RunInvariants

  datatype Tx =
    | InsertRunTx(id: Id, incidents: seq<Id>, business: BusinessKey, alerts: seq<string>, now: int)
    | ClaimRunTx(id: Id, now: int)
    | RecoverAllTx(now: int)
    | WorkerEventTx(copy: Run, stage: Stage, kind: EventKind)
    | WorkerRetrievalTx(copy: Run, incident: Id, found: bool)
    | WorkerCiteTx(copy: Run, incident: Id, chunkId: ChunkId, chunk: Chunk)
    | WorkerFinishTx(copy: Run, cfg: Settings, v: Verdict, now: int, elapsed: int)
    | SentTx(key: OutboxKey)
    | PostponeTx(key: OutboxKey, attempts: nat, now: int)
    | NotifyBeginTx(id: Id, attempt: nat)
    | NotifyOutcomeTx(id: Id, d: Delivery)

  function Commit(db: Tables, tx: Tx): Tables {
    match tx
    case InsertRunTx(id, incidents, business, alerts, now) => InsertRun(db, id, incidents, business, alerts, now)
    case ClaimRunTx(id, now) => Claim(db, id, now)
    case RecoverAllTx(now) => Recover(db, now)
    case WorkerEventTx(r, stage, kind) => EventTx(db, r, stage, kind)
    case WorkerRetrievalTx(r, incident, found) => RetrievalTx(db, r, incident, found)
    case WorkerCiteTx(r, incident, id, chunk) => CiteTx(db, r, incident, id, chunk)
    case WorkerFinishTx(r, cfg, v, now, elapsed) => FinishTx(db, cfg, r, v, now, elapsed)
    case SentTx(key) => MarkSentTx(db, key)
    case PostponeTx(key, attempts, now) => RetryTx(db, key, attempts, now)
    case NotifyBeginTx(id, attempt) => NotifyStartTx(db, id, attempt)
    case NotifyOutcomeTx(id, d) => NotifyEndTx(db, id, d)
  }

  predicate IsWorkerTx(tx: Tx) {
    tx.WorkerEventTx? || tx.WorkerRetrievalTx? || tx.WorkerCiteTx? || tx.WorkerFinishTx?
  }

  /** Workers write retrieval and judge events of their own, and finish with a terminal status. */
  predicate Legal(tx: Tx) {
    match tx
    case WorkerEventTx(_, stage, _) => stage == RetrievalStage || stage == JudgeStage
    case WorkerFinishTx(_, _, v, _, _) => Terminal(v.status)
    case _ => true
  }

  // ------------------------------------------------------------ invariants kept

  lemma CommitKeepsLogs(db: Tables, tx: Tx)
    requires LogsOk(db) && Legal(tx)
    ensures LogsOk(Commit(db, tx))
  {
    hide LogsOk, Recover, Claim, FinishTx, NotifyEndTx, InsertRun, Log, Notifies, CitationClash;
    match tx {
      case InsertRunTx(id, incidents, business, alerts, now) => InsertLogs(db, id, incidents, business, alerts, now);
      case ClaimRunTx(id, now) => ClaimLogs(db, id, now);
      case RecoverAllTx(now) => RecoverLogs(db, now);
      case WorkerEventTx(r, stage, kind) =>
        if Owned(db, r) { SideEventLogs(db, Commit(db, tx), r.id, r.attempt, stage, kind); }
      case WorkerRetrievalTx(r, incident, found) =>
        if RetrievalTry(db, r, incident).Committed? {
          SideEventLogs(db, Commit(db, tx), r.id, r.attempt, RetrievalStage, if found then Completed else Errored);
        }
      case WorkerCiteTx(r, incident, id, chunk) =>
        if Owned(db, r) {
          RowOf(db, r.id);
          SaveLogs(db, Commit(db, tx), r.id, CitingRun(db.runs[r.id].data, ChunkRef(r.id, r.attempt, incident, id)));
        }
      case WorkerFinishTx(r, cfg, v, now, elapsed) => FinishLogs(db, cfg, r, v, now, elapsed);
      case SentTx(key) =>
        if key.DiagnosisKey? && key.run in db.runs {
          RowOf(db, key.run);
          SaveLogs(db, Commit(db, tx), key.run, EnqueuedRun(db.runs[key.run].data));
        } else {
          SameLogs(db, Commit(db, tx));
        }
      case PostponeTx(key, attempts, now) => SameLogs(db, Commit(db, tx));
      case NotifyBeginTx(id, attempt) =>
        if id in db.runs { SideEventLogs(db, Commit(db, tx), id, attempt, NotificationStage, Started); }
      case NotifyOutcomeTx(id, d) => NotifyEndLogs(db, id, d);
    }
  }

  lemma SameLogs(db: Tables, db': Tables)
    requires LogsOk(db) && db'.runs == db.runs && db'.events == db.events
    ensures LogsOk(db')
  {
  }

  lemma FinishCites(db: Tables, r: Run, cfg: Settings, v: Verdict, now: int, elapsed: int)
    requires LogsOk(db) && CitesOk(db) && Terminal(v.status)
    ensures CitesOk(FinishTx(db, cfg, r, v, now, elapsed))
  {
    hide CitesOk, LogsOk, FinishedEvents, Notifies;
    if Owned(db, r) {
      RowOf(db, r.id);
      CitesFrame(db, FinishTx(db, cfg, r, v, now, elapsed));
    }
  }

  lemma RecoverCites(db: Tables, now: int)
    requires LogsOk(db) && CitesOk(db)
    ensures CitesOk(Recover(db, now))
  {
    hide CitesOk, LogsOk, Log;
    forall id | id in db.runs ensures CitingAttempt(Recover(db, now).runs[id]) == CitingAttempt(db.runs[id]) {
      RowOf(db, id);
    }
    CitesFrame(db, Recover(db, now));
  }

  lemma InsertCites(db: Tables, id: Id, incidents: seq<Id>, business: BusinessKey, alerts: seq<string>, now: int)
    requires CitesOk(db)
    ensures CitesOk(InsertRun(db, id, incidents, business, alerts, now))
  {
    hide CitesOk, AlertEvidence, AdmittedEvents, BusinessKeyTaken;
    CitesFrame(db, InsertRun(db, id, incidents, business, alerts, now));
  }

  lemma EnqueuedCites(row: RunRow)
    ensures var row' := RowWith(row, EnqueuedRun(row.data));
            row'.data.citations == row.data.citations && CitingAttempt(row') == CitingAttempt(row)
  {
  }

  lemma SentCites(db: Tables, key: OutboxKey)
    requires CitesOk(db)
    ensures CitesOk(MarkSentTx(db, key))
  {
    hide CitesOk, MarkedOutbox, RowWith, EnqueuedRun, CitingAttempt;
    if key.DiagnosisKey? && key.run in db.runs { EnqueuedCites(db.runs[key.run]); }
    CitesFrame(db, MarkSentTx(db, key));
  }

  lemma NotifyOutcomeCites(db: Tables, id: Id, d: Delivery)
    requires CitesOk(db)
    ensures CitesOk(NotifyEndTx(db, id, d))
  {
    hide CitesOk, Log;
    CitesFrame(db, NotifyEndTx(db, id, d));
  }

  lemma QuietCites(db: Tables, db': Tables)
    requires CitesOk(db)
    requires db'.runs == db.runs && db'.citations == db.citations && db.evidence.Keys <= db'.evidence.Keys
    ensures CitesOk(db')
  {
    hide CitesOk;
    CitesFrame(db, db');
  }

  lemma CommitKeepsCites(db: Tables, tx: Tx)
    requires LogsOk(db) && CitesOk(db) && Legal(tx)
    ensures CitesOk(Commit(db, tx))
  {
    hide CitesOk, LogsOk, InsertRun, Claim, CiteTx, FinishTx, Recover, MarkSentTx, NotifyEndTx, Log;
    match tx {
      case InsertRunTx(id, incidents, business, alerts, now) => InsertCites(db, id, incidents, business, alerts, now);
      case ClaimRunTx(id, now) => ClaimCites(db, id, now);
      case WorkerCiteTx(r, incident, id, chunk) =>
        if Owned(db, r) { CiteCites(db, r, incident, id, chunk); } else { FencedCommitsNothing(db, tx); }
      case WorkerFinishTx(r, cfg, v, now, elapsed) => FinishCites(db, r, cfg, v, now, elapsed);
      case RecoverAllTx(now) => RecoverCites(db, now);
      case SentTx(key) => SentCites(db, key);
      case NotifyOutcomeTx(id, d) => NotifyOutcomeCites(db, id, d);
      case _ => QuietCites(db, Commit(db, tx));
    }
  }

  lemma CommitKeepsEvidence(db: Tables, tx: Tx)
    requires EvidenceOk(db)
    ensures EvidenceOk(Commit(db, tx))
  {
    hide Log;
  }

  lemma CommitKeepsOutbox(db: Tables, tx: Tx)
    requires OutboxOk(db)
    ensures OutboxOk(Commit(db, tx))
  {
    hide Log;
  }

  /** Every transaction of the protocol, committed or refused, keeps the tables in order. */
  lemma CommitKeeps(db: Tables, tx: Tx)
    requires TablesOk(db) && Legal(tx)
    ensures TablesOk(Commit(db, tx))
  {
    hide LogsOk, CitesOk, EvidenceOk, OutboxOk, Commit;
    CommitKeepsLogs(db, tx);
    CommitKeepsCites(db, tx);
    CommitKeepsEvidence(db, tx);
    CommitKeepsOutbox(db, tx);
  }

  // ---------------------------------------------------------- what only advances

  /** What a report publishes about a run. */
  ghost predicate SamePublication(r: Run, r': Run) {
    && r'.status == r.status
    && r'.evidence == r.evidence
    && r'.report == r.report
    && r'.score == r.score
    && r'.error == r.error
    && r'.attempt == r.attempt
    && r'.citations == r.citations
    && r'.finishedAt == r.finishedAt
    && r'.durationMs == r.durationMs
  }

  /** How a commit may change one run's row. */
  ghost predicate Advances(row: RunRow, row': RunRow) {
    && row'.business == row.business
    && row'.attempt >= row.attempt
    && (row' == row || row'.revision == row.revision + 1)
    && (row'.status == Queued && row.status != Queued ==> row'.attempt > row.attempt)
    && (Terminal(row.status) ==> SamePublication(row.data, row'.data))
  }

  /** The row of one run after a commit, without the rest of the tables. */
  ghost function RowAfter(db: Tables, tx: Tx, id: Id): RunRow
    requires id in db.runs
  {
    var row := db.runs[id];
    match tx
    case ClaimRunTx(i, now) => if i == id && ClaimTry(db, i, now).Claimed? then ClaimedRow(row, now) else row
    case RecoverAllTx(_) => if row.status == Running then RowWith(row, RecoveredRun(row.data)) else row
    case WorkerCiteTx(r, incident, chunk, _) =>
      if r.id == id && Owned(db, r) then RowWith(row, CitingRun(row.data, ChunkRef(id, r.attempt, incident, chunk))) else row
    case WorkerFinishTx(r, cfg, v, now, elapsed) =>
      if r.id == id && Owned(db, r) then RowWith(row, FinishedRun(r, row.data, cfg, v, now, elapsed)) else row
    case SentTx(key) => if key == DiagnosisKey(id) then RowWith(row, EnqueuedRun(row.data)) else row
    case NotifyOutcomeTx(i, d) => if i == id then RowWith(row, NotifiedRun(row.data, d)) else row
    case _ => row
  }

  lemma CommitRow(db: Tables, tx: Tx, id: Id)
    requires id in db.runs
    ensures id in Commit(db, tx).runs && Commit(db, tx).runs[id] == RowAfter(db, tx, id)
  {
    hide Log, RowWith, ClaimedRow, FinishedRun, CitingRun, NotifiedRun, EnqueuedRun, RecoveredRun, ClaimedEvents, FinishedEvents,
         Notifies, CitationClash, BusinessKeyTaken, AlertEvidence, MarkedOutbox, RetryDelay;
  }

  lemma CommitAdvances(db: Tables, tx: Tx, id: Id)
    requires LogsOk(db) && Legal(tx) && id in db.runs
    ensures id in Commit(db, tx).runs && Advances(db.runs[id], Commit(db, tx).runs[id])
  {
    hide LogsOk, Commit, Notifies;
    RowOf(db, id);
    CommitRow(db, tx, id);
  }

  lemma LogGrows(es: seq<Event>, attempt: nat, stage: Stage, kind: EventKind)
    ensures es < Log(es, attempt, stage, kind)
  {
  }

  /** The event log of a run is append-only. */
  lemma CommitKeepsEvents(db: Tables, tx: Tx, id: Id)
    requires db.events.Keys == db.runs.Keys
    ensures EventsOf(db, id) <= EventsOf(Commit(db, tx), id)
  {
    hide Log, Notifies;
    forall es, attempt, stage, kind ensures es < Log(es, attempt, stage, kind) { LogGrows(es, attempt, stage, kind); }
  }

  /** The events of one run after a commit, without the rest of the tables. */
  ghost function EventsAfter(db: Tables, tx: Tx, id: Id): seq<Event> {
    var es := EventsOf(db, id);
    match tx
    case InsertRunTx(i, _, business, _, _) => if i == id && CanInsert(db, i, business) then AdmittedEvents() else es
    case ClaimRunTx(i, now) =>
      if i == id && ClaimTry(db, i, now).Claimed? then ClaimedEvents(es, db.runs[i].data.attempt + 1) else es
    case RecoverAllTx(_) =>
      if IsRunning(db, id) && id in db.events then Log(es, db.runs[id].data.attempt, QueueStage, Errored) else es
    case WorkerEventTx(r, stage, kind) => if r.id == id && Owned(db, r) then Log(es, r.attempt, stage, kind) else es
    case WorkerRetrievalTx(r, incident, found) =>
      if r.id == id && RetrievalTry(db, r, incident).Committed?
      then Log(es, r.attempt, RetrievalStage, if found then Completed else Errored) else es
    case WorkerFinishTx(r, cfg, v, _, _) => if r.id == id && Owned(db, r) then FinishedEvents(es, r.attempt, cfg, v) else es
    case NotifyBeginTx(i, attempt) => if i == id && id in db.runs then Log(es, attempt, NotificationStage, Started) else es
    case NotifyOutcomeTx(i, d) =>
      if i == id && id in db.runs
      then Log(es, db.runs[id].data.attempt, NotificationStage, if d.Delivered? then Completed else Errored) else es
    case _ => es
  }

  lemma CommitEvents(db: Tables, tx: Tx, id: Id)
    ensures EventsOf(Commit(db, tx), id) == EventsAfter(db, tx, id)
  {
    hide Log, RowWith, ClaimedRow, FinishedRun, CitingRun, NotifiedRun, EnqueuedRun, RecoveredRun, ClaimedEvents, FinishedEvents,
         AdmittedEvents, Notifies, CitationClash, CanInsert, AlertEvidence, MarkedOutbox, RetryDelay;
  }

  ghost predicate ClaimsRun(db: Tables, tx: Tx, id: Id) {
    tx.ClaimRunTx? && tx.id == id && ClaimTry(db, id, tx.now).Claimed?
  }

  ghost predicate RecoversRun(db: Tables, tx: Tx, id: Id) {
    tx.RecoverAllTx? && IsRunning(db, id)
  }

  /** A started queue event is written by a claim of the run and by nothing else, an errored one by its recovery. */
  lemma CommitCounts(db: Tables, tx: Tx, id: Id)
    requires LogsOk(db) && Legal(tx)
    ensures var es, es' := EventsOf(db, id), EventsOf(Commit(db, tx), id);
            && Claims(es') == Claims(es) + (if ClaimsRun(db, tx, id) then 1 else 0)
            && Recoveries(es') == Recoveries(es) + (if RecoversRun(db, tx, id) then 1 else 0)
  {
    hide Commit, Log, Claims, Recoveries, Reports, EventLog, Notifies, RowOk, BusinessKeyTaken, LogsOk, AdmittedEvents;
    CommitEvents(db, tx, id);
    var es := EventsOf(db, id);
    LogOf(db, id);
    match tx {
      case InsertRunTx(_, _, business, _, _) => if CanInsert(db, id, business) { AdmittedCounts(); }
      case ClaimRunTx(i, now) =>
        if i == id && ClaimTry(db, i, now).Claimed? {
          var a := db.runs[i].data.attempt + 1;
          LogCounts(es, a, QueueStage, Started);
          LogCounts(Log(es, a, QueueStage, Started), a, QueueStage, Completed);
        }
      case RecoverAllTx(_) => if IsRunning(db, id) { LogCounts(es, db.runs[id].data.attempt, QueueStage, Errored); }
      case WorkerEventTx(r, stage, kind) => LogCounts(es, r.attempt, stage, kind);
      case WorkerRetrievalTx(r, _, found) => LogCounts(es, r.attempt, RetrievalStage, if found then Completed else Errored);
      case WorkerFinishTx(r, cfg, v, _, _) =>
        var kind := if v.status == Succeeded then Completed else Errored;
        LogCounts(es, r.attempt, ReportStage, kind);
        LogCounts(Log(es, r.attempt, ReportStage, kind), r.attempt, NotificationStage, Skipped);
      case NotifyBeginTx(_, attempt) => LogCounts(es, attempt, NotificationStage, Started);
      case NotifyOutcomeTx(_, d) =>
        if id in db.runs { LogCounts(es, db.runs[id].data.attempt, NotificationStage, if d.Delivered? then Completed else Errored); }
      case _ =>
    }
  }

  lemma LogOf(db: Tables, id: Id)
    requires LogsOk(db)
    ensures EventLog(EventsOf(db, id)) && (id in db.runs <==> id in db.events)
    ensures id !in db.runs ==> Claims(EventsOf(db, id)) == 0 && Recoveries(EventsOf(db, id)) == 0
  {
    if id in db.runs { RowOf(db, id); }
  }

  lemma AdmittedCounts()
    ensures Claims(AdmittedEvents()) == 0 && Recoveries(AdmittedEvents()) == 0
  {
    hide Log;
    LogCounts([], 0, ReceiveStage, Completed);
    LogCounts(Log([], 0, ReceiveStage, Completed), 0, QueueStage, Completed);
  }

  /** A worker's transaction commits only while its attempt is current and the run is running. */
  lemma FencedCommitsNothing(db: Tables, tx: Tx)
    requires IsWorkerTx(tx) && !Owned(db, tx.copy)
    ensures Commit(db, tx) == db
  {
  }
}
