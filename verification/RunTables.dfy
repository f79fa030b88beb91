/**
 The SQL tables of the diagnosis-run protocol and its transactions.

 The database has one connection and takes the write lock when a transaction begins, so every
 transaction is one function from the tables before it to the tables after it.
 */
module RunTables {
  import opened Records

  /** `diagnosis_runs`: the columns beside the JSON copy of the run. */
  datatype RunRow = RunRow(business: BusinessKey, status: Status, attempt: nat, revision: nat, lease: Option<int>, data: Run)

  datatype BusinessKey = AutomaticKey(incidents: seq<Id>) | ManualKey(incident: Id, key: string)

  datatype EvidenceRow = EvidenceRow(run: Id, incident: Option<Id>, attempt: Option<nat>, chunk: Option<Chunk>)

  datatype CitationKey = CitationKey(run: Id, incident: Id, chunk: ChunkId)

  datatype CitationRow = CitationRow(retrieval: EvidenceId, evidence: EvidenceId)

  datatype OutboxKey = DiagnosisKey(run: Id) | NotificationKey(run: Id)

  datatype OutboxState = Pending | Sent | Dead

  /** `alerts` are the firing observations carried by a diagnosis payload. */
  datatype OutboxRow = OutboxRow(state: OutboxState, attempts: nat, nextAt: int, alerts: seq<string>)

  datatype Tables = Tables(
    runs: map<Id, RunRow>,
    events: map<Id, seq<Event>>,
    evidence: map<EvidenceId, EvidenceRow>,
    citations: map<CitationKey, CitationRow>,
    outbox: map<OutboxKey, OutboxRow>)

  const EmptyTables := Tables(map[], map[], map[], map[], map[])

  // ---------------------------------------------------------------- events

  function EventsOf(db: Tables, id: Id): seq<Event> {
    if id in db.events then db.events[id] else []
  }

  /** SELECT COALESCE(MAX(sequence),0) */
  function MaxSequence(es: seq<Event>): nat {
    if es == [] then 0
    else
      var rest := MaxSequence(es[..|es| - 1]);
      if es[|es| - 1].sequence > rest then es[|es| - 1].sequence else rest
  }

  /** SELECT COUNT(*) of the events of one stage and kind */
  function CountEvents(es: seq<Event>, stage: Stage, kind: EventKind): nat {
    if es == [] then 0
    else
      var e := es[|es| - 1];
      CountEvents(es[..|es| - 1], stage, kind) + if e.stage == stage && e.kind == kind then 1 else 0
  }

  function ExecutionStage(stage: Stage): Stage {
    if stage == NotificationStage then NotificationStage else QueueStage
  }

  function Max(a: nat, b: nat): nat {
    if a < b then b else a
  }

  function NextEvent(es: seq<Event>, attempt: nat, stage: Stage, kind: EventKind): Event {
    var begun := CountEvents(es, ExecutionStage(stage), Started);
    var own := if stage == ExecutionStage(stage) && kind == Started then begun + 1 else begun;
    Event(stage, kind, attempt, MaxSequence(es) + 1, Max(1, own))
  }

  function Log(es: seq<Event>, attempt: nat, stage: Stage, kind: EventKind): seq<Event> {
    es + [NextEvent(es, attempt, stage, kind)]
  }

  // ------------------------------------------------------------------ runs

  /** The row after its columns and its JSON copy are overwritten by `r`. */
  function RowWith(row: RunRow, r: Run): RunRow {
    row.(status := r.status, attempt := r.attempt, revision := r.revision, data := r)
  }

  function NewRun(id: Id, incidents: seq<Id>, now: int): Run {
    Run(id, incidents, Queued, DispatchPending, NotEvaluated, NotifyDisabled, None, now, None, None, None,
        0, 1, None, [], None)
  }

  function NewRow(business: BusinessKey, id: Id, incidents: seq<Id>, now: int): RunRow {
    RunRow(business, Queued, 0, 1, None, NewRun(id, incidents, now))
  }

  predicate BusinessKeyTaken(db: Tables, business: BusinessKey) {
    exists id | id in db.runs :: db.runs[id].business == business
  }

  /** The alert observation recorded for each incident of a new run. */
  function AlertEvidence(id: Id, incidents: seq<Id>): map<EvidenceId, EvidenceRow> {
    map incident | incident in incidents :: AlertRef(id, incident) := EvidenceRow(id, Some(incident), None, None)
  }

  function AdmittedEvents(): seq<Event> {
    Log(Log([], 0, ReceiveStage, Completed), 0, QueueStage, Completed)
  }

  /**
   Inserts a run with its alert evidence, its first two events and its outbox row.
   A violated key rolls the transaction back.
   */
  predicate CanInsert(db: Tables, id: Id, business: BusinessKey) {
    id !in db.runs && !BusinessKeyTaken(db, business) && DiagnosisKey(id) !in db.outbox
  }

  function InsertRun(db: Tables, id: Id, incidents: seq<Id>, business: BusinessKey, alerts: seq<string>, now: int): Tables {
    if !CanInsert(db, id, business) then db
    else
      db.(runs := db.runs[id := NewRow(business, id, incidents, now)],
          evidence := db.evidence + AlertEvidence(id, incidents),
          events := db.events[id := AdmittedEvents()],
          outbox := db.outbox[DiagnosisKey(id) := OutboxRow(Pending, 0, now, alerts)])
  }

  predicate Owned(db: Tables, r: Run) {
    && r.id in db.runs
    && db.runs[r.id].attempt == r.attempt
    && db.runs[r.id].status == Running
  }

  datatype ClaimOutcome = Claimed(run: Run) | AlreadyFinished | AlreadyLeased | UnknownRun

  const LeaseSeconds := 95

  function ClaimedRun(r: Run, now: int): Run {
    r.(citations := [], evidence := NotEvaluated, report := None, status := Running,
       attempt := r.attempt + 1, revision := r.revision + 1, startedAt := Some(now))
  }

  function ClaimedRow(row: RunRow, now: int): RunRow {
    RowWith(row, ClaimedRun(row.data, now)).(lease := Some(now + LeaseSeconds))
  }

  function ClaimedEvents(es: seq<Event>, attempt: nat): seq<Event> {
    Log(Log(es, attempt, QueueStage, Started), attempt, QueueStage, Completed)
  }

  function ClaimTry(db: Tables, id: Id, now: int): ClaimOutcome {
    if id !in db.runs then UnknownRun
    else
      var row := db.runs[id];
      if Terminal(row.data.status) then AlreadyFinished
      else if row.data.status == Running && row.lease.Some? && row.lease.value > now then AlreadyLeased
      else Claimed(ClaimedRun(row.data, now))
  }

  function Claim(db: Tables, id: Id, now: int): Tables {
    if !ClaimTry(db, id, now).Claimed? then db
    else
      db.(runs := db.runs[id := ClaimedRow(db.runs[id], now)],
          events := db.events[id := ClaimedEvents(EventsOf(db, id), db.runs[id].data.attempt + 1)],
          citations := map k | k in db.citations && k.run != id :: db.citations[k])
  }

  function RecoveredRun(r: Run): Run {
    r.(status := Queued, dispatch := DispatchPending, attempt := r.attempt + 1, revision := r.revision + 1)
  }

  predicate IsRunning(db: Tables, id: Id) {
    id in db.runs && db.runs[id].status == Running
  }

  /** Start-up recovery, table by table: every running run is fenced and its outbox row is pending again. */
  function Recover(db: Tables, now: int): Tables {
    db.(runs := map id | id in db.runs ::
          if IsRunning(db, id) then RowWith(db.runs[id], RecoveredRun(db.runs[id].data)) else db.runs[id],
        events := map id | id in db.events ::
          if IsRunning(db, id) then Log(db.events[id], db.runs[id].data.attempt, QueueStage, Errored) else db.events[id],
        outbox := map k | k in db.outbox ::
          if k.DiagnosisKey? && IsRunning(db, k.run) then db.outbox[k].(state := Pending, nextAt := now) else db.outbox[k])
  }

  // --------------------------------------------------------- worker writes

  datatype TxOutcome = Committed | Fenced | Rejected

  function EventTry(db: Tables, r: Run): TxOutcome {
    if Owned(db, r) then Committed else Fenced
  }

  function EventTx(db: Tables, r: Run, stage: Stage, kind: EventKind): Tables {
    if !Owned(db, r) then db
    else db.(events := db.events[r.id := Log(EventsOf(db, r.id), r.attempt, stage, kind)])
  }

  /** A second insertion of the same retrieval id violates its key. */
  function RetrievalTry(db: Tables, r: Run, incident: Id): TxOutcome {
    if !Owned(db, r) then Fenced
    else if RetrievalRef(r.id, r.attempt, incident) in db.evidence then Rejected
    else Committed
  }

  function RetrievalTx(db: Tables, r: Run, incident: Id, found: bool): Tables {
    if !RetrievalTry(db, r, incident).Committed? then db
    else
      var ret := RetrievalRef(r.id, r.attempt, incident);
      var kind := if found then Completed else Errored;
      db.(evidence := db.evidence[ret := EvidenceRow(r.id, Some(incident), Some(r.attempt), None)],
          events := db.events[r.id := Log(EventsOf(db, r.id), r.attempt, RetrievalStage, kind)])
  }

  /** report_citations is keyed by run, incident and chunk, and its evidence id is unique; a clash is ignored. */
  predicate CitationClash(db: Tables, key: CitationKey, evidence: EvidenceId) {
    key in db.citations || exists k | k in db.citations :: db.citations[k].evidence == evidence
  }

  function CitingRun(current: Run, ev: EvidenceId): Run {
    current.(citations := current.citations + [ev], revision := current.revision + 1)
  }

  /** Records one qualified hit: its evidence, its citation row and the id in the run's own list. */
  function CiteTx(db: Tables, r: Run, incident: Id, id: ChunkId, chunk: Chunk): Tables {
    if !Owned(db, r) then db
    else
      var ev := ChunkRef(r.id, r.attempt, incident, id);
      var key := CitationKey(r.id, incident, id);
      var row := EvidenceRow(r.id, Some(incident), Some(r.attempt), Some(chunk));
      db.(evidence := if ev in db.evidence then db.evidence else db.evidence[ev := row],
          citations := if CitationClash(db, key, ev) then db.citations
                       else db.citations[key := CitationRow(RetrievalRef(r.id, r.attempt, incident), ev)],
          runs := db.runs[r.id := RowWith(db.runs[r.id], CitingRun(db.runs[r.id].data, ev))])
  }

  datatype Verdict = Verdict(status: Status, evidence: EvidenceStatus, text: string, score: Option<int>, error: Option<string>)

  /** Deployment settings read by `finish`: whether a webhook is set, and the low-score threshold. */
  datatype Settings = Settings(webhook: bool, threshold: int)

  predicate Notifies(cfg: Settings, v: Verdict) {
    cfg.webhook && (v.status == Failed || (v.score.Some? && cfg.threshold > 0 && v.score.value < cfg.threshold))
  }

  /** The claimed copy is written back; only citations and revision are reloaded from the row. */
  function FinishedRun(r: Run, current: Run, cfg: Settings, v: Verdict, now: int, elapsed: int): Run {
    r.(citations := current.citations, status := v.status, evidence := v.evidence, report := Some(v.text),
       score := v.score, error := v.error, finishedAt := Some(now), durationMs := Some(elapsed),
       revision := current.revision + 1,
       notification := if Notifies(cfg, v) then NotifyPending else NotifyDisabled)
  }

  function FinishedEvents(es: seq<Event>, attempt: nat, cfg: Settings, v: Verdict): seq<Event> {
    var es1 := Log(es, attempt, ReportStage, if v.status == Succeeded then Completed else Errored);
    if Notifies(cfg, v) then es1 else Log(es1, attempt, NotificationStage, Skipped)
  }

  function FinishTx(db: Tables, cfg: Settings, r: Run, v: Verdict, now: int, elapsed: int): Tables {
    if !Owned(db, r) then db
    else
      db.(runs := db.runs[r.id := RowWith(db.runs[r.id], FinishedRun(r, db.runs[r.id].data, cfg, v, now, elapsed))],
          events := db.events[r.id := FinishedEvents(EventsOf(db, r.id), r.attempt, cfg, v)],
          evidence := db.evidence[ReportRef(r.id) := EvidenceRow(r.id, None, None, None)],
          outbox := if Notifies(cfg, v) && NotificationKey(r.id) !in db.outbox
                    then db.outbox[NotificationKey(r.id) := OutboxRow(Pending, 0, now, [])] else db.outbox)
  }

  // ----------------------------------------------- dispatch and notification

  function EnqueuedRun(r: Run): Run {
    r.(dispatch := Enqueued, revision := r.revision + 1)
  }

  function MarkedOutbox(outbox: map<OutboxKey, OutboxRow>, key: OutboxKey): map<OutboxKey, OutboxRow> {
    if key in outbox then outbox[key := outbox[key].(state := Sent, attempts := outbox[key].attempts + 1)] else outbox
  }

  /** A diagnosis row whose run is missing fails the transaction. */
  predicate CanMark(db: Tables, key: OutboxKey) {
    key.NotificationKey? || key.run in db.runs
  }

  /** Marks an outbox row sent; a diagnosis row also marks its run enqueued. */
  function MarkSentTx(db: Tables, key: OutboxKey): Tables {
    if !CanMark(db, key) then db
    else
      db.(outbox := MarkedOutbox(db.outbox, key),
          runs := if key.NotificationKey? then db.runs
                  else db.runs[key.run := RowWith(db.runs[key.run], EnqueuedRun(db.runs[key.run].data))])
  }

  function Pow2(n: nat): nat {
    if n == 0 then 1 else 2 * Pow2(n - 1)
  }

  /** An enqueue that failed is tried again after 1, 2, 4, ... 64 seconds. */
  function RetryDelay(attempts: nat): nat {
    Pow2(if attempts < 6 then attempts else 6)
  }

  function RetryTx(db: Tables, key: OutboxKey, attempts: nat, now: int): Tables {
    if key !in db.outbox then db
    else
      var row := db.outbox[key];
      db.(outbox := db.outbox[key := row.(attempts := row.attempts + 1, nextAt := now + RetryDelay(attempts))])
  }

  /** `attempt` is that of the copy read before the transaction. An event of an unknown run violates its foreign key. */
  function NotifyStartTx(db: Tables, id: Id, attempt: nat): Tables {
    if id !in db.runs then db
    else db.(events := db.events[id := Log(EventsOf(db, id), attempt, NotificationStage, Started)])
  }

  datatype Delivery = Delivered | Undelivered | LastAttemptUndelivered

  function NotifiedRun(r: Run, d: Delivery): Run {
    r.(notification := match d
                       case Delivered => NotifySent
                       case Undelivered => NotifyPending
                       case LastAttemptUndelivered => NotifyFailed,
       revision := r.revision + 1)
  }

  function NotifyEndTx(db: Tables, id: Id, d: Delivery): Tables {
    if id !in db.runs then db
    else
      var r := db.runs[id].data;
      var kind := if d.Delivered? then Completed else Errored;
      var key := NotificationKey(id);
      db.(runs := db.runs[id := RowWith(db.runs[id], NotifiedRun(r, d))],
          events := db.events[id := Log(EventsOf(db, id), r.attempt, NotificationStage, kind)],
          outbox := if d.LastAttemptUndelivered? && key in db.outbox
                    then db.outbox[key := db.outbox[key].(state := Dead)] else db.outbox)
  }
}
