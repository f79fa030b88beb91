/**
 The whole system as a state machine: the run tables, the knowledge service, any number of workers that
 each hold the copy of a run they claimed, the outbox dispatcher and the external queue.

 `Step` is total: a label that is not enabled leaves the state as it is. Labels carry what the code does
 not decide: clock readings, search results, queue answers, faults and crashes.
 */
module Protocol {
  import opened Records
  import opened RunTables
  import opened RunCommits
  import opened Text
  import Knowledge

  // ---------------------------------------------------------------- workers

  datatype Incident = Incident(name: string, environment: string)

  /** A search result. Search takes no knowledge lock, so a hit may name anything. */
  datatype Hit = Hit(chunk: Option<ChunkId>, version: Option<VersionId>, doc: Id, incidentNote: bool)

  /** The places between a worker's transactions; k is the index of the incident it is at. */
  datatype Phase =
    | AtIncident(k: nat)
    | Searching(k: nat, info: Incident)
    | Qualifying(k: nat, info: Incident, hits: seq<Hit>, qualified: nat)
    | Citing(k: nat, info: Incident, hits: seq<Hit>, qualified: nat, hit: Hit, chunkId: ChunkId, chunk: Chunk, ok: bool)
    | Judging
    | Finishing(score: Option<int>)
    | Failing(error: string)
    | Done

  datatype Worker = Worker(copy: Run, phase: Phase, state: EvidenceStatus, sourceFailed: bool)

  /** The read side of the knowledge lock is held while hits are qualified and recorded. */
  predicate HoldsLock(w: Worker) {
    w.phase.Qualifying? || w.phase.Citing?
  }

  datatype Eligibility = EmptyHit | MissingRow | Judged(chunkId: ChunkId, chunk: Chunk, ok: bool)

  predicate Applicable(environment: string, info: Incident) {
    environment == "unknown" || environment == "all" || environment == info.environment
  }

  /** The lexical anchor: the alert name, trimmed and in lower case, stands in the chunk's title or snippet. */
  predicate Anchored(name: string, c: Chunk) {
    var anchor := ToLower(TrimSpace(name));
    anchor != "" && Contains(ToLower(c.title + "\n" + c.snippet), anchor)
  }

  function Eligible(k: Knowledge.State, info: Incident, h: Hit): Eligibility {
    if h.chunk.None? || h.version.None? || h.doc == "" || h.incidentNote then EmptyHit
    else if h.chunk.value !in k.sql.chunks || h.doc !in k.sql.docs then MissingRow
    else
      var c, d := k.sql.chunks[h.chunk.value], k.sql.docs[h.doc];
      if d.deletedAt.Some? || d.active != h.version || c.version != h.version.value || c.space != k.space then
        Judged(h.chunk.value, c, false)
      else if !Applicable(d.environment, info) then Judged(h.chunk.value, c, false)
      else Judged(h.chunk.value, c, Anchored(info.name, c))
  }

  datatype Action =
    | BeginIncident
    | Search(hits: Option<seq<Hit>>)
    | Qualify
    | CommitHit
    | EndHits
    | SkipJudge
    | StartJudge
    | EndJudge(score: Option<int>)
    | Publish(text: string, now: int, elapsed: int)
    | GiveUp(error: string)
    | PublishFailure(now: int, elapsed: int)

  const SafeReport := "no qualified knowledge"

  function VerdictOf(w: Worker, text: string, score: Option<int>): Verdict {
    if w.sourceFailed then Verdict(Failed, SourceUnavailable, text, score, Some("source_unavailable"))
    else Verdict(Succeeded, w.state, text, score, None)
  }

  /** The transaction an action tries, if it tries one. */
  function WorkerTx(w: Worker, a: Action, cfg: Settings): Option<Tx> {
    var r := w.copy;
    match a
    case BeginIncident =>
      if w.phase.AtIncident? && w.phase.k < |r.incidents| then Some(WorkerEventTx(r, RetrievalStage, Started)) else None
    case Search(hits) =>
      if w.phase.Searching? && w.phase.k < |r.incidents|
      then Some(WorkerRetrievalTx(r, r.incidents[w.phase.k], hits.Some?)) else None
    case CommitHit =>
      if w.phase.Citing? && w.phase.ok && w.phase.k < |r.incidents|
      then Some(WorkerCiteTx(r, r.incidents[w.phase.k], w.phase.chunkId, w.phase.chunk)) else None
    case SkipJudge =>
      if w.phase.AtIncident? && w.phase.k >= |r.incidents| then Some(WorkerEventTx(r, JudgeStage, Skipped)) else None
    case StartJudge =>
      if w.phase.AtIncident? && w.phase.k >= |r.incidents| then Some(WorkerEventTx(r, JudgeStage, Started)) else None
    case EndJudge(score) =>
      if w.phase.Judging? then Some(WorkerEventTx(r, JudgeStage, if score.Some? then Completed else Errored)) else None
    case Publish(text, now, elapsed) =>
      if w.phase.Finishing? then Some(WorkerFinishTx(r, cfg, VerdictOf(w, text, w.phase.score), now, elapsed)) else None
    case PublishFailure(now, elapsed) =>
      if w.phase.Failing?
      then Some(WorkerFinishTx(r, cfg, Verdict(Failed, SourceUnavailable, SafeReport, None, Some(w.phase.error)), now, elapsed))
      else None
    case Qualify => None
    case EndHits => None
    case GiveUp(_) => None
  }

  function Outcome(db: Tables, w: Worker, tx: Option<Tx>): TxOutcome {
    if tx.Some? && tx.value.WorkerRetrievalTx? then RetrievalTry(db, tx.value.copy, tx.value.incident)
    else EventTry(db, w.copy)
  }

  /** The phase an action leads to when its transaction committed. */
  function NextPhase(w: Worker, a: Action, s: System): Phase {
    var p := w.phase;
    match a
    case BeginIncident =>
      if p.AtIncident? && p.k < |w.copy.incidents| then
        if w.copy.incidents[p.k] in s.incidents then Searching(p.k, s.incidents[w.copy.incidents[p.k]]) else Failing("incident")
      else p
    case Search(hits) =>
      if p.Searching? && p.k < |w.copy.incidents|
      then Qualifying(p.k, p.info, if hits.Some? then hits.value else [], 0) else p
    case Qualify =>
      if p.Qualifying? && p.hits != [] then
        match Eligible(s.know, p.info, p.hits[0])
        case EmptyHit => Qualifying(p.k, p.info, p.hits[1..], p.qualified)
        case MissingRow => Failing("missing row")
        case Judged(id, chunk, ok) => Citing(p.k, p.info, p.hits[1..], p.qualified, p.hits[0], id, chunk, ok)
      else p
    case CommitHit =>
      if p.Citing? then Qualifying(p.k, p.info, p.hits, p.qualified + if p.ok then 1 else 0) else p
    case EndHits => if p.Qualifying? && p.hits == [] then AtIncident(p.k + 1) else p
    case SkipJudge => if p.AtIncident? && p.k >= |w.copy.incidents| then Finishing(None) else p
    case StartJudge => if p.AtIncident? && p.k >= |w.copy.incidents| then Judging else p
    case EndJudge(score) => if p.Judging? then Finishing(score) else p
    case Publish(_, _, _) => if p.Finishing? then Done else p
    case GiveUp(error) => if p.Done? then Done else Failing(error)
    case PublishFailure(_, _) => if p.Failing? then Done else p
  }

  /** A fenced worker stops; a rejected transaction makes it report failure. */
  function NextWorker(w: Worker, a: Action, s: System): Worker {
    var tx := WorkerTx(w, a, s.settings);
    var out := Outcome(s.db, w, tx);
    if (tx.Some? || (a.CommitHit? && w.phase.Citing?)) && out.Fenced? then w.(phase := Done)
    else if tx.Some? && out.Rejected? then w.(phase := Failing("constraint"))
    else
      w.(phase := NextPhase(w, a, s),
         state := if a.EndHits? && w.phase.Qualifying? && w.phase.hits == [] && w.phase.qualified > 0
                  then HasCitations else w.state,
         sourceFailed := w.sourceFailed || (w.phase.Searching? && a.Search? && a.hits.None?))
  }

  // ------------------------------------------------------- dispatcher and queue

  /** With a namespace a diagnosis task is named after its run, without one after its alerts. */
  datatype TaskId = ByRun(run: Id) | ByAlerts(alerts: seq<string>) | NotifyTask(run: Id)

  datatype Item = Item(key: OutboxKey, attempts: nat, alerts: seq<string>)

  /** `accepted` says that the queue took, or already held, the task of the first item. */
  datatype Dispatcher = Dispatcher(batch: seq<Item>, accepted: bool)

  function TaskFor(namespaced: bool, item: Item): TaskId {
    match item.key
    case NotificationKey(run) => NotifyTask(run)
    case DiagnosisKey(run) => if namespaced then ByRun(run) else ByAlerts(item.alerts)
  }

  /** The queue holds tasks by id, with the run in their payload, and refuses an id while it holds it. */
  function Offered(queue: map<TaskId, Id>, t: TaskId, run: Id): map<TaskId, Id> {
    if t in queue then queue else queue[t := run]
  }

  predicate Due(db: Tables, key: OutboxKey, now: int) {
    key in db.outbox && db.outbox[key].state == Pending && db.outbox[key].nextAt <= now
  }

  // ----------------------------------------------------------------- the system

  datatype System = System(db: Tables, know: Knowledge.State, incidents: map<Id, Incident>, workers: map<nat, Worker>,
                           dispatcher: Dispatcher, queue: map<TaskId, Id>, settings: Settings, namespaced: bool)

  datatype Label =
    | AdmitRun(id: Id, runIncidents: seq<Id>, business: BusinessKey, alerts: seq<string>, now: int)
    | RecordIncident(incident: Id, info: Incident)
    | SelectBatch(keys: seq<OutboxKey>, now: int)
    | Enqueue
    | EnqueueFails(now: int)
    | MarkSent
    | AbortDispatch
    | RecoverRuns(now: int)
    | Deliver(worker: nat, id: Id, now: int)
    | Act(worker: nat, action: Action)
    | Crash(worker: nat)
    | BeginNotify(id: Id, attempt: nat)
    | EndNotify(id: Id, delivery: Delivery)
    | FinishTask(task: TaskId)
    | Know(op: Knowledge.Op)

  predicate LockFree(s: System) {
    forall i | i in s.workers :: !HoldsLock(s.workers[i])
  }

  const Idle := Dispatcher([], false)

  function Items(db: Tables, keys: seq<OutboxKey>): seq<Item>
    requires forall i | 0 <= i < |keys| :: keys[i] in db.outbox
  {
    seq(|keys|, i requires 0 <= i < |keys| => Item(keys[i], db.outbox[keys[i]].attempts, db.outbox[keys[i]].alerts))
  }

  /** The transaction a label tries. */
  function TxOf(s: System, l: Label): Option<Tx> {
    match l
    case AdmitRun(id, runIncidents, business, alerts, now) => Some(InsertRunTx(id, runIncidents, business, alerts, now))
    case RecoverRuns(now) => Some(RecoverAllTx(now))
    case Deliver(w, id, now) => if w in s.workers then None else Some(ClaimRunTx(id, now))
    case Act(w, a) => if w in s.workers then WorkerTx(s.workers[w], a, s.settings) else None
    case BeginNotify(id, attempt) => Some(NotifyBeginTx(id, attempt))
    case EndNotify(id, d) => Some(NotifyOutcomeTx(id, d))
    case EnqueueFails(now) =>
      if s.dispatcher.batch != [] && !s.dispatcher.accepted
      then Some(PostponeTx(s.dispatcher.batch[0].key, s.dispatcher.batch[0].attempts, now)) else None
    case MarkSent =>
      if s.dispatcher.batch != [] && s.dispatcher.accepted then Some(SentTx(s.dispatcher.batch[0].key)) else None
    case _ => None
  }

  function NextDb(s: System, l: Label): Tables {
    var tx := TxOf(s, l);
    if tx.None? then s.db else Commit(s.db, tx.value)
  }

  function NextWorkers(s: System, l: Label): map<nat, Worker> {
    match l
    case Deliver(w, id, now) =>
      var c := ClaimTry(s.db, id, now);
      if w in s.workers || !c.Claimed? then s.workers
      else s.workers[w := Worker(c.run, AtIncident(0), NoEvidence, false)]
    case Act(w, a) => if w in s.workers then s.workers[w := NextWorker(s.workers[w], a, s)] else s.workers
    case Crash(w) => s.workers - {w}
    case _ => s.workers
  }

  function NextDispatcher(s: System, l: Label): Dispatcher {
    var d := s.dispatcher;
    match l
    case SelectBatch(keys, now) =>
      if d.batch == [] && |keys| <= 100 && forall i | 0 <= i < |keys| :: Due(s.db, keys[i], now)
      then Dispatcher(Items(s.db, keys), false) else d
    case Enqueue => if d.batch != [] && !d.accepted then d.(accepted := true) else d
    case EnqueueFails(_) => if d.batch != [] && !d.accepted then Dispatcher(d.batch[1..], false) else d
    case MarkSent =>
      if d.batch != [] && d.accepted then if CanMark(s.db, d.batch[0].key) then Dispatcher(d.batch[1..], false) else Idle
      else d
    case AbortDispatch => Idle
    case RecoverRuns(_) => Idle
    case _ => d
  }

  function NextQueue(s: System, l: Label): map<TaskId, Id> {
    match l
    case Enqueue =>
      if s.dispatcher.batch != [] && !s.dispatcher.accepted
      then Offered(s.queue, TaskFor(s.namespaced, s.dispatcher.batch[0]), s.dispatcher.batch[0].key.run) else s.queue
    case FinishTask(t) => s.queue - {t}
    case _ => s.queue
  }

  function Step(s: System, l: Label): System {
    System(NextDb(s, l),
           if l.Know? && LockFree(s) then Knowledge.Apply(s.know, l.op).0 else s.know,
           if l.RecordIncident? && l.incident !in s.incidents then s.incidents[l.incident := l.info] else s.incidents,
           NextWorkers(s, l), NextDispatcher(s, l), NextQueue(s, l), s.settings, s.namespaced)
  }

  /** The state after a run of the system from `s`. */
  function After(s: System, ls: seq<Label>): System
    decreases |ls|
  {
    if ls == [] then s else Step(After(s, ls[..|ls| - 1]), ls[|ls| - 1])
  }

  predicate Initial(s: System) {
    s.db == EmptyTables && s.workers == map[] && s.dispatcher == Idle && s.queue == map[]
  }
}
