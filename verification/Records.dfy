/**
 Record types shared by the run protocol and the knowledge service.

 Stable ids and hashes of the source are free constructors here, so they are injective by construction:
 two ids are equal exactly when they were built from the same parts.
 Instants are whole seconds; durations are milliseconds.
 */
module Records {

  type Id = string

  datatype Option<+T> = None | Some(value: T)

  /** The id of a document version: a hash of document, content, title, environment and embedding space. */
  datatype VersionId = VersionId(doc: Id, content: string, title: string, environment: string, space: string)

  /** The id of the i-th chunk of a version. */
  datatype ChunkId = ChunkId(version: VersionId, index: nat)

  datatype Chunk = Chunk(version: VersionId, doc: Id, title: string, snippet: string, source: string, space: string)

  datatype EvidenceId =
    | AlertRef(run: Id, incident: Id)
    | RetrievalRef(run: Id, attempt: nat, incident: Id)
    | ChunkRef(run: Id, attempt: nat, incident: Id, chunk: ChunkId)
    | ReportRef(run: Id)

  datatype Status = Queued | Running | Succeeded | Failed | Cancelled

  predicate Terminal(s: Status) {
    s.Succeeded? || s.Failed? || s.Cancelled?
  }

  datatype DispatchState = DispatchPending | Enqueued

  datatype EvidenceStatus = NotEvaluated | NoEvidence | HasCitations | SourceUnavailable

  datatype NotificationStatus = NotifyDisabled | NotifyPending | NotifySent | NotifyFailed

  datatype Run = Run(
    id: Id,
    incidents: seq<Id>,
    status: Status,
    dispatch: DispatchState,
    evidence: EvidenceStatus,
    notification: NotificationStatus,
    score: Option<int>,
    receivedAt: int,
    startedAt: Option<int>,
    finishedAt: Option<int>,
    durationMs: Option<int>,
    attempt: nat,
    revision: nat,
    report: Option<string>,
    citations: seq<EvidenceId>,
    error: Option<string>)

  datatype Stage = ReceiveStage | QueueStage | RetrievalStage | JudgeStage | ReportStage | NotificationStage

  datatype EventKind = Started | Completed | Errored | Skipped

  datatype Event = Event(stage: Stage, kind: EventKind, attempt: nat, sequence: nat, stageAttempt: nat)
}
