# Verified model of the incident workspace

The workspace keeps its facts in SQLite, runs diagnosis jobs on a queue that delivers at least once, and answers
retrieval from projections that can be rebuilt. This project models the parts whose correctness depends on how
transactions, crashes and late workers interleave, and proves what they promise:

- the durable diagnosis run: admission, transactional outbox, dispatch, claim with lease, fencing by attempt,
  retrieval and citation writes, publication, recovery and notification (`Records`, `RunTables`, `RunInvariants`,
  `RunCommits`, `Protocol`, `ProtocolInvariants`, `RunTheorems`, `Leases`, `Outcomes`, `Delivery`, `Retries`,
  `RunStore`, `Interleaving`, `Diagnosis`, `Dispatching`, `Admission`, `AdmissionRuns`, `AdmissionTheorems`,
  `AdmissionIdentity`, `AdmissionStore`);
- versioned knowledge publication and its retrieval projection (`Text`, `Knowledge`, `KnowledgeInvariants`,
  `Projection`, `Sync`, `KnowledgeEffects`, `KnowledgeHistories`, `KnowledgeService`, `Filter`, `Bm25`, `Bm25Ranking`);
- topology search (`TopologySearch`, `Topology`), keyset pagination (`Paging`), the bounded evidence graph
  (`GraphView`), summary buckets (`Summary`) and the rate limiter (`RateLimit`), on `Ordering`.

`dafny verify dfyconfig.toml` checks the whole project.

## How to read it

There is one database connection and the write lock is taken when a transaction begins, so a transaction is one
atomic function on the tables. `RunTables` gives these functions in closed form, `RunCommits.Commit` joins them, and
`Protocol.Step` is the whole system: tables, knowledge service, any number of workers holding the copy of the run they
claimed, the dispatcher and the queue. Labels carry what the code does not decide, such as clock readings, search
results, queue answers, faults and crashes. Theorems are about `After(s, ls)` for every list of labels, from any state
that satisfies `SystemOk`; empty tables do.

What the source does by changing things step by step is a class with the same steps. `RunStore.Database`,
`AdmissionStore.Workspace`, `KnowledgeService.Service`, `Bm25.Index` and `RateLimit.Limiter` are proved against the
closed forms. `Diagnosis` and `Dispatching` prove that the loops of a worker and of the dispatcher are runs of the step
machine while an adversary takes any steps of everybody else before each of their transactions and reads, so every
theorem about the machine holds of that code as it is interleaved.

Four promises are not met in full; for each there is a failing history from an empty system, or a failing input, and
the exact condition:

- A successful last operation does not imply that the projection agrees with the facts: a delete that commits but
  loses its restore is followed by a cleanup that succeeds and changes nothing (`KnowledgeHistories.LostRestoreHappens`).
  `Sync.AgreesAfter` gives the condition for every document and operation, `Sync.ProjectionAgrees` over histories.
- A put that fails before its publishing commit can change an active version: after publish and delete, putting the
  same content again stages the version the document still points at (`KnowledgeHistories.FailedReputHappens`,
  `Projection.FailedPutActiveRows`). What is being served does not change (`Projection.FailedPutServesSame`).
- An accepted enqueue can leave a run without a task when the queue client has no namespace
  (`Delivery.SharedTaskHidesRun`, `Delivery.EnqueueServesRun`).
- Dense and sparse retrieval differ on a version named like the placeholder for an empty active set
  (`Filter.DenseAgreesWithSparse`, `Filter.PlaceholderLeaks`); the ids the service makes never have that name
  (`Filter.ServiceIdsAgree`).

Where the code and a natural reading differ, the model follows the code: `finish` writes back the claimed copy, so a
dispatch state committed in between is overwritten; recovery leaves old citations until the next claim; a failed run
may carry citations of incidents handled before the source failed.

## Model

| member | source | states |
|---|---|---|
| `RunTheorems.ClaimedAttemptsDiffer` | internal/workspace/service.go:178-229 | over every interleaving, a later claim of a run is given a strictly larger attempt than an earlier one |
| `RunTheorems.AttemptsAdvance` | internal/workspace/service.go:148-229 | no run of the system ever lowers the attempt of a run |
| `RunTheorems.WorkerCommitsOnlyWhenOwner` | internal/workspace/service.go:230-254 | if an action of a worker changed any table, its attempt was current and the run was running |
| `RunTheorems.TakeoverFences` | internal/workspace/service.go:148-177 | a claim or a recovery of a run overtakes every worker that held it |
| `RunTheorems.FencedForever` | internal/workspace/service.go:230-254 | once overtaken, a worker changes no run, event, evidence, citation or outbox row, whatever happens in between |
| `RunCommits.FencedCommitsNothing` | internal/workspace/service.go:282-292 | a worker transaction of a run it no longer owns leaves every table as it was |
| `Leases.DeliveryTakes` | internal/workspace/service.go:178-229 | a delivered task takes its run if and only if the run exists, has not ended, and is queued or has no unexpired lease; it is then running under the next attempt, leased for 95 seconds, with the citations and report of earlier attempts cleared; otherwise nothing changes |
| `Leases.DeliveryLogs` | internal/workspace/service.go:213-226 | a delivery that takes its run adds the started and the completed queue event of the new attempt to its log, and nothing else |
| `Leases.TakenAgainAfterLease` | internal/workspace/service.go:191-212 | over any history, a run taken at t and taken again at u, without a recovery of it in between, was taken again at least 95 seconds later |
| `Leases.LeaseHolds` | internal/workspace/service.go:191-212 | until its recovery a run that was taken has ended or stays running with its lease at least as late |
| `Outcomes.SourceFailureIsPublished` | internal/workspace/diagnosis.go:79-185 | in every reachable state an ended run failed exactly when it reports an unavailable source, exactly when it has an error, and it failed if its log has an errored retrieval of its attempt; so a succeeded run has none |
| `Outcomes.PublishWrites` | internal/workspace/diagnosis.go:172-185 | what an owner publishes: failed, source unavailable and an error if a search of its attempt failed, else succeeded with its evidence status, beside its text, score, instant and duration |
| `Outcomes.PublishLogs` | internal/workspace/service.go:318-338 | a publication logs its report, errored exactly when a search of its attempt failed, and a skipped notice exactly when it owes none |
| `Outcomes.FailureWrites` | internal/workspace/service.go:263-275 | a worker that gave up publishes a failure with its error and no score |
| `Outcomes.ScoreIsPublished` | internal/workspace/service.go:405-420 | the score the judge gave is the one published; a judge that failed or was skipped gives none |
| `Outcomes.EveryIncidentSearched` | internal/workspace/diagnosis.go:44-105 | in every reachable state each incident of a succeeded run has a retrieval recorded under the run's attempt |
| `Outcomes.CommitErrored` | internal/workspace/diagnosis.go:67-105 | an errored retrieval event of an attempt is written by a failed search of its owner and by nothing else, and is never lost |
| `Outcomes.QualifiedHitIsCited` | internal/workspace/diagnosis.go:110-162 | a qualified hit of an owner is cited: row, evidence with the chunk, and list entry |
| `Outcomes.NoticeIsOwed` | internal/workspace/service.go:282-339 | in every reachable state a notice row exists for a run if and only if the run has ended, a webhook is set, and the run failed or scored below a positive threshold |
| `Outcomes.NoticeOutcome` | internal/workspace/service.go:371-403 | a notice is sent exactly when delivered, and failed with a dead row exactly after the last attempt |
| `Outcomes.MarkSends` | internal/workspace/service.go:123-144 | the mark sends the row, which is no longer due, and enqueues its run |
| `Outcomes.StepOutcomes` | internal/workspace/service.go:42-404 | every step keeps what ended runs say, what workers remember of failed searches, and which notices are owed |
| `RunTheorems.RunAccounting` | internal/workspace/database.go:142-162 | in every reachable state event sequences are 1 to n, stage attempts follow from the started events, the attempt is the number of started and errored queue events, and there is one report event exactly when the run is terminal |
| `RunTheorems.AttemptsAreSteps` | internal/workspace/service.go:148-229 | over any history a run's started queue events grow by exactly the deliveries that claimed it, its errored ones by exactly the recoveries that found it running, and its attempt by their sum |
| `RunCommits.CommitCounts` | internal/workspace/service.go:159-226 | a started queue event is written by a claim of the run and by nothing else, an errored one by its recovery |
| `RunInvariants.EventLogAt` | internal/workspace/database.go:142-162 | in a log built by addEvent the i-th event has sequence i+1 and the stage attempt its started events give it |
| `RunTheorems.RevisionFromAdmission` | internal/workspace/database.go:138-141 | the revision of a run is one plus the number of committed changes of its row since admission |
| `RunTheorems.RevisionCountsSaves` | internal/workspace/service.go:133-135 | over any run of the system the revision grows by one per change of the row and by nothing else |
| `RunTheorems.PublishedOnce` | internal/workspace/service.go:290-338 | once terminal, no step changes status, evidence status, report, score, error, attempt, citations or finishing time |
| `RunTheorems.CitationsNeverMix` | internal/workspace/diagnosis.go:129-185 | a running or finished run cites only evidence of its current attempt, its list as a set is its citation rows, and a succeeded run is marked cited exactly when the list is non-empty |
| `RunTheorems.NoStaleCitation` | internal/workspace/diagnosis.go:17-38 | whenever a citation commits, its chunk belongs to the active version, in the service's space, of an undeleted document that applies to the incident, and that document is the hit's |
| `RunTheorems.EveryCitationWasCurrent` | internal/workspace/diagnosis.go:64-162 | every citation row of every reachable state was committed by a step at which it was current in that sense |
| `RunTheorems.OnlyCitesAdd` | internal/workspace/diagnosis.go:110-162 | only the commit of a qualified hit adds a citation row, and it adds exactly that hit's row |
| `ProtocolInvariants.EligibleIsQualified` | internal/workspace/diagnosis.go:17-38 | a hit judged eligible names a chunk of the active version of an undeleted, applicable document in the current space |
| `ProtocolInvariants.EligibleExactly` | internal/workspace/diagnosis.go:17-38 | a hit is eligible if and only if it names a stored chunk of the active version, in the service's space, of its undeleted document, whose environment is unknown, all or the incident's, and the trimmed lower-case alert name stands in the title or snippet |
| `RunInvariants.CitationListIsTable` | internal/workspace/diagnosis.go:129-149 | the citation list of a run, as a set, is the evidence of its citation rows |
| `RunInvariants.CitationsOfCurrentAttempt` | internal/workspace/service.go:200-207 | what a run that is not queued cites was recorded under its current attempt |
| `ProtocolInvariants.StepOk` | internal/workspace/service.go:42-404 | every step of the system keeps the invariant of tables, facts, workers and verdicts |
| `ProtocolInvariants.ReachableOk` | internal/workspace/service.go:42-404 | the invariant holds after every run of the system from a state in which it holds |
| `ProtocolInvariants.InitialOk` | internal/workspace/database.go:43-69 | the invariant holds of empty tables |
| `RunCommits.CommitKeeps` | internal/workspace/service.go:42-404 | every transaction of the run protocol keeps logs, citations, evidence and outbox rows in order |
| `RunCommits.CommitAdvances` | internal/workspace/service.go:148-404 | how far any transaction may change a run's row: business key kept, attempt not lowered, revision at most one more, publication frozen when terminal |
| `RunCommits.CommitKeepsEvents` | internal/workspace/database.go:142-162 | the event log of a run is append-only under every transaction |
| `Delivery.OutboxRowSurvives` | internal/workspace/admission.go:285-289 | every admitted run keeps its diagnosis outbox row in every reachable state |
| `Delivery.RecoveredIsPending` | internal/workspace/service.go:148-177 | a recovered run is queued again, its row is due, and the dispatcher's old batch is dropped |
| `Delivery.SentWasAccepted` | internal/workspace/service.go:109-144 | a row is sent only if the queue accepted or already held its task at some step with no recovery of the run since |
| `Delivery.CommitAlerts` | internal/workspace/admission.go:285-289 | no transaction changes the alerts carried by an outbox row |
| `Delivery.ReachableDispatchOk` | internal/workspace/service.go:42-146 | in every reachable state batch items carry their rows' alerts and every held task is named by what is stored about the run it carries |
| `Delivery.OneTaskPerRun` | internal/queue/queue.go:87-107 | over any history of dispatches, crashes between enqueue and mark, and re-dispatches, the queue never holds two diagnosis tasks of one run, with and without a namespace |
| `Delivery.EnqueueServesRun` | internal/queue/queue.go:87-121 | an accepted enqueue leaves a task of that very run in the queue if and only if the client has a namespace or no other run with equal alerts has a task there, and adds nothing while the run's own task is held |
| `Delivery.SharedTaskHidesRun` | internal/queue/queue.go:102-121 | a history of seven steps from empty tables after which, without a namespace, a run's row is sent and the queue has no task for it |
| `Retries.OfferedAgainAfterWait` | internal/workspace/service.go:45-122 | after a refused offer, until the row is refused again, marked, recovered or given up, an idle dispatcher reads it if and only if 1, 2, 4, 8, 16, 32 and from then on 64 seconds have passed |
| `Retries.RowStands` | internal/workspace/service.go:42-146 | over any history nothing else touches an outbox row |
| `RunStore.Database.AddEvent` | internal/workspace/database.go:142-162 | appends the next event of a run, and refuses an unknown run |
| `RunStore.Database.Insert` | internal/workspace/admission.go:248-290 | inserts run, alert evidence, two events and outbox row together exactly when no key clashes and no incident repeats, and otherwise nothing |
| `RunStore.Database.Claim` | internal/workspace/service.go:178-229 | the claim transaction with its four outcomes, on which `Leases.DeliveryTakes` says when a lease holds |
| `RunStore.Database.WriteEvent` | internal/workspace/service.go:241-254 | a guarded event, fenced exactly when the worker does not own the run |
| `RunStore.Database.RecordRetrieval` | internal/workspace/diagnosis.go:67-105 | the guarded retrieval record; a second one of the same attempt and incident is rejected whole |
| `RunStore.Database.Cite` | internal/workspace/diagnosis.go:117-162 | the guarded citation: evidence, row and list entry together, duplicates ignored |
| `RunStore.Database.Finish` | internal/workspace/service.go:282-339 | the guarded publication: the claimed copy is written back with only citations and revision reloaded |
| `RunStore.Database.MarkSent` | internal/workspace/service.go:123-144 | marks the row and its run, or rolls both back |
| `RunStore.Database.Postpone` | internal/workspace/service.go:109-122 | puts a row off by 1, 2, 4, up to 64 seconds |
| `RunStore.Database.Recover` | internal/workspace/service.go:148-177 | the loop over running runs fences exactly those, whatever order they are listed in |
| `RunStore.Database.BeginNotification` | internal/workspace/service.go:351-362 | the started event of a notification |
| `RunStore.Database.EndNotification` | internal/workspace/service.go:371-403 | the outcome of a notification: state, event, and a dead row after the last attempt |
| `RunStore.CommitKeepsConsistent` | internal/workspace/database.go:43-69 | every transaction keeps rows under their own ids, and events, alert evidence and diagnosis rows attached to runs |
| `Diagnosis.Process` | internal/workspace/service.go:255-281 | the worker's code from claim to report, with any steps of everybody else between its transactions, is a run of the step machine and ends with the worker done |
| `Diagnosis.Diagnose` | internal/workspace/diagnosis.go:39-186 | the loop over incidents, the judge and the publication, so interleaved, are steps of the machine and end finished, fenced or with an error to report; what is published of a failed source is `Outcomes.SourceFailureIsPublished` |
| `Diagnosis.ReportFailure` | internal/workspace/service.go:263-275 | an error of a claimed run is published as its failure, unless the worker was fenced |
| `Diagnosis.HandleIncident` | internal/workspace/diagnosis.go:44-171 | one pass of the incident loop is begin, search, qualify and end steps of the machine |
| `Diagnosis.QualifyHits` | internal/workspace/diagnosis.go:107-162 | the loop over hits is qualify and commit steps of the machine, and counts the hits it cited |
| `Diagnosis.Decide` | internal/workspace/diagnosis.go:17-38 | eligibility is decided on the facts under the knowledge lock |
| `Diagnosis.RecordHit` | internal/workspace/diagnosis.go:117-161 | a decided hit is recorded by one guarded transaction, with the citation exactly when it qualified |
| `Diagnosis.Judge` | internal/workspace/service.go:405-420 | the judge's events are steps of the machine |
| `Dispatching.Dispatch` | internal/workspace/service.go:42-146 | a whole dispatch, with any steps of everybody else between its transactions, is a run of the step machine and ends with the dispatcher idle |
| `Dispatching.ReadBatch` | internal/workspace/service.go:45-62 | the batch is at most 100 different rows, all pending with their time come, and every such row when they are fewer |
| `Dispatching.DispatchOne` | internal/workspace/service.go:63-145 | a row is offered and then marked with its run, or put off; one that cannot be marked ends the batch |
| `Dispatching.Notify` | internal/workspace/service.go:340-404 | a delivered notification, so interleaved, is steps of the machine |
| `Interleaving.ForeignSteps` | internal/workspace/database.go:26-31 | whatever steps others take, a worker stands still, its knowledge is unchanged while it holds the lock, and recorded incidents stay |
| `AdmissionTheorems.OneRunPerSet` | internal/workspace/admission.go:143-238 | over any history, automatic runs and the distinct sets of firing incidents answered with a run correspond one to one |
| `AdmissionTheorems.ReplayReturnsSameRun` | internal/workspace/admission.go:214-229 | after a set was answered with a run, any well-formed batch of the same set gets that run, ready or not, and leaves the run tables alone |
| `AdmissionTheorems.AdmitVerdict` | internal/workspace/admission.go:143-238 | which outcome a batch gets, decided by its set of firing incidents; refused and unavailable batches change nothing |
| `AdmissionTheorems.ManualReplay` | internal/workspace/admission.go:291-334 | a manual request key is answered with its run for the same body and refused for another, outage or not |
| `AdmissionTheorems.IncidentsFollow` | internal/workspace/admission.go:155-213 | no operation forgets an incident or moves its resolution back, and only a firing observation creates one |
| `AdmissionTheorems.IncidentHistory` | internal/workspace/admission.go:186-204 | the same over any history |
| `AdmissionTheorems.HistoryRefines` | internal/workspace/admission.go:248-290 | any history of admissions and run transactions changes the run tables as a sequence of protocol transactions does |
| `AdmissionTheorems.KeyFindsSet` | internal/workspace/admission.go:214-223 | a batch finds a run by its key exactly when some run was admitted for the same set |
| `AdmissionIdentity.OneIncident` | internal/workspace/admission.go:18-48 | two readable observations are of one incident if and only if their labels agree and so do their starts; without starts, their five-minute windows; with one start, that start and the beginning of the other's window |
| `AdmissionIdentity.OneRunPerOutage` | internal/workspace/admission.go:143-238 | after a firing alert was answered with a run, a later firing alert is answered with that run if and only if the two are of one outage in that sense, whatever happened in between |
| `AdmissionIdentity.BatchIs` | internal/workspace/admission.go:155-213 | the incidents of a batch are those of its readable observations that are not resolutions |
| `AdmissionIdentity.BatchRefusedExactly` | internal/workspace/admission.go:143-213 | a batch is refused if and only if it is empty, has more than a hundred observations, or one is malformed where the loop reaches it |
| `AdmissionIdentity.AdmittedRun` | internal/workspace/admission.go:224-290 | an admitted run is queued for its batch's incidents, each once in order, which then point at it, and its first two events are logged, and its task is due with the firing alerts |
| `AdmissionIdentity.AlertsAre` | internal/workspace/admission.go:248-290 | a task carries the firing observations of its batch in order |
| `AdmissionIdentity.RefusedExactly` | internal/workspace/admission.go:16-48 | an observation is malformed if and only if it has no name, an unreadable start, or ends a known incident without a start and an end not before it |
| `AdmissionIdentity.ObserveCreates` | internal/workspace/admission.go:163-186 | a firing observation of an unknown incident creates it from its labels, severity, start and instant |
| `AdmissionIdentity.ObserveUpdates` | internal/workspace/admission.go:186-204 | a resolution moves the end of its incident to the later of the two; otherwise only the last instant changes |
| `AdmissionIdentity.ObserveLogs` | internal/workspace/admission.go:175-213 | the observation log gains a row exactly when it had none with that key and data |
| `AdmissionIdentity.RediagnoseAdmits` | internal/workspace/admission.go:291-334 | a manual request makes a new run if and only if its key fits and is new, the queue is ready and the incident is known; the run is for that incident, with its latest observation as firing |
| `AdmissionIdentity.LatestIs` | internal/workspace/admission.go:318-328 | the latest observation of an incident is the last row of the log that names it |
| `Admission.KeyIsSet` | internal/workspace/admission.go:214-219 | two lists of ids have one key exactly when they hold the same incidents |
| `Admission.IncreasingIsUnique` | internal/workspace/admission.go:214-215 | a finite set has one strictly increasing list |
| `Admission.NormalForm` | internal/workspace/admission.go:214-215 | sort and unique give a strictly increasing list of the same members |
| `Admission.Unique` | internal/workspace/admission.go:239-247 | the in-place compaction leaves the first of equal neighbours, in order |
| `Admission.DedupIncreases` | internal/workspace/admission.go:239-247 | on a sorted list the compaction is strictly increasing |
| `Admission.BusinessTextIsInjective` | internal/workspace/admission.go:219-219 | different business keys are hashed from different texts, ids being free of the separators |
| `AdmissionRuns.ExecOk` | internal/workspace/admission.go:143-334 | every history keeps runs under the ids of their keys, requests with their runs, and incidents observed |
| `AdmissionRuns.ObserveAllKeeps` | internal/workspace/admission.go:155-213 | a batch's observations touch no run, keep every incident observed, and make its firing incidents known |
| `AdmissionRuns.FreeKeyInserts` | internal/workspace/admission.go:219-233 | a run can be inserted exactly when its key has none: an automatic insertion never clashes |
| `AdmissionRuns.CommitKeepsKeys` | internal/workspace/service.go:42-404 | no other transaction adds, removes or renames a run |
| `AdmissionStore.Workspace.Record` | internal/workspace/admission.go:155-213 | one observation applied row by row, malformed exactly when the specification says so; which incident it is of is `AdmissionIdentity.OneIncident` |
| `AdmissionStore.Workspace.RecordAll` | internal/workspace/admission.go:155-213 | the observation loop of a batch, stopping at the first malformed one |
| `AdmissionStore.Workspace.Admit` | internal/workspace/admission.go:143-238 | a batch ends in the specified state and answer, with every write rolled back when it is refused or unavailable; which batches share a run is `AdmissionIdentity.OneRunPerOutage` |
| `AdmissionStore.Workspace.Normalize` | internal/workspace/admission.go:214-215 | sorting and compacting in place gives the one list of the set |
| `AdmissionStore.Workspace.LinkRun` | internal/workspace/admission.go:253-266 | every incident of a new run points at it, and no other changes |
| `AdmissionStore.Workspace.ReDiagnose` | internal/workspace/admission.go:291-334 | a manual request ends in the specified state and answer |
| `Sync.SyncAfterSuccess` | internal/workspace/knowledge.go:18-44 | after an operation without error the projection agrees with the facts if and only if the operation ends in a restore or they agreed before |
| `Sync.SyncAfterFailure` | internal/workspace/knowledge.go:90-212 | an operation that failed, other than by losing its restore, leaves agreement as it was |
| `Sync.AgreesAfter` | internal/workspace/knowledge.go:18-349 | for every document and every operation with every fault, exactly when the projection agrees on it afterwards: restored, or published without its restore and so wrong, or deleted without it and so right only if not served, or as before |
| `Sync.SyncAfterLostRestore` | internal/workspace/knowledge.go:296-305 | from any state: a put that published and lost its restore never leaves agreement, and a delete leaves it if and only if its document was not served and every other document agrees |
| `Sync.ProjectionAgrees` | internal/workspace/knowledge.go:18-44 | after any history the active set is exactly the live versions with all chunks mirrored if and only if a ledger kept from facts and results has no document wrong |
| `Sync.SyncedIsAgreement` | internal/workspace/knowledge.go:18-44 | agreement as a whole is agreement on every document |
| `Sync.LostRestoreSurvivesCleanup` | internal/workspace/knowledge.go:308-349 | whenever a live document's delete loses its restore, its cleanup succeeds and leaves the projection wrong |
| `KnowledgeHistories.LostRestoreHappens` | internal/workspace/knowledge.go:213-243 | a history of a new service, restart, publication, delete and cleanup, whose last operation succeeded and after which the projection does not agree |
| `Sync.LateCleanupKeepsServed` | internal/workspace/knowledge.go:308-349 | a cleanup, however late, removes no chunk of a version that is active again |
| `KnowledgeEffects.CleanupRemoves` | internal/workspace/knowledge.go:308-349 | a cleanup that succeeds leaves no chunk of its version in the mirror or the index unless the version is served again, and no cleanup changes any other chunk |
| `KnowledgeEffects.CleanupFacts` | internal/workspace/knowledge.go:335-349 | on success the job is done and its document removed if it is still deleted at that version; no other fact changes |
| `KnowledgeEffects.RestoredServes` | internal/workspace/knowledge.go:18-44 | after a restore a document is active under a version if and only if it is undeleted, points at it, and the version is active in the space; its chunks are mirrored with the document's environment, and other chunks stay |
| `KnowledgeEffects.DeleteDoes` | internal/workspace/knowledge.go:213-243 | when a delete conflicts, when it commits and when it succeeds; what it marks, the job it leaves, and that a successful one takes the document out of the active set |
| `KnowledgeEffects.ProbeDoes` | internal/workspace/readiness.go:15-46 | a probe conflicts if and only if another real space is stored, and otherwise takes the space over with a restore or leaves everything |
| `KnowledgeEffects.RestartDoes` | cmd/server/main.go:105-132 | a restarted process serves exactly the documents of the space it found and mirrors exactly their chunks |
| `KnowledgeEffects.KeyAnswers` | internal/workspace/knowledge.go:66-93 | a known key with another body is refused and changes nothing, whatever became of its version; with the same body and a published version it is answered without changing a fact |
| `KnowledgeEffects.PutRefuses` | internal/workspace/knowledge.go:45-119 | a put is invalid by its own text alone, and a conflict if and only if it is at odds with its key or with the document as it stands; neither changes anything |
| `KnowledgeEffects.PutSucceeds` | internal/workspace/knowledge.go:45-212 | without faults and with a new key or none, a put succeeds if and only if it is valid and not at odds, and its document has the content already or can be indexed in at most 512 chunks, in one space, under a free title |
| `KnowledgeEffects.PutServes` | internal/workspace/knowledge.go:94-212 | a put that succeeds, other than by its key's replay, leaves its document undeleted at an active indexed version with what was asked for, and its key recorded |
| `KnowledgeEffects.PutElsewhere` | internal/workspace/knowledge.go:45-212 | no put touches another document, its versions, another key or a job |
| `Projection.FailedPutServesSame` | internal/workspace/knowledge.go:90-212 | a put that does not reach its publishing commit leaves undeleted documents, every document's pointer and the versions being served as they were |
| `Projection.FailedPutActiveRows` | internal/workspace/knowledge.go:120-169 | such a put changes the row of a version with status active if and only if it stages that very version, the active one of a deleted document; no other active row and no pointer changes |
| `KnowledgeHistories.FailedReputHappens` | internal/workspace/knowledge.go:134-169 | a history of a new service, publication, delete and a failed put of the same content, that leaves an active version staged |
| `Projection.StaleExpectationChangesNothing` | internal/workspace/knowledge.go:94-119 | a put whose expected version is not the active one changes no fact |
| `Projection.VersionsAreImmutable` | internal/workspace/knowledge.go:134-148 | over any history a version keeps content, creation time and, once it has them, its chunks, through delete and reactivation |
| `KnowledgeInvariants.ApplyOk` | internal/workspace/knowledge.go:45-349 | every operation with every fault keeps the version lifecycle: only a document's active version is active, and a live document's is active and indexed |
| `KnowledgeInvariants.PublishOk` | internal/workspace/knowledge.go:170-211 | the publishing transaction keeps the lifecycle |
| `KnowledgeService.Projection.RestoreChunks` | internal/rag/versions.go:53-60 | every chunk of the list is mirrored, a later one winning, and the BM25 index has exactly those ids more, equals a rebuild and holds each chunk's own text |
| `KnowledgeService.Projection.ActivateVersions` | internal/rag/versions.go:61-69 | the active set is replaced by the list |
| `KnowledgeService.Projection.DeleteVersion` | internal/rag/versions.go:127-142 | the mirror and the BM25 index are what they were without exactly the chunks of the version, and the index still equals a rebuild |
| `KnowledgeService.Service.RestoreProjection` | internal/workspace/knowledge.go:18-44 | the loop over documents restores exactly the live versions and their chunks, or fails without a change |
| `KnowledgeService.Service.IndexVersion` | internal/rag/versions.go:17-50 | all chunks are mirrored together, or none when the index refuses or fails |
| `KnowledgeService.Service.PublishVersion` | internal/workspace/knowledge.go:170-208 | demotes, activates, repoints and inserts the chunks together, or nothing when the title is taken |
| `KnowledgeService.Service.StageAndPublish` | internal/workspace/knowledge.go:138-212 | from staging to restore, with the state each failure leaves behind |
| `KnowledgeService.Service.PutDocument` | internal/workspace/knowledge.go:45-212 | a put ends in the specified state and outcome for every request and fault |
| `KnowledgeService.Service.DeleteDocument` | internal/workspace/knowledge.go:213-243 | a delete ends in the specified state and outcome |
| `KnowledgeService.Service.DispatchCleanup` | internal/workspace/knowledge.go:308-349 | a cleanup ends in the specified state and outcome; on success, unless its version is served again, the mirror and the index are what they were without exactly the version's chunks |
| `KnowledgeService.Service.ProbeRetrieval` | internal/workspace/readiness.go:15-46 | a probe changes the space with a restore, or rolls it back |
| `Text.SnippetsExist` | internal/rag/rag.go:76-120 | a document has snippets exactly when it is not blank, so the fallback chunk is never made |
| `Text.SnippetsAreSections` | internal/rag/rag.go:76-120 | the snippets are the trimmed non-blank blocks of the document's lines, cut before every line that opens a section and nowhere else |
| `Text.OpensSectionIs` | internal/rag/rag.go:127-138 | a line opens a section if and only if it is two marks, not three, before a title |
| `Filter.DenseAgreesWithSparse` | internal/rag/versions.go:70-96 | dense and sparse retrieval accept the same mirrored points if and only if none carries the placeholder that stands for an empty active set |
| `Filter.PlaceholderLeaks` | internal/rag/versions.go:88-92 | a concrete point that dense retrieval alone accepts |
| `Filter.ServiceIdsAgree` | internal/rag/versions.go:70-96 | for the version ids the service makes, dense and sparse retrieval accept the same mirrored points without exception |
| `Bm25.Index.Upsert` | internal/rag/bm25.go:89-112 | the index equals a rebuild on its chunks after writing or overwriting one |
| `Bm25.Index.Remove` | internal/rag/bm25.go:115-129 | and after removing one |
| `Bm25.Index.DeleteDoc` | internal/rag/bm25.go:132-140 | and after removing those of a document, and exactly those |
| `Bm25.Index.DeleteSource` | internal/rag/bm25.go:143-151 | and after removing those of a source |
| `Bm25.Index.Search` | internal/rag/bm25.go:163-207 | returns eligible chunks that share a token, best first, at most topK, and no omitted one outscores a returned one; `Bm25Ranking.SearchRanks` says which chunk is better |
| `Bm25.Index.Collect` | internal/rag/bm25.go:178-201 | one hit with its score, as `Bm25Ranking` pins it, for exactly the eligible chunks that share a token |
| `Bm25.PositiveWhenShared` | internal/rag/bm25.go:186-200 | on a rebuilt index a chunk scores positive exactly when it shares a query token |
| `Bm25Ranking.RarerAddsMore` | internal/rag/bm25.go:186-200 | on a rebuilt index, for equal occurrences and length, the rarer token adds strictly more |
| `Bm25Ranking.MoreAddsMore` | internal/rag/bm25.go:186-200 | for equal length, more occurrences of a token add strictly more |
| `Bm25Ranking.ShorterAddsMore` | internal/rag/bm25.go:186-200 | for equal occurrences, a token in the shorter chunk adds strictly more |
| `Bm25Ranking.AddsAtAverage` | internal/rag/bm25.go:12-200 | in a chunk of average length one occurrence adds exactly the token's idf and two add 11/8 of it; in one of twice that length one adds 22/31 |
| `Bm25Ranking.SearchRanks` | internal/rag/bm25.go:163-207 | in the answer to a query a chunk whose one shared token is rarer, or more frequent, or in a shorter chunk comes before the other, and is not cut off while the other is listed |
| `TopologySearch.Component` | internal/workspace/topology.go:294-313 | the first search ends with exactly the undirected component of the focus, cycles or not |
| `TopologySearch.Dependents` | internal/workspace/topology.go:314-329 | the second search ends with exactly the other nodes that depend on the focus, each with the references of a shortest path |
| `TopologySearch.DependsIs` | internal/workspace/topology.go:314-329 | a service depends on itself and on what the targets of its own edges depend on, and on nothing else |
| `TopologySearch.OneWay` | internal/workspace/topology.go:314-329 | along one edge the source depends on the target and not the other way round |
| `TopologySearch.VisitNeighbours` | internal/workspace/topology.go:303-312 | one pass adds exactly new neighbours and settles the node |
| `TopologySearch.VisitDependents` | internal/workspace/topology.go:322-328 | one pass adds new dependents one step further out, each with its path |
| `Topology.Load` | internal/workspace/topology.go:65-177 | a configuration is loaded if and only if it is valid, within its limits; nodes get their ids, and each link the ends, kind and source of its edge and the edge's or else the configuration's window |
| `Topology.LoadNodes` | internal/workspace/topology.go:107-122 | nodes are accepted exactly when each is well-formed and no service repeats |
| `Topology.LoadLinks` | internal/workspace/topology.go:123-167 | edges are accepted exactly when each joins known services of one environment within the window and none repeats |
| `Topology.FindFocus` | internal/workspace/topology.go:281-292 | ambiguous exactly when two nodes match, undeclared exactly when none does |
| `Topology.ForService` | internal/workspace/topology.go:248-345 | exactly the nodes and edges of the focus's component over active edges, all of its environment, and the exact impact in order |
| `Topology.ActiveIs` | internal/workspace/topology.go:255-280 | an edge is active if and only if the configuration and its link have begun and not ended |
| `Topology.ComponentIs` | internal/workspace/topology.go:330-345 | kept are exactly the nodes of the component and the edges within it |
| `Topology.ComponentEnvironment` | internal/workspace/topology.go:123-129 | no walk over active edges leaves the environment of the focus |
| `Paging.PageItems` | internal/handler/workspace.go:201-236 | a page is the first items behind the cursor in order, and says whether more are left |
| `Paging.FollowIsComplete` | internal/handler/workspace.go:201-236 | on a fixed list following cursors ends and returns every item once, newest first and by descending id within an instant, whatever the limits |
| `Paging.TraverseDescends` | internal/handler/workspace.go:201-236 | with insertions and removals between requests the returned keys still strictly decrease |
| `Paging.TraverseExactlyOnce` | internal/handler/workspace.go:201-236 | over a list that changes, a finished traversal is newest first and returns every key present throughout, whatever became of the rest of its item, exactly once |
| `Ordering.LessIs` | internal/handler/workspace.go:213-218 | byte order on ids: the first difference decides and a proper prefix comes first |
| `GraphView.Bound` | internal/workspace/readmodel.go:69-91 | the leading nodes up to the limit and edges between them, all of them if there is room; kept plus omitted equal the originals and no kept edge dangles |
| `GraphView.Grow` | internal/handler/workspace.go:460-473 | the depth loop computes exactly the nodes within that undirected distance |
| `GraphView.Neighbourhood` | internal/handler/workspace.go:440-494 | through the second truncation counts still add up to the untruncated graph, and only and, if there is room, all near nodes are kept |
| `RateLimit.Limiter.Allow` | internal/auth/auth.go:91-112 | the table after a call and its answer |
| `RateLimit.WindowBound` | internal/auth/auth.go:91-112 | a key is allowed at most max times per window, over any history with a clock that does not go back |
| `RateLimit.SpanBound` | internal/auth/auth.go:91-112 | and at most twice max times in any span of 60 seconds |
| `RateLimit.TableBound` | internal/auth/auth.go:100-110 | the table never exceeds 10000 entries |
| `RateLimit.UnderLimitIsAllowed` | internal/auth/auth.go:91-112 | a call is allowed when its key was called fewer than max times in the last 60 seconds and fewer than 10000 keys were, whatever happened before |
| `Summary.Summarize` | internal/workspace/readmodel.go:122-235 | fails exactly when a scoped run has an unreadable instant; otherwise every day with a fact appears once, in order, with the bucket its facts give |
| `Summary.CountRuns` | internal/workspace/readmodel.go:169-207 | totals and buckets count every selected run once, however many scoped incidents it touches |
| `Summary.TotalsAreConserved` | internal/workspace/readmodel.go:169-235 | succeeded, cited and sample totals and total duration equal the sums over the history, and cited never exceeds succeeded in a bucket |
| `Summary.ReportCounts` | internal/workspace/readmodel.go:122-235 | totals and buckets of a report are the numbers of runs in scope and window, of each kind, in all and on each UTC day, with the incidents received that day |

## Left out

- Dense vectors: points, cosine scores, fusion of the two rankings and the vector store's own storage are not part of this model.
- Retrieval hits: the rows that record each hit's rank and scores for audit.
- The legacy report, the report text, and the notification payload; they are opaque strings.
- Incident evidence graph construction from rows; `GraphView.Bound` starts from the built lists.
- The summary's counters of active, uncited and unavailable incidents, and its two averages.
- JSON parsing of alert batches, requests and configurations, HTTP, sessions, migration, backup, re-import of demo documents and persistence of topology snapshots.
- Liveness: whether the queue eventually delivers, retries or archives a task.
- Instants are whole seconds. The source compares RFC 3339 texts whose fraction digits vary, so the condition of section 5.1 of RFC 3339 for comparing them as text does not hold within one second; across different seconds text and time order agree.
- Pagination keys of one list are all instants; the mixture of instants and other texts in one list is not modelled.
- Hashes and stable ids are injective, as free constructors or parameters; `Admission.BusinessTextIsInjective` proves it for the hashed text where the text is built from parts.
- String lengths count characters where the source counts bytes, and trimming and lower-casing cover ASCII.
- The tokenizer, the logarithm (positive above one, and for ranking strictly increasing) and path escaping are parameters; scores are reals.
- The lexical test of an alert name lower-cases and trims ASCII letters and white space only.
- The status `cancelled` is treated as terminal, but nothing modelled or in the source sets it.
- The outbox is read in any order of at most 100 due rows; the source orders by row id.
- A fault may strike before a statement that the source would skip, so the knowledge model has every outcome of the source and a few more.
- Dispatching.Dispatch: covers diagnosis and notification rows; cleanup rows are `KnowledgeService.Service.DispatchCleanup`. Recovery is not among the steps interleaved with it, because it runs at start-up before dispatching begins.
- Diagnosis.Process: errors of the database itself are the action `GiveUp` or a crash of the step machine.
