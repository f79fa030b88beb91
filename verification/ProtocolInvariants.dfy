/**
 The invariant of the whole system: the tables are in order, the facts are in order, and what every
 worker remembers is consistent with the run it claimed.
 */
module ProtocolInvariants {
  import opened Records
  import opened RunTables
  import opened RunInvariants
  import opened RunCommits
  import opened Protocol
  import Knowledge
  import KnowledgeInvariants
  import Text

  // ---------------------------------------------------------------- definitions

  /** The chunk belongs to the active version, in the service's space, of an undeleted, applicable document: the hit's own. */
  ghost predicate Qualified(k: Knowledge.State, info: Incident, h: Hit, id: ChunkId, chunk: Chunk) {
    && id in k.sql.chunks && k.sql.chunks[id] == chunk
    && chunk.doc == h.doc && h.doc in k.sql.docs
    && k.sql.docs[h.doc].deletedAt.None?
    && k.sql.docs[h.doc].active == Some(chunk.version)
    && id.version == chunk.version
    && chunk.space == k.space
    && Applicable(k.sql.docs[h.doc].environment, info)
    && Anchored(info.name, chunk)
  }

  /** Whether the worker has cited anything in this attempt, as it will report it. */
  ghost predicate HasCited(w: Worker) {
    w.state == HasCitations || (HoldsLock(w) && w.phase.qualified > 0)
  }

  ghost predicate CopyOk(db: Tables, w: Worker) {
    && w.copy.id in db.runs
    && 1 <= w.copy.attempt <= db.runs[w.copy.id].attempt
    && w.copy.incidents == db.runs[w.copy.id].data.incidents
    && (w.copy.attempt == db.runs[w.copy.id].attempt ==> db.runs[w.copy.id].status != Queued)
  }

  /** The worker's own count of citations agrees with the run it still owns. */
  ghost predicate CountOk(db: Tables, w: Worker) {
    && (w.state == NoEvidence || w.state == HasCitations)
    && (Owned(db, w.copy) && !w.phase.Failing? && !w.phase.Done? ==>
          (HasCited(w) <==> db.runs[w.copy.id].data.citations != []))
  }

  ghost predicate PhaseOk(s: System, w: Worker) {
    && (w.phase.Searching? || HoldsLock(w) ==>
          && w.phase.k < |w.copy.incidents|
          && w.copy.incidents[w.phase.k] in s.incidents
          && s.incidents[w.copy.incidents[w.phase.k]] == w.phase.info)
    && (w.phase.Citing? && w.phase.ok ==> Qualified(s.know, w.phase.info, w.phase.hit, w.phase.chunkId, w.phase.chunk))
  }

  ghost predicate WorkerOk(s: System, w: Worker) {
    CopyOk(s.db, w) && CountOk(s.db, w) && PhaseOk(s, w)
  }

  /** No two workers hold the same attempt of a run. */
  ghost predicate DistinctAttempts(workers: map<nat, Worker>) {
    forall i, j | i in workers && j in workers && i != j ::
      workers[i].copy.id == workers[j].copy.id ==> workers[i].copy.attempt != workers[j].copy.attempt
  }

  /** A succeeded run is marked as cited exactly when it lists a citation. */
  ghost predicate VerdictOk(r: Run) {
    r.status == Succeeded ==> (r.evidence == HasCitations <==> r.citations != [])
  }

  ghost predicate VerdictsOk(db: Tables) {
    forall id | id in db.runs :: VerdictOk(db.runs[id].data)
  }

  ghost predicate WorkersOk(s: System) {
    forall i | i in s.workers :: WorkerOk(s, s.workers[i])
  }

  ghost predicate SystemOk(s: System) {
    && TablesOk(s.db)
    && KnowledgeInvariants.StateOk(s.know)
    && WorkersOk(s)
    && DistinctAttempts(s.workers)
    && VerdictsOk(s.db)
  }

  // ------------------------------------------------------- tables and knowledge

  lemma StepIsLegal(s: System, l: Label)
    ensures TxOf(s, l).Some? ==> Legal(TxOf(s, l).value)
    ensures TxOf(s, l).Some? && l.Act? ==> IsWorkerTx(TxOf(s, l).value) && TxOf(s, l).value.copy == s.workers[l.worker].copy
  {
  }

  lemma StepTables(s: System, l: Label)
    requires TablesOk(s.db)
    ensures TablesOk(Step(s, l).db)
  {
    hide TablesOk, TxOf, Commit;
    StepIsLegal(s, l);
    if TxOf(s, l).Some? { CommitKeeps(s.db, TxOf(s, l).value); }
  }

  lemma StepKnowledge(s: System, l: Label)
    requires KnowledgeInvariants.StateOk(s.know)
    ensures KnowledgeInvariants.StateOk(Step(s, l).know)
  {
    hide KnowledgeInvariants.StateOk, Knowledge.Apply;
    if l.Know? { KnowledgeInvariants.ApplyOk(s.know, l.op); }
  }

  // ----------------------------------------------------- workers that do not move

  /** What another step may do to the run of a worker that is not acting. */
  ghost predicate Bystander(row: RunRow, row': RunRow, attempt: nat) {
    && row'.attempt >= row.attempt
    && row'.data.incidents == row.data.incidents
    && (row'.status == Queued && row.status != Queued ==> row'.attempt > row.attempt)
    && (attempt == row.attempt == row'.attempt && row'.status == Running ==>
          row.status == Running && row'.data.citations == row.data.citations)
  }

  lemma BystanderOk(s: System, s': System, w: Worker)
    requires WorkerOk(s, w)
    requires w.copy.id in s'.db.runs && Bystander(s.db.runs[w.copy.id], s'.db.runs[w.copy.id], w.copy.attempt)
    requires s'.know == s.know || !HoldsLock(w)
    requires forall id | id in s.incidents :: id in s'.incidents && s'.incidents[id] == s.incidents[id]
    ensures WorkerOk(s', w)
  {
  }

  /** Another worker's commit, or any commit that is not a worker's, leaves a worker a bystander. */
  lemma CommitBystander(db: Tables, tx: Tx, id: Id, attempt: nat)
    requires LogsOk(db) && Legal(tx) && id in db.runs && attempt <= db.runs[id].attempt
    requires IsWorkerTx(tx) && tx.copy.id == id && Owned(db, tx.copy) ==>
               attempt != tx.copy.attempt && tx.copy.incidents == db.runs[id].data.incidents
    ensures id in Commit(db, tx).runs && Bystander(db.runs[id], Commit(db, tx).runs[id], attempt)
  {
    hide LogsOk, Commit, Notifies;
    RowOf(db, id);
    CommitRow(db, tx, id);
  }

  lemma StepDb(s: System, l: Label)
    ensures Step(s, l).db == NextDb(s, l)
  {
    hide NextDb, NextWorkers, NextDispatcher, NextQueue, LockFree, Knowledge.Apply;
  }

  lemma DeliverMoves(s: System, i: nat, id: Id, now: int)
    requires i !in s.workers
    ensures var c := ClaimTry(s.db, id, now);
            Step(s, Deliver(i, id, now)) ==
            s.(db := Claim(s.db, id, now),
               workers := if c.Claimed? then s.workers[i := Worker(c.run, AtIncident(0), NoEvidence, false)] else s.workers)
  {
    hide Claim, LockFree, Knowledge.Apply;
  }

  lemma StepFrame(s: System, l: Label, w: Worker, j: nat)
    requires j in s.workers && s.workers[j] == w
    ensures Step(s, l).know == s.know || !HoldsLock(w)
    ensures forall id | id in s.incidents :: id in Step(s, l).incidents && Step(s, l).incidents[id] == s.incidents[id]
  {
    hide NextDb, NextWorkers, NextDispatcher, NextQueue, Knowledge.Apply;
  }

  lemma OtherWorkersOk(s: System, l: Label, j: nat)
    requires SystemOk(s) && j in s.workers
    requires l.Act? ==> l.worker != j
    ensures WorkerOk(Step(s, l), s.workers[j])
  {
    hide SystemOk, WorkersOk, DistinctAttempts, LogsOk, TxOf, Commit, Bystander, WorkerOk, Knowledge.Apply,
         KnowledgeInvariants.StateOk, IsWorkerTx, Legal, Step;
    var w := s.workers[j];
    StepDb(s, l);
    StepFrame(s, l, w, j);
    SystemLogs(s);
    WorkerOf(s, j);
    WorkerOkFacts(s, w);
    StepIsLegal(s, l);
    if TxOf(s, l).None? {
      SameRowBystander(s.db.runs[w.copy.id], w.copy.attempt);
    } else {
      var tx := TxOf(s, l).value;
      if l.Act? {
        ActorIsAnother(s, l, j);
      } else {
        OnlyActsAreWorkers(s, l);
      }
      CommitBystander(s.db, tx, w.copy.id, w.copy.attempt);
    }
    BystanderOk(s, Step(s, l), w);
  }

  lemma WorkerOf(s: System, i: nat)
    requires WorkersOk(s) && i in s.workers
    ensures WorkerOk(s, s.workers[i])
  {
  }

  lemma WorkerOkFacts(s: System, w: Worker)
    requires WorkerOk(s, w)
    ensures w.copy.id in s.db.runs && w.copy.attempt <= s.db.runs[w.copy.id].attempt
    ensures w.copy.incidents == s.db.runs[w.copy.id].data.incidents
  {
  }

  lemma SystemLogs(s: System)
    requires SystemOk(s)
    ensures LogsOk(s.db) && WorkersOk(s) && DistinctAttempts(s.workers) && KnowledgeInvariants.StateOk(s.know)
    ensures forall id | id in s.db.runs :: VerdictOk(s.db.runs[id].data)
  {
  }

  lemma SameRowBystander(row: RunRow, attempt: nat)
    ensures Bystander(row, row, attempt)
  {
  }

  lemma OnlyActsAreWorkers(s: System, l: Label)
    requires TxOf(s, l).Some? && !l.Act?
    ensures !IsWorkerTx(TxOf(s, l).value)
  {
  }

  lemma ActorIsAnother(s: System, l: Label, j: nat)
    requires WorkersOk(s) && DistinctAttempts(s.workers)
    requires l.Act? && TxOf(s, l).Some? && j in s.workers && l.worker != j
    ensures var copy := TxOf(s, l).value.copy; var w := s.workers[j].copy;
            copy.id == w.id ==> copy.attempt != w.attempt && copy.incidents == s.db.runs[w.id].data.incidents
  {
    StepIsLegal(s, l);
    assert WorkerOk(s, s.workers[l.worker]);
  }

  // ------------------------------------------------------------- the acting worker

  /** The tables after an action of worker `w`. */
  ghost function ActedDb(s: System, w: Worker, a: Action): Tables {
    var tx := WorkerTx(w, a, s.settings);
    if tx.None? then s.db else Commit(s.db, tx.value)
  }

  lemma WorkerTxLegal(w: Worker, a: Action, cfg: Settings)
    requires WorkerTx(w, a, cfg).Some?
    ensures var tx := WorkerTx(w, a, cfg).value; Legal(tx) && IsWorkerTx(tx) && tx.copy == w.copy
  {
  }

  lemma ActedCopyOk(s: System, w: Worker, a: Action)
    requires LogsOk(s.db) && CopyOk(s.db, w)
    ensures CopyOk(ActedDb(s, w, a), NextWorker(w, a, s))
  {
    hide LogsOk, Commit, Legal, IsWorkerTx, WorkerTx, NextPhase, Outcome;
    var tx := WorkerTx(w, a, s.settings);
    if tx.Some? {
      WorkerTxLegal(w, a, s.settings);
      OwnCommit(s.db, tx.value);
    }
  }

  /** A worker's own transaction keeps its run's attempt and incidents and does not queue it again. */
  lemma OwnCommit(db: Tables, tx: Tx)
    requires LogsOk(db) && Legal(tx) && IsWorkerTx(tx) && tx.copy.id in db.runs
    requires tx.copy.incidents == db.runs[tx.copy.id].data.incidents
    ensures var id := tx.copy.id;
            && id in Commit(db, tx).runs
            && Commit(db, tx).runs[id].attempt == db.runs[id].attempt
            && Commit(db, tx).runs[id].data.incidents == db.runs[id].data.incidents
            && (Commit(db, tx).runs[id].status == Queued ==> db.runs[id].status == Queued)
            && (Commit(db, tx).runs[id].status == Running ==> db.runs[id].status == Running)
            && (!tx.WorkerCiteTx? ==> Commit(db, tx).runs[id].data.citations == db.runs[id].data.citations)
            && (tx.WorkerCiteTx? && Owned(db, tx.copy) ==> Commit(db, tx).runs[id].data.citations != [])
  {
    hide LogsOk, Log, Notifies, CitationClash;
    RowOf(db, tx.copy.id);
  }

  /** Only a committed citation changes what the worker will report. */
  lemma NextCited(w: Worker, a: Action, s: System)
    requires w.phase.Citing? ==> w.phase.k < |w.copy.incidents|
    ensures var w', tx := NextWorker(w, a, s), WorkerTx(w, a, s.settings);
            !w'.phase.Failing? && !w'.phase.Done? ==>
              && !w.phase.Failing? && !w.phase.Done?
              && (tx.Some? ==> !tx.value.WorkerFinishTx?)
              && (if tx.Some? && tx.value.WorkerCiteTx? then HasCited(w') else HasCited(w') <==> HasCited(w))
    ensures NextWorker(w, a, s).copy == w.copy
    ensures NextWorker(w, a, s).state == w.state || NextWorker(w, a, s).state == HasCitations
  {
    hide Eligible;
  }

  lemma ActedCountOk(s: System, w: Worker, a: Action)
    requires LogsOk(s.db) && CopyOk(s.db, w) && CountOk(s.db, w)
    requires w.phase.Citing? ==> w.phase.k < |w.copy.incidents|
    ensures CountOk(ActedDb(s, w, a), NextWorker(w, a, s))
  {
    hide LogsOk, Commit, Legal, IsWorkerTx, WorkerTx, NextWorker, HasCited;
    var tx := WorkerTx(w, a, s.settings);
    NextCited(w, a, s);
    if tx.Some? {
      WorkerTxLegal(w, a, s.settings);
      OwnCommit(s.db, tx.value);
      if !Owned(s.db, w.copy) { FencedCommitsNothing(s.db, tx.value); }
    }
  }

  /** Qualification under the lock: an eligible hit names a chunk of its own document's active version. */
  lemma EligibleIsQualified(k: Knowledge.State, info: Incident, h: Hit)
    requires KnowledgeInvariants.StateOk(k)
    requires Eligible(k, info, h).Judged? && Eligible(k, info, h).ok
    ensures var e := Eligible(k, info, h); Qualified(k, info, h, e.chunkId, e.chunk)
  {
    hide Anchored;
    assert KnowledgeInvariants.ChunkOk(k.sql, h.chunk.value);
    assert KnowledgeInvariants.DocOk(k.sql, h.doc);
  }

  /**
   A hit is judged eligible exactly when it names a chunk, a version and a document that are stored, the document is
   not deleted and has that version active, the chunk is of that version and of the current space, the document's
   environment is open or the incident's, and the alert name stands in the chunk.
   */
  lemma EligibleExactly(k: Knowledge.State, info: Incident, h: Hit)
    ensures var e := Eligible(k, info, h);
            (e.Judged? && e.ok) <==>
            && h.chunk.Some? && h.version.Some? && h.doc != "" && !h.incidentNote
            && h.chunk.value in k.sql.chunks && h.doc in k.sql.docs
            && (var c, d, name := k.sql.chunks[h.chunk.value], k.sql.docs[h.doc], Text.ToLower(Text.TrimSpace(info.name));
                var text := Text.ToLower(c.title + "\n" + c.snippet);
                && d.deletedAt.None? && d.active == Some(h.version.value)
                && c.version == h.version.value && c.space == k.space
                && d.environment in {"unknown", "all", info.environment}
                && name != "" && exists before, after :: text == before + name + after)
  {
    hide Text.ToLower, Text.TrimSpace, Text.Contains;
    if h.chunk.Some? && h.chunk.value in k.sql.chunks {
      var c := k.sql.chunks[h.chunk.value];
      Text.ContainsIs(Text.ToLower(c.title + "\n" + c.snippet), Text.ToLower(Text.TrimSpace(info.name)));
    }
  }

  lemma NextPhaseOk(s: System, w: Worker, a: Action)
    requires KnowledgeInvariants.StateOk(s.know) && PhaseOk(s, w)
    ensures PhaseOk(s, w.(phase := NextPhase(w, a, s)))
  {
    hide Eligible, Qualified, KnowledgeInvariants.StateOk;
    if a.Qualify? && w.phase.Qualifying? && w.phase.hits != [] {
      var e := Eligible(s.know, w.phase.info, w.phase.hits[0]);
      if e.Judged? && e.ok { EligibleIsQualified(s.know, w.phase.info, w.phase.hits[0]); }
    }
  }

  /** PhaseOk looks at the knowledge, the incidents, the copy and the phase only. */
  lemma PhaseFrame(s: System, s': System, w: Worker, w': Worker)
    requires PhaseOk(s, w) && s'.know == s.know && s'.incidents == s.incidents && w'.copy == w.copy && w'.phase == w.phase
    ensures PhaseOk(s', w')
  {
  }

  lemma ActedPhaseOk(s: System, i: nat, a: Action)
    requires KnowledgeInvariants.StateOk(s.know) && i in s.workers && PhaseOk(s, s.workers[i])
    ensures PhaseOk(Step(s, Act(i, a)), NextWorker(s.workers[i], a, s))
  {
    hide NextDb, NextPhase, WorkerTx, Outcome, KnowledgeInvariants.StateOk, NextWorkers, NextDispatcher, NextQueue, Qualified;
    var w := s.workers[i];
    var w' := NextWorker(w, a, s);
    NextPhaseOk(s, w, a);
    if w'.phase == NextPhase(w, a, s) {
      PhaseFrame(s, Step(s, Act(i, a)), w.(phase := NextPhase(w, a, s)), w');
    }
  }

  // ---------------------------------------------------------------- all workers

  lemma DeliveredCopyOk(db: Tables, id: Id, now: int)
    requires LogsOk(db) && ClaimTry(db, id, now).Claimed?
    ensures var w := Worker(ClaimTry(db, id, now).run, AtIncident(0), NoEvidence, false);
            CopyOk(Claim(db, id, now), w) && CountOk(Claim(db, id, now), w)
  {
    hide LogsOk, ClaimedEvents;
    RowOf(db, id);
  }

  lemma DeliveredOk(s: System, i: nat, id: Id, now: int)
    requires SystemOk(s) && i !in s.workers && ClaimTry(s.db, id, now).Claimed?
    ensures var s' := Step(s, Deliver(i, id, now));
            i in s'.workers && WorkerOk(s', s'.workers[i])
  {
    hide SystemOk, LogsOk, Claim, ClaimTry, CopyOk, CountOk, NextDispatcher, NextQueue;
    SystemLogs(s);
    DeliveredCopyOk(s.db, id, now);
  }

  lemma StepWorkers(s: System, l: Label)
    requires SystemOk(s)
    ensures WorkersOk(Step(s, l))
  {
    hide SystemOk, WorkerOk, NextDb, NextWorker, NextDispatcher, NextQueue, ClaimTry, Knowledge.Apply;
    var s' := Step(s, l);
    forall j | j in s'.workers ensures WorkerOk(s', s'.workers[j]) {
      if l.Act? && l.worker == j {
        ActedWorkerOk(s, j, l.action);
      } else if l.Deliver? && l.worker == j && j !in s.workers {
        DeliveredOk(s, j, l.id, l.now);
      } else {
        OtherWorkersOk(s, l, j);
      }
    }
  }

  lemma ActedWorkerOk(s: System, i: nat, a: Action)
    requires SystemOk(s) && i in s.workers
    ensures var s' := Step(s, Act(i, a)); i in s'.workers && WorkerOk(s', s'.workers[i])
  {
    hide CopyOk, CountOk, PhaseOk, SystemOk, WorkersOk, LogsOk, Commit, WorkerTx, NextWorker, NextDispatcher, NextQueue;
    SystemLogs(s);
    WorkerOf(s, i);
    CitingInRange(s, s.workers[i]);
    ActedCopyOk(s, s.workers[i], a);
    ActedCountOk(s, s.workers[i], a);
    ActedPhaseOk(s, i, a);
  }

  lemma CitingInRange(s: System, w: Worker)
    requires PhaseOk(s, w)
    ensures w.phase.Citing? ==> w.phase.k < |w.copy.incidents|
  {
  }

  lemma DeliveredDistinct(s: System, i: nat, id: Id, now: int)
    requires WorkersOk(s) && LogsOk(s.db) && DistinctAttempts(s.workers)
    requires i !in s.workers && ClaimTry(s.db, id, now).Claimed?
    ensures DistinctAttempts(s.workers[i := Worker(ClaimTry(s.db, id, now).run, AtIncident(0), NoEvidence, false)])
  {
    hide LogsOk, WorkersOk;
    RowOf(s.db, id);
    forall j | j in s.workers ensures s.workers[j].copy.id == id ==> s.workers[j].copy.attempt <= s.db.runs[id].attempt {
      CopyOf(s, j);
    }
  }

  lemma CopyOf(s: System, j: nat)
    requires WorkersOk(s) && j in s.workers
    ensures CopyOk(s.db, s.workers[j])
  {
    assert WorkerOk(s, s.workers[j]);
  }

  lemma StepDistinct(s: System, l: Label)
    requires WorkersOk(s) && LogsOk(s.db) && DistinctAttempts(s.workers)
    ensures DistinctAttempts(Step(s, l).workers)
  {
    hide LogsOk, WorkersOk, NextDb, NextPhase, Outcome, WorkerTx, NextDispatcher, NextQueue, ClaimTry;
    if l.Deliver? && l.worker !in s.workers && ClaimTry(s.db, l.id, l.now).Claimed? {
      DeliveredDistinct(s, l.worker, l.id, l.now);
    }
  }

  lemma StepVerdicts(s: System, l: Label)
    requires SystemOk(s)
    ensures VerdictsOk(Step(s, l).db)
  {
    hide SystemOk, TxOf, Commit, VerdictOk;
    SystemLogs(s);
    var tx := TxOf(s, l);
    if tx.Some? {
      forall id | id in Commit(s.db, tx.value).runs ensures VerdictOk(Commit(s.db, tx.value).runs[id].data) {
        SucceededBy(s, l, id);
      }
    }
  }

  /** Outside a worker's own finish, a run is succeeded only because it was. */
  lemma CommitVerdict(db: Tables, tx: Tx, id: Id)
    requires LogsOk(db) && Legal(tx) && !tx.WorkerFinishTx? && id in Commit(db, tx).runs
    requires id in db.runs ==> VerdictOk(db.runs[id].data)
    ensures VerdictOk(Commit(db, tx).runs[id].data)
  {
    hide LogsOk, Log, Notifies, BusinessKeyTaken, CitationClash, AlertEvidence;
    if id in db.runs { RowOf(db, id); }
  }

  /** A worker that still owns its run publishes its own count. */
  lemma FinishVerdict(s: System, w: Worker, a: Action, id: Id)
    requires LogsOk(s.db) && CopyOk(s.db, w) && CountOk(s.db, w)
    requires WorkerTx(w, a, s.settings).Some? && WorkerTx(w, a, s.settings).value.WorkerFinishTx?
    requires id in s.db.runs && VerdictOk(s.db.runs[id].data)
    ensures id in ActedDb(s, w, a).runs && VerdictOk(ActedDb(s, w, a).runs[id].data)
  {
    hide LogsOk, FinishedEvents, Notifies;
  }

  /** A run is succeeded because it was, or because its owner has just published its own count. */
  lemma SucceededBy(s: System, l: Label, id: Id)
    requires SystemOk(s) && TxOf(s, l).Some? && id in Commit(s.db, TxOf(s, l).value).runs
    ensures VerdictOk(Commit(s.db, TxOf(s, l).value).runs[id].data)
  {
    hide SystemOk, LogsOk, Commit, KnowledgeInvariants.StateOk, WorkersOk, Legal, IsWorkerTx, DistinctAttempts, CopyOk,
         CountOk, VerdictOk;
    SystemLogs(s);
    StepIsLegal(s, l);
    if TxOf(s, l).value.WorkerFinishTx? {
      OnlyWorkersFinish(s, l);
      WorkerFacts(s, l.worker);
      FinishKeepsRuns(s.db, TxOf(s, l).value);
      FinishVerdict(s, s.workers[l.worker], l.action, id);
    } else {
      CommitVerdict(s.db, TxOf(s, l).value, id);
    }
  }

  lemma OnlyWorkersFinish(s: System, l: Label)
    requires TxOf(s, l).Some? && TxOf(s, l).value.WorkerFinishTx?
    ensures l.Act? && l.worker in s.workers
  {
  }

  lemma FinishKeepsRuns(db: Tables, tx: Tx)
    requires tx.WorkerFinishTx?
    ensures Commit(db, tx).runs.Keys == db.runs.Keys
  {
  }

  lemma WorkerFacts(s: System, i: nat)
    requires WorkersOk(s) && i in s.workers
    ensures CopyOk(s.db, s.workers[i]) && CountOk(s.db, s.workers[i])
  {
    assert WorkerOk(s, s.workers[i]);
  }

  lemma StepOk(s: System, l: Label)
    requires SystemOk(s)
    ensures SystemOk(Step(s, l))
  {
    hide LogsOk, TablesOk, KnowledgeInvariants.StateOk, WorkersOk, DistinctAttempts, VerdictsOk, Step;
    SystemLogs(s);
    StepTables(s, l);
    StepKnowledge(s, l);
    StepWorkers(s, l);
    StepDistinct(s, l);
    StepVerdicts(s, l);
  }

  /** The invariant holds in every state the system reaches. */
  lemma {:induction false} ReachableOk(s: System, ls: seq<Label>)
    requires SystemOk(s)
    ensures SystemOk(After(s, ls))
    decreases |ls|
  {
    hide SystemOk, Step;
    if ls != [] {
      ReachableOk(s, ls[..|ls| - 1]);
      StepOk(After(s, ls[..|ls| - 1]), ls[|ls| - 1]);
    }
  }

  lemma InitialOk(s: System)
    requires Initial(s) && KnowledgeInvariants.StateOk(s.know)
    ensures SystemOk(s)
  {
  }
}
