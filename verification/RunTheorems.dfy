/**
 Safety of the diagnosis-run protocol over every interleaving of admissions, dispatches, deliveries,
 worker transactions, crashes, recoveries, notifications and knowledge operations.
 */
module RunTheorems {
  import opened Records
  import opened RunTables
  import opened RunInvariants
  import opened RunCommits
  import opened Protocol
  import opened ProtocolInvariants
  import Knowledge
  import KnowledgeInvariants
  import Text

  // ------------------------------------------------------------------ fencing

  lemma StepAdvances(s: System, l: Label, id: Id)
    requires SystemOk(s) && id in s.db.runs
    ensures id in Step(s, l).db.runs && Advances(s.db.runs[id], Step(s, l).db.runs[id])
  {
    hide SystemOk, LogsOk, Commit, Legal, TxOf, IsWorkerTx, Advances, Step;
    StepDb(s, l);
    SystemLogs(s);
    StepIsLegal(s, l);
    SameRowAdvances(s.db.runs[id]);
    if TxOf(s, l).Some? { CommitAdvances(s.db, TxOf(s, l).value, id); }
  }

  lemma SameRowAdvances(row: RunRow)
    ensures Advances(row, row)
  {
  }

  /** The attempt of a run never goes back. */
  lemma {:induction false} AttemptsAdvance(s: System, ls: seq<Label>, id: Id)
    requires SystemOk(s) && id in s.db.runs
    ensures id in After(s, ls).db.runs && After(s, ls).db.runs[id].attempt >= s.db.runs[id].attempt
    decreases |ls|
  {
    hide SystemOk, Step;
    if ls != [] {
      var init := ls[..|ls| - 1];
      AttemptsAdvance(s, init, id);
      ReachableOk(s, init);
      StepAdvances(After(s, init), ls[|ls| - 1], id);
    }
  }

  /** A worker's transaction changes the tables only while its attempt is current and the run is running. */
  lemma WorkerCommitsOnlyWhenOwner(s: System, i: nat, a: Action)
    requires i in s.workers
    ensures Step(s, Act(i, a)).db != s.db ==> Owned(s.db, s.workers[i].copy)
  {
    StepIsLegal(s, Act(i, a));
    if !Owned(s.db, s.workers[i].copy) && TxOf(s, Act(i, a)).Some? {
      FencedCommitsNothing(s.db, TxOf(s, Act(i, a)).value);
    }
  }

  /** A claim of the run, or its recovery, overtakes every worker that held it. */
  lemma TakeoverFences(s: System, l: Label, i: nat)
    requires SystemOk(s) && i in s.workers
    requires var id := s.workers[i].copy.id;
             (l.Deliver? && l.worker !in s.workers && l.id == id && ClaimTry(s.db, id, l.now).Claimed?)
             || (l.RecoverRuns? && IsRunning(s.db, id))
    ensures var copy := s.workers[i].copy;
            copy.id in Step(s, l).db.runs && Step(s, l).db.runs[copy.id].attempt > copy.attempt
  {
    hide SystemOk, WorkersOk, LogsOk, Log, ClaimedEvents, CountOk, NextDispatcher, NextQueue;
    SystemLogs(s);
    WorkerFacts(s, i);
    RowOf(s.db, s.workers[i].copy.id);
  }

  /** Once overtaken, a worker never changes a run, event, evidence or citation again, whatever happens in between. */
  lemma FencedForever(s: System, ls: seq<Label>, i: nat, a: Action)
    requires SystemOk(s) && i in s.workers
    requires s.db.runs[s.workers[i].copy.id].attempt > s.workers[i].copy.attempt
    requires i in After(s, ls).workers && After(s, ls).workers[i].copy == s.workers[i].copy
    ensures Step(After(s, ls), Act(i, a)).db == After(s, ls).db
  {
    hide SystemOk, WorkersOk, Step, After, CountOk;
    SystemLogs(s);
    WorkerFacts(s, i);
    AttemptsAdvance(s, ls, s.workers[i].copy.id);
    if Step(After(s, ls), Act(i, a)).db != After(s, ls).db {
      WorkerCommitsOnlyWhenOwner(After(s, ls), i, a);
    }
  }

  /** The attempts handed out by two claims of a run are different: the later one is larger. */
  lemma ClaimedAttemptsDiffer(s: System, id: Id, w1: nat, now1: int, ls: seq<Label>, now2: int)
    requires SystemOk(s) && w1 !in s.workers && ClaimTry(s.db, id, now1).Claimed?
    ensures var later := ClaimTry(After(Step(s, Deliver(w1, id, now1)), ls).db, id, now2);
            later.Claimed? ==> ClaimTry(s.db, id, now1).run.attempt < later.run.attempt
  {
    hide SystemOk, Step, After, ClaimTry;
    var s1 := Step(s, Deliver(w1, id, now1));
    StepOk(s, Deliver(w1, id, now1));
    ClaimHandsOutNext(s, id, w1, now1);
    AttemptsAdvance(s1, ls, id);
    ReachableOk(s1, ls);
    RunRowOf(After(s1, ls), id);
    if ClaimTry(After(s1, ls).db, id, now2).Claimed? { ClaimedIsNext(After(s1, ls).db, id, now2); }
  }

  lemma ClaimedIsNext(db: Tables, id: Id, now: int)
    requires ClaimTry(db, id, now).Claimed?
    ensures id in db.runs && ClaimTry(db, id, now).run.attempt == db.runs[id].data.attempt + 1
  {
  }

  lemma ClaimHandsOutNext(s: System, id: Id, w: nat, now: int)
    requires SystemOk(s) && w !in s.workers && ClaimTry(s.db, id, now).Claimed?
    ensures var s' := Step(s, Deliver(w, id, now));
            id in s'.db.runs && s'.db.runs[id].attempt == ClaimTry(s.db, id, now).run.attempt
  {
    hide SystemOk, ClaimedEvents;
  }

  lemma RunRowOf(s: System, id: Id)
    requires SystemOk(s) && id in s.db.runs
    ensures RowOk(s.db.runs[id], id, EventsOf(s.db, id)) && s.db.runs[id].attempt == s.db.runs[id].data.attempt
  {
    hide SystemOk, LogsOk;
    SystemLogs(s);
    RowOf(s.db, id);
  }

  // -------------------------------------------------- accounting and publication

  /**
   For every run of every reachable state: the i-th event has sequence i+1 and the stage attempt its started
   events give it, the attempt is the number of started and errored queue events, and there is exactly one
   report event when the run is terminal and none before. AttemptsAreSteps ties the queue events to steps.
   */
  lemma RunAccounting(s: System, ls: seq<Label>, id: Id, i: nat)
    requires SystemOk(s) && id in After(s, ls).db.runs
    ensures var db := After(s, ls).db; var es := EventsOf(db, id);
            && db.runs[id].attempt == CountEvents(es, QueueStage, Started) + CountEvents(es, QueueStage, Errored)
            && CountStage(es, ReportStage) == (if Terminal(db.runs[id].status) then 1 else 0)
            && (i < |es| ==>
                  && es[i].sequence == i + 1
                  && es[i].stageAttempt == Max(1, CountEvents(es[..i + 1], ExecutionStage(es[i].stage), Started)))
  {
    ReachableOk(s, ls);
    hide SystemOk, After;
    RunRowOf(After(s, ls), id);
    if i < |EventsOf(After(s, ls).db, id)| { EventLogAt(EventsOf(After(s, ls).db, id), i); }
  }

  /** The step is a delivery that claims the run. */
  ghost predicate ClaimStep(s: System, l: Label, id: Id) {
    l.Deliver? && l.worker !in s.workers && l.id == id && ClaimTry(s.db, id, l.now).Claimed?
  }

  /** The step is a start-up recovery that finds the run running. */
  ghost predicate RecoverStep(s: System, l: Label, id: Id) {
    l.RecoverRuns? && IsRunning(s.db, id)
  }

  ghost function ClaimSteps(s: System, ls: seq<Label>, id: Id): nat
    decreases |ls|
  {
    if ls == [] then 0
    else
      var init := ls[..|ls| - 1];
      ClaimSteps(s, init, id) + if ClaimStep(After(s, init), ls[|ls| - 1], id) then 1 else 0
  }

  ghost function RecoverSteps(s: System, ls: seq<Label>, id: Id): nat
    decreases |ls|
  {
    if ls == [] then 0
    else
      var init := ls[..|ls| - 1];
      RecoverSteps(s, init, id) + if RecoverStep(After(s, init), ls[|ls| - 1], id) then 1 else 0
  }

  lemma StepCounts(s: System, l: Label, id: Id)
    requires SystemOk(s)
    ensures var es, es' := EventsOf(s.db, id), EventsOf(Step(s, l).db, id);
            && CountEvents(es', QueueStage, Started) ==
               CountEvents(es, QueueStage, Started) + (if ClaimStep(s, l, id) then 1 else 0)
            && CountEvents(es', QueueStage, Errored) ==
               CountEvents(es, QueueStage, Errored) + (if RecoverStep(s, l, id) then 1 else 0)
  {
    hide SystemOk, LogsOk, Commit, Legal, Step, ClaimTry, CountEvents, WorkerTx;
    StepDb(s, l);
    SystemLogs(s);
    StepIsLegal(s, l);
    if TxOf(s, l).Some? {
      CommitCounts(s.db, TxOf(s, l).value, id);
      ActsDoNotClaim(s, l, id);
    }
  }

  lemma ActsDoNotClaim(s: System, l: Label, id: Id)
    requires TxOf(s, l).Some?
    ensures ClaimsRun(s.db, TxOf(s, l).value, id) <==> ClaimStep(s, l, id)
    ensures RecoversRun(s.db, TxOf(s, l).value, id) <==> RecoverStep(s, l, id)
  {
    hide ClaimTry, VerdictOf;
  }

  /**
   Started queue events grow by exactly the claims of a run, errored ones by exactly its recoveries, and its
   attempt by their sum, over any history; before its admission all three are zero.
   */
  lemma {:induction false} AttemptsAreSteps(s: System, ls: seq<Label>, id: Id)
    requires SystemOk(s)
    ensures var db, db' := s.db, After(s, ls).db;
            var claims, recoveries := ClaimSteps(s, ls, id), RecoverSteps(s, ls, id);
            && CountEvents(EventsOf(db', id), QueueStage, Started) == CountEvents(EventsOf(db, id), QueueStage, Started) + claims
            && CountEvents(EventsOf(db', id), QueueStage, Errored) == CountEvents(EventsOf(db, id), QueueStage, Errored) + recoveries
            && AttemptOf(db', id) == AttemptOf(db, id) + claims + recoveries
    decreases |ls|
  {
    hide SystemOk, Step, CountEvents, ClaimStep, RecoverStep;
    if ls != [] {
      var init := ls[..|ls| - 1];
      AttemptsAreSteps(s, init, id);
      ReachableOk(s, init);
      StepCounts(After(s, init), ls[|ls| - 1], id);
    }
    ReachableOk(s, ls);
    AttemptIsCount(s, id);
    AttemptIsCount(After(s, ls), id);
  }

  ghost function AttemptOf(db: Tables, id: Id): nat {
    if id in db.runs then db.runs[id].attempt else 0
  }

  lemma AttemptIsCount(s: System, id: Id)
    requires SystemOk(s)
    ensures AttemptOf(s.db, id) ==
            CountEvents(EventsOf(s.db, id), QueueStage, Started) + CountEvents(EventsOf(s.db, id), QueueStage, Errored)
  {
    hide SystemOk, LogsOk, CountEvents;
    SystemLogs(s);
    LogOf(s.db, id);
    if id in s.db.runs { RowOf(s.db, id); }
  }

  /** Once terminal, no step changes what the run published. */
  lemma {:induction false} PublishedOnce(s: System, ls: seq<Label>, id: Id)
    requires SystemOk(s) && id in s.db.runs && Terminal(s.db.runs[id].status)
    ensures id in After(s, ls).db.runs && SamePublication(s.db.runs[id].data, After(s, ls).db.runs[id].data)
    ensures After(s, ls).db.runs[id].status == s.db.runs[id].status
    decreases |ls|
  {
    RunRowOf(s, id);
    hide SystemOk, Step;
    if ls != [] {
      var init := ls[..|ls| - 1];
      PublishedOnce(s, init, id);
      ReachableOk(s, init);
      StepAdvances(After(s, init), ls[|ls| - 1], id);
      ReachableOk(s, ls);
      RunRowOf(After(s, init), id);
      RunRowOf(After(s, ls), id);
    }
  }

  /** The number of steps that changed the row of a run. */
  ghost function Saves(s: System, ls: seq<Label>, id: Id): nat
    decreases |ls|
  {
    if ls == [] then 0
    else
      var init := ls[..|ls| - 1];
      var before, after := After(s, init).db.runs, After(s, ls).db.runs;
      Saves(s, init, id) + if id in before && id in after && before[id] == after[id] then 0 else 1
  }

  /** The revision counts the committed changes of the run's row. */
  lemma {:induction false} RevisionCountsSaves(s: System, ls: seq<Label>, id: Id)
    requires SystemOk(s) && id in s.db.runs
    ensures id in After(s, ls).db.runs
    ensures After(s, ls).db.runs[id].revision == s.db.runs[id].revision + Saves(s, ls, id)
    decreases |ls|
  {
    hide SystemOk, Step;
    if ls != [] {
      var init := ls[..|ls| - 1];
      RevisionCountsSaves(s, init, id);
      ReachableOk(s, init);
      StepAdvances(After(s, init), ls[|ls| - 1], id);
    }
  }

  /** Admission starts the count: a run's revision is one plus the changes since it was admitted. */
  lemma RevisionFromAdmission(s: System, l: Label, ls: seq<Label>)
    requires SystemOk(s) && l.AdmitRun? && CanInsert(s.db, l.id, l.business)
    ensures var s1 := Step(s, l);
            && l.id in After(s1, ls).db.runs
            && After(s1, ls).db.runs[l.id].revision == 1 + Saves(s1, ls, l.id)
  {
    StepOk(s, l);
    assert l.id in Step(s, l).db.runs && Step(s, l).db.runs[l.id].revision == 1 by { hide SystemOk; }
    hide SystemOk, Step, After;
    RevisionCountsSaves(Step(s, l), ls, l.id);
  }

  // ----------------------------------------------------------------- citations

  /**
   In every reachable state a running or finished run cites only evidence recorded under its current attempt,
   its list as a set is the evidence of its citation rows, and a succeeded run is marked as cited exactly
   when the list is not empty.
   */
  lemma CitationsNeverMix(s: System, ls: seq<Label>, id: Id)
    requires SystemOk(s) && id in After(s, ls).db.runs
    ensures var db := After(s, ls).db; var run := db.runs[id].data;
            && (db.runs[id].status != Queued ==> forall c | c in run.citations ::
                  c in db.evidence && db.evidence[c].run == id && db.evidence[c].attempt == Some(db.runs[id].attempt))
            && (set c | c in run.citations) == (set k | k in db.citations && k.run == id :: db.citations[k].evidence)
            && (db.runs[id].status == Succeeded ==> (run.evidence == HasCitations <==> run.citations != []))
  {
    ReachableOk(s, ls);
    var s' := After(s, ls);
    hide After, WorkersOk, DistinctAttempts, KnowledgeInvariants.StateOk, LogsOk, EvidenceOk, OutboxOk, CitesOk;
    RunRowOf(s', id);
    CitationListIsTable(s'.db, id);
    forall c | c in s'.db.runs[id].data.citations && s'.db.runs[id].status != Queued
      ensures c in s'.db.evidence && s'.db.evidence[c].run == id && s'.db.evidence[c].attempt == Some(s'.db.runs[id].attempt)
    {
      CitationsOfCurrentAttempt(s'.db, id, c);
    }
    assert VerdictOk(s'.db.runs[id].data);
  }

  /** Only the commit of a qualified hit adds a citation row. */
  lemma OnlyCitesAdd(s: System, l: Label, k: CitationKey)
    requires k in Step(s, l).db.citations && k !in s.db.citations
    ensures l.Act? && l.worker in s.workers
    ensures var w := s.workers[l.worker];
            && w.phase.Citing? && w.phase.ok && w.phase.k < |w.copy.incidents|
            && k == CitationKey(w.copy.id, w.copy.incidents[w.phase.k], w.phase.chunkId)
  {
    hide Commit, Step, VerdictOf;
    StepDb(s, l);
    CommitCitations(s.db, TxOf(s, l).value, k);
  }

  lemma CommitCitations(db: Tables, tx: Tx, k: CitationKey)
    requires k in Commit(db, tx).citations && k !in db.citations
    ensures tx.WorkerCiteTx? && k == CitationKey(tx.copy.id, tx.incident, tx.chunkId)
  {
    hide Log, ClaimedEvents, FinishedEvents, FinishedRun, Notifies, BusinessKeyTaken, AlertEvidence, CitationClash, MarkedOutbox, RetryDelay,
         ClaimedRow, RowWith;
  }

  /**
   The step commits a citation whose chunk belongs to the active version, in the service's space, of an
   undeleted document whose environment is open or the incident's, that document is the hit's, and the alert name
   stands in the chunk.
   */
  ghost predicate CitesCurrent(s: System, l: Label, k: CitationKey) {
    && l.Act? && l.worker in s.workers && s.workers[l.worker].phase.Citing?
    && k.chunk in s.know.sql.chunks && k.incident in s.incidents
    && (var c, docs := s.know.sql.chunks[k.chunk], s.know.sql.docs;
        && c.version == k.chunk.version
        && c.doc in docs && docs[c.doc].deletedAt.None? && docs[c.doc].active == Some(c.version)
        && c.space == s.know.space
        && docs[c.doc].environment in {"unknown", "all", s.incidents[k.incident].environment}
        && s.workers[l.worker].phase.hit.doc == c.doc
        && NamedIn(s.incidents[k.incident].name, c))
  }

  /** The alert name, trimmed and in lower case, is not empty and stands somewhere in the chunk's text. */
  ghost predicate NamedIn(name: string, c: Chunk) {
    var anchor, text := Text.ToLower(Text.TrimSpace(name)), Text.ToLower(c.title + "\n" + c.snippet);
    anchor != "" && exists before, after :: text == before + anchor + after
  }

  lemma AnchoredIsNamed(name: string, c: Chunk)
    requires Anchored(name, c)
    ensures NamedIn(name, c)
  {
    hide Text.ToLower, Text.TrimSpace, Text.Contains;
    Text.ContainsIs(Text.ToLower(c.title + "\n" + c.snippet), Text.ToLower(Text.TrimSpace(name)));
  }

  /** A stale search cannot leak into a report: whatever was searched, only current chunks are cited. */
  lemma NoStaleCitation(s: System, l: Label, k: CitationKey)
    requires SystemOk(s)
    ensures k in Step(s, l).db.citations && k !in s.db.citations ==> CitesCurrent(s, l, k) && Step(s, l).know == s.know
  {
    hide *;
    if k in Step(s, l).db.citations && k !in s.db.citations {
      OnlyCitesAdd(s, l, k);
      CitingIsCurrent(s, l.worker, k);
      ActKeepsKnowledge(s, l);
    }
  }

  lemma CitingIsCurrent(s: System, i: nat, k: CitationKey)
    requires SystemOk(s) && i in s.workers
    requires var w := s.workers[i];
             && w.phase.Citing? && w.phase.ok && w.phase.k < |w.copy.incidents|
             && k == CitationKey(w.copy.id, w.copy.incidents[w.phase.k], w.phase.chunkId)
    ensures forall a :: CitesCurrent(s, Act(i, a), k)
  {
    assert WorkerOk(s, s.workers[i]);
    hide SystemOk, CopyOk, CountOk, NamedIn, Anchored;
    AnchoredIsNamed(s.workers[i].phase.info.name, s.workers[i].phase.chunk);
  }

  lemma ActKeepsKnowledge(s: System, l: Label)
    requires l.Act?
    ensures Step(s, l).know == s.know
  {
    hide NextDb, NextWorkers, NextDispatcher, NextQueue, LockFree, Knowledge.Apply;
  }

  /** Every citation row of every reachable state was committed by a step at which it was current. */
  lemma {:induction false} EveryCitationWasCurrent(s: System, ls: seq<Label>, k: CitationKey) returns (j: nat)
    requires SystemOk(s) && k in After(s, ls).db.citations && k !in s.db.citations
    ensures j < |ls| && CitesCurrent(After(s, ls[..j]), ls[j], k)
    decreases |ls|
  {
    hide SystemOk, Step, CitesCurrent;
    var init := ls[..|ls| - 1];
    if k in After(s, init).db.citations {
      j := EveryCitationWasCurrent(s, init, k);
      assert ls[..j] == init[..j];
    } else {
      j := |ls| - 1;
      ReachableOk(s, init);
      NoStaleCitation(After(s, init), ls[j], k);
    }
  }
}
