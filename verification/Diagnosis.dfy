/**
 A worker's own code, loop by loop: claim, retrieve and qualify for every incident, judge, finish.

 Each method works on the database object beside the state of the whole system, and yields to all other workers,
 the dispatcher, recovery, notifications, admissions and knowledge operations before each of its transactions and
 reads. It proves that what happened is a run of the step machine of Protocol, so every invariant and theorem about
 that machine holds of the code as it is interleaved.
 */
module Diagnosis {
  import opened Records
  import opened RunTables
  import opened RunCommits
  import opened RunStore
  import opened Protocol
  import opened Interleaving
  import opened ProtocolInvariants
  import Knowledge

  // ---------------------------------------------------- one action at a time

  ghost function Moved(s: System, i: nat, db: Tables, w: Worker): System {
    s.(db := db, workers := s.workers[i := w])
  }

  lemma ActMoves(s: System, i: nat, a: Action)
    requires i in s.workers
    ensures Step(s, Act(i, a)) == Moved(s, i, NextDb(s, Act(i, a)), NextWorker(s.workers[i], a, s))
  {
    hide NextDb, NextWorker, LockFree, Knowledge.Apply;
  }

  /** A worker keeps going while it owns its run, and stops when it is fenced. */
  ghost function Onward(db: Tables, w: Worker, p: Phase): Worker {
    if Owned(db, w.copy) then w.(phase := p) else w.(phase := Done)
  }

  lemma BeginMoves(s: System, i: nat)
    requires i in s.workers && s.workers[i].phase.AtIncident? && s.workers[i].phase.k < |s.workers[i].copy.incidents|
    requires s.workers[i].copy.incidents[s.workers[i].phase.k] in s.incidents
    ensures var w, k := s.workers[i], s.workers[i].phase.k;
            Step(s, Act(i, BeginIncident)) ==
            Moved(s, i, EventTx(s.db, w.copy, RetrievalStage, Started),
                  Onward(s.db, w, Searching(k, s.incidents[w.copy.incidents[k]])))
  {
    hide Step, EventTx;
    ActMoves(s, i, BeginIncident);
  }

  lemma SearchMoves(s: System, i: nat, hits: Option<seq<Hit>>)
    requires i in s.workers && s.workers[i].phase.Searching? && s.workers[i].phase.k < |s.workers[i].copy.incidents|
    ensures var w, k := s.workers[i], s.workers[i].phase.k;
            var incident := w.copy.incidents[k];
            Step(s, Act(i, Search(hits))) ==
            Moved(s, i, RetrievalTx(s.db, w.copy, incident, hits.Some?),
                  match RetrievalTry(s.db, w.copy, incident)
                  case Fenced => w.(phase := Done)
                  case Rejected => w.(phase := Failing("constraint"))
                  case Committed => w.(phase := Qualifying(k, w.phase.info, if hits.Some? then hits.value else [], 0),
                                       sourceFailed := w.sourceFailed || hits.None?))
  {
    hide Step, RetrievalTx;
    ActMoves(s, i, Search(hits));
  }

  lemma QualifyMoves(s: System, i: nat)
    requires i in s.workers && s.workers[i].phase.Qualifying? && s.workers[i].phase.hits != []
    ensures var w, p := s.workers[i], s.workers[i].phase;
            Step(s, Act(i, Qualify)) ==
            Moved(s, i, s.db, w.(phase :=
              match Eligible(s.know, p.info, p.hits[0])
              case EmptyHit => Qualifying(p.k, p.info, p.hits[1..], p.qualified)
              case MissingRow => Failing("missing row")
              case Judged(id, chunk, ok) => Citing(p.k, p.info, p.hits[1..], p.qualified, p.hits[0], id, chunk, ok)))
  {
    hide Step, Eligible;
    ActMoves(s, i, Qualify);
  }

  lemma CommitMoves(s: System, i: nat)
    requires i in s.workers && s.workers[i].phase.Citing? && s.workers[i].phase.k < |s.workers[i].copy.incidents|
    ensures var w, p := s.workers[i], s.workers[i].phase;
            Step(s, Act(i, CommitHit)) ==
            Moved(s, i, if p.ok then CiteTx(s.db, w.copy, w.copy.incidents[p.k], p.chunkId, p.chunk) else s.db,
                  Onward(s.db, w, Qualifying(p.k, p.info, p.hits, p.qualified + if p.ok then 1 else 0)))
  {
    hide Step, CiteTx;
    ActMoves(s, i, CommitHit);
  }

  lemma EndMoves(s: System, i: nat)
    requires i in s.workers && s.workers[i].phase.Qualifying? && s.workers[i].phase.hits == []
    ensures var w, p := s.workers[i], s.workers[i].phase;
            Step(s, Act(i, EndHits)) ==
            Moved(s, i, s.db, w.(phase := AtIncident(p.k + 1), state := if p.qualified > 0 then HasCitations else w.state))
  {
    hide Step;
    ActMoves(s, i, EndHits);
  }

  lemma JudgeMoves(s: System, i: nat, a: Action)
    requires i in s.workers && (a.SkipJudge? || a.StartJudge?)
    requires s.workers[i].phase.AtIncident? && s.workers[i].phase.k >= |s.workers[i].copy.incidents|
    ensures var w := s.workers[i];
            Step(s, Act(i, a)) ==
            Moved(s, i, EventTx(s.db, w.copy, JudgeStage, if a.SkipJudge? then Skipped else Started),
                  Onward(s.db, w, if a.SkipJudge? then Finishing(None) else Judging))
  {
    hide Step, EventTx;
    ActMoves(s, i, a);
  }

  lemma ScoreMoves(s: System, i: nat, score: Option<int>)
    requires i in s.workers && s.workers[i].phase.Judging?
    ensures var w := s.workers[i];
            Step(s, Act(i, EndJudge(score))) ==
            Moved(s, i, EventTx(s.db, w.copy, JudgeStage, if score.Some? then Completed else Errored),
                  Onward(s.db, w, Finishing(score)))
  {
    hide Step, EventTx;
    ActMoves(s, i, EndJudge(score));
  }

  lemma PublishMoves(s: System, i: nat, text: string, now: int, elapsed: int)
    requires i in s.workers && s.workers[i].phase.Finishing?
    ensures var w := s.workers[i];
            Step(s, Act(i, Publish(text, now, elapsed))) ==
            Moved(s, i, FinishTx(s.db, s.settings, w.copy, VerdictOf(w, text, w.phase.score), now, elapsed), w.(phase := Done))
  {
    hide Step, FinishTx;
    ActMoves(s, i, Publish(text, now, elapsed));
  }

  lemma FailMoves(s: System, i: nat, error: string, now: int, elapsed: int)
    requires i in s.workers && !s.workers[i].phase.Done?
    ensures var w := s.workers[i];
            var v := Verdict(Failed, SourceUnavailable, SafeReport, None, Some(error));
            var t := Moved(s, i, s.db, w.(phase := Failing(error)));
            && Step(s, Act(i, GiveUp(error))) == t
            && Step(t, Act(i, PublishFailure(now, elapsed))) ==
               Moved(s, i, FinishTx(s.db, s.settings, w.copy, v, now, elapsed), w.(phase := Done))
  {
    hide Step, FinishTx;
    ActMoves(s, i, GiveUp(error));
    var t := Moved(s, i, s.db, s.workers[i].(phase := Failing(error)));
    ActMoves(t, i, PublishFailure(now, elapsed));
  }

  // --------------------------------------------------------------- the loops

  datatype Exit = Going | Stopped | Broken(error: string)

  /** The system agrees with the database object, was reached from `s0`, and worker `i` is `w`. */
  ghost predicate At(s0: System, s: System, i: nat, db: Database, w: Worker)
    reads db
  {
    Agree(s, db) && Reaches(s0, s) && i in s.workers && s.workers[i] == w
  }

  /** How a part of the work ends: at the given worker, fenced, or with an error still to report. */
  ghost predicate Ends(s0: System, s: System, i: nat, db: Database, exit: Exit, w: Worker)
    reads db
  {
    && Agree(s, db) && Reaches(s0, s) && i in s.workers && s.workers[i].copy == w.copy
    && match exit
       case Going => s.workers[i] == w
       case Stopped => s.workers[i].phase.Done?
       case Broken(_) => !s.workers[i].phase.Done?
  }

  /** Whatever the world answers: searches by incident, the judge, and everybody else's steps. */
  datatype World = World(search: nat -> Option<seq<Hit>>, judge: Option<Option<int>>, expired: nat, text: string, now: int, elapsed: int, others: (nat, System) -> seq<Label>)

  lemma HoldsStill(s: System, t: System, i: nat, w: Worker)
    requires Undisturbed(s, t, WorkerCode(i)) && i in s.workers && s.workers[i] == w
    ensures i in t.workers && t.workers[i] == w && (HoldsLock(w) ==> t.know == s.know) && t.settings == s.settings
    ensures forall x | x in s.incidents :: x in t.incidents && t.incidents[x] == s.incidents[x]
  {
  }

  /** Yields to the others; the worker itself stands still. */
  method Pause(db: Database, ghost s0: System, s: System, ghost i: nat, ghost w: Worker, world: World, point: nat)
    returns (t: System)
    requires At(s0, s, i, db, w) && ForeignTo(world.others, WorkerCode(i))
    modifies db
    ensures At(s0, t, i, db, w) && (HoldsLock(w) ==> t.know == s.know) && t.settings == s.settings
    ensures forall x | x in s.incidents :: x in t.incidents && t.incidents[x] == s.incidents[x]
  {
    hide Consistent, Reaches, ForeignTo, Undisturbed;
    t := Yield(db, s0, s, world.others, point, WorkerCode(i));
    HoldsStill(s, t, i, w);
  }

  /** Reads what eligibility needs of one hit and decides it. */
  method Decide(db: Database, ghost s0: System, s: System, i: nat, r: Run, k: nat, info: Incident, rest: seq<Hit>, qualified: nat,
                ghost w: Worker) returns (verdict: Eligibility, t: System)
    requires rest != [] && At(s0, s, i, db, w.(phase := Qualifying(k, info, rest, qualified))) && w.copy == r
    ensures verdict == Eligible(s.know, info, rest[0])
    ensures t.know == s.know && t.settings == s.settings
    ensures At(s0, t, i, db, w.(phase :=
              match verdict
              case EmptyHit => Qualifying(k, info, rest[1..], qualified)
              case MissingRow => Failing("missing row")
              case Judged(id, chunk, ok) => Citing(k, info, rest[1..], qualified, rest[0], id, chunk, ok)))
  {
    hide Step, Eligible, Consistent, Reaches;
    verdict := Eligible(s.know, info, rest[0]);
    QualifyMoves(s, i);
    ReachesMore(s0, s, Act(i, Qualify));
    t := Step(s, Act(i, Qualify));
  }

  /** Records one decided hit; the citation when it qualified. */
  method RecordHit(db: Database, ghost s0: System, s: System, i: nat, r: Run, k: nat, info: Incident, rest: seq<Hit>,
                   qualified: nat, h: Hit, id: ChunkId, chunk: Chunk, ok: bool, ghost w: Worker) returns (exit: Exit, t: System)
    requires k < |r.incidents| && w.copy == r
    requires At(s0, s, i, db, w.(phase := Citing(k, info, rest, qualified, h, id, chunk, ok)))
    modifies db
    ensures t.know == s.know && t.settings == s.settings && !exit.Broken?
    ensures Ends(s0, t, i, db, exit, w.(phase := Qualifying(k, info, rest, qualified + if ok then 1 else 0)))
  {
    hide Step, CiteTx, Consistent, Reaches, Owned;
    CommitMoves(s, i);
    ReachesMore(s0, s, Act(i, CommitHit));
    t := Step(s, Act(i, CommitHit));
    var mine := db.OwnedBy(r);
    if !mine {
      FencedCites(db.State(), r, r.incidents[k], id, chunk);
      return Stopped, t;
    }
    if ok {
      var committed := db.Cite(r, r.incidents[k], id, chunk);
    }
    exit := Going;
  }

  lemma FencedCites(db: Tables, r: Run, incident: Id, id: ChunkId, chunk: Chunk)
    requires !Owned(db, r)
    ensures CiteTx(db, r, incident, id, chunk) == db
  {
  }

  /** Qualifies and records the hits of one incident, under the read side of the knowledge lock. */
  method QualifyHits(db: Database, ghost s0: System, start: System, i: nat, r: Run, k: nat, info: Incident, hits: seq<Hit>,
                     world: World, ghost w: Worker)
    returns (exit: Exit, qualified: nat, s: System)
    requires k < |r.incidents| && w.copy == r && ForeignTo(world.others, WorkerCode(i))
    requires At(s0, start, i, db, w.(phase := Qualifying(k, info, hits, 0)))
    modifies db
    ensures s.know == start.know && s.settings == start.settings
    ensures Ends(s0, s, i, db, exit, w.(phase := Qualifying(k, info, [], qualified)))
  {
    hide Step, Eligible, Consistent, Reaches, ForeignTo;
    exit, qualified, s := Going, 0, start;
    for j := 0 to |hits|
      invariant exit.Going? && s.know == start.know && s.settings == start.settings
      invariant At(s0, s, i, db, w.(phase := Qualifying(k, info, hits[j..], qualified)))
    {
      assert hits[j..][1..] == hits[j + 1..];
      s := Pause(db, s0, s, i, w.(phase := Qualifying(k, info, hits[j..], qualified)), world, 0);
      var verdict;
      verdict, s := Decide(db, s0, s, i, r, k, info, hits[j..], qualified, w);
      if verdict.MissingRow? {
        return Broken("missing row"), qualified, s;
      }
      if verdict.Judged? {
        var id, chunk, ok := verdict.chunkId, verdict.chunk, verdict.ok;
        s := Pause(db, s0, s, i, w.(phase := Citing(k, info, hits[j + 1..], qualified, hits[j], id, chunk, ok)), world, 0);
        exit, s := RecordHit(db, s0, s, i, r, k, info, hits[j + 1..], qualified, hits[j], id, chunk, ok, w);
        if exit.Stopped? {
          return;
        }
        qualified := qualified + if verdict.ok then 1 else 0;
      }
    }
    assert hits[|hits|..] == [];
  }

  /** One pass of the incident loop; the search finds nothing to read when its source fails. */
  method HandleIncident(db: Database, ghost s0: System, start: System, i: nat, r: Run, k: nat, world: World,
                        state: EvidenceStatus, sourceFailed: bool)
    returns (exit: Exit, state': EvidenceStatus, sourceFailed': bool, s: System)
    requires k < |r.incidents| && At(s0, start, i, db, Worker(r, AtIncident(k), state, sourceFailed))
    requires ForeignTo(world.others, WorkerCode(i))
    modifies db
    ensures s.settings == start.settings
    ensures Ends(s0, s, i, db, exit, Worker(r, AtIncident(k + 1), state', sourceFailed'))
  {
    hide Step, EventTx, RetrievalTx, Consistent, Reaches, ForeignTo;
    state', sourceFailed' := state, sourceFailed;
    ghost var w := Worker(r, AtIncident(k), state, sourceFailed);
    s := Pause(db, s0, start, i, w, world, 0);
    var incident := r.incidents[k];
    if incident !in s.incidents {
      return Broken("incident"), state', sourceFailed', s;
    }
    var info := s.incidents[incident];
    s := Pause(db, s0, s, i, w, world, 1);
    BeginMoves(s, i);
    ReachesMore(s0, s, Act(i, BeginIncident));
    s := Step(s, Act(i, BeginIncident));
    var outcome := db.WriteEvent(r, RetrievalStage, Started);
    if outcome.Fenced? {
      return Stopped, state', sourceFailed', s;
    }
    s := Pause(db, s0, s, i, w.(phase := Searching(k, info)), world, 0);
    var hits := world.search(k);
    SearchMoves(s, i, hits);
    ReachesMore(s0, s, Act(i, Search(hits)));
    s := Step(s, Act(i, Search(hits)));
    outcome := db.RecordRetrieval(r, incident, hits.Some?);
    if outcome.Fenced? {
      return Stopped, state', sourceFailed', s;
    }
    if outcome.Rejected? {
      return Broken("constraint"), state', sourceFailed', s;
    }
    if hits.None? {
      sourceFailed' := true;
    }
    exit, state', s := EndIncident(db, s0, s, i, r, k, info, if hits.Some? then hits.value else [], world, state, sourceFailed');
  }

  /** Qualifies the hits of an incident and notes whether any was cited. */
  method EndIncident(db: Database, ghost s0: System, start: System, i: nat, r: Run, k: nat, info: Incident, hits: seq<Hit>,
                     world: World, state: EvidenceStatus, sourceFailed: bool)
    returns (exit: Exit, state': EvidenceStatus, s: System)
    requires k < |r.incidents| && At(s0, start, i, db, Worker(r, Qualifying(k, info, hits, 0), state, sourceFailed))
    requires ForeignTo(world.others, WorkerCode(i))
    modifies db
    ensures s.settings == start.settings
    ensures Ends(s0, s, i, db, exit, Worker(r, AtIncident(k + 1), state', sourceFailed))
  {
    hide Step, Consistent, Reaches, ForeignTo;
    var qualified;
    state' := state;
    exit, qualified, s := QualifyHits(db, s0, start, i, r, k, info, hits, world, Worker(r, AtIncident(k), state, sourceFailed));
    if exit.Going? {
      EndMoves(s, i);
      ReachesMore(s0, s, Act(i, EndHits));
      s := Step(s, Act(i, EndHits));
      if qualified > 0 {
        state' := HasCitations;
      }
    }
  }

  /** The judge's events; without a judge the stage is skipped. */
  method Judge(db: Database, ghost s0: System, start: System, i: nat, r: Run, world: World, ghost w: Worker)
    returns (exit: Exit, score: Option<int>, s: System)
    requires w.copy == r && w.phase.AtIncident? && w.phase.k >= |r.incidents| && At(s0, start, i, db, w)
    requires ForeignTo(world.others, WorkerCode(i))
    modifies db
    ensures s.settings == start.settings && !exit.Broken?
    ensures Ends(s0, s, i, db, exit, w.(phase := Finishing(score)))
  {
    hide Step, EventTx, Consistent, Reaches, ForeignTo;
    score := None;
    var outcome;
    s := Pause(db, s0, start, i, w, world, 0);
    if world.judge.None? {
      JudgeMoves(s, i, SkipJudge);
      ReachesMore(s0, s, Act(i, SkipJudge));
      s := Step(s, Act(i, SkipJudge));
      outcome := db.WriteEvent(r, JudgeStage, Skipped);
      return if outcome.Fenced? then Stopped else Going, score, s;
    }
    JudgeMoves(s, i, StartJudge);
    ReachesMore(s0, s, Act(i, StartJudge));
    s := Step(s, Act(i, StartJudge));
    outcome := db.WriteEvent(r, JudgeStage, Started);
    if outcome.Fenced? {
      return Stopped, score, s;
    }
    s := Pause(db, s0, s, i, w.(phase := Judging), world, 0);
    score := world.judge.value;
    ScoreMoves(s, i, score);
    ReachesMore(s0, s, Act(i, EndJudge(score)));
    s := Step(s, Act(i, EndJudge(score)));
    outcome := db.WriteEvent(r, JudgeStage, if score.Some? then Completed else Errored);
    exit := if outcome.Fenced? then Stopped else Going;
  }

  method Diagnose(db: Database, ghost s0: System, start: System, i: nat, cfg: Settings, r: Run, world: World)
    returns (exit: Exit, s: System)
    requires At(s0, start, i, db, Worker(r, AtIncident(0), NoEvidence, false)) && start.settings == cfg
    requires ForeignTo(world.others, WorkerCode(i))
    modifies db
    ensures s.settings == cfg && !exit.Going?
    ensures Ends(s0, s, i, db, exit, Worker(r, Done, NoEvidence, false))
  {
    hide Step, FinishTx, Consistent, Reaches, ForeignTo;
    var state, sourceFailed := NoEvidence, false;
    s := start;
    for k := 0 to |r.incidents|
      invariant s.settings == cfg && At(s0, s, i, db, Worker(r, AtIncident(k), state, sourceFailed))
    {
      if k == world.expired {
        return Broken("timeout"), s;
      }
      exit, state, sourceFailed, s := HandleIncident(db, s0, s, i, r, k, world, state, sourceFailed);
      if !exit.Going? {
        return;
      }
    }
    ghost var w := Worker(r, AtIncident(|r.incidents|), state, sourceFailed);
    var score;
    exit, score, s := Judge(db, s0, s, i, r, world, w);
    if !exit.Going? {
      return;
    }
    s := Pause(db, s0, s, i, w.(phase := Finishing(score)), world, 0);
    PublishMoves(s, i, world.text, world.now, world.elapsed);
    ReachesMore(s0, s, Act(i, Publish(world.text, world.now, world.elapsed)));
    s := Step(s, Act(i, Publish(world.text, world.now, world.elapsed)));
    var status, error := Succeeded, None;
    if sourceFailed {
      state, status, error := SourceUnavailable, Failed, Some("source_unavailable");
    }
    var outcome := db.Finish(cfg, r, Verdict(status, state, world.text, score, error), world.now, world.elapsed);
    exit := Stopped;
  }

  /** Reports an error, as the claimed run's failure. */
  method ReportFailure(db: Database, ghost s0: System, start: System, i: nat, cfg: Settings, r: Run, error: string, world: World)
    returns (s: System)
    requires Agree(start, db) && Reaches(s0, start) && i in start.workers
    requires start.workers[i].copy == r && !start.workers[i].phase.Done?
    requires start.settings == cfg && ForeignTo(world.others, WorkerCode(i))
    modifies db
    ensures Ends(s0, s, i, db, Stopped, Worker(r, Done, NoEvidence, false))
  {
    hide Step, FinishTx, Consistent, Reaches, ForeignTo;
    s := Pause(db, s0, start, i, start.workers[i], world, 0);
    FailMoves(s, i, error, world.now, world.elapsed);
    ReachesMore(s0, s, Act(i, GiveUp(error)));
    s := Step(s, Act(i, GiveUp(error)));
    ReachesMore(s0, s, Act(i, PublishFailure(world.now, world.elapsed)));
    s := Step(s, Act(i, PublishFailure(world.now, world.elapsed)));
    var outcome := db.Finish(cfg, r, Verdict(Failed, SourceUnavailable, SafeReport, None, Some(error)), world.now, world.elapsed);
  }

  /**
   A delivered task, from claim to report. Whatever the world answers and whatever everybody else does in between,
   the database ends as some run of the step machine leaves it, and the worker ends done.
   */
  method Process(db: Database, start: System, i: nat, id: Id, world: World) returns (claim: ClaimOutcome, s: System)
    requires Agree(start, db) && i !in start.workers && ForeignTo(world.others, WorkerCode(i))
    modifies db
    ensures Agree(s, db) && Reaches(start, s)
    ensures claim.Claimed? ==> i in s.workers && s.workers[i].copy == claim.run && s.workers[i].phase.Done?
  {
    hide Step, FinishTx, Claim, Consistent, Reaches, ForeignTo, Undisturbed;
    ReachesSelf(start);
    s := Yield(db, start, start, world.others, 0, WorkerCode(i));
    StillAbsent(start, s, i);
    DeliverMoves(s, i, id, world.now);
    ReachesMore(start, s, Deliver(i, id, world.now));
    var cfg := s.settings;
    s := Step(s, Deliver(i, id, world.now));
    claim := db.Claim(id, world.now);
    if !claim.Claimed? {
      return;
    }
    var exit;
    exit, s := Diagnose(db, start, s, i, cfg, claim.run, world);
    if exit.Broken? {
      s := ReportFailure(db, start, s, i, cfg, claim.run, exit.error, world);
    }
  }

  lemma StillAbsent(s: System, t: System, i: nat)
    requires Undisturbed(s, t, WorkerCode(i)) && i !in s.workers
    ensures i !in t.workers
  {
  }
}
