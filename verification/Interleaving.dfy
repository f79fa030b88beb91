/**
 Code that runs while others do: at every point where the code holds no transaction, an adversary may take any
 steps that are not the code's own.

 The adversary chooses by the state of the system and by the point. The code moves on between two points, or the
 points differ, so the adversary can choose freely at each.
 */
module Interleaving {
  import opened Records
  import opened RunTables
  import opened RunCommits
  import opened RunStore
  import opened Protocol
  import Knowledge

  /** The system can go from `s` to `t`. */
  ghost predicate Reaches(s: System, t: System) {
    exists ls :: After(s, ls) == t
  }

  lemma ReachesSelf(s: System)
    ensures Reaches(s, s)
  {
    assert After(s, []) == s;
  }

  lemma ReachesMore(s: System, t: System, l: Label)
    requires Reaches(s, t)
    ensures Reaches(s, Step(t, l))
  {
    hide Step;
    var ls :| After(s, ls) == t;
    assert (ls + [l])[..|ls + [l]| - 1] == ls;
    assert After(s, ls + [l]) == Step(t, l);
  }

  lemma {:induction false} ReachesAll(s: System, t: System, ls: seq<Label>)
    requires Reaches(s, t)
    ensures Reaches(s, After(t, ls))
    decreases |ls|
  {
    hide Step;
    if ls != [] {
      ReachesAll(s, t, ls[..|ls| - 1]);
      ReachesMore(s, After(t, ls[..|ls| - 1]), ls[|ls| - 1]);
    }
  }

  /** What the adversary leaves to the code: the moves of one worker, or those of the dispatcher. */
  datatype Code = WorkerCode(worker: nat) | DispatcherCode

  predicate Foreign(l: Label, code: Code) {
    match code
    case WorkerCode(i) => !((l.Act? || l.Deliver? || l.Crash?) && l.worker == i)
    case DispatcherCode =>
      !l.SelectBatch? && !l.Enqueue? && !l.EnqueueFails? && !l.MarkSent? && !l.AbortDispatch? && !l.RecoverRuns?
  }

  ghost predicate ForeignTo(others: (nat, System) -> seq<Label>, code: Code) {
    forall point: nat, s: System, j | 0 <= j < |others(point, s)| :: Foreign(others(point, s)[j], code)
  }

  /** What the code finds unchanged after others moved. */
  ghost predicate Undisturbed(s: System, t: System, code: Code) {
    && t.settings == s.settings && t.namespaced == s.namespaced
    && (forall x | x in s.incidents :: x in t.incidents && t.incidents[x] == s.incidents[x])
    && (match code
        case WorkerCode(i) =>
          && (i in t.workers <==> i in s.workers)
          && (i in s.workers ==> t.workers[i] == s.workers[i])
          && (i in s.workers && HoldsLock(s.workers[i]) ==> t.know == s.know)
        case DispatcherCode => t.dispatcher == s.dispatcher)
  }

  lemma ForeignStep(s: System, l: Label, code: Code)
    requires Foreign(l, code)
    ensures Undisturbed(s, Step(s, l), code)
  {
    hide NextDb, Knowledge.Apply, NextWorker, NextQueue, ClaimTry;
  }

  lemma StepKeepsConsistent(s: System, l: Label)
    requires Consistent(s.db)
    ensures Consistent(Step(s, l).db)
  {
    hide Consistent, Commit, TxOf, NextWorkers, NextDispatcher, NextQueue, LockFree, Knowledge.Apply;
    if TxOf(s, l).Some? { CommitKeepsConsistent(s.db, TxOf(s, l).value); }
  }

  lemma {:induction false} ForeignSteps(s: System, ls: seq<Label>, code: Code)
    requires Consistent(s.db) && forall j | 0 <= j < |ls| :: Foreign(ls[j], code)
    ensures Undisturbed(s, After(s, ls), code) && Consistent(After(s, ls).db)
    decreases |ls|
  {
    hide Step, Consistent, Foreign;
    if ls != [] {
      var init := ls[..|ls| - 1];
      ForeignSteps(s, init, code);
      ForeignStep(After(s, init), ls[|ls| - 1], code);
      StepKeepsConsistent(After(s, init), ls[|ls| - 1]);
    }
  }

  /** The system agrees with the database object. */
  ghost predicate Agree(s: System, db: Database)
    reads db
  {
    s.db == db.State() && db.Valid()
  }

  /** Others take the steps the adversary chooses. */
  method Yield(db: Database, ghost s0: System, s: System, others: (nat, System) -> seq<Label>, point: nat, ghost code: Code)
    returns (t: System)
    requires Agree(s, db) && Reaches(s0, s) && ForeignTo(others, code)
    modifies db
    ensures Agree(t, db) && Reaches(s0, t) && Undisturbed(s, t, code)
  {
    hide Consistent, Foreign, Reaches, After, Undisturbed;
    t := After(s, others(point, s));
    ForeignSteps(s, others(point, s), code);
    ReachesAll(s0, s, others(point, s));
    db.runs, db.events, db.evidence, db.citations, db.outbox := t.db.runs, t.db.events, t.db.evidence, t.db.citations, t.db.outbox;
    assert db.State() == t.db;
  }
}
