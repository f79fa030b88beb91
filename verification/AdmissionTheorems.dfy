/**
 What admission promises over any history of batches, manual requests and run transactions.
 */
module AdmissionTheorems {
  import opened Records
  import opened RunTables
  import opened RunCommits
  import opened RunStore
  import opened Ordering
  import opened Admission
  import opened AdmissionRuns

  /** The sets of incidents that have an automatic run. */
  ghost function Sets(db: Tables): set<set<Id>> {
    set id | id in db.runs && db.runs[id].business.AutomaticKey? :: Members(db.runs[id].business.incidents)
  }

  /** The incidents a batch reports as firing. */
  ghost function Batch(h: Names, obs: seq<Observation>, now: int): set<Id> {
    Members(FiringIds(h, obs, now))
  }

  ghost predicate WellFormed(h: Names, s: State, obs: seq<Observation>, now: int) {
    GoodSize(obs) && ObserveAll(h, s, obs, now).Some?
  }

  lemma NormalMembers(ids: seq<Id>)
    ensures Members(Normal(ids)) == Members(ids) && Increasing(Normal(ids))
  {
    hide Normal, Increasing;
    NormalForm(ids);
  }

  lemma SameKey(key: seq<Id>, ids: seq<Id>)
    requires Increasing(key) && Members(key) == Members(ids)
    ensures key == Normal(ids)
  {
    hide Normal, Increasing;
    NormalForm(ids);
    forall x ensures x in key <==> x in Normal(ids) { assert x in Members(key) <==> x in Members(ids); }
    IncreasingIsUnique(key, Normal(ids));
  }

  /** A batch finds a run by its key exactly when some run was admitted for the same set. */
  lemma KeyFindsSet(h: Names, db: Tables, ids: seq<Id>)
    requires NamedOk(h, db)
    ensures HasRun(h, db, AutomaticKey(Normal(ids))) <==> Members(ids) in Sets(db)
    ensures {} !in Sets(db)
  {
    hide Normal, Increasing, Members;
    NormalMembers(ids);
    if Members(ids) in Sets(db) {
      var id :| id in db.runs && db.runs[id].business.AutomaticKey? && Members(db.runs[id].business.incidents) == Members(ids);
      SameKey(db.runs[id].business.incidents, ids);
    }
    forall id | id in db.runs && db.runs[id].business.AutomaticKey? ensures Members(db.runs[id].business.incidents) != {} {
      NonEmpty(db.runs[id].business.incidents);
    }
  }

  lemma NonEmpty(ids: seq<Id>)
    requires ids != []
    ensures Members(ids) != {}
  {
    assert ids[0] in Members(ids);
  }

  lemma InsertSets(h: Names, db: Tables, ids: seq<Id>, business: BusinessKey, alerts: seq<string>, now: int)
    requires Injective(h) && Consistent(db) && NamedOk(h, db) && KeyOk(business)
    requires CanInsert(db, h.runId(business), business)
    ensures Sets(InsertRun(db, h.runId(business), ids, business, alerts, now)) ==
            Sets(db) + if business.AutomaticKey? then {Members(business.incidents)} else {}
  {
    hide Consistent, NamedOk, InsertRun, Injective, KeyOk, Members;
    var db' := InsertRun(db, h.runId(business), ids, business, alerts, now);
    InsertNamed(h, db, ids, business, alerts, now);
    assert h.runId(business) !in db.runs;
    forall x | x in Sets(db) ensures x in Sets(db') {
      var id :| id in db.runs && db.runs[id].business.AutomaticKey? && Members(db.runs[id].business.incidents) == x;
      assert id in db'.runs && db'.runs[id] == db.runs[id];
    }
  }

  ghost predicate Accepted(out: Outcome) { out.Existing? || out.Admitted? }

  /** Every outcome of a batch, decided by its set of firing incidents. */
  lemma AdmitVerdict(h: Names, s: State, obs: seq<Observation>, ready: bool, now: int)
    requires Injective(h) && StateOk(h, s)
    ensures var (t, out) := AdmitTx(h, s, obs, ready, now);
            var ok, batch := WellFormed(h, s, obs, now), Batch(h, obs, now);
            && (out.Refused? <==> !ok)
            && (out.NothingFiring? <==> ok && batch == {})
            && (out.Existing? <==> ok && batch in Sets(s.tables))
            && (out.Unavailable? <==> ok && batch != {} && batch !in Sets(s.tables) && !ready)
            && (out.Admitted? <==> ok && batch != {} && batch !in Sets(s.tables) && ready)
            && (out.Refused? || out.Unavailable? ==> t == s)
            && (Accepted(out) ==> out.run.id == h.runId(AutomaticKey(Normal(FiringIds(h, obs, now)))))
            && (!out.Admitted? ==> t.tables == s.tables)
            && Sets(t.tables) == Sets(s.tables) + if Accepted(out) then {batch} else {}
  {
    hide Consistent, NamedOk, ObservationsOk, RequestsOk, ObserveAll, FiringIds, Normal, CanInsert, InsertRun, Alerts, Linked,
         Injective, Sets, Members, KeyOk;
    var ids := FiringIds(h, obs, now);
    var key := AutomaticKey(Normal(ids));
    KeyIsSet(ids, ids);
    KeyFindsSet(h, s.tables, ids);
    FreeKeyInserts(h, s.tables, key);
    if HasRun(h, s.tables, key) { OwnId(s.tables, h.runId(key)); }
    if ObserveAll(h, s, obs, now).Some? {
      ObserveAllKeeps(h, s, obs, now);
      if AdmitTx(h, s, obs, ready, now).1.Admitted? {
        NormalKey(ids);
        NormalMembers(ids);
        InsertSets(h, s.tables, Normal(ids), key, Alerts(h, obs), now);
      }
    }
  }

  // ------------------------------------------------------------ one run per set

  lemma RunSets(db: Tables, tx: Tx)
    requires Consistent(db) && !tx.InsertRunTx?
    ensures Sets(Commit(db, tx)) == Sets(db)
  {
    hide Consistent, Commit, Members;
    CommitKeepsKeys(db, tx);
    var db' := Commit(db, tx);
    forall x | x in Sets(db) ensures x in Sets(db') {
      var id :| id in db.runs && db.runs[id].business.AutomaticKey? && Members(db.runs[id].business.incidents) == x;
      assert id in db'.runs;
    }
  }

  lemma RediagnoseSets(h: Names, s: State, incident: Id, key: string, body: string, ready: bool, now: int)
    requires Injective(h) && StateOk(h, s)
    ensures Sets(RediagnoseTx(h, s, incident, key, body, ready, now).0.tables) == Sets(s.tables)
  {
    hide Consistent, NamedOk, ObservationsOk, RequestsOk, CanInsert, InsertRun, Linked, LatestOf, Injective, Sets;
    if RediagnoseTx(h, s, incident, key, body, ready, now).1.Admitted? {
      var alert := h.alert(LatestOf(s.observations, incident).value.(status := "firing"));
      InsertSets(h, s.tables, [incident], ManualKey(incident, key), [alert], now);
    }
  }

  ghost function Gained(h: Names, s: State, op: Op): set<set<Id>> {
    if op.AdmitOp? && Accepted(Apply(h, s, op).1) then {Batch(h, op.obs, op.now)} else {}
  }

  lemma ApplySets(h: Names, s: State, op: Op)
    requires Injective(h) && StateOk(h, s)
    ensures Sets(Apply(h, s, op).0.tables) == Sets(s.tables) + Gained(h, s, op)
  {
    hide Sets, AdmitTx, RediagnoseTx, Commit, Batch, Injective, Consistent, NamedOk, RequestsOk, ObservationsOk, Normal;
    match op {
      case AdmitOp(obs, ready, now) => AdmitVerdict(h, s, obs, ready, now);
      case RediagnoseOp(incident, key, body, ready, now) => RediagnoseSets(h, s, incident, key, body, ready, now);
      case RunOp(tx) => if !tx.InsertRunTx? { RunSets(s.tables, tx); }
    }
  }

  /** The firing sets of all batches that were answered with a run. */
  ghost function AcceptedSets(h: Names, s: State, ops: seq<Op>): set<set<Id>> {
    if ops == [] then {}
    else
      var init := ops[..|ops| - 1];
      AcceptedSets(h, s, init) + Gained(h, Exec(h, s, init), ops[|ops| - 1])
  }

  lemma {:induction false} ExecSets(h: Names, s: State, ops: seq<Op>)
    requires Injective(h) && StateOk(h, s)
    ensures Sets(Exec(h, s, ops).tables) == Sets(s.tables) + AcceptedSets(h, s, ops)
  {
    hide Injective, StateOk, Apply, Sets, Gained;
    if ops != [] {
      var init := ops[..|ops| - 1];
      ExecSets(h, s, init);
      ExecOk(h, s, init);
      ApplySets(h, Exec(h, s, init), ops[|ops| - 1]);
    }
  }

  lemma StartOk(h: Names)
    ensures StateOk(h, EmptyState) && Sets(EmptyTables) == {}
  {
  }

  lemma SetNamesRun(h: Names, db: Tables, a: Id, b: Id)
    requires NamedOk(h, db) && a in db.runs && b in db.runs
    requires db.runs[a].business.AutomaticKey? && db.runs[b].business.AutomaticKey?
    requires Members(db.runs[a].business.incidents) == Members(db.runs[b].business.incidents)
    ensures a == b
  {
    hide Normal, Increasing, Members;
    SameKey(db.runs[a].business.incidents, db.runs[b].business.incidents);
    SameKey(db.runs[b].business.incidents, db.runs[b].business.incidents);
  }

  /**
   Over any history, automatic runs and the distinct sets of firing incidents answered with a run
   correspond one to one.
   */
  lemma OneRunPerSet(h: Names, ops: seq<Op>)
    requires Injective(h)
    ensures var db := Exec(h, EmptyState, ops).tables;
            && Sets(db) == AcceptedSets(h, EmptyState, ops)
            && (forall a, b | a in db.runs && b in db.runs && db.runs[a].business.AutomaticKey? && db.runs[b].business.AutomaticKey? ::
                  Members(db.runs[a].business.incidents) == Members(db.runs[b].business.incidents) ==> a == b)
  {
    hide Injective, Sets, AcceptedSets, Exec, NamedOk, Consistent, RequestsOk, ObservationsOk, Members;
    StartOk(h);
    ExecOk(h, EmptyState, ops);
    ExecSets(h, EmptyState, ops);
    var db := Exec(h, EmptyState, ops).tables;
    forall a, b | a in db.runs && b in db.runs && db.runs[a].business.AutomaticKey? && db.runs[b].business.AutomaticKey?
                  && Members(db.runs[a].business.incidents) == Members(db.runs[b].business.incidents)
      ensures a == b
    {
      SetNamesRun(h, db, a, b);
    }
  }

  // -------------------------------------------------------------------- replays

  lemma {:induction false} SetsOnlyGrow(h: Names, s: State, ops: seq<Op>)
    requires Injective(h) && StateOk(h, s)
    ensures Sets(s.tables) <= Sets(Exec(h, s, ops).tables)
  {
    hide Injective, StateOk, Sets, Exec, AcceptedSets;
    ExecSets(h, s, ops);
  }

  /**
   Once a set was answered with a run, any later well-formed batch of the same set, in any order and with any
   repetitions, is answered with that run whether or not the queue is ready, and adds no row to the run tables.
   */
  lemma ReplayReturnsSameRun(h: Names, s: State, first: Op, between: seq<Op>, again: Op)
    requires Injective(h) && StateOk(h, s) && first.AdmitOp? && again.AdmitOp?
    requires Batch(h, again.obs, again.now) == Batch(h, first.obs, first.now)
    ensures var (s1, answer) := Apply(h, s, first);
            var t := Exec(h, s1, between);
            var (t', out) := Apply(h, t, again);
            Accepted(answer) && WellFormed(h, t, again.obs, again.now) ==>
              out.Existing? && out.run.id == answer.run.id && t'.tables == t.tables
  {
    hide Injective, StateOk, Sets, Exec, AdmitTx, RediagnoseTx, Commit, Normal, FiringIds, WellFormed, Members;
    var (s1, answer) := Apply(h, s, first);
    var t := Exec(h, s1, between);
    AdmitVerdict(h, s, first.obs, first.ready, first.now);
    ApplyOk(h, s, first);
    SetsOnlyGrow(h, s1, between);
    ExecOk(h, s1, between);
    AdmitVerdict(h, t, again.obs, again.ready, again.now);
    KeyIsSet(FiringIds(h, first.obs, first.now), FiringIds(h, again.obs, again.now));
  }

  lemma ApplyKeepsRequest(h: Names, s: State, op: Op, k: RequestKey)
    requires StateOk(h, s) && k in s.requests
    ensures k in Apply(h, s, op).0.requests && Apply(h, s, op).0.requests[k] == s.requests[k]
  {
    hide Consistent, NamedOk, RequestsOk, ObserveAll, FiringIds, Normal, CanInsert, InsertRun, Alerts, Linked, Commit, LatestOf,
         ObservationsOk, HasRun;
    if op.AdmitOp? && ObserveAll(h, s, op.obs, op.now).Some? {
      ObserveAllKeeps(h, s, op.obs, op.now);
    }
  }

  lemma {:induction false} ExecKeepsRequest(h: Names, s: State, ops: seq<Op>, k: RequestKey)
    requires Injective(h) && StateOk(h, s) && k in s.requests
    ensures k in Exec(h, s, ops).requests && Exec(h, s, ops).requests[k] == s.requests[k]
  {
    hide Injective, StateOk, Apply;
    if ops != [] {
      ExecKeepsRequest(h, s, ops[..|ops| - 1], k);
      ExecOk(h, s, ops[..|ops| - 1]);
      ApplyKeepsRequest(h, Exec(h, s, ops[..|ops| - 1]), ops[|ops| - 1], k);
    }
  }

  lemma RequestRemembered(h: Names, s: State, op: Op)
    requires Injective(h) && StateOk(h, s) && op.RediagnoseOp? && Accepted(Apply(h, s, op).1)
    ensures var k := RequestKey(op.incident, op.key);
            var (t, out) := Apply(h, s, op);
            && k in t.requests && t.requests[k] == RequestRow(op.body, out.run.id)
            && op.key != "" && |op.key| <= 200
  {
    hide Consistent, NamedOk, ObservationsOk, CanInsert, InsertRun, Linked, LatestOf, Injective;
    if Apply(h, s, op).1.Existing? {
      OwnId(s.tables, s.requests[RequestKey(op.incident, op.key)].run);
    }
  }

  lemma RequestAnswered(h: Names, s: State, op: Op)
    requires StateOk(h, s) && op.RediagnoseOp? && RequestKey(op.incident, op.key) in s.requests && op.key != "" && |op.key| <= 200
    ensures var row := s.requests[RequestKey(op.incident, op.key)];
            var (t, out) := Apply(h, s, op);
            && t == s
            && (if op.body == row.body then out.Existing? && out.run.id == row.run else out.Mismatch?)
  {
    hide NamedOk, ObservationsOk, CanInsert, InsertRun, Linked, LatestOf, Consistent;
    OwnId(s.tables, s.requests[RequestKey(op.incident, op.key)].run);
  }

  /** A manual request key is answered with its run for the same body, and refused for another one, outage or not. */
  lemma ManualReplay(h: Names, s: State, first: Op, between: seq<Op>, again: Op)
    requires Injective(h) && StateOk(h, s) && first.RediagnoseOp? && again.RediagnoseOp?
    requires again.incident == first.incident && again.key == first.key
    ensures var (s1, answer) := Apply(h, s, first);
            var t := Exec(h, s1, between);
            var (t', out) := Apply(h, t, again);
            Accepted(answer) ==>
              && t' == t
              && (if again.body == first.body then out.Existing? && out.run.id == answer.run.id else out.Mismatch?)
  {
    hide Injective, StateOk, Apply, Exec;
    var (s1, answer) := Apply(h, s, first);
    ApplyOk(h, s, first);
    if Accepted(answer) {
      RequestRemembered(h, s, first);
      ExecKeepsRequest(h, s1, between, RequestKey(first.incident, first.key));
      ExecOk(h, s1, between);
      RequestAnswered(h, Exec(h, s1, between), again);
    }
  }

  // ------------------------------------------------------------------ incidents

  /** What an incident keeps for ever, and its resolution instant, which only moves later. */
  ghost predicate Follows(a: IncidentRow, b: IncidentRow) {
    && b == a.(resolved := b.resolved, resolvedAt := b.resolvedAt, lastObservedAt := b.lastObservedAt, latestRun := b.latestRun)
    && (a.resolved ==> b.resolved)
    && (a.resolvedAt.Some? ==> b.resolvedAt.Some? && a.resolvedAt.value <= b.resolvedAt.value)
  }

  ghost predicate AllFollow(m: map<Id, IncidentRow>, m': map<Id, IncidentRow>) {
    forall id | id in m :: id in m' && Follows(m[id], m'[id])
  }

  lemma AllFollowTransitive(a: map<Id, IncidentRow>, b: map<Id, IncidentRow>, c: map<Id, IncidentRow>)
    requires AllFollow(a, b) && AllFollow(b, c)
    ensures AllFollow(a, c)
  {
    forall id | id in a ensures id in c && Follows(a[id], c[id]) { assert id in b; }
  }

  lemma {:induction false} ObserveAllFollows(h: Names, s: State, obs: seq<Observation>, now: int)
    requires ObserveAll(h, s, obs, now).Some?
    ensures var t := ObserveAll(h, s, obs, now).value;
            && AllFollow(s.incidents, t.incidents)
            && forall id | id in t.incidents && id !in s.incidents :: id in FiringIds(h, obs, now)
  {
    hide Observe, Canonical, AllFollow;
    if obs == [] {
      SelfFollows(s.incidents);
    } else {
      var init, o := obs[..|obs| - 1], obs[|obs| - 1];
      var t := ObserveAll(h, s, init, now).value;
      ObserveAllFollows(h, s, init, now);
      ObserveFollows(h, t, o, now);
      AllFollowTransitive(s.incidents, t.incidents, Observe(h, t, o, now).value.incidents);
    }
  }

  lemma SelfFollows(m: map<Id, IncidentRow>)
    ensures AllFollow(m, m)
  {
  }

  lemma ObserveFollows(h: Names, s: State, o: Observation, now: int)
    requires Observe(h, s, o, now).Some?
    ensures var t := Observe(h, s, o, now).value;
            && AllFollow(s.incidents, t.incidents)
            && forall id | id in t.incidents && id !in s.incidents ::
                 !IsResolved(o) && Canonical(h, o, now).Some? && id == h.incidentId(Canonical(h, o, now).value.key)
  {
    hide Canonical, EndOf, Audit, NewIncident;
  }

  lemma LinkedFollows(m: map<Id, IncidentRow>, ids: seq<Id>, run: Id)
    ensures AllFollow(m, Linked(m, ids, run)) && Linked(m, ids, run).Keys == m.Keys
  {
  }

  /**
   No operation forgets an incident or moves its resolution back, and only a firing observation creates one:
   a resolution without its incident is kept in the log alone.
   */
  lemma IncidentsFollow(h: Names, s: State, op: Op)
    ensures var t := Apply(h, s, op).0;
            && AllFollow(s.incidents, t.incidents)
            && forall id | id in t.incidents && id !in s.incidents :: op.AdmitOp? && id in Batch(h, op.obs, op.now)
  {
    hide AllFollow, ObserveAll, FiringIds, Normal, CanInsert, InsertRun, Alerts, Linked, Commit, LatestOf, HasRun;
    SelfFollows(s.incidents);
    match op {
      case AdmitOp(obs, ready, now) =>
        if ObserveAll(h, s, obs, now).Some? {
          ObserveAllFollows(h, s, obs, now);
          var t, ids := ObserveAll(h, s, obs, now).value, Normal(FiringIds(h, obs, now));
          var linked := Linked(t.incidents, ids, h.runId(AutomaticKey(ids)));
          LinkedFollows(t.incidents, ids, h.runId(AutomaticKey(ids)));
          AllFollowTransitive(s.incidents, t.incidents, linked);
        }
      case RediagnoseOp(incident, key, body, ready, now) => LinkedFollows(s.incidents, [incident], h.runId(ManualKey(incident, key)));
      case RunOp(_) =>
    }
  }

  lemma {:induction false} IncidentHistory(h: Names, s: State, ops: seq<Op>)
    ensures AllFollow(s.incidents, Exec(h, s, ops).incidents)
  {
    hide AllFollow, Apply;
    if ops == [] {
      SelfFollows(s.incidents);
    } else {
      var t := Exec(h, s, ops[..|ops| - 1]);
      IncidentHistory(h, s, ops[..|ops| - 1]);
      IncidentsFollow(h, t, ops[|ops| - 1]);
      AllFollowTransitive(s.incidents, t.incidents, Exec(h, s, ops).incidents);
    }
  }

  // ------------------------------------------------- admission inside the run protocol

  /** The transactions of the run protocol that a history of admissions commits. */
  ghost function Txs(h: Names, s: State, ops: seq<Op>): seq<Tx> {
    if ops == [] then []
    else
      var t, op := Exec(h, s, ops[..|ops| - 1]), ops[|ops| - 1];
      Txs(h, s, ops[..|ops| - 1]) + TxOfOp(h, t, op)
  }

  ghost function TxOfOp(h: Names, s: State, op: Op): seq<Tx> {
    match op
    case AdmitOp(obs, ready, now) =>
      var ids := Normal(FiringIds(h, obs, now));
      if Apply(h, s, op).1.Admitted?
      then [InsertRunTx(h.runId(AutomaticKey(ids)), ids, AutomaticKey(ids), Alerts(h, obs), now)] else []
    case RediagnoseOp(incident, key, body, ready, now) =>
      if Apply(h, s, op).1.Admitted?
      then
        var alert := h.alert(LatestOf(s.observations, incident).value.(status := "firing"));
        [InsertRunTx(h.runId(ManualKey(incident, key)), [incident], ManualKey(incident, key), [alert], now)]
      else []
    case RunOp(tx) => if tx.InsertRunTx? then [] else [tx]
  }

  ghost function CommitAll(db: Tables, txs: seq<Tx>): Tables {
    if txs == [] then db else Commit(CommitAll(db, txs[..|txs| - 1]), txs[|txs| - 1])
  }

  lemma CommitOne(db: Tables, txs: seq<Tx>, more: seq<Tx>)
    requires |more| <= 1
    ensures CommitAll(db, txs + more) == if more == [] then CommitAll(db, txs) else Commit(CommitAll(db, txs), more[0])
  {
    hide Commit;
    if more == [] {
      assert txs + more == txs;
    } else {
      assert (txs + more)[..|txs + more| - 1] == txs;
    }
  }

  lemma StepRefines(h: Names, s: State, op: Op)
    requires ObservationsOk(h, s)
    ensures var more := TxOfOp(h, s, op);
            |more| <= 1 && Apply(h, s, op).0.tables == if more == [] then s.tables else Commit(s.tables, more[0])
  {
    hide Consistent, NamedOk, ObserveAll, FiringIds, Normal, CanInsert, InsertRun, Alerts, Linked, LatestOf, HasRun, ObservationsOk,
         Claim, Recover, EventTx, RetrievalTx, CiteTx, FinishTx, MarkSentTx, RetryTx, NotifyStartTx, NotifyEndTx;
    if op.AdmitOp? && ObserveAll(h, s, op.obs, op.now).Some? {
      ObserveAllKeeps(h, s, op.obs, op.now);
    }
  }

  /** Admission changes the run tables only by inserting runs: every history is a run of the protocol's transactions. */
  lemma {:induction false} HistoryRefines(h: Names, s: State, ops: seq<Op>)
    requires Injective(h) && StateOk(h, s)
    ensures Exec(h, s, ops).tables == CommitAll(s.tables, Txs(h, s, ops))
  {
    hide Injective, StateOk, Apply, TxOfOp, CommitAll, Commit;
    if ops == [] {
      NoCommits(s.tables);
    } else {
      var init, t := ops[..|ops| - 1], Exec(h, s, ops[..|ops| - 1]);
      HistoryRefines(h, s, init);
      ExecOk(h, s, init);
      ObservationsHold(h, t);
      StepRefines(h, t, ops[|ops| - 1]);
      CommitOne(s.tables, Txs(h, s, init), TxOfOp(h, t, ops[|ops| - 1]));
    }
  }

  lemma NoCommits(db: Tables)
    ensures CommitAll(db, []) == db
  {
  }

  lemma ObservationsHold(h: Names, s: State)
    requires StateOk(h, s)
    ensures ObservationsOk(h, s)
  {
  }
}
