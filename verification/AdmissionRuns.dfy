/**
 Admission transactions and what they promise over any history: one run per set of firing incidents,
 replays that return it, and refusals that change nothing.
 */
module AdmissionRuns {
  import opened Records
  import opened RunTables
  import opened RunCommits
  import opened RunStore
  import opened Admission

  datatype Outcome =
    | Refused
    | Mismatch
    | Unavailable
    | NothingFiring
    | Existing(run: Run)
    | Admitted(run: Run)

  /** The firing observations of a payload. */
  function Alerts(h: Names, obs: seq<Observation>): seq<string> {
    if obs == [] then []
    else
      var o := obs[|obs| - 1];
      Alerts(h, obs[..|obs| - 1]) + if o.status == "firing" then [h.alert(o)] else []
  }

  function Linked(incidents: map<Id, IncidentRow>, ids: seq<Id>, run: Id): map<Id, IncidentRow> {
    map i | i in incidents :: if i in ids then incidents[i].(latestRun := Some(run)) else incidents[i]
  }

  predicate HasRun(h: Names, tables: Tables, business: BusinessKey) {
    var id := h.runId(business);
    id in tables.runs && tables.runs[id].business == business
  }

  predicate GoodSize(obs: seq<Observation>) { 0 < |obs| <= 100 }

  function AdmitTx(h: Names, s: State, obs: seq<Observation>, ready: bool, now: int): (State, Outcome) {
    if !GoodSize(obs) then (s, Refused)
    else
      match ObserveAll(h, s, obs, now)
      case None => (s, Refused)
      case Some(t) =>
        var ids := Normal(FiringIds(h, obs, now));
        var business := AutomaticKey(ids);
        var id := h.runId(business);
        if ids == [] then (t, NothingFiring)
        else if HasRun(h, s.tables, business) then (t, Existing(s.tables.runs[id].data))
        else if !ready then (s, Unavailable)
        else if !CanInsert(s.tables, id, business) then (s, Refused)
        else (t.(tables := InsertRun(s.tables, id, ids, business, Alerts(h, obs), now), incidents := Linked(t.incidents, ids, id)),
              Admitted(NewRun(id, ids, now)))
  }

  /** SELECT ... ORDER BY rowid DESC LIMIT 1 */
  function LatestOf(rows: seq<ObservationRow>, incident: Id): Option<Observation> {
    if rows == [] then None
    else if rows[|rows| - 1].incident == Some(incident) then Some(rows[|rows| - 1].data)
    else LatestOf(rows[..|rows| - 1], incident)
  }

  function RediagnoseTx(h: Names, s: State, incident: Id, key: string, body: string, ready: bool, now: int): (State, Outcome) {
    var request, business := RequestKey(incident, key), ManualKey(incident, key);
    var id := h.runId(business);
    if key == "" || |key| > 200 then (s, Refused)
    else if request in s.requests then
      var row := s.requests[request];
      (s, if row.body != body then Mismatch else if row.run in s.tables.runs then Existing(s.tables.runs[row.run].data) else Refused)
    else if !ready then (s, Unavailable)
    else if incident !in s.incidents || LatestOf(s.observations, incident).None? then (s, Refused)
    else if !CanInsert(s.tables, id, business) then (s, Refused)
    else
      var alert := h.alert(LatestOf(s.observations, incident).value.(status := "firing"));
      (s.(tables := InsertRun(s.tables, id, [incident], business, [alert], now),
          incidents := Linked(s.incidents, [incident], id),
          requests := s.requests[request := RequestRow(body, id)]),
       Admitted(NewRun(id, [incident], now)))
  }

  /** Admissions, manual requests, and every other transaction of the run protocol. */
  datatype Op =
    | AdmitOp(obs: seq<Observation>, ready: bool, now: int)
    | RediagnoseOp(incident: Id, key: string, body: string, ready: bool, now: int)
    | RunOp(tx: Tx)

  function Apply(h: Names, s: State, op: Op): (State, Outcome) {
    match op
    case AdmitOp(obs, ready, now) => AdmitTx(h, s, obs, ready, now)
    case RediagnoseOp(incident, key, body, ready, now) => RediagnoseTx(h, s, incident, key, body, ready, now)
    case RunOp(tx) => (if tx.InsertRunTx? then s else s.(tables := Commit(s.tables, tx)), NothingFiring)
  }

  function Exec(h: Names, s: State, ops: seq<Op>): State {
    if ops == [] then s else Apply(h, Exec(h, s, ops[..|ops| - 1]), ops[|ops| - 1]).0
  }

  // ------------------------------------------------------------------ invariants

  /** Firing observations belong to the incident their key names, and every incident was observed. */
  ghost predicate ObservationsOk(h: Names, s: State) {
    && (forall i | 0 <= i < |s.observations| ::
          var row := s.observations[i];
          && (!IsResolved(row.data) ==> row.incident.Some?)
          && (row.incident.Some? ==> row.incident.value == h.incidentId(row.key)))
    && (forall id | id in s.incidents :: Observed(s.observations, id))
  }

  ghost predicate Observed(rows: seq<ObservationRow>, id: Id) {
    exists i | 0 <= i < |rows| :: rows[i].incident == Some(id)
  }

  ghost predicate KeyOk(b: BusinessKey) {
    b.AutomaticKey? ==> b.incidents != [] && Increasing(b.incidents)
  }

  /** A run is named by its business key. */
  ghost predicate NamedOk(h: Names, db: Tables) {
    forall id | id in db.runs :: id == h.runId(db.runs[id].business) && KeyOk(db.runs[id].business)
  }

  ghost predicate RequestsOk(h: Names, s: State) {
    && (forall k | k in s.requests ::
          s.requests[k].run == h.runId(ManualKey(k.incident, k.key)) && HasRun(h, s.tables, ManualKey(k.incident, k.key)))
    && (forall id | id in s.tables.runs && s.tables.runs[id].business.ManualKey? ::
          RequestKey(s.tables.runs[id].business.incident, s.tables.runs[id].business.key) in s.requests)
  }

  ghost predicate StateOk(h: Names, s: State) {
    Consistent(s.tables) && NamedOk(h, s.tables) && RequestsOk(h, s) && ObservationsOk(h, s)
  }

  lemma AuditKeeps(h: Names, rows: seq<ObservationRow>, key: IncidentKey, incident: Option<Id>, o: Observation, id: Id)
    ensures Observed(rows, id) ==> Observed(Audit(rows, key, incident, o), id)
    ensures !Recorded(rows, key, o) && incident == Some(id) ==> Observed(Audit(rows, key, incident, o), id)
  {
    if Observed(rows, id) {
      var i :| 0 <= i < |rows| && rows[i].incident == Some(id);
      assert Audit(rows, key, incident, o)[i].incident == Some(id);
    }
    if !Recorded(rows, key, o) {
      assert Audit(rows, key, incident, o)[|rows|].incident == incident;
    }
  }

  lemma FiringRecorded(h: Names, s: State, key: IncidentKey, o: Observation)
    requires ObservationsOk(h, s) && Recorded(s.observations, key, o) && !IsResolved(o)
    ensures Observed(s.observations, h.incidentId(key))
  {
    var i :| 0 <= i < |s.observations| && s.observations[i].key == key && s.observations[i].data == o;
    assert s.observations[i].incident == Some(h.incidentId(key));
  }

  /** One observation keeps the log sound, touches no run, and makes a firing incident known. */
  lemma ObserveKeeps(h: Names, s: State, o: Observation, now: int)
    requires ObservationsOk(h, s) && Observe(h, s, o, now).Some?
    ensures var t := Observe(h, s, o, now).value;
            && ObservationsOk(h, t) && t.tables == s.tables && t.requests == s.requests
            && s.incidents.Keys <= t.incidents.Keys
            && Canonical(h, o, now).Some?
            && (!IsResolved(o) ==> h.incidentId(Canonical(h, o, now).value.key) in t.incidents)
  {
    hide Canonical, EndOf, Resolve, NewIncident, Recorded, Observed;
    var t, c := Observe(h, s, o, now).value, Canonical(h, o, now).value;
    var id := h.incidentId(c.key);
    var incident := if id !in s.incidents && IsResolved(o) then None else Some(id);
    assert t.observations == Audit(s.observations, c.key, incident, o);
    forall i | i in t.incidents ensures Observed(t.observations, i) {
      AuditKeeps(h, s.observations, c.key, incident, o, i);
      if i !in s.incidents && Recorded(s.observations, c.key, o) { FiringRecorded(h, s, c.key, o); }
    }
  }

  lemma {:induction false} ObserveAllKeeps(h: Names, s: State, obs: seq<Observation>, now: int)
    requires ObservationsOk(h, s) && ObserveAll(h, s, obs, now).Some?
    ensures var t := ObserveAll(h, s, obs, now).value;
            && ObservationsOk(h, t) && t.tables == s.tables && t.requests == s.requests
            && s.incidents.Keys <= t.incidents.Keys
            && forall id | id in FiringIds(h, obs, now) :: id in t.incidents
  {
    hide ObservationsOk, Observe, Canonical;
    if obs != [] {
      ObserveAllKeeps(h, s, obs[..|obs| - 1], now);
      ObserveKeeps(h, ObserveAll(h, s, obs[..|obs| - 1], now).value, obs[|obs| - 1], now);
    }
  }

  /** No other transaction of the protocol adds, removes or renames a run. */
  lemma CommitKeepsKeys(db: Tables, tx: Tx)
    requires Consistent(db) && !tx.InsertRunTx?
    ensures Commit(db, tx).runs.Keys == db.runs.Keys
    ensures forall id | id in db.runs :: Commit(db, tx).runs[id].business == db.runs[id].business
  {
    hide Commit;
    forall id | id in db.runs ensures id in Commit(db, tx).runs && Commit(db, tx).runs[id].business == db.runs[id].business {
      CommitRow(db, tx, id);
    }
    CommitAddsNoRun(db, tx);
  }

  lemma CommitAddsNoRun(db: Tables, tx: Tx)
    requires !tx.InsertRunTx?
    ensures Commit(db, tx).runs.Keys <= db.runs.Keys
  {
    hide Log, RowWith, ClaimedRow, FinishedRun, CitingRun, NotifiedRun, EnqueuedRun, RecoveredRun, ClaimedEvents, FinishedEvents,
         Notifies, CitationClash, MarkedOutbox, RetryDelay, InsertRun;
  }

  lemma RunKeeps(h: Names, s: State, tx: Tx)
    requires StateOk(h, s) && !tx.InsertRunTx?
    ensures StateOk(h, s.(tables := Commit(s.tables, tx)))
  {
    hide Commit, Consistent, KeyOk, Observed;
    CommitKeepsConsistent(s.tables, tx);
    CommitKeepsKeys(s.tables, tx);
  }

  lemma LinkedKeeps(h: Names, s: State, ids: seq<Id>, run: Id)
    requires ObservationsOk(h, s)
    ensures ObservationsOk(h, s.(incidents := Linked(s.incidents, ids, run)))
  {
    hide Observed;
  }

  /** A free business key always has room for its run: ids, events, evidence and outbox rows come with runs. */
  lemma FreeKeyInserts(h: Names, db: Tables, business: BusinessKey)
    requires Injective(h) && Consistent(db) && NamedOk(h, db)
    ensures CanInsert(db, h.runId(business), business) <==> !HasRun(h, db, business)
    ensures HasRun(h, db, business) <==> BusinessKeyTaken(db, business)
  {
    hide KeyOk;
    FreshRun(db, h.runId(business));
  }

  lemma InsertNamed(h: Names, db: Tables, ids: seq<Id>, business: BusinessKey, alerts: seq<string>, now: int)
    requires Injective(h) && Consistent(db) && NamedOk(h, db) && KeyOk(business)
    requires CanInsert(db, h.runId(business), business)
    ensures var db' := InsertRun(db, h.runId(business), ids, business, alerts, now);
            && Consistent(db') && NamedOk(h, db')
            && db'.runs.Keys == db.runs.Keys + {h.runId(business)}
            && (forall id | id in db.runs :: db'.runs[id] == db.runs[id])
            && db'.runs[h.runId(business)].business == business
  {
    hide Consistent, AdmittedEvents, AlertEvidence, KeyOk, BusinessKeyTaken;
    InsertKeeps(db, h.runId(business), ids, business, alerts, now);
  }

  lemma NormalKey(ids: seq<Id>)
    requires Normal(ids) != []
    ensures KeyOk(AutomaticKey(Normal(ids)))
  {
    NormalForm(ids);
  }

  lemma AdmitKeeps(h: Names, s: State, obs: seq<Observation>, ready: bool, now: int)
    requires Injective(h) && StateOk(h, s)
    ensures StateOk(h, AdmitTx(h, s, obs, ready, now).0)
  {
    hide Consistent, NamedOk, ObservationsOk, KeyOk, ObserveAll, FiringIds, Normal, CanInsert, InsertRun, Alerts, Linked, Injective;
    if ObserveAll(h, s, obs, now).Some? {
      ObserveAllKeeps(h, s, obs, now);
      var t, out := ObserveAll(h, s, obs, now).value, AdmitTx(h, s, obs, ready, now).1;
      if out.Admitted? {
        var ids := Normal(FiringIds(h, obs, now));
        NormalKey(FiringIds(h, obs, now));
        InsertNamed(h, s.tables, ids, AutomaticKey(ids), Alerts(h, obs), now);
        LinkedKeeps(h, t, ids, h.runId(AutomaticKey(ids)));
        ObservationsOnly(h, t.(incidents := Linked(t.incidents, ids, h.runId(AutomaticKey(ids)))),
                         AdmitTx(h, s, obs, ready, now).0);
      } else if out.Existing? || out.NothingFiring? {
        ObservationsOnly(h, t, AdmitTx(h, s, obs, ready, now).0);
      }
    }
  }

  lemma ObservationsOnly(h: Names, s: State, t: State)
    requires s.incidents == t.incidents && s.observations == t.observations
    ensures ObservationsOk(h, s) == ObservationsOk(h, t)
  {
  }

  lemma RediagnoseKeeps(h: Names, s: State, incident: Id, key: string, body: string, ready: bool, now: int)
    requires Injective(h) && StateOk(h, s)
    ensures StateOk(h, RediagnoseTx(h, s, incident, key, body, ready, now).0)
  {
    hide Consistent, NamedOk, ObservationsOk, CanInsert, InsertRun, Linked, LatestOf, Injective;
    var (t, out) := RediagnoseTx(h, s, incident, key, body, ready, now);
    if out.Admitted? {
      var business := ManualKey(incident, key);
      var alert := h.alert(LatestOf(s.observations, incident).value.(status := "firing"));
      InsertNamed(h, s.tables, [incident], business, [alert], now);
      LinkedKeeps(h, s, [incident], h.runId(business));
      ObservationsOnly(h, s.(incidents := Linked(s.incidents, [incident], h.runId(business))), t);
    }
  }

  lemma ApplyOk(h: Names, s: State, op: Op)
    requires Injective(h) && StateOk(h, s)
    ensures StateOk(h, Apply(h, s, op).0)
  {
    hide Injective, StateOk, AdmitTx, RediagnoseTx, Commit;
    match op {
      case AdmitOp(obs, ready, now) => AdmitKeeps(h, s, obs, ready, now);
      case RediagnoseOp(incident, key, body, ready, now) => RediagnoseKeeps(h, s, incident, key, body, ready, now);
      case RunOp(tx) => if !tx.InsertRunTx? { RunKeeps(h, s, tx); }
    }
  }

  lemma {:induction false} ExecOk(h: Names, s: State, ops: seq<Op>)
    requires Injective(h) && StateOk(h, s)
    ensures StateOk(h, Exec(h, s, ops))
  {
    hide Injective, StateOk, Apply;
    if ops != [] {
      ExecOk(h, s, ops[..|ops| - 1]);
      ApplyOk(h, Exec(h, s, ops[..|ops| - 1]), ops[|ops| - 1]);
    }
  }
}
