/**
 Admission as it works on the database: incidents and observations are written row by row, and a refusal
 rolls every write back. Each method is proved to be the transaction of AdmissionRuns.
 */
module AdmissionStore {
  import opened Records
  import opened RunTables
  import opened RunStore
  import opened Ordering
  import opened Admission
  import opened AdmissionRuns
  import opened AdmissionTheorems

  lemma {:induction false} StopsAt(h: Names, s: State, obs: seq<Observation>, i: nat, now: int)
    requires i <= |obs| && ObserveAll(h, s, obs[..i], now).None?
    ensures ObserveAll(h, s, obs, now).None?
    decreases |obs| - i
  {
    hide Observe;
    if i == |obs| {
      assert obs[..i] == obs;
    } else {
      assert obs[..i + 1][..i] == obs[..i];
      StopsAt(h, s, obs, i + 1, now);
    }
  }

  lemma IncreasingIsDistinct(ids: seq<Id>)
    requires Increasing(ids)
    ensures Distinct(ids)
  {
    hide Less;
    forall i, j | 0 <= i < j < |ids| ensures ids[i] != ids[j] { LessIrreflexive(ids[i]); }
  }

  class Workspace {
    const h: Names
    const store: Database
    var incidents: map<Id, IncidentRow>
    var observations: seq<ObservationRow>
    var requests: map<RequestKey, RequestRow>

    ghost function State(): Admission.State
      reads this, store
    {
      Admission.State(store.State(), incidents, observations, requests)
    }

    ghost predicate Valid()
      reads this, store
    {
      Injective(h) && StateOk(h, State())
    }

    constructor (h: Names, store: Database)
      requires Injective(h) && store.State() == EmptyTables
      ensures this.h == h && this.store == store && Valid() && State() == EmptyState
    {
      this.h, this.store := h, store;
      incidents, observations, requests := map[], [], map[];
      new;
      StartOk(h);
    }

    /** INSERT OR IGNORE INTO alert_observations */
    method Log(key: IncidentKey, incident: Option<Id>, o: Observation)
      modifies this`observations
      ensures observations == Audit(old(observations), key, incident, o)
    {
      if !exists i | 0 <= i < |observations| :: observations[i].key == key && observations[i].data == o {
        observations := observations + [ObservationRow(key, incident, o)];
      }
    }

    /** Applies one observation. When it is malformed, earlier writes of the same observation may remain. */
    method Record(o: Observation, now: int) returns (ok: bool, fired: Option<Id>)
      modifies this`incidents, this`observations
      ensures ok <==> old(Observe(h, State(), o, now)).Some?
      ensures ok ==> State() == old(Observe(h, State(), o, now)).value
      ensures ok ==> fired == if IsResolved(o) then None else Some(h.incidentId(Canonical(h, o, now).value.key))
    {
      hide Canonical, Audit, NewIncident;
      var identity := Canonical(h, o, now);
      if identity.None? {
        return false, None;
      }
      var c := identity.value;
      var id := h.incidentId(c.key);
      if id !in incidents {
        if o.status == "resolved" {
          Log(c.key, None, o);
          return true, None;
        }
        incidents := incidents[id := NewIncident(o, c, now)];
      }
      var row := incidents[id];
      if o.status == "resolved" {
        if c.start.None? || o.endsAt == "" {
          return false, None;
        }
        var end := h.parse(o.endsAt);
        if end.None? || end.value < c.start.value {
          return false, None;
        }
        if row.resolvedAt.None? || end.value > row.resolvedAt.value {
          row := row.(resolvedAt := Some(end.value));
          row := row.(resolved := true);
        }
        fired := None;
      } else {
        fired := Some(id);
      }
      row := row.(lastObservedAt := now);
      incidents := incidents[id := row];
      assert incidents == old(incidents)[id := row];
      Log(c.key, Some(id), o);
      ok := true;
    }

    /** SELECT data FROM diagnosis_runs WHERE business_key=? */
    method FindRun(business: BusinessKey) returns (found: Option<Run>)
      requires Valid()
      ensures found.Some? <==> HasRun(h, store.State(), business)
      ensures found.Some? ==> found.value == store.runs[h.runId(business)].data
    {
      hide Consistent, KeyOk, RequestsOk, ObservationsOk, Injective;
      FreeKeyInserts(h, store.State(), business);
      if id :| id in store.runs && store.runs[id].business == business {
        return Some(store.runs[id].data);
      }
      found := None;
    }

    method LinkRun(ids: seq<Id>, run: Id)
      requires forall i | 0 <= i < |ids| :: ids[i] in incidents
      modifies this`incidents
      ensures incidents == Linked(old(incidents), ids, run)
    {
      assert Linked(incidents, ids[..0], run) == incidents;
      for k := 0 to |ids|
        invariant incidents == Linked(old(incidents), ids[..k], run)
      {
        incidents := incidents[ids[k] := incidents[ids[k]].(latestRun := Some(run))];
        assert ids[..k + 1] == ids[..k] + [ids[k]];
      }
      assert ids[..|ids|] == ids;
    }

    /** Sorts the ids and compacts equal neighbours in place. */
    method Normalize(ids: seq<Id>) returns (unique: seq<Id>)
      ensures unique == Normal(ids)
    {
      hide Sort, Dedup;
      var sorted := Sort(ids, Less);
      var a := new Id[|sorted|](i requires 0 <= i < |sorted| => sorted[i]);
      assert a[..] == sorted;
      var n := Unique(a);
      unique := a[..n];
    }

    method FiringAlerts(obs: seq<Observation>) returns (alerts: seq<string>)
      ensures alerts == Alerts(h, obs)
    {
      alerts := [];
      for i := 0 to |obs|
        invariant alerts == Alerts(h, obs[..i])
      {
        assert obs[..i + 1][..i] == obs[..i];
        if obs[i].status == "firing" {
          alerts := alerts + [h.alert(obs[i])];
        }
      }
      assert obs[..|obs|] == obs;
    }

    /** The observation loop of a batch. */
    method RecordAll(obs: seq<Observation>, now: int) returns (ok: bool, ids: seq<Id>)
      modifies this`incidents, this`observations
      ensures ok <==> old(ObserveAll(h, State(), obs, now)).Some?
      ensures ok ==> State() == old(ObserveAll(h, State(), obs, now)).value && ids == FiringIds(h, obs, now)
    {
      hide Observe, Canonical;
      ids := [];
      for i := 0 to |obs|
        invariant ObserveAll(h, old(State()), obs[..i], now) == Some(State())
        invariant ids == FiringIds(h, obs[..i], now)
      {
        assert obs[..i + 1][..i] == obs[..i];
        var fired;
        IdentityKnown(h, State(), obs[i], now);
        ok, fired := Record(obs[i], now);
        if !ok {
          StopsAt(h, old(State()), obs, i + 1, now);
          return;
        }
        if fired.Some? {
          ids := ids + [fired.value];
        }
      }
      assert obs[..|obs|] == obs;
      ok := true;
    }

    method Admit(obs: seq<Observation>, ready: bool, now: int) returns (out: Outcome)
      requires Valid()
      modifies this, store
      ensures Valid()
      ensures State() == old(AdmitTx(h, State(), obs, ready, now)).0
      ensures out == old(AdmitTx(h, State(), obs, ready, now)).1
    {
      hide Injective, Consistent, NamedOk, RequestsOk, ObservationsOk, ObserveAll, FiringIds, Normal, CanInsert, InsertRun, Alerts, Linked,
           HasRun, Increasing, Distinct;
      AdmitKeeps(h, State(), obs, ready, now);
      if |obs| == 0 || |obs| > 100 {
        return Refused;
      }
      var incidents0, observations0 := incidents, observations;
      var ok, fired := RecordAll(obs, now);
      if !ok {
        incidents, observations := incidents0, observations0;
        return Refused;
      }
      ObserveAllKeeps(h, old(State()), obs, now);
      ObservedOk(h, old(State()), State());
      var ids := Normalize(fired);
      NormalForm(fired);
      if |ids| == 0 {
        return NothingFiring;
      }
      var business := AutomaticKey(ids);
      var existing := FindRun(business);
      if existing.Some? {
        return Existing(existing.value);
      }
      if !ready {
        incidents, observations := incidents0, observations0;
        return Unavailable;
      }
      var run := NewRun(h.runId(business), ids, now);
      var alerts := FiringAlerts(obs);
      IncreasingIsDistinct(ids);
      ok := store.Insert(run, business, alerts, now);
      if !ok {
        incidents, observations := incidents0, observations0;
        return Refused;
      }
      LinkRun(ids, run.id);
      out := Admitted(run);
    }

    method Latest(incident: Id) returns (o: Option<Observation>)
      ensures o == LatestOf(observations, incident)
    {
      o := None;
      for i := 0 to |observations|
        invariant o == LatestOf(observations[..i], incident)
      {
        assert observations[..i + 1][..i] == observations[..i];
        if observations[i].incident == Some(incident) {
          o := Some(observations[i].data);
        }
      }
      assert observations[..|observations|] == observations;
    }

    method ReDiagnose(incident: Id, key: string, body: string, ready: bool, now: int) returns (out: Outcome)
      requires Valid()
      modifies this, store
      ensures Valid()
      ensures State() == old(RediagnoseTx(h, State(), incident, key, body, ready, now)).0
      ensures out == old(RediagnoseTx(h, State(), incident, key, body, ready, now)).1
    {
      hide Injective, Consistent, NamedOk, RequestsOk, ObservationsOk, CanInsert, InsertRun, Linked, LatestOf;
      RediagnoseKeeps(h, State(), incident, key, body, ready, now);
      if key == "" || |key| > 200 {
        return Refused;
      }
      var request := RequestKey(incident, key);
      if request in requests {
        var row := requests[request];
        if row.body != body {
          return Mismatch;
        }
        if row.run in store.runs {
          return Existing(store.runs[row.run].data);
        }
        return Refused;
      }
      if !ready {
        return Unavailable;
      }
      if incident !in incidents {
        return Refused;
      }
      var o := Latest(incident);
      if o.None? {
        return Refused;
      }
      var alert := h.alert(o.value.(status := "firing"));
      var business := ManualKey(incident, key);
      var run := NewRun(h.runId(business), [incident], now);
      var ok := store.Insert(run, business, [alert], now);
      if !ok {
        return Refused;
      }
      LinkRun([incident], run.id);
      requests := requests[request := RequestRow(body, run.id)];
      out := Admitted(run);
    }
  }

  lemma IdentityKnown(h: Names, s: State, o: Observation, now: int)
    ensures Observe(h, s, o, now).Some? ==> Canonical(h, o, now).Some?
  {
    hide Canonical;
  }

  lemma ObservedOk(h: Names, s: State, t: State)
    requires StateOk(h, s) && ObservationsOk(h, t) && t.tables == s.tables && t.requests == s.requests
    ensures StateOk(h, t)
  {
  }
}
