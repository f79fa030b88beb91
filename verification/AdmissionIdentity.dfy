/**
 Which alerts are one incident and one run, and what one observation does to its incident.
 */
module AdmissionIdentity {
  import opened Records
  import opened RunTables
  import opened RunStore
  import opened Ordering
  import opened Admission
  import opened AdmissionRuns
  import opened AdmissionTheorems
  import Text

  // ------------------------------------------------------------- identity of an alert

  /** The labels of an observation with its name filled in. */
  ghost function Labelled(o: Observation): map<string, string> {
    if "alertname" in o.labels && o.labels["alertname"] != "" then o.labels else o.labels["alertname" := o.name]
  }

  ghost predicate Readable(h: Names, o: Observation) {
    Labelled(o)["alertname"] != "" && (o.startsAt == "" || h.parse(o.startsAt).Some?)
  }

  ghost function IncidentOf(h: Names, o: Observation, now: int): Id
    requires Readable(h, o)
  {
    h.incidentId(Canonical(h, o, now).value.key)
  }

  lemma CanonicalIs(h: Names, o: Observation, now: int)
    ensures Canonical(h, o, now).Some? <==> Readable(h, o)
    ensures Readable(h, o) ==>
              var c := Canonical(h, o, now).value;
              && c.key.labels == Labelled(o)
              && c.key.environment == (if "environment" in Labelled(o) && Labelled(o)["environment"] != ""
                                       then Labelled(o)["environment"] else "unknown")
              && c.key.epoch == (if o.startsAt == "" then 300 * (now / 300) else h.parse(o.startsAt).value)
              && c.start == (if o.startsAt == "" then None else h.parse(o.startsAt))
              && c.exact == (o.startsAt != "")
  {
    assert now == 300 * (now / 300) + now % 300;
  }

  /**
   Two observations, at any instants, are of one incident exactly when their labels agree and so do their starts; or,
   with no start given, when they arrive in one window of five minutes; or, with one start given, when that start is
   the beginning of the other's window. The environment is one of the labels.
   */
  ghost predicate SameOutage(h: Names, o: Observation, t: int, p: Observation, u: int)
    requires Readable(h, o) && Readable(h, p)
  {
    && Labelled(o) == Labelled(p)
    && (if o.startsAt != "" && p.startsAt != "" then h.parse(o.startsAt) == h.parse(p.startsAt)
        else if o.startsAt == "" && p.startsAt == "" then t / 300 == u / 300
        else if o.startsAt != "" then h.parse(o.startsAt).value == 300 * (u / 300)
        else h.parse(p.startsAt).value == 300 * (t / 300))
  }

  lemma OneIncident(h: Names, o: Observation, t: int, p: Observation, u: int)
    requires Injective(h) && Readable(h, o) && Readable(h, p)
    ensures IncidentOf(h, o, t) == IncidentOf(h, p, u) <==> SameOutage(h, o, t, p, u)
  {
    hide Canonical, Labelled;
    CanonicalIs(h, o, t);
    CanonicalIs(h, p, u);
    var a, b := Canonical(h, o, t).value.key, Canonical(h, p, u).value.key;
    assert a == b <==> a.environment == b.environment && a.labels == b.labels && a.epoch == b.epoch;
  }

  // -------------------------------------------------------------------- batches

  /** The incidents a batch reports are those of its readable observations that are not resolutions. */
  lemma {:induction false} BatchIs(h: Names, obs: seq<Observation>, now: int, id: Id)
    ensures id in Batch(h, obs, now) <==>
            exists i | 0 <= i < |obs| :: Readable(h, obs[i]) && obs[i].status != "resolved" && id == IncidentOf(h, obs[i], now)
  {
    hide Canonical, Readable;
    if obs != [] {
      var init, o := obs[..|obs| - 1], obs[|obs| - 1];
      BatchIs(h, init, now, id);
      CanonicalIs(h, o, now);
      BatchMore(h, init, o, now, id);
      assert obs == init + [o];
      assert Batch(h, obs, now) == Members(FiringIds(h, obs, now));
      if id in Batch(h, init, now) {
        var i :| 0 <= i < |init| && Readable(h, init[i]) && init[i].status != "resolved" && id == IncidentOf(h, init[i], now);
        assert obs[i] == init[i];
      }
      if exists i | 0 <= i < |obs| :: Readable(h, obs[i]) && obs[i].status != "resolved" && id == IncidentOf(h, obs[i], now) {
        var i :| 0 <= i < |obs| && Readable(h, obs[i]) && obs[i].status != "resolved" && id == IncidentOf(h, obs[i], now);
        if i < |init| { assert init[i] == obs[i]; }
      }
    }
  }

  lemma BatchMore(h: Names, init: seq<Observation>, o: Observation, now: int, id: Id)
    ensures id in Batch(h, init + [o], now) <==>
            id in Batch(h, init, now) || (Readable(h, o) && o.status != "resolved" && id == IncidentOf(h, o, now))
  {
    hide Canonical, Readable;
    CanonicalIs(h, o, now);
    assert (init + [o])[..|init|] == init;
  }

  lemma AlertsMore(h: Names, obs: seq<Observation>, o: Observation)
    ensures Alerts(h, []) == []
    ensures Alerts(h, obs + [o]) == Alerts(h, obs) + if o.status == "firing" then [h.alert(o)] else []
  {
    assert (obs + [o])[..|obs|] == obs;
  }

  lemma {:induction false} AlertsOfSum(h: Names, a: seq<Observation>, b: seq<Observation>)
    ensures Alerts(h, a + b) == Alerts(h, a) + Alerts(h, b)
    decreases |b|
  {
    hide Alerts;
    if b == [] {
      AlertsMore(h, [], Observation("", "", "", map[], map[], "", "", ""));
      assert a + b == a;
    } else {
      var init, last := b[..|b| - 1], b[|b| - 1];
      AlertsOfSum(h, a, init);
      AlertsMore(h, a + init, last);
      AlertsMore(h, init, last);
      assert a + b == a + init + [last] && b == init + [last];
    }
  }

  /** The alerts of a task are those of the firing observations, in order. */
  lemma AlertsAre(h: Names, a: seq<Observation>, o: Observation, b: seq<Observation>)
    ensures Alerts(h, []) == []
    ensures Alerts(h, a + [o] + b) == Alerts(h, a) + (if o.status == "firing" then [h.alert(o)] else []) + Alerts(h, b)
  {
    hide Alerts;
    AlertsOfSum(h, a + [o], b);
    AlertsMore(h, a, o);
  }

  lemma {:induction false} StopsSomewhere(h: Names, s: State, obs: seq<Observation>, now: int)
    ensures ObserveAll(h, s, obs, now).None? <==>
            exists i | 0 <= i < |obs| :: StopsAt(h, s, obs, i, now)
    decreases |obs|
  {
    hide Observe;
    if obs != [] {
      var init := obs[..|obs| - 1];
      StopsSomewhere(h, s, init, now);
      assert StopsAt(h, s, obs, |init|, now) <==> ObserveAll(h, s, init, now).Some? && ObserveAll(h, s, obs, now).None?;
      forall i | 0 <= i < |init| ensures StopsAt(h, s, obs, i, now) <==> StopsAt(h, s, init, i, now) {
        assert obs[..i] == init[..i];
      }
    }
  }

  /** The observations before the i-th are accepted, and the i-th is not. */
  ghost predicate StopsAt(h: Names, s: State, obs: seq<Observation>, i: nat, now: int)
    requires i < |obs|
  {
    match ObserveAll(h, s, obs[..i], now)
    case None => false
    case Some(t) => Observe(h, t, obs[i], now).None?
  }

  /** A batch is refused exactly when it is empty, has over a hundred observations, or has a malformed one. */
  lemma BatchRefusedExactly(h: Names, s: State, obs: seq<Observation>, ready: bool, now: int)
    requires Injective(h) && StateOk(h, s)
    ensures AdmitTx(h, s, obs, ready, now).1.Refused? <==>
            |obs| == 0 || |obs| > 100 || exists i | 0 <= i < |obs| :: StopsAt(h, s, obs, i, now)
  {
    hide Injective, StateOk, AdmitTx, Batch, StopsAt, Sets;
    AdmitVerdict(h, s, obs, ready, now);
    StopsSomewhere(h, s, obs, now);
  }

  /** An admitted run is stored queued for the incidents of its batch, each listed once in order, with its task due at once. */
  lemma AdmittedRun(h: Names, s: State, obs: seq<Observation>, ready: bool, now: int)
    requires Injective(h) && StateOk(h, s)
    ensures var (t, out) := AdmitTx(h, s, obs, ready, now);
            out.Admitted? ==>
              && Members(out.run.incidents) == Batch(h, obs, now) && Increasing(out.run.incidents)
              && out.run.id !in s.tables.runs && out.run.id in t.tables.runs && t.tables.runs[out.run.id].data == out.run
              && out.run.status == Queued && out.run.attempt == 0 && out.run.receivedAt == now
              && EventsOf(t.tables, out.run.id) == [Event(ReceiveStage, Completed, 0, 1, 1), Event(QueueStage, Completed, 0, 2, 1)]
              && DiagnosisKey(out.run.id) in t.tables.outbox
              && t.tables.outbox[DiagnosisKey(out.run.id)] == OutboxRow(Pending, 0, now, Alerts(h, obs))
              && forall id | id in Batch(h, obs, now) :: id in t.incidents && t.incidents[id].latestRun == Some(out.run.id)
  {
    hide Injective, StateOk, ObserveAll, FiringIds, Normal, Alerts, Increasing, Members, BusinessKeyTaken, AlertEvidence, AdmittedEvents;
    NormalMembers(FiringIds(h, obs, now));
    FirstEvents();
    if AdmitTx(h, s, obs, ready, now).1.Admitted? {
      ObservationsHold(h, s);
      ObserveAllKeeps(h, s, obs, now);
      LinkedToRun(h, s, obs, ready, now);
    }
  }

  lemma FirstEvents()
    ensures AdmittedEvents() == [Event(ReceiveStage, Completed, 0, 1, 1), Event(QueueStage, Completed, 0, 2, 1)]
  {
    hide MaxSequence, CountEvents;
    var first := Event(ReceiveStage, Completed, 0, 1, 1);
    NoEvents(QueueStage, Started);
    OneEvent(first, QueueStage, Started);
    assert Log([], 0, ReceiveStage, Completed) == [first];
  }

  lemma NoEvents(stage: Stage, kind: EventKind)
    ensures MaxSequence([]) == 0 && CountEvents([], stage, kind) == 0
  {
  }

  lemma OneEvent(e: Event, stage: Stage, kind: EventKind)
    ensures MaxSequence([e]) == e.sequence
    ensures CountEvents([e], stage, kind) == if e.stage == stage && e.kind == kind then 1 else 0
  {
    assert [e][..0] == [];
    NoEvents(stage, kind);
  }

  lemma LinkedToRun(h: Names, s: State, obs: seq<Observation>, ready: bool, now: int)
    requires ObservationsOk(h, s) && AdmitTx(h, s, obs, ready, now).1.Admitted?
    ensures var (t, out) := AdmitTx(h, s, obs, ready, now);
            forall id | id in Batch(h, obs, now) :: id in t.incidents && t.incidents[id].latestRun == Some(out.run.id)
  {
    hide ObservationsOk, ObserveAll, FiringIds, Normal, Alerts, CanInsert, InsertRun;
    ObserveAllKeeps(h, s, obs, now);
    NormalMembers(FiringIds(h, obs, now));
    forall id | id in Batch(h, obs, now) ensures id in Normal(FiringIds(h, obs, now)) {
      assert id in Members(Normal(FiringIds(h, obs, now)));
    }
  }

  // --------------------------------------------------------- two single alerts, one run

  lemma SingleBatch(h: Names, s: State, o: Observation, now: int)
    requires Readable(h, o) && o.status != "resolved"
    ensures Batch(h, [o], now) == {IncidentOf(h, o, now)} && WellFormed(h, s, [o], now)
  {
    hide Canonical, Readable, EndOf, Audit, NewIncident, Resolve;
    CanonicalIs(h, o, now);
    assert [o][..0] == [];
    assert ObserveAll(h, s, [], now) == Some(s);
    assert FiringIds(h, [o], now) == [] + [IncidentOf(h, o, now)];
  }

  /**
   When a readable firing alert was answered with a run, a later firing alert is answered with that run exactly when
   the two are of one outage, whatever happened in between and whether or not the queue is ready. Another outage is
   never answered with it.
   */
  lemma OneRunPerOutage(h: Names, s: State, o: Observation, ready: bool, t: int, between: seq<Op>,
                        p: Observation, readyAgain: bool, u: int)
    requires Injective(h) && StateOk(h, s)
    requires Readable(h, o) && Readable(h, p) && o.status != "resolved" && p.status != "resolved"
    ensures var (s1, answer) := Apply(h, s, AdmitOp([o], ready, t));
            var out := Apply(h, Exec(h, s1, between), AdmitOp([p], readyAgain, u)).1;
            Accepted(answer) ==> (Accepted(out) && out.run.id == answer.run.id <==> SameOutage(h, o, t, p, u))
  {
    hide Injective, StateOk, Sets, Exec, AdmitTx, RediagnoseTx, Normal, FiringIds, WellFormed, Members, SameOutage, Readable,
         IncidentOf, Batch;
    var first, again := AdmitOp([o], ready, t), AdmitOp([p], readyAgain, u);
    var (s1, answer) := Apply(h, s, first);
    var x := Exec(h, s1, between);
    OneIncident(h, o, t, p, u);
    SingleBatch(h, s, o, t);
    SingleBatch(h, x, p, u);
    if SameOutage(h, o, t, p, u) {
      ReplayReturnsSameRun(h, s, first, between, again);
    } else {
      AdmitVerdict(h, s, [o], ready, t);
      ApplyOk(h, s, first);
      ExecOk(h, s1, between);
      AdmitVerdict(h, x, [p], readyAgain, u);
      OtherSetOtherRun(h, [o], t, [p], u);
    }
  }

  lemma OtherSetOtherRun(h: Names, a: seq<Observation>, t: int, b: seq<Observation>, u: int)
    requires Injective(h) && Batch(h, a, t) != Batch(h, b, u)
    ensures h.runId(AutomaticKey(Normal(FiringIds(h, a, t)))) != h.runId(AutomaticKey(Normal(FiringIds(h, b, u))))
  {
    hide Normal, FiringIds, Members;
    KeyIsSet(FiringIds(h, a, t), FiringIds(h, b, u));
  }

  // ------------------------------------------------------------------ one observation

  /**
   An observation is refused exactly when it has no name, its start cannot be read, or it ends a known incident
   without a start and an end at or after it.
   */
  lemma RefusedExactly(h: Names, s: State, o: Observation, now: int)
    ensures Observe(h, s, o, now).None? <==>
            || !Readable(h, o)
            || (o.status == "resolved" && IncidentOf(h, o, now) in s.incidents &&
                (o.startsAt == "" || o.endsAt == "" || h.parse(o.endsAt).None? || h.parse(o.endsAt).value < h.parse(o.startsAt).value))
  {
    hide Canonical, Labelled;
    CanonicalIs(h, o, now);
  }

  /** The severity levels by the spelling of the label, in any case. */
  ghost predicate SeverityIs(given: string, level: string) {
    var s := Text.ToLower(given);
    && (level == "P0" <==> s in {"p0", "critical"})
    && (level == "P1" <==> s in {"p1", "warning"})
    && (level == "P2" <==> s == "p2")
    && (level == "P3" <==> s in {"p3", "info"})
    && (level == "unknown" <==> s !in {"p0", "critical", "p1", "warning", "p2", "p3", "info"})
  }

  ghost predicate LabelIs(labels: map<string, string>, name: string, value: string) {
    value == if name in labels && labels[name] != "" then labels[name] else "unknown"
  }

  /** A firing observation of an incident that is not known yet creates it from its labels, start and instant. */
  lemma ObserveCreates(h: Names, s: State, o: Observation, now: int)
    requires Readable(h, o) && o.status != "resolved" && IncidentOf(h, o, now) !in s.incidents
    ensures var id := IncidentOf(h, o, now);
            var out := Observe(h, s, o, now);
            && out.Some? && out.value.incidents.Keys == s.incidents.Keys + {id}
            && (forall x | x in s.incidents :: out.value.incidents[x] == s.incidents[x])
            && (var row := out.value.incidents[id];
                && LabelIs(o.labels, "environment", row.environment) && LabelIs(o.labels, "service", row.service)
                && row.name == o.name && SeverityIs(o.severity, row.severity)
                && row.startsAt == (if o.startsAt == "" then None else h.parse(o.startsAt)) && row.exact == (o.startsAt != "")
                && !row.resolved && row.resolvedAt == None && row.latestRun == None
                && row.firstReceivedAt == now && row.lastObservedAt == now)
  {
    hide Canonical, Labelled, Audit, EndOf;
    CanonicalIs(h, o, now);
  }

  /** An observation of a known incident changes its last instant, and a resolution moves the end to the later of the two. */
  lemma ObserveUpdates(h: Names, s: State, o: Observation, now: int)
    requires Readable(h, o) && IncidentOf(h, o, now) in s.incidents && Observe(h, s, o, now).Some?
    ensures var id := IncidentOf(h, o, now);
            var row, t := s.incidents[id], Observe(h, s, o, now).value;
            && t.incidents.Keys == s.incidents.Keys
            && (forall x | x in s.incidents && x != id :: t.incidents[x] == s.incidents[x])
            && (var row' := t.incidents[id];
                if o.status == "resolved" then
                  var end := h.parse(o.endsAt).value;
                  && row'.resolvedAt == Some(if row.resolvedAt.Some? && row.resolvedAt.value > end then row.resolvedAt.value else end)
                  && (row.resolvedAt.None? || end > row.resolvedAt.value ==> row'.resolved)
                  && row' == row.(resolved := row'.resolved, resolvedAt := row'.resolvedAt, lastObservedAt := now)
                else row' == row.(lastObservedAt := now))
  {
    hide Canonical, Labelled, Audit;
    CanonicalIs(h, o, now);
  }

  /** The log keeps every accepted observation once under its key: it gains a row exactly when it had none like it. */
  lemma ObserveLogs(h: Names, s: State, o: Observation, now: int)
    requires Observe(h, s, o, now).Some?
    ensures Canonical(h, o, now).Some?
    ensures var rows, rows' := s.observations, Observe(h, s, o, now).value.observations;
            var key := Canonical(h, o, now).value.key;
            var had := exists i | 0 <= i < |rows| :: rows[i].key == key && rows[i].data == o;
            && rows <= rows' && |rows'| == |rows| + (if had then 0 else 1)
            && (!had ==>
                  && rows'[|rows|].key == key && rows'[|rows|].data == o
                  && rows'[|rows|].incident == if o.status == "resolved" && h.incidentId(key) !in s.incidents then None else Some(h.incidentId(key)))
  {
    hide Canonical, EndOf, Resolve, NewIncident;
  }

  // ------------------------------------------------------------------ manual requests

  /** The latest observation of an incident is the last row in the log that names it. */
  lemma {:induction false} LatestIs(rows: seq<ObservationRow>, incident: Id, o: Observation)
    ensures LatestOf(rows, incident) == Some(o) <==>
            exists i | 0 <= i < |rows| ::
              rows[i].incident == Some(incident) && rows[i].data == o && forall j | i < j < |rows| :: rows[j].incident != Some(incident)
  {
    if rows != [] {
      var init, last := rows[..|rows| - 1], rows[|rows| - 1];
      LatestIs(init, incident, o);
      if last.incident == Some(incident) {
        assert last == rows[|rows| - 1];
      } else {
        if LatestOf(init, incident) == Some(o) {
          var i :| 0 <= i < |init| && init[i].incident == Some(incident) && init[i].data == o &&
                   forall j | i < j < |init| :: init[j].incident != Some(incident);
          assert rows[i] == init[i];
        }
        if i :| 0 <= i < |rows| && rows[i].incident == Some(incident) && rows[i].data == o &&
                forall j | i < j < |rows| :: rows[j].incident != Some(incident) {
          assert init[i] == rows[i];
        }
      }
    }
  }

  /**
   A new manual request is admitted exactly when its key is short enough, the queue is ready and its incident is known:
   the run is for that incident alone, and its task carries the incident's latest observation as firing.
   */
  lemma RediagnoseAdmits(h: Names, s: State, incident: Id, key: string, body: string, ready: bool, now: int)
    requires Injective(h) && StateOk(h, s)
    ensures var (t, out) := RediagnoseTx(h, s, incident, key, body, ready, now);
            var latest := LatestOf(s.observations, incident);
            && (out.Admitted? <==> 0 < |key| <= 200 && RequestKey(incident, key) !in s.requests && ready && incident in s.incidents)
            && (out.Admitted? ==>
                  && latest.Some?
                  && out.run.incidents == [incident] && t.incidents == s.incidents[incident := s.incidents[incident].(latestRun := Some(out.run.id))]
                  && out.run.id !in s.tables.runs && out.run.id in t.tables.runs && t.tables.runs[out.run.id].data == out.run
                  && out.run.status == Queued && out.run.attempt == 0
                  && DiagnosisKey(out.run.id) in t.tables.outbox
                  && t.tables.outbox[DiagnosisKey(out.run.id)] == OutboxRow(Pending, 0, now, [h.alert(latest.value.(status := "firing"))])
                  && t.requests == s.requests[RequestKey(incident, key) := RequestRow(body, out.run.id)])
            && (!out.Admitted? ==> t == s)
  {
    hide Injective, Consistent, ObservationsOk, Observed, LatestOf, AlertEvidence, AdmittedEvents, BusinessKeyTaken, NamedOk;
    FreeKeyInserts(h, s.tables, ManualKey(incident, key));
    if incident in s.incidents { KnownIsObserved(h, s, incident); }
  }

  lemma KnownIsObserved(h: Names, s: State, incident: Id)
    requires ObservationsOk(h, s) && incident in s.incidents
    ensures LatestOf(s.observations, incident).Some?
  {
    hide LatestOf;
    assert Observed(s.observations, incident);
    var i :| 0 <= i < |s.observations| && s.observations[i].incident == Some(incident);
    SomeLatest(s.observations, incident, i);
  }

  lemma {:induction false} SomeLatest(rows: seq<ObservationRow>, incident: Id, i: nat)
    requires i < |rows| && rows[i].incident == Some(incident)
    ensures LatestOf(rows, incident).Some?
  {
    if i < |rows| - 1 { SomeLatest(rows[..|rows| - 1], incident, i); }
  }
}
