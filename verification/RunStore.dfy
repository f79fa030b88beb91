/**
 The run database as an object: each method runs one SQL transaction statement by statement, and is proved
 to be the transaction of the same name in RunTables. A method that rolls back leaves every field as it was.
 */
module RunStore {
  import opened Records
  import opened RunTables
  import opened RunCommits
  import opened Ordering

  /** What the table keys give: rows carry their own id, and events, alert evidence and diagnosis rows name runs. */
  ghost predicate Consistent(db: Tables) {
    && db.events.Keys == db.runs.Keys
    && (forall id | id in db.runs :: db.runs[id].data.id == id)
    && (forall ev | ev in db.evidence && ev.AlertRef? :: ev.run in db.runs)
    && (forall k | k in db.outbox && k.DiagnosisKey? :: k.run in db.runs)
  }

  lemma InsertKeeps(db: Tables, id: Id, incidents: seq<Id>, business: BusinessKey, alerts: seq<string>, now: int)
    requires Consistent(db)
    ensures Consistent(InsertRun(db, id, incidents, business, alerts, now))
  {
    hide AdmittedEvents, BusinessKeyTaken;
  }

  lemma ClaimKeeps(db: Tables, id: Id, now: int)
    requires Consistent(db)
    ensures Consistent(Claim(db, id, now))
  {
    hide ClaimedEvents;
  }

  lemma RecoverKeeps(db: Tables, now: int)
    requires Consistent(db)
    ensures Consistent(Recover(db, now))
  {
    hide Log;
  }

  lemma FinishKeeps(db: Tables, cfg: Settings, r: Run, v: Verdict, now: int, elapsed: int)
    requires Consistent(db)
    ensures Consistent(FinishTx(db, cfg, r, v, now, elapsed))
  {
    hide FinishedEvents, Notifies;
  }

  lemma EventKeeps(db: Tables, r: Run, stage: Stage, kind: EventKind)
    requires Consistent(db)
    ensures Consistent(EventTx(db, r, stage, kind))
  {
    hide Log;
  }

  lemma RetrievalKeeps(db: Tables, r: Run, incident: Id, found: bool)
    requires Consistent(db)
    ensures Consistent(RetrievalTx(db, r, incident, found))
  {
    hide Log;
  }

  lemma CiteKeeps(db: Tables, r: Run, incident: Id, id: ChunkId, chunk: Chunk)
    requires Consistent(db)
    ensures Consistent(CiteTx(db, r, incident, id, chunk))
  {
    hide CitationClash;
  }

  lemma OutboxKeeps(db: Tables, key: OutboxKey, attempts: nat, now: int)
    requires Consistent(db)
    ensures Consistent(MarkSentTx(db, key)) && Consistent(RetryTx(db, key, attempts, now))
  {
    hide RetryDelay;
  }

  lemma NotifyKeeps(db: Tables, id: Id, attempt: nat, d: Delivery)
    requires Consistent(db)
    ensures Consistent(NotifyStartTx(db, id, attempt)) && Consistent(NotifyEndTx(db, id, d))
  {
    hide Log;
  }

  lemma CommitKeepsConsistent(db: Tables, tx: Tx)
    requires Consistent(db)
    ensures Consistent(Commit(db, tx))
  {
    hide Consistent, InsertRun, Claim, Recover, EventTx, RetrievalTx, CiteTx, FinishTx, MarkSentTx, RetryTx, NotifyStartTx, NotifyEndTx;
    match tx {
      case InsertRunTx(id, incidents, business, alerts, now) => InsertKeeps(db, id, incidents, business, alerts, now);
      case ClaimRunTx(id, now) => ClaimKeeps(db, id, now);
      case RecoverAllTx(now) => RecoverKeeps(db, now);
      case WorkerEventTx(r, stage, kind) => EventKeeps(db, r, stage, kind);
      case WorkerRetrievalTx(r, incident, found) => RetrievalKeeps(db, r, incident, found);
      case WorkerCiteTx(r, incident, id, chunk) => CiteKeeps(db, r, incident, id, chunk);
      case WorkerFinishTx(r, cfg, v, now, elapsed) => FinishKeeps(db, cfg, r, v, now, elapsed);
      case SentTx(key) => OutboxKeeps(db, key, 0, 0);
      case PostponeTx(key, attempts, now) => OutboxKeeps(db, key, attempts, now);
      case NotifyBeginTx(id, attempt) => NotifyKeeps(db, id, attempt, Delivered);
      case NotifyOutcomeTx(id, d) => NotifyKeeps(db, id, 0, d);
    }
  }

  lemma OwnId(db: Tables, id: Id)
    requires Consistent(db) && id in db.runs
    ensures db.runs[id].data.id == id && id in db.events
  {
  }

  lemma FreshRun(db: Tables, id: Id)
    requires Consistent(db)
    ensures id !in db.runs ==>
              id !in db.events && DiagnosisKey(id) !in db.outbox && forall ev | ev in db.evidence && ev.AlertRef? :: ev.run != id
  {
  }

  lemma UpdateTwice<K, V>(m: map<K, V>, k: K, a: V, b: V)
    ensures m[k := a][k := b] == m[k := b]
  {
  }

  class Database {
    var runs: map<Id, RunRow>
    var events: map<Id, seq<Event>>
    var evidence: map<EvidenceId, EvidenceRow>
    var citations: map<CitationKey, CitationRow>
    var outbox: map<OutboxKey, OutboxRow>

    ghost function State(): Tables
      reads this
    {
      Tables(runs, events, evidence, citations, outbox)
    }

    ghost predicate Valid()
      reads this
    {
      Consistent(State())
    }

    constructor ()
      ensures Valid() && State() == EmptyTables
    {
      runs, events, evidence, citations, outbox := map[], map[], map[], map[], map[];
    }

    /** The run reference is a foreign key. */
    method AddEvent(r: Run, stage: Stage, kind: EventKind) returns (ok: bool)
      modifies this`events
      ensures ok <==> r.id in runs
      ensures events == if ok then old(events)[r.id := Log(old(EventsOf(State(), r.id)), r.attempt, stage, kind)] else old(events)
    {
      if r.id !in runs {
        return false;
      }
      var rows := if r.id in events then events[r.id] else [];
      var sequence := MaxSequence(rows) + 1;
      var executionStage := QueueStage;
      if stage == NotificationStage {
        executionStage := NotificationStage;
      }
      var attempts := CountEvents(rows, executionStage, Started);
      if stage == executionStage && kind == Started {
        attempts := attempts + 1;
      }
      attempts := Max(1, attempts);
      events := events[r.id := rows + [Event(stage, kind, r.attempt, sequence, attempts)]];
      ok := true;
    }

    method SaveRun(r: Run)
      modifies this`runs
      ensures runs == if r.id in old(runs) then old(runs)[r.id := RowWith(old(runs)[r.id], r)] else old(runs)
    {
      if r.id in runs {
        runs := runs[r.id := runs[r.id].(status := r.status, attempt := r.attempt, revision := r.revision, data := r)];
      }
    }

    /** Evidence rows of a new run; a repeated incident clashes. */
    method InsertAlerts(id: Id, incidents: seq<Id>) returns (ok: bool)
      requires forall ev | ev in evidence && ev.AlertRef? :: ev.run != id
      modifies this`evidence
      ensures ok <==> Distinct(incidents)
      ensures ok ==> evidence == old(evidence) + AlertEvidence(id, incidents)
    {
      hide Distinct, AlertEvidence;
      NoAlerts(evidence, id);
      assert incidents[..0] == [];
      for i := 0 to |incidents|
        invariant Distinct(incidents[..i])
        invariant evidence == old(evidence) + AlertEvidence(id, incidents[..i])
      {
        AlertPresent(old(evidence), id, incidents[..i], incidents[i]);
        if AlertRef(id, incidents[i]) in evidence {
          RepeatsAt(incidents, i);
          return false;
        }
        AlertMore(old(evidence), id, incidents[..i], incidents[i]);
        DistinctMore(incidents[..i], incidents[i]);
        assert incidents[..i + 1] == incidents[..i] + [incidents[i]];
        evidence := evidence[AlertRef(id, incidents[i]) := EvidenceRow(id, Some(incidents[i]), None, None)];
      }
      assert incidents[..|incidents|] == incidents;
      ok := true;
    }

    method Insert(r: Run, business: BusinessKey, alerts: seq<string>, now: int) returns (ok: bool)
      requires Valid()
      requires r == NewRun(r.id, r.incidents, now)
      modifies this
      ensures Valid()
      ensures ok <==> old(CanInsert(State(), r.id, business)) && Distinct(r.incidents)
      ensures State() == if ok then InsertRun(old(State()), r.id, r.incidents, business, alerts, now) else old(State())
    {
      hide Log, Distinct, Consistent, AlertEvidence;
      FreshRun(State(), r.id);
      if r.id in runs || exists id | id in runs :: runs[id].business == business {
        return false;
      }
      var runs0, events0, evidence0 := runs, events, evidence;
      runs := runs[r.id := RunRow(business, r.status, r.attempt, r.revision, None, r)];
      ok := InsertAlerts(r.id, r.incidents);
      if !ok {
        runs, evidence := runs0, evidence0;
        return;
      }
      ok := AddEvent(r, ReceiveStage, Completed);
      ok := AddEvent(r, QueueStage, Completed);
      UpdateTwice(events0, r.id, Log([], 0, ReceiveStage, Completed), events[r.id]);
      outbox := outbox[DiagnosisKey(r.id) := OutboxRow(Pending, 0, now, alerts)];
      InsertKeeps(old(State()), r.id, r.incidents, business, alerts, now);
    }

    method Claim(id: Id, now: int) returns (outcome: ClaimOutcome)
      requires Valid()
      modifies this
      ensures Valid()
      ensures outcome == old(ClaimTry(State(), id, now))
      ensures State() == RunTables.Claim(old(State()), id, now)
    {
      hide Log, Consistent;
      if id !in runs {
        return UnknownRun;
      }
      OwnId(State(), id);
      var r := runs[id].data;
      if r.status == Succeeded || r.status == Failed || r.status == Cancelled {
        return AlreadyFinished;
      }
      if r.status == Running {
        var lease := runs[id].lease;
        if lease.Some? && lease.value > now {
          return AlreadyLeased;
        }
      }
      r := r.(citations := [], evidence := NotEvaluated, report := None);
      citations := map k | k in citations && k.run != r.id :: citations[k];
      r := r.(status := Running, attempt := r.attempt + 1, revision := r.revision + 1, startedAt := Some(now));
      SaveRun(r);
      UpdateTwice(old(runs), id, runs[id], runs[id].(lease := Some(now + LeaseSeconds)));
      runs := runs[id := runs[id].(lease := Some(now + LeaseSeconds))];
      var ok := AddEvent(r, QueueStage, Started);
      ghost var events1 := events;
      ok := AddEvent(r, QueueStage, Completed);
      UpdateTwice(old(events), id, events1[id], events[id]);
      ClaimKeeps(old(State()), id, now);
      outcome := Claimed(r);
    }

    method OwnedBy(r: Run) returns (yes: bool)
      ensures yes <==> Owned(State(), r)
    {
      yes := r.id in runs && runs[r.id].attempt == r.attempt && runs[r.id].status == Running;
    }

    method WriteEvent(r: Run, stage: Stage, kind: EventKind) returns (outcome: TxOutcome)
      requires Valid()
      modifies this
      ensures Valid()
      ensures outcome == old(EventTry(State(), r))
      ensures State() == EventTx(old(State()), r, stage, kind)
    {
      hide Log, Consistent;
      EventKeeps(State(), r, stage, kind);
      var mine := OwnedBy(r);
      if !mine {
        return Fenced;
      }
      var ok := AddEvent(r, stage, kind);
      outcome := Committed;
    }

    method RecordRetrieval(r: Run, incident: Id, found: bool) returns (outcome: TxOutcome)
      requires Valid()
      modifies this
      ensures Valid()
      ensures outcome == old(RetrievalTry(State(), r, incident))
      ensures State() == RetrievalTx(old(State()), r, incident, found)
    {
      hide Log, Consistent;
      RetrievalKeeps(State(), r, incident, found);
      var mine := OwnedBy(r);
      if !mine {
        return Fenced;
      }
      var id := RetrievalRef(r.id, r.attempt, incident);
      if id in evidence {
        return Rejected;
      }
      evidence := evidence[id := EvidenceRow(r.id, Some(incident), Some(r.attempt), None)];
      var kind := Completed;
      if !found {
        kind := Errored;
      }
      var ok := AddEvent(r, RetrievalStage, kind);
      outcome := Committed;
    }

    method Cite(r: Run, incident: Id, id: ChunkId, chunk: Chunk) returns (outcome: TxOutcome)
      requires Valid()
      modifies this
      ensures Valid()
      ensures outcome == old(EventTry(State(), r))
      ensures State() == CiteTx(old(State()), r, incident, id, chunk)
    {
      hide Consistent;
      CiteKeeps(State(), r, incident, id, chunk);
      var mine := OwnedBy(r);
      if !mine {
        return Fenced;
      }
      OwnId(State(), r.id);
      var ev := ChunkRef(r.id, r.attempt, incident, id);
      if ev !in evidence {
        evidence := evidence[ev := EvidenceRow(r.id, Some(incident), Some(r.attempt), Some(chunk))];
      }
      var key := CitationKey(r.id, incident, id);
      if key !in citations && !exists k | k in citations :: citations[k].evidence == ev {
        citations := citations[key := CitationRow(RetrievalRef(r.id, r.attempt, incident), ev)];
      }
      var current := runs[r.id].data;
      current := current.(citations := current.citations + [ev]);
      current := current.(revision := current.revision + 1);
      SaveRun(current);
      outcome := Committed;
    }

    /** The low-score or failure notice, or the event that there is none. */
    method QueueNotification(r: Run, cfg: Settings, v: Verdict, now: int) returns (noted: Run)
      requires r.id in runs && r.id in events
      modifies this`events, this`outbox
      ensures noted == r.(notification := if Notifies(cfg, v) then NotifyPending else NotifyDisabled)
      ensures outbox == if Notifies(cfg, v) && NotificationKey(r.id) !in old(outbox)
                        then old(outbox)[NotificationKey(r.id) := OutboxRow(Pending, 0, now, [])] else old(outbox)
      ensures events == if Notifies(cfg, v) then old(events)
                        else old(events)[r.id := Log(old(events)[r.id], r.attempt, NotificationStage, Skipped)]
    {
      hide Log;
      if cfg.webhook && (v.status == Failed || (v.score.Some? && cfg.threshold > 0 && v.score.value < cfg.threshold)) {
        noted := r.(notification := NotifyPending);
        if NotificationKey(r.id) !in outbox {
          outbox := outbox[NotificationKey(r.id) := OutboxRow(Pending, 0, now, [])];
        }
      } else {
        noted := r.(notification := NotifyDisabled);
        var ok := AddEvent(r, NotificationStage, Skipped);
      }
    }

    /** The claimed copy with the verdict, and with the citations and revision the row has by now. */
    method FinalCopy(claimed: Run, current: Run, v: Verdict, now: int, elapsed: int) returns (r: Run)
      ensures forall cfg :: FinishedRun(claimed, current, cfg, v, now, elapsed) ==
                            r.(notification := if Notifies(cfg, v) then NotifyPending else NotifyDisabled)
      ensures r.id == claimed.id && r.attempt == claimed.attempt
    {
      hide Notifies;
      r := claimed.(citations := current.citations, status := v.status, evidence := v.evidence, report := Some(v.text),
                    score := v.score, error := v.error, finishedAt := Some(now), durationMs := Some(elapsed));
      r := r.(revision := current.revision + 1);
    }

    /** Writes back the claimed copy `r`; what the row gained since the claim is lost, but for citations and revision. */
    method Finish(cfg: Settings, claimed: Run, v: Verdict, now: int, elapsed: int) returns (outcome: TxOutcome)
      requires Valid()
      modifies this
      ensures Valid()
      ensures outcome == old(EventTry(State(), claimed))
      ensures State() == FinishTx(old(State()), cfg, claimed, v, now, elapsed)
    {
      hide Log, Consistent, Notifies, FinishedRun;
      FinishKeeps(State(), cfg, claimed, v, now, elapsed);
      var mine := OwnedBy(claimed);
      if !mine {
        return Fenced;
      }
      var r := FinalCopy(claimed, runs[claimed.id].data, v, now, elapsed);
      var stageKind := Completed;
      if v.status != Succeeded {
        stageKind := Errored;
      }
      var ok := AddEvent(r, ReportStage, stageKind);
      ghost var events1 := events;
      r := QueueNotification(r, cfg, v, now);
      UpdateTwice(old(events), r.id, events1[r.id], events[r.id]);
      evidence := evidence[ReportRef(r.id) := EvidenceRow(r.id, None, None, None)];
      SaveRun(r);
      outcome := Committed;
    }

    method MarkSent(key: OutboxKey) returns (ok: bool)
      requires Valid()
      modifies this
      ensures Valid()
      ensures ok <==> old(CanMark(State(), key))
      ensures State() == MarkSentTx(old(State()), key)
    {
      hide Consistent;
      OutboxKeeps(State(), key, 0, 0);
      var outbox0 := outbox;
      if key in outbox {
        outbox := outbox[key := outbox[key].(state := Sent, attempts := outbox[key].attempts + 1)];
      }
      if key.DiagnosisKey? {
        if key.run !in runs {
          outbox := outbox0;
          return false;
        }
        OwnId(old(State()), key.run);
        var r := runs[key.run].data;
        r := r.(dispatch := Enqueued);
        r := r.(revision := r.revision + 1);
        SaveRun(r);
      }
      ok := true;
    }

    method Postpone(key: OutboxKey, attempts: nat, now: int)
      requires Valid()
      modifies this
      ensures Valid()
      ensures State() == RetryTx(old(State()), key, attempts, now)
    {
      hide Consistent;
      OutboxKeeps(State(), key, attempts, now);
      var shift := attempts;
      if 6 < shift {
        shift := 6;
      }
      var delay := 1;
      for i := 0 to shift
        invariant delay == Pow2(i)
      {
        delay := delay * 2;
      }
      if key in outbox {
        outbox := outbox[key := outbox[key].(attempts := outbox[key].attempts + 1, nextAt := now + delay)];
      }
    }

    method RecoverRun(interrupted: Run, now: int)
      requires interrupted.id in runs && interrupted.id in events
      modifies this
      ensures evidence == old(evidence) && citations == old(citations)
      ensures runs == old(runs)[interrupted.id := RowWith(old(runs)[interrupted.id], RecoveredRun(interrupted))]
      ensures events == old(events)[interrupted.id :=
                          Log(old(events)[interrupted.id], interrupted.attempt, QueueStage, Errored)]
      ensures var key := DiagnosisKey(interrupted.id);
              outbox == if key in old(outbox) then old(outbox)[key := old(outbox)[key].(state := Pending, nextAt := now)]
                        else old(outbox)
    {
      hide Log;
      var r := interrupted;
      var ok := AddEvent(r, QueueStage, Errored);
      r := r.(status := Queued, dispatch := DispatchPending, attempt := r.attempt + 1);
      r := r.(revision := r.revision + 1);
      SaveRun(r);
      var key := DiagnosisKey(r.id);
      if key in outbox {
        outbox := outbox[key := outbox[key].(state := Pending, nextAt := now)];
      }
    }

    /** Fences the running runs one after the other, in the order the SELECT happens to list them. */
    method Recover(now: int)
      requires Valid()
      modifies this
      ensures Valid()
      ensures State() == RunTables.Recover(old(State()), now)
    {
      hide Log, Distinct, Consistent, RowWith, RecoveredRun, Recovering, RunTables.Recover;
      ghost var db := State();
      RecoverKeeps(db, now);
      RecoverNone(db, now);
      var order := Elements(set id | id in runs && runs[id].status == Running);
      assert Members(order[..0]) == {};
      for i := 0 to |order|
        invariant State() == Recovering(db, Members(order[..i]), now)
      {
        MembersStep(order, i);
        assert order[i] in order;
        OwnId(db, order[i]);
        RecoverOne(db, Members(order[..i]), order[i], now);
        RecoverRun(runs[order[i]].data, now);
      }
      assert order[..|order|] == order;
      RecoverAll(db, Members(order), now);
    }

    method BeginNotification(r: Run)
      requires Valid()
      modifies this
      ensures Valid()
      ensures State() == NotifyStartTx(old(State()), r.id, r.attempt)
    {
      hide Log, Consistent;
      NotifyKeeps(State(), r.id, r.attempt, Delivered);
      var ok := AddEvent(r, NotificationStage, Started);
    }

    method EndNotification(id: Id, sent: bool, last: bool)
      requires Valid()
      modifies this
      ensures Valid()
      ensures State() == NotifyEndTx(old(State()), id, if sent then Delivered else if last then LastAttemptUndelivered else Undelivered)
    {
      hide Log, Consistent;
      ghost var delivery := if sent then Delivered else if last then LastAttemptUndelivered else Undelivered;
      NotifyKeeps(State(), id, 0, delivery);
      if id !in runs {
        return;
      }
      OwnId(State(), id);
      var r := runs[id].data;
      var ok;
      if !sent {
        r := r.(notification := NotifyPending);
        if last {
          r := r.(notification := NotifyFailed);
          var key := NotificationKey(id);
          if key in outbox {
            outbox := outbox[key := outbox[key].(state := Dead)];
          }
        }
        ok := AddEvent(r, NotificationStage, Errored);
      } else {
        r := r.(notification := NotifySent);
        ok := AddEvent(r, NotificationStage, Completed);
      }
      r := r.(revision := r.revision + 1);
      SaveRun(r);
    }
  }

  // ------------------------------------------------------------- about the loops

  lemma NoAlerts(rows: map<EvidenceId, EvidenceRow>, id: Id)
    ensures Distinct<Id>([]) && rows + AlertEvidence(id, []) == rows
  {
  }

  lemma RepeatsAt(incidents: seq<Id>, i: nat)
    requires i < |incidents| && incidents[i] in incidents[..i]
    ensures !Distinct(incidents)
  {
  }

  lemma AlertPresent(rows: map<EvidenceId, EvidenceRow>, id: Id, incidents: seq<Id>, incident: Id)
    requires forall ev | ev in rows && ev.AlertRef? :: ev.run != id
    ensures AlertRef(id, incident) in rows + AlertEvidence(id, incidents) <==> incident in incidents
  {
  }

  lemma AlertMore(rows: map<EvidenceId, EvidenceRow>, id: Id, incidents: seq<Id>, incident: Id)
    ensures rows + AlertEvidence(id, incidents + [incident]) ==
            (rows + AlertEvidence(id, incidents))[AlertRef(id, incident) := EvidenceRow(id, Some(incident), None, None)]
  {
  }

  /** The tables when the running runs of `done` were recovered. */
  ghost function Recovering(db: Tables, done: set<Id>, now: int): Tables {
    db.(runs := map id | id in db.runs ::
          if id in done then RowWith(db.runs[id], RecoveredRun(db.runs[id].data)) else db.runs[id],
        events := map id | id in db.events ::
          if id in done && id in db.runs then Log(db.events[id], db.runs[id].data.attempt, QueueStage, Errored) else db.events[id],
        outbox := map k | k in db.outbox ::
          if k.DiagnosisKey? && k.run in done then db.outbox[k].(state := Pending, nextAt := now) else db.outbox[k])
  }

  lemma RecoverNone(db: Tables, now: int)
    ensures Recovering(db, {}, now) == db
  {
    hide Log, RowWith, RecoveredRun;
  }

  lemma RecoverOneRun(db: Tables, done: set<Id>, id: Id, now: int)
    requires Consistent(db) && id in db.runs && id !in done
    ensures var before, after := Recovering(db, done, now), Recovering(db, done + {id}, now);
            && id in before.runs && before.runs[id] == db.runs[id] && id in before.events
            && after.runs == before.runs[id := RowWith(before.runs[id], RecoveredRun(before.runs[id].data))]
            && after.events == before.events[id := Log(before.events[id], before.runs[id].data.attempt, QueueStage, Errored)]
  {
    hide Log, RowWith, RecoveredRun;
  }

  lemma RecoverOneOutbox(db: Tables, done: set<Id>, id: Id, now: int)
    requires id !in done
    ensures var before, after, key := Recovering(db, done, now), Recovering(db, done + {id}, now), DiagnosisKey(id);
            after.outbox == if key in before.outbox then before.outbox[key := before.outbox[key].(state := Pending, nextAt := now)]
                            else before.outbox
  {
    hide Log, RowWith, RecoveredRun;
  }

  lemma RecoverOne(db: Tables, done: set<Id>, id: Id, now: int)
    requires Consistent(db) && id in db.runs && id !in done
    ensures var before, key := Recovering(db, done, now), DiagnosisKey(id);
            && id in before.runs && before.runs[id] == db.runs[id] && id in before.events
            && Recovering(db, done + {id}, now) == before.(
                 runs := before.runs[id := RowWith(before.runs[id], RecoveredRun(before.runs[id].data))],
                 events := before.events[id := Log(before.events[id], before.runs[id].data.attempt, QueueStage, Errored)],
                 outbox := if key in before.outbox then before.outbox[key := before.outbox[key].(state := Pending, nextAt := now)]
                           else before.outbox)
  {
    hide Log, RowWith, RecoveredRun, Recovering;
    RecoverOneRun(db, done, id, now);
    RecoverOneOutbox(db, done, id, now);
    RecoverTouches(db, done, now);
    RecoverTouches(db, done + {id}, now);
  }

  lemma RecoverTouches(db: Tables, done: set<Id>, now: int)
    ensures Recovering(db, done, now).evidence == db.evidence && Recovering(db, done, now).citations == db.citations
  {
  }

  lemma RecoverAll(db: Tables, done: set<Id>, now: int)
    requires Consistent(db) && forall id :: id in done <==> IsRunning(db, id)
    ensures Recovering(db, done, now) == RunTables.Recover(db, now)
  {
    hide Log, RowWith, RecoveredRun;
  }
}
