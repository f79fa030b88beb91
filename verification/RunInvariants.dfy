/**
 What every committed transaction keeps: event accounting, attempt accounting, citations of one
 attempt only, one report per terminal run, and a durable outbox row per run.
 */
module RunInvariants {
  import opened Records
  import opened RunTables

  // ------------------------------------------------------------ event logs

  function CountStage(es: seq<Event>, stage: Stage): nat {
    if es == [] then 0
    else CountStage(es[..|es| - 1], stage) + if es[|es| - 1].stage == stage then 1 else 0
  }

  ghost function Claims(es: seq<Event>): nat { CountEvents(es, QueueStage, Started) }

  ghost function Recoveries(es: seq<Event>): nat { CountEvents(es, QueueStage, Errored) }

  ghost function Reports(es: seq<Event>): nat { CountStage(es, ReportStage) }

  /** Every event was numbered after the events before it. */
  ghost predicate EventLog(es: seq<Event>) {
    es == [] ||
    (var init, e := es[..|es| - 1], es[|es| - 1];
     && EventLog(init)
     && e.sequence == |es|
     && e.stageAttempt == Max(1, CountEvents(es, ExecutionStage(e.stage), Started)))
  }

  /** Sequences are exactly 1..n, and the started events of the execution stage so far give each stage attempt. */
  lemma {:induction false} EventLogAt(es: seq<Event>, i: nat)
    requires EventLog(es) && i < |es|
    ensures es[i].sequence == i + 1
    ensures es[i].stageAttempt == Max(1, CountEvents(es[..i + 1], ExecutionStage(es[i].stage), Started))
  {
    if i + 1 == |es| {
      assert es[..i + 1] == es;
    } else {
      var init := es[..|es| - 1];
      EventLogAt(init, i);
      assert init[..i + 1] == es[..i + 1];
    }
  }

  lemma {:induction false} LogLength(es: seq<Event>)
    requires EventLog(es)
    ensures MaxSequence(es) == |es|
  {
    if es != [] {
      LogLength(es[..|es| - 1]);
    }
  }

  /** What one more event does to a log. */
  ghost predicate Logged(es: seq<Event>, es': seq<Event>, stage: Stage, kind: EventKind) {
    && EventLog(es')
    && es < es' && |es'| == |es| + 1
    && Claims(es') == Claims(es) + (if stage == QueueStage && kind == Started then 1 else 0)
    && Recoveries(es') == Recoveries(es) + (if stage == QueueStage && kind == Errored then 1 else 0)
    && Reports(es') == Reports(es) + (if stage == ReportStage then 1 else 0)
  }

  /** addEvent keeps the log exact and counts the event it adds. */
  lemma LogCounts(es: seq<Event>, attempt: nat, stage: Stage, kind: EventKind)
    requires EventLog(es)
    ensures Logged(es, Log(es, attempt, stage, kind), stage, kind)
  {
    var es' := Log(es, attempt, stage, kind);
    LogLength(es);
    assert es'[..|es'| - 1] == es;
  }

  // --------------------------------------------------------- the invariant

  /** A run row agrees with its JSON copy and with the run's events. */
  ghost predicate RowOk(row: RunRow, id: Id, es: seq<Event>) {
    && row.data.id == id
    && row.status == row.data.status
    && row.attempt == row.data.attempt
    && row.revision == row.data.revision
    && row.revision >= 1
    && EventLog(es)
    && row.attempt == Claims(es) + Recoveries(es)
    && Reports(es) == (if Terminal(row.status) then 1 else 0)
  }

  ghost predicate LogsOk(db: Tables) {
    && db.events.Keys == db.runs.Keys
    && forall id | id in db.runs :: RowOk(db.runs[id], id, EventsOf(db, id))
  }

  /** Recovery leaves the citations of the attempt it interrupted; the next claim clears them. */
  ghost function CitingAttempt(row: RunRow): nat {
    if row.data.status == Queued && row.data.attempt > 0 then row.data.attempt - 1 else row.data.attempt
  }

  /** A citation row names evidence of the citing attempt, and the run lists it. */
  ghost predicate CitationOk(db: Tables, k: CitationKey)
    requires k in db.citations
  {
    && k.run in db.runs
    && (var row, c := db.runs[k.run], db.citations[k];
        && c.evidence == ChunkRef(k.run, CitingAttempt(row), k.incident, k.chunk)
        && c.retrieval == RetrievalRef(k.run, CitingAttempt(row), k.incident)
        && c.evidence in db.evidence
        && c.evidence in row.data.citations)
  }

  /** A listed citation has its row. */
  ghost predicate ListedOk(db: Tables, id: Id, c: EvidenceId) {
    && c.ChunkRef?
    && (var k := CitationKey(id, c.incident, c.chunk); k in db.citations && db.citations[k].evidence == c)
  }

  ghost predicate CitesOk(db: Tables) {
    && (forall k | k in db.citations :: CitationOk(db, k))
    && (forall id, c | id in db.runs && c in db.runs[id].data.citations :: ListedOk(db, id, c))
  }

  /** Chunk evidence says under which attempt it was recorded. */
  ghost predicate EvidenceOk(db: Tables) {
    forall ev | ev in db.evidence && ev.ChunkRef? ::
      db.evidence[ev].run == ev.run && db.evidence[ev].attempt == Some(ev.attempt) && db.evidence[ev].chunk.Some?
  }

  ghost predicate OutboxOk(db: Tables) {
    forall id | id in db.runs :: DiagnosisKey(id) in db.outbox
  }

  ghost predicate TablesOk(db: Tables) {
    LogsOk(db) && CitesOk(db) && EvidenceOk(db) && OutboxOk(db)
  }

  /** The run's citation list, as a set, is the evidence of its citation rows. */
  lemma CitationListIsTable(db: Tables, id: Id)
    requires CitesOk(db) && id in db.runs
    ensures (set c | c in db.runs[id].data.citations) ==
            (set k | k in db.citations && k.run == id :: db.citations[k].evidence)
  {
    forall c | c in db.runs[id].data.citations
      ensures c in (set k | k in db.citations && k.run == id :: db.citations[k].evidence)
    {
      assert ListedOk(db, id, c);
    }
    forall k | k in db.citations && k.run == id ensures db.citations[k].evidence in db.runs[id].data.citations {
      assert CitationOk(db, k);
    }
  }

  /** A running or finished run cites only evidence recorded under its current attempt. */
  lemma CitationsOfCurrentAttempt(db: Tables, id: Id, c: EvidenceId)
    requires TablesOk(db) && id in db.runs && c in db.runs[id].data.citations
    requires db.runs[id].status != Queued
    ensures c in db.evidence && c.ChunkRef?
    ensures db.evidence[c].run == id && db.evidence[c].attempt == Some(db.runs[id].attempt)
  {
    assert ListedOk(db, id, c);
    var k := CitationKey(id, c.incident, c.chunk);
    assert CitationOk(db, k);
    assert RowOk(db.runs[id], id, EventsOf(db, id));
  }

  // -------------------------------------------- logs and rows, transaction by transaction

  lemma RowOf(db: Tables, id: Id)
    requires LogsOk(db) && id in db.runs
    ensures RowOk(db.runs[id], id, EventsOf(db, id))
    ensures db.runs[id].data.id == id && db.runs[id].attempt == db.runs[id].data.attempt
    ensures db.runs[id].status == db.runs[id].data.status
  {
  }

  lemma LogsUpdate(db: Tables, db': Tables, id: Id, row: RunRow, es: seq<Event>)
    requires LogsOk(db) && RowOk(row, id, es)
    requires db'.runs == db.runs[id := row] && db'.events == db.events[id := es]
    ensures LogsOk(db')
  {
  }

  lemma AdmittedRowOk(id: Id, incidents: seq<Id>, business: BusinessKey, now: int)
    ensures RowOk(NewRow(business, id, incidents, now), id, AdmittedEvents())
  {
    hide Log;
    var es1 := Log([], 0, ReceiveStage, Completed);
    LogCounts([], 0, ReceiveStage, Completed);
    LogCounts(es1, 0, QueueStage, Completed);
  }

  lemma InsertLogs(db: Tables, id: Id, incidents: seq<Id>, business: BusinessKey, alerts: seq<string>, now: int)
    requires LogsOk(db)
    ensures LogsOk(InsertRun(db, id, incidents, business, alerts, now))
  {
    hide LogsOk, RowOk, AdmittedEvents, AlertEvidence, NewRow, CanInsert;
    if CanInsert(db, id, business) {
      AdmittedRowOk(id, incidents, business, now);
      LogsUpdate(db, InsertRun(db, id, incidents, business, alerts, now), id,
                 NewRow(business, id, incidents, now), AdmittedEvents());
    }
  }

  lemma ClaimedRowOk(row: RunRow, id: Id, es: seq<Event>, now: int)
    requires RowOk(row, id, es) && !Terminal(row.data.status)
    ensures RowOk(ClaimedRow(row, now), id, ClaimedEvents(es, row.data.attempt + 1))
  {
    var a := row.data.attempt + 1;
    LogCounts(es, a, QueueStage, Started);
    LogCounts(Log(es, a, QueueStage, Started), a, QueueStage, Completed);
  }

  lemma ClaimLogs(db: Tables, id: Id, now: int)
    requires LogsOk(db)
    ensures LogsOk(Claim(db, id, now))
  {
    if ClaimTry(db, id, now).Claimed? {
      RowOf(db, id);
      ClaimedRowOk(db.runs[id], id, EventsOf(db, id), now);
      LogsUpdate(db, Claim(db, id, now), id, ClaimedRow(db.runs[id], now),
                 ClaimedEvents(EventsOf(db, id), db.runs[id].data.attempt + 1));
    }
  }

  /** Events of stages other than queue and report count neither attempts nor reports. */
  lemma SideEventRowOk(row: RunRow, id: Id, es: seq<Event>, attempt: nat, stage: Stage, kind: EventKind)
    requires RowOk(row, id, es) && !stage.QueueStage? && !stage.ReportStage?
    ensures RowOk(row, id, Log(es, attempt, stage, kind))
  {
    LogCounts(es, attempt, stage, kind);
  }

  lemma SideEventLogs(db: Tables, db': Tables, id: Id, attempt: nat, stage: Stage, kind: EventKind)
    requires LogsOk(db) && id in db.runs && !stage.QueueStage? && !stage.ReportStage?
    requires db'.runs == db.runs && db'.events == db.events[id := Log(EventsOf(db, id), attempt, stage, kind)]
    ensures LogsOk(db')
  {
    SideEventRowOk(db.runs[id], id, EventsOf(db, id), attempt, stage, kind);
    LogsUpdate(db, db', id, db.runs[id], Log(EventsOf(db, id), attempt, stage, kind));
  }

  /** A save that keeps id, status and attempt and advances the revision keeps the row in order. */
  lemma SaveLogs(db: Tables, db': Tables, id: Id, r: Run)
    requires LogsOk(db) && id in db.runs
    requires r.id == id && r.status == db.runs[id].data.status && r.attempt == db.runs[id].data.attempt && r.revision >= 1
    requires db'.runs == db.runs[id := RowWith(db.runs[id], r)] && db'.events == db.events
    ensures LogsOk(db')
  {
    RowOf(db, id);
    assert db'.events == db.events[id := EventsOf(db, id)];
    LogsUpdate(db, db', id, RowWith(db.runs[id], r), EventsOf(db, id));
  }

  lemma FinishedRowOk(row: RunRow, id: Id, es: seq<Event>, r: Run, cfg: Settings, v: Verdict, now: int, elapsed: int)
    requires RowOk(row, id, es) && row.status == Running && Terminal(v.status)
    requires r.id == id && r.attempt == row.attempt
    ensures RowOk(RowWith(row, FinishedRun(r, row.data, cfg, v, now, elapsed)), id, FinishedEvents(es, r.attempt, cfg, v))
  {
    var kind := if v.status == Succeeded then Completed else Errored;
    LogCounts(es, r.attempt, ReportStage, kind);
    LogCounts(Log(es, r.attempt, ReportStage, kind), r.attempt, NotificationStage, Skipped);
  }

  lemma FinishLogs(db: Tables, cfg: Settings, r: Run, v: Verdict, now: int, elapsed: int)
    requires LogsOk(db) && Terminal(v.status)
    ensures LogsOk(FinishTx(db, cfg, r, v, now, elapsed))
  {
    if Owned(db, r) {
      var row, es := db.runs[r.id], EventsOf(db, r.id);
      FinishedRowOk(row, r.id, es, r, cfg, v, now, elapsed);
      LogsUpdate(db, FinishTx(db, cfg, r, v, now, elapsed), r.id,
                 RowWith(row, FinishedRun(r, row.data, cfg, v, now, elapsed)), FinishedEvents(es, r.attempt, cfg, v));
    }
  }

  lemma NotifyEndLogs(db: Tables, id: Id, d: Delivery)
    requires LogsOk(db)
    ensures LogsOk(NotifyEndTx(db, id, d))
  {
    if id in db.runs {
      var row, es := db.runs[id], EventsOf(db, id);
      var es' := Log(es, row.data.attempt, NotificationStage, if d.Delivered? then Completed else Errored);
      SideEventRowOk(row, id, es, row.data.attempt, NotificationStage, if d.Delivered? then Completed else Errored);
      LogsUpdate(db, NotifyEndTx(db, id, d), id, RowWith(row, NotifiedRun(row.data, d)), es');
    }
  }

  lemma RecoveredRowOk(row: RunRow, id: Id, es: seq<Event>)
    requires RowOk(row, id, es) && row.status == Running
    ensures RowOk(RowWith(row, RecoveredRun(row.data)), id, Log(es, row.data.attempt, QueueStage, Errored))
  {
    LogCounts(es, row.data.attempt, QueueStage, Errored);
  }

  lemma RecoverLogs(db: Tables, now: int)
    requires LogsOk(db)
    ensures LogsOk(Recover(db, now))
  {
    var db' := Recover(db, now);
    assert db'.events.Keys == db'.runs.Keys;
    forall id | id in db'.runs ensures RowOk(db'.runs[id], id, EventsOf(db', id)) {
      RowOf(db, id);
      if IsRunning(db, id) {
        RecoveredRowOk(db.runs[id], id, EventsOf(db, id));
      }
    }
  }

  // ------------------------------------------------ citations, transaction by transaction

  /** Citations are untouched by a transaction that keeps citation rows, lists and citing attempts. */
  lemma CitesFrame(db: Tables, db': Tables)
    requires CitesOk(db)
    requires db'.citations == db.citations && db.evidence.Keys <= db'.evidence.Keys
    requires db.runs.Keys <= db'.runs.Keys
    requires forall id | id in db.runs ::
               && db'.runs[id].data.citations == db.runs[id].data.citations
               && CitingAttempt(db'.runs[id]) == CitingAttempt(db.runs[id])
    requires forall id | id in db'.runs && id !in db.runs :: db'.runs[id].data.citations == []
    ensures CitesOk(db')
  {
    forall k | k in db'.citations ensures CitationOk(db', k) {
      assert CitationOk(db, k);
    }
    forall id, c | id in db'.runs && c in db'.runs[id].data.citations ensures ListedOk(db', id, c) {
      assert ListedOk(db, id, c);
    }
  }

  lemma ClaimCites(db: Tables, id: Id, now: int)
    requires CitesOk(db)
    ensures CitesOk(Claim(db, id, now))
  {
    if ClaimTry(db, id, now).Claimed? {
      var db' := Claim(db, id, now);
      forall k | k in db'.citations ensures CitationOk(db', k) {
        assert CitationOk(db, k);
      }
      forall x, c | x in db'.runs && c in db'.runs[x].data.citations ensures ListedOk(db', x, c) {
        assert ListedOk(db, x, c);
      }
    }
  }

  /** A clash can only be with the same citation, because evidence ids carry run, attempt, incident and chunk. */
  lemma ClashIsSame(db: Tables, r: Run, incident: Id, id: ChunkId)
    requires LogsOk(db) && CitesOk(db) && Owned(db, r)
    ensures var ev, key := ChunkRef(r.id, r.attempt, incident, id), CitationKey(r.id, incident, id);
            CitationClash(db, key, ev) ==> key in db.citations && db.citations[key].evidence == ev
  {
    RowOf(db, r.id);
    var ev, key := ChunkRef(r.id, r.attempt, incident, id), CitationKey(r.id, incident, id);
    forall k | k in db.citations && db.citations[k].evidence == ev ensures k == key {
      assert CitationOk(db, k);
    }
    if key in db.citations { assert CitationOk(db, key); }
  }

  lemma CiteRow(db: Tables, r: Run, incident: Id, id: ChunkId, chunk: Chunk)
    requires LogsOk(db) && Owned(db, r)
    ensures var db' := CiteTx(db, r, incident, id, chunk);
            var ev := ChunkRef(r.id, r.attempt, incident, id);
            && db'.runs.Keys == db.runs.Keys && ev in db'.evidence && db.evidence.Keys <= db'.evidence.Keys
            && db'.runs[r.id].data.citations == db.runs[r.id].data.citations + [ev]
            && CitingAttempt(db.runs[r.id]) == r.attempt
            && (forall x | x in db.runs :: CitingAttempt(db'.runs[x]) == CitingAttempt(db.runs[x]))
            && (forall x | x in db.runs && x != r.id :: db'.runs[x] == db.runs[x])
  {
    hide LogsOk, RowOk, CitationClash;
    RowOf(db, r.id);
  }

  lemma CiteTable(db: Tables, r: Run, incident: Id, id: ChunkId, chunk: Chunk)
    requires LogsOk(db) && CitesOk(db) && Owned(db, r)
    ensures var db' := CiteTx(db, r, incident, id, chunk);
            var ev, key := ChunkRef(r.id, r.attempt, incident, id), CitationKey(r.id, incident, id);
            && db'.citations.Keys == db.citations.Keys + {key}
            && db'.citations[key].evidence == ev
            && (forall k | k in db.citations :: db'.citations[k] == db.citations[k])
            && (key !in db.citations ==> db'.citations[key].retrieval == RetrievalRef(r.id, r.attempt, incident))
  {
    hide LogsOk, RowOk, CitesOk;
    ClashIsSame(db, r, incident, id);
  }

  lemma CiteCites(db: Tables, r: Run, incident: Id, id: ChunkId, chunk: Chunk)
    requires LogsOk(db) && CitesOk(db) && Owned(db, r)
    ensures CitesOk(CiteTx(db, r, incident, id, chunk))
  {
    hide LogsOk, CiteTx, CitingAttempt;
    var db' := CiteTx(db, r, incident, id, chunk);
    var ev := ChunkRef(r.id, r.attempt, incident, id);
    CiteRow(db, r, incident, id, chunk);
    CiteTable(db, r, incident, id, chunk);
    forall k | k in db'.citations ensures CitationOk(db', k) {
      if k in db.citations { assert CitationOk(db, k); }
    }
    forall x, c | x in db'.runs && c in db'.runs[x].data.citations ensures ListedOk(db', x, c) {
      if !(x == r.id && c == ev) { assert ListedOk(db, x, c); }
    }
  }
}
