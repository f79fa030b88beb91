/**
 The retrieval projection against the SQL facts, over every history of operations; and what a put,
 a delete or a late cleanup may and may not change.
 */
module Projection {
  import opened Records
  import opened Knowledge
  import Text
  import opened KnowledgeInvariants

  /** The projection serves exactly the live versions, and mirrors all their chunks. */
  ghost predicate Synced(s: State) {
    && s.rag.active == LiveActive(s.sql, s.space)
    && forall c | c in LiveIds(s.sql, s.space) ::
         c in s.rag.bm25 && c in s.rag.chunks && s.rag.chunks[c] == LiveChunk(s.sql, c)
  }

  // ------------------------------------------------------ commits that are not seen

  /** Which documents are undeleted, what they point at, and the rows they point at. */
  ghost predicate ServesSame(sql: Sql, sql': Sql) {
    && (forall d | d in sql.docs :: d in sql'.docs
                                    && sql'.docs[d].active == sql.docs[d].active
                                    && sql'.docs[d].deletedAt == sql.docs[d].deletedAt
                                    && sql'.docs[d].environment == sql.docs[d].environment)
    && (forall d | d in sql'.docs && d !in sql.docs :: sql'.docs[d].active.None?)
    && (forall d | d in sql.docs && sql.docs[d].deletedAt.None? && sql.docs[d].active.Some? ::
          var v := sql.docs[d].active.value;
          v in sql.versions && v in sql'.versions && sql'.versions[v] == sql.versions[v])
  }

  lemma ServesSameTrans(a: Sql, b: Sql, c: Sql)
    requires ServesSame(a, b) && ServesSame(b, c)
    ensures ServesSame(a, c)
  {
  }

  lemma StagingServesSame(sql: Sql, v: VersionId, row: Version)
    requires SqlOk(sql) && Stageable(sql, v)
    ensures ServesSame(sql, WithVersion(sql, v, row))
  {
    forall d | d in sql.docs && sql.docs[d].deletedAt.None? && sql.docs[d].active.Some?
      ensures sql.docs[d].active.value != v && sql.docs[d].active.value in sql.versions
    {
      assert DocOk(sql, d);
    }
  }

  /** Until its publishing commit, a put changes nothing that is being served. */
  lemma UnpublishedPutServesSame(s: State, q: PutRequest, t: Target, now: int)
    requires StateOk(s) && ReadyToStage(s, q, t)
    ensures ServesSame(s.sql, StagedSql(s, q, t, now))
    ensures ServesSame(s.sql, KeyedSql(s, q, t, now))
    ensures ServesSame(s.sql, UnindexedSql(s, q, t, now))
  {
    hide SqlOk;
    var v := VersionFor(s, q, t);
    var row := StagedVersion(s.sql, v, now);
    StagingServesSame(s.sql, v, row);
    StagingServesSame(s.sql, v, row.(index := IndexFailed));
  }

  lemma SameServes(sql: Sql, sql': Sql)
    requires SqlOk(sql)
    requires sql'.docs == sql.docs && sql'.versions == sql.versions
    ensures ServesSame(sql, sql')
  {
    forall d | d in sql.docs && sql.docs[d].active.Some? ensures sql.docs[d].active.value in sql.versions {
      assert DocOk(sql, d);
    }
  }

  lemma NewDocServesSame(sql: Sql, id: Id, d: Document)
    requires SqlOk(sql) && id !in sql.docs && d.active.None?
    ensures ServesSame(sql, sql.(docs := sql.docs[id := d]))
  {
    SameServes(sql, sql);
  }

  // ------------------------------------------------------------ puts that do not publish

  /** The put gets past the recognition of its idempotency key. */
  predicate PassesKey(s: State, q: PutRequest) {
    var t := TargetOf(q);
    q.key == "" || t.keyId !in s.sql.keys ||
    (var k := s.sql.keys[t.keyId];
     k.body == t.body && t.id in s.sql.docs && k.version in s.sql.versions && !Published(s.sql.versions[k.version]))
  }

  /** The put gets past the compare-and-swap, and the staging write succeeds. */
  predicate Stages(s: State, q: PutRequest, f: Fault) {
    && ValidPut(q) && !f.ReadFault? && PassesKey(s, q)
    && (Admit(s.sql, q, TargetOf(q)).PutReplace? || Admit(s.sql, q, TargetOf(q)).PutNew?)
    && !f.StageFault?
  }

  predicate PublishesStaged(s: State, q: PutRequest, t: Target, f: Fault) {
    && !f.StageFault? && !f.KeyFault? && !f.SourceFault? && !f.IndexSaveFault? && !f.IndexFault? && !f.CommitFault?
    && !IndexRefused(s, VersionFor(s, q, t)) && !TitleTaken(s.sql.docs, t.id, q.source, t.title)
  }

  /** The put reaches its publishing commit. */
  predicate Publishes(s: State, q: PutRequest, f: Fault) {
    Stages(s, q, f) && PublishesStaged(s, q, TargetOf(q), f)
  }

  lemma FailedPutStagedServesSame(s: State, q: PutRequest, t: Target, now: int, f: Fault)
    requires StateOk(s) && ReadyToStage(s, q, t) && !PublishesStaged(s, q, t, f)
    ensures ServesSame(s.sql, PutStaged(s, q, t, now, f).0.sql)
  {
    hide SqlOk, ServesSame, StagedSql, KeyedSql, UnindexedSql, IndexedRag, PublishedState, Restored, IndexRefused, TitleTaken, VersionFor;
    UnpublishedPutServesSame(s, q, t, now);
    SameServes(s.sql, s.sql);
  }

  /** A put that does not publish leaves what is served as it was: undeleted documents, their pointers and those versions. */
  lemma FailedPutServesSame(s: State, q: PutRequest, now: int, f: Fault)
    requires StateOk(s) && !Publishes(s, q, f)
    ensures ServesSame(s.sql, Put(s, q, now, f).0.sql)
  {
    hide SqlOk, RagOk, ServesSame, PutFresh, LiveChunks, LiveActive, ValidPut, TargetOf, PublishesStaged, Admit;
    SameServes(s.sql, s.sql);
    if ValidPut(q) && !f.ReadFault? && PassesKey(s, q) { FailedPutFreshServesSame(s, q, TargetOf(q), now, f); }
  }

  lemma FailedPutFreshServesSame(s: State, q: PutRequest, t: Target, now: int, f: Fault)
    requires StateOk(s)
    requires Admit(s.sql, q, t).PutReplace? || Admit(s.sql, q, t).PutNew? ==> f.StageFault? || !PublishesStaged(s, q, t, f)
    ensures ServesSame(s.sql, PutFresh(s, q, t, now, f).0.sql)
  {
    hide SqlOk, RagOk, ServesSame, PutStaged, LiveChunks, LiveActive, TitleTaken, PublishesStaged;
    SameServes(s.sql, s.sql);
    match Admit(s.sql, q, t) {
      case PutConflict =>
      case PutBroken =>
      case PutSame(current) => SameServes(s.sql, WithKey(s.sql, q, t, current));
      case PutReplace =>
        AdmittedIsReady(s, q, t);
        StagedPublishes(s, s, q, t, f);
        FailedPutStagedServesSame(s, q, t, now, f);
      case PutNew =>
        var d := Document(t.title, q.source, t.environment, None, None, IndexPending);
        var s1 := s.(sql := s.sql.(docs := s.sql.docs[t.id := d]));
        InsertDocOk(s.sql, t.id, d);
        NewDocServesSame(s.sql, t.id, d);
        StagedPublishes(s, s1, q, t, f);
        FailedPutStagedServesSame(s1, q, t, now, f);
        ServesSameTrans(s.sql, s1.sql, PutStaged(s1, q, t, now, f).0.sql);
    }
  }

  /** Inserting the document itself does not decide whether its put publishes. */
  lemma StagedPublishes(s: State, s1: State, q: PutRequest, t: Target, f: Fault)
    requires s1.space == s.space && s1.rag == s.rag
    requires forall d | d != t.id :: (d in s.sql.docs <==> d in s1.sql.docs) && (d in s.sql.docs ==> s1.sql.docs[d] == s.sql.docs[d])
    ensures PublishesStaged(s1, q, t, f) == PublishesStaged(s, q, t, f)
    ensures f.StageFault? ==> !PublishesStaged(s, q, t, f)
  {
    hide Text.Snippets, Text.ToLower;
  }

  /** The version a put would stage is the active version of a document that is deleted. */
  predicate Reactivates(s: State, q: PutRequest, v: VersionId) {
    var t := TargetOf(q);
    v == VersionFor(s, q, t) && t.id in s.sql.docs && s.sql.docs[t.id].deletedAt.Some? && s.sql.docs[t.id].active == Some(v)
  }

  /** What a put that does not publish does to documents and versions: no document row changes, one version may be staged. */
  ghost predicate OnlyStages(sql: Sql, sql': Sql, v: VersionId, staged: bool) {
    && (forall d | d in sql.docs :: d in sql'.docs && sql'.docs[d] == sql.docs[d])
    && (forall d | d in sql'.docs && d !in sql.docs :: sql'.docs[d].active.None?)
    && (forall x | x in sql.versions && !(staged && x == v) :: x in sql'.versions && sql'.versions[x] == sql.versions[x])
    && (staged ==>
          && v in sql'.versions && sql'.versions[v].status == Staging
          && (v in sql.versions ==>
                && sql'.versions[v].content == sql.versions[v].content
                && sql'.versions[v].createdAt == sql.versions[v].createdAt
                && sql'.versions[v].chunks == sql.versions[v].chunks))
  }

  lemma FailedPutStagedRows(s: State, q: PutRequest, t: Target, now: int, f: Fault)
    requires t.id in s.sql.docs && !PublishesStaged(s, q, t, f)
    ensures OnlyStages(s.sql, PutStaged(s, q, t, now, f).0.sql, VersionFor(s, q, t), !f.StageFault?)
  {
    hide IndexRefused, TitleTaken, PublishedState, Restored, IndexedRag, StagedSql, KeyedSql, UnindexedSql, OnlyStages, VersionFor;
    NothingStaged(s.sql, s.sql, VersionFor(s, q, t));
    CommitsStage(s, q, t, now);
  }

  lemma CommitsStage(s: State, q: PutRequest, t: Target, now: int)
    ensures var v := VersionFor(s, q, t);
            && OnlyStages(s.sql, StagedSql(s, q, t, now), v, true)
            && OnlyStages(s.sql, KeyedSql(s, q, t, now), v, true)
            && OnlyStages(s.sql, UnindexedSql(s, q, t, now), v, true)
  {
    hide OnlyStages;
    var v := VersionFor(s, q, t);
    RowStages(s.sql, StagedSql(s, q, t, now), v, StagedVersion(s.sql, v, now));
    RowStages(s.sql, KeyedSql(s, q, t, now), v, StagedVersion(s.sql, v, now));
    assert UnindexedSql(s, q, t, now).versions == s.sql.versions[v := StagedVersion(s.sql, v, now).(index := IndexFailed)];
    RowStages(s.sql, UnindexedSql(s, q, t, now), v, StagedVersion(s.sql, v, now).(index := IndexFailed));
  }

  lemma RowStages(sql: Sql, sql': Sql, v: VersionId, row: Version)
    requires sql'.docs == sql.docs && sql'.versions == sql.versions[v := row] && row.status == Staging
    requires v in sql.versions ==>
               row.content == sql.versions[v].content && row.createdAt == sql.versions[v].createdAt && row.chunks == sql.versions[v].chunks
    ensures OnlyStages(sql, sql', v, true)
  {
  }

  lemma FailedPutFreshRows(s: State, q: PutRequest, t: Target, now: int, f: Fault, v: VersionId)
    requires v == VersionFor(s, q, t)
    requires Admit(s.sql, q, t).PutReplace? || Admit(s.sql, q, t).PutNew? ==> f.StageFault? || !PublishesStaged(s, q, t, f)
    ensures OnlyStages(s.sql, PutFresh(s, q, t, now, f).0.sql, v,
                       (Admit(s.sql, q, t).PutReplace? || Admit(s.sql, q, t).PutNew?) && !f.StageFault?)
  {
    hide OnlyStages, PutStaged, LiveChunks, LiveActive, TitleTaken, PublishesStaged, VersionFor;
    match Admit(s.sql, q, t) {
      case PutConflict => NothingStaged(s.sql, s.sql, v);
      case PutBroken => NothingStaged(s.sql, s.sql, v);
      case PutSame(current) =>
        NothingStaged(s.sql, s.sql, v);
        NothingStaged(s.sql, WithKey(s.sql, q, t, current), v);
      case PutReplace =>
        StagedPublishes(s, s, q, t, f);
        FailedPutStagedRows(s, q, t, now, f);
      case PutNew =>
        var d := Document(t.title, q.source, t.environment, None, None, IndexPending);
        var s1 := s.(sql := s.sql.(docs := s.sql.docs[t.id := d]));
        StagedPublishes(s, s1, q, t, f);
        FailedPutStagedRows(s1, q, t, now, f);
        SameVersionFor(s, s1, q, t);
        NewDocStages(s.sql, t.id, d, PutStaged(s1, q, t, now, f).0.sql, v, !f.StageFault?);
    }
  }

  lemma FailedPutRows(s: State, q: PutRequest, now: int, f: Fault)
    requires !Publishes(s, q, f)
    ensures OnlyStages(s.sql, Put(s, q, now, f).0.sql, VersionFor(s, q, TargetOf(q)), Stages(s, q, f))
  {
    hide OnlyStages, PutFresh, LiveChunks, LiveActive, TargetOf, ValidPut, PublishesStaged, VersionFor, Admit;
    var t := TargetOf(q);
    NothingStaged(s.sql, s.sql, VersionFor(s, q, t));
    if ValidPut(q) && !f.ReadFault? && PassesKey(s, q) { FailedPutFreshRows(s, q, t, now, f, VersionFor(s, q, t)); }
  }

  lemma SameVersionFor(s: State, s1: State, q: PutRequest, t: Target)
    requires s1.space == s.space
    ensures VersionFor(s1, q, t) == VersionFor(s, q, t)
  {
  }

  lemma NothingStaged(sql: Sql, sql': Sql, v: VersionId)
    requires sql'.docs == sql.docs && sql'.versions == sql.versions
    ensures OnlyStages(sql, sql', v, false)
  {
  }

  lemma NewDocStages(sql: Sql, id: Id, d: Document, sql': Sql, v: VersionId, staged: bool)
    requires id !in sql.docs && d.active.None? && OnlyStages(sql.(docs := sql.docs[id := d]), sql', v, staged)
    ensures OnlyStages(sql, sql', v, staged)
  {
  }

  /**
   A put that does not publish changes the row of a version with status active exactly when it stages that very
   version, and then its document is deleted and still points at it. It changes no other active row and no
   document's pointer.
   */
  lemma FailedPutActiveRows(s: State, q: PutRequest, now: int, f: Fault, v: VersionId)
    requires StateOk(s) && !Publishes(s, q, f) && v in s.sql.versions && s.sql.versions[v].status == Active
    ensures var sql' := Put(s, q, now, f).0.sql;
            && v in sql'.versions
            && (sql'.versions[v] != s.sql.versions[v] <==> Stages(s, q, f) && Reactivates(s, q, v))
            && (forall d | d in s.sql.docs :: d in sql'.docs && sql'.docs[d].active == s.sql.docs[d].active)
  {
    hide SqlOk, RagOk, Put, Stages, Publishes, TargetOf;
    FailedPutRows(s, q, now, f);
    if Stages(s, q, f) && v == VersionFor(s, q, TargetOf(q)) { StagedIsDeleted(s, q, f, v); }
  }

  lemma StagedIsDeleted(s: State, q: PutRequest, f: Fault, v: VersionId)
    requires StateOk(s) && Stages(s, q, f) && v == VersionFor(s, q, TargetOf(q))
    requires v in s.sql.versions && s.sql.versions[v].status == Active
    ensures Reactivates(s, q, v)
  {
    hide RagOk, TargetOf, ValidPut, PassesKey, ChunksOf;
    var t := TargetOf(q);
    assert VersionOk(s.sql, v);
    if Admit(s.sql, q, t).PutReplace? { AdmittedIsReady(s, q, t); }
  }

  /** A put whose expected version is not the active one changes no fact, whatever its key replays. */
  lemma StaleExpectationChangesNothing(s: State, q: PutRequest, now: int, f: Fault)
    requires q.expected.Some?
    requires TargetOf(q).id in s.sql.docs ==> s.sql.docs[TargetOf(q).id].active != q.expected
    ensures Put(s, q, now, f).0.sql == s.sql
    ensures Put(s, q, now, f).0 == s || Put(s, q, now, f).0 == Restored(s)
  {
    hide PutStaged, LiveChunks, LiveActive, TargetOf, ValidPut;
    var t := TargetOf(q);
    assert Admit(s.sql, q, t).PutConflict?;
  }

  // -------------------------------------------------------------- immutability

  /** What was recorded about a version stays: content, creation time, and its chunks once it has any. */
  ghost predicate Preserves(sql: Sql, sql': Sql) {
    && (forall v | v in sql.versions ::
          && v in sql'.versions
          && sql'.versions[v].content == sql.versions[v].content
          && sql'.versions[v].createdAt == sql.versions[v].createdAt
          && (sql.versions[v].chunks != [] ==> sql'.versions[v].chunks == sql.versions[v].chunks))
    && (forall c | c in sql.chunks :: c in sql'.chunks && sql'.chunks[c] == sql.chunks[c])
  }

  lemma PreservesTrans(a: Sql, b: Sql, c: Sql)
    requires Preserves(a, b) && Preserves(b, c)
    ensures Preserves(a, c)
  {
  }

  lemma PublishPreserves(sql: Sql, q: PutRequest, t: Target, v: VersionId)
    requires SqlOk(sql) && t.id in sql.docs && v in sql.versions && v.doc == t.id && sql.docs[t.id].source == q.source
    ensures Preserves(sql, Publish(sql, q, t, v))
  {
    assert VersionOk(sql, v);
  }

  lemma PutCommitsPreserve(s: State, q: PutRequest, t: Target, now: int)
    requires StateOk(s) && ReadyToStage(s, q, t)
    ensures Preserves(s.sql, StagedSql(s, q, t, now)) && Preserves(s.sql, KeyedSql(s, q, t, now))
    ensures Preserves(s.sql, UnindexedSql(s, q, t, now)) && Preserves(s.sql, PublishedState(s, q, t, now).sql)
  {
    hide SqlOk, RagOk, Publish, ChunksOf, Mirror;
    PutCommitsOk(s, q, t, now);
    PublishPreserves(KeyedSql(s, q, t, now), q, t, VersionFor(s, q, t));
    PreservesTrans(s.sql, KeyedSql(s, q, t, now), PublishedState(s, q, t, now).sql);
  }

  lemma PutStagedPreserves(s: State, q: PutRequest, t: Target, now: int, f: Fault)
    requires StateOk(s) && ReadyToStage(s, q, t)
    ensures Preserves(s.sql, PutStaged(s, q, t, now, f).0.sql)
  {
    hide SqlOk, StagedSql, KeyedSql, UnindexedSql, IndexedRag, PublishedState, IndexRefused, TitleTaken, VersionFor;
    PutCommitsPreserve(s, q, t, now);
  }

  lemma PutPreserves(s: State, q: PutRequest, now: int, f: Fault)
    requires StateOk(s)
    ensures Preserves(s.sql, Put(s, q, now, f).0.sql)
  {
    hide SqlOk, RagOk, PutFresh, LiveChunks, LiveActive, ValidPut, TargetOf;
    PutFreshPreserves(s, q, TargetOf(q), now, f);
  }

  lemma PutFreshPreserves(s: State, q: PutRequest, t: Target, now: int, f: Fault)
    requires StateOk(s)
    ensures Preserves(s.sql, PutFresh(s, q, t, now, f).0.sql)
  {
    hide SqlOk, RagOk, PutStaged, LiveChunks, LiveActive, TitleTaken;
    if Admit(s.sql, q, t).PutReplace? {
      AdmittedIsReady(s, q, t);
      PutStagedPreserves(s, q, t, now, f);
    } else if Admit(s.sql, q, t).PutNew? {
      var d := Document(t.title, q.source, t.environment, None, None, IndexPending);
      InsertDocOk(s.sql, t.id, d);
      PutStagedPreserves(s.(sql := s.sql.(docs := s.sql.docs[t.id := d])), q, t, now, f);
    }
  }

  function Exec(s: State, ops: seq<Op>): State
    decreases |ops|
  {
    if ops == [] then s else Exec(Apply(s, ops[0]).0, ops[1..])
  }

  lemma ApplyPreserves(s: State, op: Op)
    requires StateOk(s)
    ensures Preserves(s.sql, Apply(s, op).0.sql)
  {
    hide SqlOk, RagOk, Put, LiveChunks, LiveActive, Unmirror;
    if op.PutOp? { PutPreserves(s, op.q, op.now, op.f); }
  }

  /** Through any history, deletions and reactivations included, no version's record changes. */
  lemma {:induction false} VersionsAreImmutable(s: State, ops: seq<Op>)
    requires StateOk(s)
    ensures StateOk(Exec(s, ops)) && Preserves(s.sql, Exec(s, ops).sql)
    decreases |ops|
  {
    hide SqlOk, RagOk, Apply, Preserves;
    if ops == [] {
      PreservesRefl(s.sql);
    } else {
      ApplyOk(s, ops[0]);
      ApplyPreserves(s, ops[0]);
      VersionsAreImmutable(Apply(s, ops[0]).0, ops[1..]);
      PreservesTrans(s.sql, Apply(s, ops[0]).0.sql, Exec(s, ops).sql);
    }
  }

  lemma PreservesRefl(sql: Sql)
    ensures Preserves(sql, sql)
  {
  }
}
