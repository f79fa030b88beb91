/**
 The lifecycle of versions: what every committed step of a put, delete or cleanup keeps.
 */
module KnowledgeInvariants {
  import opened Records
  import opened Text
  import opened Knowledge

  // -------------------------------------------------------- the invariant

  /** A document points at one of its own published versions; while it is not deleted, that version is live. */
  ghost predicate DocOk(sql: Sql, d: Id)
    requires d in sql.docs
  {
    var doc := sql.docs[d];
    doc.active.Some? ==>
      var v := doc.active.value;
      && v.doc == d
      && v in sql.versions
      && sql.versions[v].chunks == ChunksOf(v, doc.source)
      && (doc.deletedAt.None? ==>
            && sql.versions[v].status == Active
            && sql.versions[v].index == Indexed
            && v.title == doc.title
            && v.environment == doc.environment)
  }

  /** A version's content and chunks are those its id was made from; only its document's active version is active. */
  ghost predicate VersionOk(sql: Sql, v: VersionId)
    requires v in sql.versions
  {
    var row := sql.versions[v];
    && v.doc in sql.docs
    && row.content == v.content
    && row.space == v.space
    && (row.status == Active ==> sql.docs[v.doc].active == Some(v))
    && (row.chunks == [] || row.chunks == ChunksOf(v, sql.docs[v.doc].source))
    && (row.index == Indexed ==> row.chunks == ChunksOf(v, sql.docs[v.doc].source))
  }

  ghost predicate ChunkOk(sql: Sql, c: ChunkId)
    requires c in sql.chunks
  {
    && c.version.doc in sql.docs
    && c.index < |ChunksOf(c.version, sql.docs[c.version.doc].source)|
    && sql.chunks[c] == ChunksOf(c.version, sql.docs[c.version.doc].source)[c.index]
  }

  ghost predicate SqlOk(sql: Sql) {
    && (forall d | d in sql.docs :: DocOk(sql, d))
    && (forall v | v in sql.versions :: VersionOk(sql, v))
    && (forall c | c in sql.chunks :: ChunkOk(sql, c))
    && (forall job | job in sql.cleanups :: job.version.doc == job.doc && job.doc in sql.docs)
  }

  ghost predicate RagOk(rag: Rag) {
    && rag.bm25 == rag.chunks.Keys
    && forall c | c in rag.chunks :: rag.chunks[c].chunk.version == c.version
  }

  ghost predicate StateOk(s: State) {
    SqlOk(s.sql) && RagOk(s.rag)
  }

  // -------------------------------------------- the commits, one at a time

  /** A version may be staged when no undeleted document is serving it. */
  ghost predicate Stageable(sql: Sql, v: VersionId) {
    v.doc in sql.docs && (sql.docs[v.doc].active == Some(v) ==> sql.docs[v.doc].deletedAt.Some?)
  }

  lemma InsertDocOk(sql: Sql, id: Id, d: Document)
    requires SqlOk(sql) && id !in sql.docs && d.active.None?
    ensures SqlOk(sql.(docs := sql.docs[id := d]))
  {
    var sql' := sql.(docs := sql.docs[id := d]);
    forall x | x in sql'.docs ensures DocOk(sql', x) { if x != id { assert DocOk(sql, x); } }
    forall v | v in sql'.versions ensures VersionOk(sql', v) { assert VersionOk(sql, v); }
    forall c | c in sql'.chunks ensures ChunkOk(sql', c) { assert ChunkOk(sql, c); }
  }

  /** A version row replaced by one with the same content, space and chunks, neither active nor indexed. */
  lemma StageOk(sql: Sql, v: VersionId, row: Version)
    requires SqlOk(sql) && Stageable(sql, v)
    requires row.content == v.content && row.space == v.space && row.status == Staging && row.index != Indexed
    requires row.chunks == if v in sql.versions then sql.versions[v].chunks else []
    ensures SqlOk(WithVersion(sql, v, row))
  {
    var sql' := WithVersion(sql, v, row);
    forall d | d in sql'.docs ensures DocOk(sql', d) { assert DocOk(sql, d); }
    forall x | x in sql'.versions ensures VersionOk(sql', x) { if x in sql.versions { assert VersionOk(sql, x); } }
    forall c | c in sql'.chunks ensures ChunkOk(sql', c) { assert ChunkOk(sql, c); }
  }

  lemma StagedRow(sql: Sql, v: VersionId, now: int)
    requires SqlOk(sql)
    ensures var row := StagedVersion(sql, v, now);
            && row.content == v.content && row.space == v.space && row.status == Staging && row.index == IndexPending
            && row.chunks == if v in sql.versions then sql.versions[v].chunks else []
  {
    if v in sql.versions { assert VersionOk(sql, v); }
  }

  lemma KeyOk(sql: Sql, q: PutRequest, t: Target, v: VersionId)
    requires SqlOk(sql)
    ensures SqlOk(WithKey(sql, q, t, v))
  {
    var sql' := WithKey(sql, q, t, v);
    forall d | d in sql'.docs ensures DocOk(sql', d) { assert DocOk(sql, d); }
    forall x | x in sql'.versions ensures VersionOk(sql', x) { assert VersionOk(sql, x); }
    forall c | c in sql'.chunks ensures ChunkOk(sql', c) { assert ChunkOk(sql, c); }
  }

  lemma PublishDocOk(sql: Sql, q: PutRequest, t: Target, v: VersionId, d: Id)
    requires SqlOk(sql) && t.id in sql.docs && v in sql.versions && d in sql.docs
    requires v.doc == t.id && v.title == t.title && v.environment == t.environment
    requires sql.docs[t.id].source == q.source
    ensures DocOk(Publish(sql, q, t, v), d)
  {
    assert DocOk(sql, d) && DocOk(sql, t.id);
  }

  lemma PublishVersionOk(sql: Sql, q: PutRequest, t: Target, v: VersionId, x: VersionId)
    requires SqlOk(sql) && t.id in sql.docs && v in sql.versions && x in sql.versions
    requires v.doc == t.id && sql.docs[t.id].source == q.source
    ensures VersionOk(Publish(sql, q, t, v), x)
  {
    assert VersionOk(sql, x) && VersionOk(sql, v) && DocOk(sql, t.id);
  }

  lemma PublishChunkOk(sql: Sql, q: PutRequest, t: Target, v: VersionId, c: ChunkId)
    requires SqlOk(sql) && t.id in sql.docs && v in sql.versions
    requires v.doc == t.id && sql.docs[t.id].source == q.source
    requires c in Publish(sql, q, t, v).chunks
    ensures ChunkOk(Publish(sql, q, t, v), c)
  {
    if c in sql.chunks { assert ChunkOk(sql, c); }
  }

  lemma PublishOk(sql: Sql, q: PutRequest, t: Target, v: VersionId)
    requires SqlOk(sql) && t.id in sql.docs && v in sql.versions
    requires v.doc == t.id && v.title == t.title && v.environment == t.environment
    requires sql.docs[t.id].source == q.source
    ensures SqlOk(Publish(sql, q, t, v))
  {
    var sql' := Publish(sql, q, t, v);
    assert sql'.docs.Keys == sql.docs.Keys;
    assert sql'.versions.Keys == sql.versions.Keys;
    forall d | d in sql'.docs ensures DocOk(sql', d) { PublishDocOk(sql, q, t, v, d); }
    forall x | x in sql'.versions ensures VersionOk(sql', x) { PublishVersionOk(sql, q, t, v, x); }
    forall c | c in sql'.chunks ensures ChunkOk(sql', c) { PublishChunkOk(sql, q, t, v, c); }
  }

  /** Document updates that keep source and active version, and never undelete. */
  lemma DocUpdateOk(sql: Sql, sql': Sql, id: Id, d: Document)
    requires SqlOk(sql) && id in sql.docs
    requires sql'.docs == sql.docs[id := d] && sql'.versions == sql.versions && sql'.chunks == sql.chunks
    requires d.source == sql.docs[id].source && d.active == sql.docs[id].active && d.deletedAt.Some?
    requires forall job | job in sql'.cleanups :: job.version.doc == job.doc && job.doc in sql.docs
    ensures SqlOk(sql')
  {
    forall x | x in sql'.docs ensures DocOk(sql', x) { assert DocOk(sql, x); }
    forall v | v in sql'.versions ensures VersionOk(sql', v) { assert VersionOk(sql, v); }
    forall c | c in sql'.chunks ensures ChunkOk(sql', c) { assert ChunkOk(sql, c); }
  }

  // ------------------------------------------------------- whole operations

  /** What the compare-and-swap has established when a put goes on to stage its version. */
  ghost predicate ReadyToStage(s: State, q: PutRequest, t: Target) {
    && t.id in s.sql.docs
    && s.sql.docs[t.id].source == q.source
    && Stageable(s.sql, VersionId(t.id, q.content, t.title, t.environment, s.space))
  }

  lemma AdmittedIsReady(s: State, q: PutRequest, t: Target)
    requires SqlOk(s.sql) && Admit(s.sql, q, t).PutReplace?
    ensures ReadyToStage(s, q, t)
  {
    assert DocOk(s.sql, t.id);
  }

  /** Every commit on the way to publication leaves the facts in order. */
  lemma PutCommitsOk(s: State, q: PutRequest, t: Target, now: int)
    requires StateOk(s) && ReadyToStage(s, q, t)
    ensures SqlOk(StagedSql(s, q, t, now)) && SqlOk(KeyedSql(s, q, t, now)) && SqlOk(UnindexedSql(s, q, t, now))
    ensures RagOk(IndexedRag(s, q, t)) && StateOk(PublishedState(s, q, t, now))
  {
    hide SqlOk, RagOk, Publish, ChunksOf, Snippets, Mirror;
    var v := VersionFor(s, q, t);
    var row := StagedVersion(s.sql, v, now);
    StagedRow(s.sql, v, now);
    StageOk(s.sql, v, row);
    KeyOk(StagedSql(s, q, t, now), q, t, v);
    StageOk(KeyedSql(s, q, t, now), v, row.(index := IndexFailed));
    PublishOk(KeyedSql(s, q, t, now), q, t, v);
    MirrorOk(s.rag, v, q.source);
  }

  lemma PutStagedOk(s: State, q: PutRequest, t: Target, now: int, f: Fault)
    requires StateOk(s) && ReadyToStage(s, q, t)
    ensures StateOk(PutStaged(s, q, t, now, f).0)
  {
    hide SqlOk, RagOk, StagedSql, KeyedSql, UnindexedSql, IndexedRag, PublishedState, Restored, IndexRefused, TitleTaken, VersionFor;
    PutCommitsOk(s, q, t, now);
    RestoredOk(PublishedState(s, q, t, now));
  }

  lemma MirrorOk(rag: Rag, v: VersionId, source: string)
    requires RagOk(rag)
    ensures RagOk(Mirror(rag, v, ChunksOf(v, source)))
  {
  }

  lemma PutFreshOk(s: State, q: PutRequest, t: Target, now: int, f: Fault)
    requires StateOk(s)
    ensures StateOk(PutFresh(s, q, t, now, f).0)
  {
    hide SqlOk, RagOk, PutStaged, Restored, WithKey;
    match Admit(s.sql, q, t) {
      case PutConflict =>
      case PutBroken =>
      case PutSame(current) =>
        KeyOk(s.sql, q, t, current);
        RestoredOk(s.(sql := WithKey(s.sql, q, t, current)));
      case PutReplace =>
        AdmittedIsReady(s, q, t);
        PutStagedOk(s, q, t, now, f);
      case PutNew =>
        var d := Document(t.title, q.source, t.environment, None, None, IndexPending);
        InsertDocOk(s.sql, t.id, d);
        PutStagedOk(s.(sql := s.sql.(docs := s.sql.docs[t.id := d])), q, t, now, f);
    }
  }

  lemma PutOk(s: State, q: PutRequest, now: int, f: Fault)
    requires StateOk(s)
    ensures StateOk(Put(s, q, now, f).0)
  {
    hide SqlOk, RagOk, PutFresh, Restored;
    PutFreshOk(s, q, TargetOf(q), now, f);
    RestoredOk(s);
  }

  lemma DeleteOk(s: State, id: Id, expected: Option<VersionId>, now: int, f: Fault)
    requires StateOk(s)
    ensures StateOk(Delete(s, id, expected, now, f).0)
  {
    hide RagOk, Restored, ChunksOf;
    if id in s.sql.docs && expected.Some? && s.sql.docs[id].active == expected {
      assert DocOk(s.sql, id);
      var d := s.sql.docs[id].(deletedAt := Some(now), index := CleanupPending);
      var sql' := Tombstone(s.sql, id, expected.value, now);
      DocUpdateOk(s.sql, sql', id, d);
      RestoredOk(s.(sql := sql'));
    }
  }

  lemma CleanupDoneOk(sql: Sql, job: CleanupId)
    requires SqlOk(sql) && job in sql.cleanups
    ensures job.doc in sql.docs && SqlOk(CleanupDone(sql, job))
  {
    var d := sql.docs[job.doc];
    if d.deletedAt.Some? && d.active == Some(job.version) {
      DocUpdateOk(sql, CleanupDone(sql, job), job.doc, d.(index := Removed));
    } else {
      var sql' := CleanupDone(sql, job);
      forall x | x in sql'.docs ensures DocOk(sql', x) { assert DocOk(sql, x); }
      forall v | v in sql'.versions ensures VersionOk(sql', v) { assert VersionOk(sql, v); }
      forall c | c in sql'.chunks ensures ChunkOk(sql', c) { assert ChunkOk(sql, c); }
    }
  }

  lemma CleanupOk(s: State, job: CleanupId, f: Fault)
    requires StateOk(s)
    ensures StateOk(Cleanup(s, job, f).0)
  {
    if job in s.sql.cleanups {
      CleanupDoneOk(s.sql, job);
      UnmirrorOk(s.rag, job.version);
    }
  }

  lemma UnmirrorOk(rag: Rag, v: VersionId)
    requires RagOk(rag)
    ensures RagOk(Unmirror(rag, v))
  {
    assert Unmirror(rag, v).bm25 == Unmirror(rag, v).chunks.Keys;
  }

  lemma ProbeOk(s: State, space: string, dimension: nat, f: Fault)
    requires StateOk(s)
    ensures StateOk(Probe(s, space, dimension, f).0)
  {
    hide SqlOk, Restored;
    RestoredOk(s.(space := space, rag := s.rag.(space := space, dimension := dimension)));
  }

  /** Every operation, at every fault, keeps the lifecycle of documents and versions in order. */
  lemma ApplyOk(s: State, op: Op)
    requires StateOk(s)
    ensures StateOk(Apply(s, op).0)
  {
    hide SqlOk, Put, Delete, Cleanup, Probe, Restored;
    match op {
      case PutOp(q, now, f) => PutOk(s, q, now, f);
      case DeleteOp(id, expected, now, f) => DeleteOk(s, id, expected, now, f);
      case CleanupOp(job, f) => CleanupOk(s, job, f);
      case ProbeOp(space, dimension, f) => ProbeOk(s, space, dimension, f);
      case RestartOp(space, dimension, f) =>
        var blank := State(s.sql, EmptyRag, "unavailable");
        ProbeOk(blank, space, dimension, f);
        RestoredOk(Probe(blank, space, dimension, f).0);
    }
  }

  lemma LiveIdsAre(sql: Sql, space: string, c: ChunkId)
    requires SqlOk(sql)
    ensures c in LiveIds(sql, space) <==>
            && Live(sql, space, c.version.doc)
            && sql.docs[c.version.doc].active == Some(c.version)
            && c.index < |sql.versions[c.version].chunks|
  {
    if Live(sql, space, c.version.doc) && sql.docs[c.version.doc].active == Some(c.version) &&
       c.index < |sql.versions[c.version].chunks| {
      assert c in ChunkIds(sql.docs[c.version.doc].active.value, |sql.versions[c.version].chunks|);
    }
    if c in LiveIds(sql, space) {
      var d :| d in sql.docs && Live(sql, space, d) &&
               c in ChunkIds(sql.docs[d].active.value, |sql.versions[sql.docs[d].active.value].chunks|);
      assert DocOk(sql, d);
    }
  }

  lemma RestoredOk(s: State)
    requires StateOk(s)
    ensures StateOk(Restored(s))
  {
    var s' := Restored(s);
    forall c | c in s'.rag.chunks ensures s'.rag.chunks[c].chunk.version == c.version {
      if c in LiveIds(s.sql, s.space) {
        LiveIdsAre(s.sql, s.space, c);
        assert DocOk(s.sql, c.version.doc);
      }
    }
  }
}
