/**
 When the retrieval projection agrees with the SQL facts, document by document and over every history.
 */
module Sync {
  import opened Records
  import opened Text
  import opened Knowledge
  import opened KnowledgeInvariants
  import opened Projection

  // --------------------------------------------------------- one document at a time

  /** What the facts call for about one document: its live version with its chunks, or nothing. */
  datatype View = View(version: VersionId, chunks: seq<Chunk>, environment: string)

  ghost function Served(sql: Sql, space: string, d: Id): Option<View> {
    if Live(sql, space, d)
    then Some(View(sql.docs[d].active.value, sql.versions[sql.docs[d].active.value].chunks, sql.docs[d].environment))
    else None
  }

  ghost predicate Mirrors(rag: Rag, w: View) {
    forall i | 0 <= i < |w.chunks| ::
      var c := ChunkId(w.version, i);
      c in rag.bm25 && c in rag.chunks && rag.chunks[c] == Mirrored(w.chunks[i], w.environment)
  }

  /** The active set has the document as the facts call for. */
  ghost predicate Listed(s: State, d: Id) {
    match Served(s.sql, s.space, d)
    case None => d !in s.rag.active
    case Some(w) => d in s.rag.active && s.rag.active[d] == ActiveVersion(w.version, s.space)
  }

  /** The projection serves one document as the facts call for. */
  ghost predicate Agrees(s: State, d: Id) {
    Listed(s, d) && (Served(s.sql, s.space, d).Some? ==> Mirrors(s.rag, Served(s.sql, s.space, d).value))
  }

  lemma AllListed(s: State)
    ensures s.rag.active == LiveActive(s.sql, s.space) <==> forall d :: Listed(s, d)
  {
    hide Live;
    forall d ensures d in LiveActive(s.sql, s.space) <==> Live(s.sql, s.space, d) { LiveIsDocument(s.sql, s.space, d); }
    if forall d :: Listed(s, d) {
      forall d ensures d in s.rag.active <==> d in LiveActive(s.sql, s.space) { assert Listed(s, d); }
      forall d | d in s.rag.active ensures s.rag.active[d] == LiveActive(s.sql, s.space)[d] { assert Listed(s, d); }
    }
  }

  lemma LiveIsDocument(sql: Sql, space: string, d: Id)
    ensures Live(sql, space, d) ==> d in sql.docs
  {
  }

  lemma ServedChunk(s: State, c: ChunkId)
    requires StateOk(s)
    ensures c in LiveIds(s.sql, s.space) <==>
            && Served(s.sql, s.space, c.version.doc).Some?
            && (var w := Served(s.sql, s.space, c.version.doc).value; w.version == c.version && c.index < |w.chunks|)
    ensures c in LiveIds(s.sql, s.space) ==>
              var w := Served(s.sql, s.space, c.version.doc).value;
              LiveChunk(s.sql, c) == Mirrored(w.chunks[c.index], w.environment)
  {
    hide SqlOk, RagOk, LiveIds;
    LiveIdsAre(s.sql, s.space, c);
  }

  lemma SyncedMirrors(s: State, d: Id)
    requires StateOk(s) && Synced(s) && Served(s.sql, s.space, d).Some?
    ensures Mirrors(s.rag, Served(s.sql, s.space, d).value)
  {
    hide SqlOk, RagOk, LiveActive, Served;
    var w := Served(s.sql, s.space, d).value;
    ServedOwn(s.sql, s.space, d);
    forall i | 0 <= i < |w.chunks|
      ensures ChunkId(w.version, i) in LiveIds(s.sql, s.space)
      ensures LiveChunk(s.sql, ChunkId(w.version, i)) == Mirrored(w.chunks[i], w.environment)
    {
      ServedChunk(s, ChunkId(w.version, i));
    }
  }

  /** Agreement as a whole is agreement on every document. */
  lemma SyncedIsAgreement(s: State)
    requires StateOk(s)
    ensures Synced(s) <==> forall d :: Agrees(s, d)
  {
    hide SqlOk, RagOk, LiveActive, Served, Mirrors, Listed;
    AllListed(s);
    if Synced(s) {
      forall d | Served(s.sql, s.space, d).Some? ensures Mirrors(s.rag, Served(s.sql, s.space, d).value) { SyncedMirrors(s, d); }
    }
    if forall d :: Agrees(s, d) {
      assert forall d :: Listed(s, d) by { forall d ensures Listed(s, d) { assert Agrees(s, d); } }
      forall c | c in LiveIds(s.sql, s.space)
        ensures c in s.rag.bm25 && c in s.rag.chunks && s.rag.chunks[c] == LiveChunk(s.sql, c)
      {
        ServedChunk(s, c);
        assert Agrees(s, c.version.doc);
        MirrorsAt(s.rag, Served(s.sql, s.space, c.version.doc).value, c.index);
      }
    }
  }

  lemma MirrorsAt(rag: Rag, w: View, i: nat)
    requires Mirrors(rag, w) && i < |w.chunks|
    ensures var c := ChunkId(w.version, i); c in rag.bm25 && c in rag.chunks && rag.chunks[c] == Mirrored(w.chunks[i], w.environment)
  {
  }

  lemma ServedOwn(sql: Sql, space: string, d: Id)
    requires SqlOk(sql) && Served(sql, space, d).Some?
    ensures Served(sql, space, d).value.version.doc == d
  {
    assert DocOk(sql, d);
  }

  /** Agreement on a document rests on what is served of it and on the mirrored chunks of that version. */
  lemma AgreesFrame(s: State, s': State, d: Id)
    requires Served(s'.sql, s'.space, d) == Served(s.sql, s.space, d) && s'.space == s.space && s'.rag.active == s.rag.active
    requires Served(s.sql, s.space, d).Some? ==>
               forall c: ChunkId | c.version == Served(s.sql, s.space, d).value.version ::
                 && (c in s'.rag.bm25 <==> c in s.rag.bm25) && (c in s'.rag.chunks <==> c in s.rag.chunks)
                 && (c in s.rag.chunks ==> s'.rag.chunks[c] == s.rag.chunks[c])
    ensures Agrees(s', d) <==> Agrees(s, d)
  {
    hide Served;
  }

  lemma ServesSameServed(sql: Sql, sql': Sql, space: string, d: Id)
    requires ServesSame(sql, sql')
    ensures Served(sql', space, d) == Served(sql, space, d)
  {
  }

  lemma RestoredAgrees(s: State, d: Id)
    requires StateOk(s)
    ensures Agrees(Restored(s), d) && Restored(s).rag.active == LiveActive(s.sql, s.space)
  {
    hide SqlOk, RagOk, Synced;
    RestoredOk(s);
    RestoredIsSynced(s);
    SyncedIsAgreement(Restored(s));
  }

  lemma RestoredIsSynced(s: State)
    requires StateOk(s)
    ensures Synced(Restored(s))
  {
    forall c | c in LiveIds(s.sql, s.space) ensures Restored(s).rag.chunks[c] == LiveChunk(s.sql, c) {
      LiveIdsAre(s.sql, s.space, c);
    }
  }

  // ----------------------------------------------------------------------- puts

  lemma IndexingUnseen(s: State, q: PutRequest, t: Target, d: Id)
    requires StateOk(s) && ReadyToStage(s, q, t) && Served(s.sql, s.space, d).Some?
    ensures Served(s.sql, s.space, d).value.version != VersionFor(s, q, t)
  {
    ServedOwn(s.sql, s.space, d);
  }

  lemma IndexedElsewhere(s: State, q: PutRequest, t: Target, c: ChunkId)
    requires c.version != VersionFor(s, q, t)
    ensures var rag := IndexedRag(s, q, t);
            && rag.active == s.rag.active
            && (c in rag.bm25 <==> c in s.rag.bm25) && (c in rag.chunks <==> c in s.rag.chunks)
            && (c in s.rag.chunks ==> rag.chunks[c] == s.rag.chunks[c])
  {
    hide ChunksOf;
  }

  /** A put that stages but does not publish is not seen. */
  lemma UnpublishedAgrees(s: State, q: PutRequest, t: Target, now: int, f: Fault, d: Id)
    requires StateOk(s) && ReadyToStage(s, q, t) && !PublishesStaged(s, q, t, f)
    ensures var (s', out) := PutStaged(s, q, t, now, f);
            !out.Ok? && s'.space == s.space && s'.rag.active == s.rag.active && (Agrees(s', d) <==> Agrees(s, d))
  {
    hide SqlOk, RagOk, StagedSql, KeyedSql, UnindexedSql, IndexRefused, TitleTaken, VersionFor, Agrees, Served, ServesSame, IndexedRag,
         PublishedState, Restored, Stageable;
    var s' := PutStaged(s, q, t, now, f).0;
    FailedPutStagedServesSame(s, q, t, now, f);
    ServesSameServed(s.sql, s'.sql, s.space, d);
    if Served(s.sql, s.space, d).Some? { IndexingUnseen(s, q, t, d); }
    forall c: ChunkId | c.version != VersionFor(s, q, t)
      ensures var rag := IndexedRag(s, q, t);
              && rag.active == s.rag.active
              && (c in rag.bm25 <==> c in s.rag.bm25) && (c in rag.chunks <==> c in s.rag.chunks)
              && (c in s.rag.chunks ==> rag.chunks[c] == s.rag.chunks[c])
    {
      IndexedElsewhere(s, q, t, c);
    }
    IndexedActive(s, q, t);
    AgreesFrame(s, s', d);
  }

  lemma IndexedActive(s: State, q: PutRequest, t: Target)
    ensures IndexedRag(s, q, t).active == s.rag.active
  {
    hide ChunksOf;
  }

  /** A publication is seen in its own document alone. */
  lemma PublishedElsewhere(s: State, q: PutRequest, t: Target, now: int, d: Id)
    requires StateOk(s) && ReadyToStage(s, q, t) && d != t.id
    ensures Served(PublishedState(s, q, t, now).sql, s.space, d) == Served(s.sql, s.space, d)
  {
    hide SqlOk, RagOk, Publish, Served, StagedSql, KeyedSql, IndexedRag;
    PutCommitsOk(s, q, t, now);
    KeyedElsewhere(s, q, t, now, d);
    PublishElsewhere(KeyedSql(s, q, t, now), s.space, q, t, VersionFor(s, q, t), d);
  }

  lemma KeyedElsewhere(s: State, q: PutRequest, t: Target, now: int, d: Id)
    requires SqlOk(s.sql) && t.id in s.sql.docs && d != t.id
    ensures Served(KeyedSql(s, q, t, now), s.space, d) == Served(s.sql, s.space, d)
    ensures t.id in KeyedSql(s, q, t, now).docs && VersionFor(s, q, t) in KeyedSql(s, q, t, now).versions
  {
    hide ChunksOf;
    if d in s.sql.docs { assert DocOk(s.sql, d); }
  }

  lemma PublishElsewhere(sql: Sql, space: string, q: PutRequest, t: Target, v: VersionId, d: Id)
    requires SqlOk(sql) && t.id in sql.docs && v in sql.versions && v.doc == t.id && d != t.id
    ensures Served(Publish(sql, q, t, v), space, d) == Served(sql, space, d)
  {
    hide ChunksOf, ChunkRows;
    assert DocOk(sql, t.id);
    if d in sql.docs { assert DocOk(sql, d); }
  }

  /** Indexing mirrors chunks without an environment, so a publication that is not restored disagrees. */
  lemma PublishedDisagrees(s: State, q: PutRequest, t: Target, now: int)
    requires StateOk(s) && ReadyToStage(s, q, t) && TrimSpace(q.content) != "" && t.environment != ""
    ensures !Agrees(PublishedState(s, q, t, now), t.id)
  {
    hide SqlOk, RagOk, ChunkRows, Snippets, TrimSpace;
    var v := VersionFor(s, q, t);
    var s' := PublishedState(s, q, t, now);
    StagedRow(s.sql, v, now);
    SnippetsExist(q.content);
    assert Served(s'.sql, s'.space, t.id) == Some(View(v, ChunksOf(v, q.source), t.environment));
    assert s'.rag.chunks[ChunkId(v, 0)] == Mirrored(ChunksOf(v, q.source)[0], "");
  }

  lemma LostPublicationAgrees(s: State, q: PutRequest, t: Target, now: int, d: Id)
    requires StateOk(s) && ReadyToStage(s, q, t) && TrimSpace(q.content) != "" && t.environment != ""
    ensures var s' := PublishedState(s, q, t, now);
            s'.rag.active == s.rag.active && (Agrees(s', d) <==> d != t.id && Agrees(s, d))
  {
    hide SqlOk, RagOk, Agrees, Served, Publish, KeyedSql, IndexedRag, TrimSpace, VersionFor, Stageable;
    var s' := PublishedState(s, q, t, now);
    IndexedActive(s, q, t);
    if d == t.id {
      PublishedDisagrees(s, q, t, now);
    } else {
      PublishedElsewhere(s, q, t, now, d);
      if Served(s.sql, s.space, d).Some? { IndexingUnseen(s, q, t, d); }
      forall c: ChunkId | c.version != VersionFor(s, q, t)
        ensures var rag := IndexedRag(s, q, t);
                && (c in rag.bm25 <==> c in s.rag.bm25) && (c in rag.chunks <==> c in s.rag.chunks)
                && (c in s.rag.chunks ==> rag.chunks[c] == s.rag.chunks[c])
      {
        IndexedElsewhere(s, q, t, c);
      }
      AgreesFrame(s, s', d);
    }
  }

  /** How an operation that may restore leaves one document. */
  ghost predicate Leaves(s: State, s': State, out: Outcome, d: Id, agrees: bool) {
    && s'.space == s.space
    && (out.Ok? ==> s'.rag.active == LiveActive(s'.sql, s'.space) && Agrees(s', d))
    && (!out.Ok? ==> s'.rag.active == s.rag.active && (Agrees(s', d) <==> agrees))
  }

  lemma PutStagedAgrees(s: State, q: PutRequest, t: Target, now: int, f: Fault, d: Id)
    requires StateOk(s) && ReadyToStage(s, q, t) && TrimSpace(q.content) != "" && t.environment != ""
    ensures var (s', out) := PutStaged(s, q, t, now, f);
            Leaves(s, s', out, d, if PublishesStaged(s, q, t, f) && d == t.id then false else Agrees(s, d))
  {
    hide SqlOk, RagOk, StagedSql, KeyedSql, UnindexedSql, IndexRefused, TitleTaken, VersionFor, Agrees, IndexedRag, Restored, LiveActive,
         PublishedState, TrimSpace, Stageable;
    if PublishesStaged(s, q, t, f) {
      PutCommitsOk(s, q, t, now);
      PublishedKeepsSpace(s, q, t, now);
      LostPublicationAgrees(s, q, t, now, d);
      RestoredAgrees(PublishedState(s, q, t, now), d);
      RestoredKeeps(PublishedState(s, q, t, now));
    } else {
      UnpublishedAgrees(s, q, t, now, f, d);
    }
  }

  lemma PublishedKeepsSpace(s: State, q: PutRequest, t: Target, now: int)
    requires t.id in s.sql.docs
    ensures PublishedState(s, q, t, now).space == s.space
  {
  }

  lemma RestoredKeeps(s: State)
    ensures Restored(s).sql == s.sql && Restored(s).space == s.space
  {
    hide LiveChunks, LiveActive;
  }

  lemma SameStateLeaves(s: State, out: Outcome, d: Id)
    requires !out.Ok?
    ensures Leaves(s, s, out, d, Agrees(s, d))
  {
  }

  /** A restore of facts that serve the same as before. */
  lemma RestoreLeaves(s: State, x: State, f: Fault, d: Id)
    requires StateOk(x) && ServesSame(s.sql, x.sql) && x.rag == s.rag && x.space == s.space
    ensures var (s', out) := Restore(x, f); Leaves(s, s', out, d, Agrees(s, d))
  {
    hide SqlOk, RagOk, Restored, Agrees, ServesSame, LiveActive, Served;
    RestoredAgrees(x, d);
    RestoredKeeps(x);
    ServesSameServed(s.sql, x.sql, s.space, d);
    AgreesFrame(s, x, d);
  }

  lemma PutFreshAgrees(s: State, q: PutRequest, t: Target, now: int, f: Fault, d: Id)
    requires StateOk(s) && TrimSpace(q.content) != "" && t.environment != ""
    ensures var (s', out) := PutFresh(s, q, t, now, f);
            var published := (Admit(s.sql, q, t).PutReplace? || Admit(s.sql, q, t).PutNew?) && PublishesStaged(s, q, t, f);
            Leaves(s, s', out, d, if published && d == t.id then false else Agrees(s, d))
  {
    hide SqlOk, RagOk, PutStaged, Restore, WithKey, TitleTaken, Agrees, PublishesStaged, TrimSpace, Leaves;
    match Admit(s.sql, q, t) {
      case PutConflict => SameStateLeaves(s, Conflict, d);
      case PutBroken => SameStateLeaves(s, Error, d);
      case PutSame(current) =>
        SameStateLeaves(s, Error, d);
        KeyOk(s.sql, q, t, current);
        KeyServesSame(s.sql, q, t, current);
        RestoreLeaves(s, s.(sql := WithKey(s.sql, q, t, current)), f, d);
      case PutReplace =>
        AdmittedIsReady(s, q, t);
        PutStagedAgrees(s, q, t, now, f, d);
      case PutNew =>
        var doc := Document(t.title, q.source, t.environment, None, None, IndexPending);
        var s1 := s.(sql := s.sql.(docs := s.sql.docs[t.id := doc]));
        InsertDocOk(s.sql, t.id, doc);
        StagedPublishes(s, s1, q, t, f);
        NewDocAgrees(s, t.id, doc, d);
        PutStagedAgrees(s1, q, t, now, f, d);
        LeavesFrom(s, s1, PutStaged(s1, q, t, now, f).0, PutStaged(s1, q, t, now, f).1, d,
                   if PublishesStaged(s, q, t, f) && d == t.id then false else Agrees(s, d));
    }
  }

  lemma KeyServesSame(sql: Sql, q: PutRequest, t: Target, v: VersionId)
    requires SqlOk(sql)
    ensures ServesSame(sql, WithKey(sql, q, t, v))
  {
    hide SqlOk, ServesSame;
    SameServes(sql, WithKey(sql, q, t, v));
  }

  lemma NewDocAgrees(s: State, id: Id, doc: Document, d: Id)
    requires StateOk(s) && id !in s.sql.docs && doc.active.None?
    ensures Agrees(s.(sql := s.sql.(docs := s.sql.docs[id := doc])), d) <==> Agrees(s, d)
  {
    hide SqlOk, RagOk, ServesSame, Served, Agrees;
    NewDocServesSame(s.sql, id, doc);
    ServesSameServed(s.sql, s.sql.(docs := s.sql.docs[id := doc]), s.space, d);
    AgreesFrame(s, s.(sql := s.sql.(docs := s.sql.docs[id := doc])), d);
  }

  lemma LeavesFrom(s: State, s1: State, s': State, out: Outcome, d: Id, agrees: bool)
    requires Leaves(s1, s', out, d, agrees) && s1.space == s.space && s1.rag == s.rag
    ensures Leaves(s, s', out, d, agrees)
  {
    hide Agrees, LiveActive;
  }

  lemma PutAgrees(s: State, q: PutRequest, now: int, f: Fault, d: Id)
    requires StateOk(s)
    ensures var (s', out) := Put(s, q, now, f);
            Leaves(s, s', out, d, if Publishes(s, q, f) && d == TargetOf(q).id then false else Agrees(s, d))
  {
    hide SqlOk, RagOk, PutFresh, Restore, Agrees, PublishesStaged, TrimSpace, ToLower, Leaves, Admit, ServesSame;
    SameStateLeaves(s, Invalid, d);
    SameStateLeaves(s, Error, d);
    SameStateLeaves(s, Conflict, d);
    SameServes(s.sql, s.sql);
    RestoreLeaves(s, s, f, d);
    if ValidPut(q) { PutFreshAgrees(s, q, TargetOf(q), now, f, d); }
    NoStageFault(s, q, f);
  }

  lemma NoStageFault(s: State, q: PutRequest, f: Fault)
    ensures PublishesStaged(s, q, TargetOf(q), f) ==> !f.StageFault?
  {
    hide IndexRefused, TitleTaken, TargetOf;
  }

  // ------------------------------------------------------- deletes, cleanups, probes

  /** The delete reaches its commit. */
  predicate Tombstones(s: State, id: Id, expected: Option<VersionId>, now: int, f: Fault) {
    && !f.ReadFault? && !f.CommitFault? && id in s.sql.docs
    && expected.Some? && s.sql.docs[id].active == expected && CleanupId(id, expected.value, now) !in s.sql.cleanups
  }

  lemma TombstoneOk(s: State, id: Id, v: VersionId, now: int)
    requires StateOk(s) && id in s.sql.docs && s.sql.docs[id].active == Some(v)
    ensures StateOk(s.(sql := Tombstone(s.sql, id, v, now)))
  {
    hide RagOk, ChunksOf;
    assert DocOk(s.sql, id);
    var sql' := Tombstone(s.sql, id, v, now);
    DocUpdateOk(s.sql, sql', id, sql'.docs[id]);
  }

  lemma TombstoneServed(sql: Sql, space: string, id: Id, v: VersionId, now: int, d: Id)
    requires id in sql.docs
    ensures Served(Tombstone(sql, id, v, now), space, d) == if d == id then None else Served(sql, space, d)
  {
  }

  lemma DeleteAgrees(s: State, id: Id, expected: Option<VersionId>, now: int, f: Fault, d: Id)
    requires StateOk(s)
    ensures var (s', out) := Delete(s, id, expected, now, f);
            Leaves(s, s', out, d, if Tombstones(s, id, expected, now, f) && d == id then d !in s.rag.active else Agrees(s, d))
  {
    hide SqlOk, RagOk, Restored, Agrees, Served, Tombstone, LiveActive;
    if Tombstones(s, id, expected, now, f) {
      var x := s.(sql := Tombstone(s.sql, id, expected.value, now));
      TombstoneOk(s, id, expected.value, now);
      RestoredAgrees(x, d);
      RestoredKeeps(x);
      TombstoneServed(s.sql, s.space, id, expected.value, now, d);
      if d == id { NotServed(x, d); } else { AgreesFrame(s, x, d); }
    }
  }

  lemma NotServed(s: State, d: Id)
    requires Served(s.sql, s.space, d).None?
    ensures Agrees(s, d) <==> d !in s.rag.active
  {
    hide Served;
  }

  lemma CleanupServesSame(sql: Sql, job: CleanupId)
    requires SqlOk(sql) && job in sql.cleanups
    ensures job.doc in sql.docs && ServesSame(sql, CleanupDone(sql, job))
  {
    hide SqlOk;
    SameServes(sql, sql);
    JobHasDocument(sql, job);
  }

  lemma JobHasDocument(sql: Sql, job: CleanupId)
    requires SqlOk(sql) && job in sql.cleanups
    ensures job.doc in sql.docs && job.version.doc == job.doc
  {
  }

  /** A cleanup takes away no chunk of a version that is served. */
  lemma CleanupUnseen(s: State, job: CleanupId, d: Id)
    requires StateOk(s) && job in s.sql.cleanups && !StillActive(s.sql, job) && Served(s.sql, s.space, d).Some?
    ensures Served(s.sql, s.space, d).value.version != job.version
  {
    hide SqlOk, RagOk;
    JobHasDocument(s.sql, job);
    ServedOwn(s.sql, s.space, d);
  }

  lemma UnmirrorElsewhere(rag: Rag, v: VersionId, c: ChunkId)
    requires RagOk(rag) && c.version != v
    ensures var rag' := Unmirror(rag, v);
            && (c in rag'.bm25 <==> c in rag.bm25) && (c in rag'.chunks <==> c in rag.chunks)
            && (c in rag.chunks ==> rag'.chunks[c] == rag.chunks[c])
  {
  }

  lemma UnmirrorKeepsRest(rag: Rag, v: VersionId)
    ensures Unmirror(rag, v).active == rag.active
  {
  }

  lemma CleanupAgrees(s: State, job: CleanupId, f: Fault, d: Id)
    requires StateOk(s)
    ensures var s' := Cleanup(s, job, f).0;
            s'.space == s.space && s'.rag.active == s.rag.active && (Agrees(s', d) <==> Agrees(s, d))
  {
    hide SqlOk, RagOk, Agrees, Served, Unmirror, ServesSame, CleanupDone, StillActive;
    var s' := Cleanup(s, job, f).0;
    if job in s.sql.cleanups {
      UnmirrorKeepsRest(s.rag, job.version);
      CleanupServesSame(s.sql, job);
      ServesSameServed(s.sql, CleanupDone(s.sql, job), s.space, d);
      if !StillActive(s.sql, job) {
        if Served(s.sql, s.space, d).Some? { CleanupUnseen(s, job, d); }
        forall c: ChunkId | c.version != job.version
          ensures var rag := Unmirror(s.rag, job.version);
                  && (c in rag.bm25 <==> c in s.rag.bm25) && (c in rag.chunks <==> c in s.rag.chunks)
                  && (c in s.rag.chunks ==> rag.chunks[c] == s.rag.chunks[c])
        {
          UnmirrorElsewhere(s.rag, job.version, c);
        }
      }
      AgreesFrame(s, s', d);
    }
  }

  /** A probe restores when it finds a new space, and otherwise leaves every document as it was. */
  lemma ProbeAgrees(s: State, space: string, dimension: nat, f: Fault, d: Id)
    requires StateOk(s)
    ensures var (s', out) := Probe(s, space, dimension, f);
            && (out.Ok? && s.space != space ==> s'.rag.active == LiveActive(s'.sql, s'.space) && Agrees(s', d))
            && (!(out.Ok? && s.space != space) ==> s'.rag.active == s.rag.active && (Agrees(s', d) <==> Agrees(s, d)))
  {
    hide SqlOk, RagOk, Restored, Agrees, Served, LiveActive;
    var s' := Probe(s, space, dimension, f).0;
    var x := s.(space := space, rag := s.rag.(space := space, dimension := dimension));
    SameRagOk(s.rag, space, dimension);
    RestoredAgrees(x, d);
    RestoredKeeps(x);
    AgreesFrame(s, s.(rag := s.rag.(space := s.space, dimension := 0)), d);
  }

  lemma SameRagOk(rag: Rag, space: string, dimension: nat)
    requires RagOk(rag)
    ensures RagOk(rag.(space := space, dimension := dimension))
  {
  }

  // ------------------------------------------------------------------ every operation

  /** The operations that end in a restore. */
  predicate Restores(s: State, op: Op) {
    match op
    case PutOp(_, _, _) => true
    case DeleteOp(_, _, _, _) => true
    case CleanupOp(_, _) => false
    case ProbeOp(space, _, _) => s.space != space
    case RestartOp(_, _, _) => true
  }

  /** The operation published a version of the document and did not get to its restore. */
  predicate LosesPut(s: State, op: Op, d: Id) {
    op.PutOp? && op.f.RestoreFault? && Publishes(s, op.q, op.f) && d == TargetOf(op.q).id
  }

  /** The operation deleted the document and did not get to its restore. */
  predicate LosesDelete(s: State, op: Op, d: Id) {
    op.DeleteOp? && op.f.RestoreFault? && Tombstones(s, op.id, op.expected, op.now, op.f) && d == op.id
  }

  /** How an operation leaves one document, decided before it runs and by its outcome. */
  predicate AgreesNext(s: State, op: Op, d: Id, agrees: bool, served: bool) {
    if Apply(s, op).1.Ok? && Restores(s, op) then true
    else if LosesPut(s, op, d) then false
    else if LosesDelete(s, op, d) then !served
    else agrees
  }

  /**
   After any operation with any fault, the projection agrees on a document exactly when the operation restored it;
   or, for a put that published it and lost its restore, never; for a delete that lost it, when the document was
   not being served; and in every other case when it agreed before.
   */
  lemma AgreesAfter(s: State, op: Op, d: Id)
    requires StateOk(s)
    ensures var (s', out) := Apply(s, op);
            && (Agrees(s', d) <==> AgreesNext(s, op, d, Agrees(s, d), d in s.rag.active))
            && s'.rag.active == (if out.Ok? && Restores(s, op) then LiveActive(s'.sql, s'.space) else s.rag.active)
  {
    hide SqlOk, RagOk, Agrees, Put, Delete, Cleanup, Probe, Restored, LiveActive, Publishes, Tombstones, TargetOf;
    match op {
      case PutOp(q, now, f) =>
        PutAgrees(s, q, now, f, d);
        LostPutIsRestore(s, q, now, f);
      case DeleteOp(id, expected, now, f) =>
        DeleteAgrees(s, id, expected, now, f, d);
        LostDeleteIsRestore(s, id, expected, now, f);
      case CleanupOp(job, f) => CleanupAgrees(s, job, f, d);
      case ProbeOp(space, dimension, f) => ProbeAgrees(s, space, dimension, f, d);
      case RestartOp(space, dimension, f) =>
        var blank := State(s.sql, EmptyRag, "unavailable");
        EmptyRagOk();
        ProbeOk(blank, space, dimension, f);
        RestoredAgrees(Probe(blank, space, dimension, f).0, d);
        RestoredKeeps(Probe(blank, space, dimension, f).0);
    }
  }

  lemma EmptyRagOk()
    ensures RagOk(EmptyRag)
  {
  }

  /** A put that published fails only by losing its restore. */
  lemma LostPutIsRestore(s: State, q: PutRequest, now: int, f: Fault)
    ensures Publishes(s, q, f) && !Put(s, q, now, f).1.Ok? ==> f.RestoreFault?
  {
    hide ValidPut, TargetOf, IndexRefused, TitleTaken, Restored, PublishedState, StagedSql, KeyedSql, UnindexedSql, IndexedRag, VersionFor;
    var t := TargetOf(q);
    if Publishes(s, q, f) && Admit(s.sql, q, t).PutNew? {
      var d := Document(t.title, q.source, t.environment, None, None, IndexPending);
      StagedPublishes(s, s.(sql := s.sql.(docs := s.sql.docs[t.id := d])), q, t, f);
    }
  }

  lemma LostDeleteIsRestore(s: State, id: Id, expected: Option<VersionId>, now: int, f: Fault)
    ensures Tombstones(s, id, expected, now, f) && !Delete(s, id, expected, now, f).1.Ok? ==> f.RestoreFault?
  {
    hide Restored, Tombstone;
  }

  /**
   After an operation that returned without error, the projection agrees with the facts exactly when
   the operation ends in a restore, or they agreed before.
   */
  lemma SyncAfterSuccess(s: State, op: Op)
    requires StateOk(s) && Apply(s, op).1.Ok?
    ensures Synced(Apply(s, op).0) <==> Restores(s, op) || Synced(s)
  {
    hide SqlOk, RagOk, Synced, Agrees, Apply, Publishes, Tombstones, TargetOf;
    ApplyOk(s, op);
    SyncedIsAgreement(s);
    SyncedIsAgreement(Apply(s, op).0);
    forall d ensures Agrees(Apply(s, op).0, d) <==> Restores(s, op) || Agrees(s, d) {
      AgreesAfter(s, op, d);
      if !Restores(s, op) { SuccessLosesNothing(s, op, d); }
    }
  }

  lemma SuccessLosesNothing(s: State, op: Op, d: Id)
    requires Apply(s, op).1.Ok? && !Restores(s, op)
    ensures !LosesPut(s, op, d) && !LosesDelete(s, op, d)
  {
    hide Put, Delete, Cleanup, Probe, Restored, Publishes, Tombstones, TargetOf;
  }

  /** An operation that failed without losing a restore leaves agreement as it was. */
  lemma SyncAfterFailure(s: State, op: Op)
    requires StateOk(s) && !Apply(s, op).1.Ok?
    requires !((op.PutOp? || op.DeleteOp?) && op.f.RestoreFault?)
    ensures Synced(Apply(s, op).0) <==> Synced(s)
  {
    hide SqlOk, RagOk, Synced, Agrees, Apply, Publishes, Tombstones, TargetOf;
    ApplyOk(s, op);
    SyncedIsAgreement(s);
    SyncedIsAgreement(Apply(s, op).0);
    forall d ensures Agrees(Apply(s, op).0, d) <==> Agrees(s, d) { AgreesAfter(s, op, d); }
  }

  /**
   An operation that lost its restore, from any state: a put that published never leaves agreement, and a delete
   leaves it exactly when the document it deleted was not being served and every other document agrees.
   */
  lemma SyncAfterLostRestore(s: State, op: Op)
    requires StateOk(s) && !Apply(s, op).1.Ok? && (op.PutOp? || op.DeleteOp?) && op.f.RestoreFault?
    ensures Synced(Apply(s, op).0) <==>
            if op.PutOp? && Publishes(s, op.q, op.f) then false
            else if op.DeleteOp? && Tombstones(s, op.id, op.expected, op.now, op.f)
            then op.id !in s.rag.active && forall d | d != op.id :: Agrees(s, d)
            else Synced(s)
  {
    hide SqlOk, RagOk, Synced, Agrees, Apply, Publishes, Tombstones, TargetOf;
    ApplyOk(s, op);
    SyncedIsAgreement(s);
    SyncedIsAgreement(Apply(s, op).0);
    forall d ensures Agrees(Apply(s, op).0, d) <==> AgreesNext(s, op, d, Agrees(s, d), d in s.rag.active) { AgreesAfter(s, op, d); }
    if op.PutOp? && Publishes(s, op.q, op.f) {
      assert LosesPut(s, op, TargetOf(op.q).id) && !Agrees(Apply(s, op).0, TargetOf(op.q).id);
    } else if op.DeleteOp? && Tombstones(s, op.id, op.expected, op.now, op.f) {
      assert forall d :: Agrees(Apply(s, op).0, d) <==> if d == op.id then d !in s.rag.active else Agrees(s, d);
    }
  }

  // ---------------------------------------------------------------- histories

  /**
   What an operator can keep beside the service from results and facts alone: the documents served since the last
   restore, and those whose last lost restore left them wrong.
   */
  datatype Ledger = Ledger(served: set<Id>, wrong: set<Id>)

  ghost function Entered(s: State, op: Op, l: Ledger): Ledger {
    var (s', out) := Apply(s, op);
    if out.Ok? && Restores(s, op) then Ledger(LiveActive(s'.sql, s'.space).Keys, {})
    else if op.PutOp? && LosesPut(s, op, TargetOf(op.q).id) then l.(wrong := l.wrong + {TargetOf(op.q).id})
    else if op.DeleteOp? && LosesDelete(s, op, op.id)
    then l.(wrong := if op.id in l.served then l.wrong + {op.id} else l.wrong - {op.id})
    else l
  }

  ghost function Kept(s: State, ops: seq<Op>, l: Ledger): Ledger
    decreases |ops|
  {
    if ops == [] then l else Kept(Apply(s, ops[0]).0, ops[1..], Entered(s, ops[0], l))
  }

  ghost predicate Right(s: State, l: Ledger) {
    l.served == s.rag.active.Keys && forall d :: d in l.wrong <==> !Agrees(s, d)
  }

  lemma EnteredIsRight(s: State, op: Op, l: Ledger)
    requires StateOk(s) && Right(s, l)
    ensures Right(Apply(s, op).0, Entered(s, op, l))
  {
    hide SqlOk, RagOk, Agrees, Apply, Publishes, Tombstones, TargetOf, LiveActive, Restores;
    forall d ensures d in Entered(s, op, l).wrong <==> !Agrees(Apply(s, op).0, d) { AgreesAfter(s, op, d); }
    AgreesAfter(s, op, "");
  }

  /**
   After any history of puts, failed indexings, deletes, cleanups, probes, restarts and lost restores, the
   active set is exactly the live versions with all their chunks mirrored if and only if the ledger has no
   document wrong.
   */
  lemma {:induction false} ProjectionAgrees(s: State, ops: seq<Op>, l: Ledger)
    requires StateOk(s) && Right(s, l)
    ensures Right(Exec(s, ops), Kept(s, ops, l))
    ensures Synced(Exec(s, ops)) <==> Kept(s, ops, l).wrong == {}
    decreases |ops|
  {
    hide SqlOk, RagOk, Synced, Right, Apply, Entered;
    if ops == [] {
      RightIsSynced(s, l);
    } else {
      ApplyOk(s, ops[0]);
      EnteredIsRight(s, ops[0], l);
      ProjectionAgrees(Apply(s, ops[0]).0, ops[1..], Entered(s, ops[0], l));
    }
  }

  lemma RightIsSynced(s: State, l: Ledger)
    requires StateOk(s) && Right(s, l)
    ensures Synced(s) <==> l.wrong == {}
  {
    hide SqlOk, RagOk, Synced, Agrees;
    SyncedIsAgreement(s);
  }

  const NewService := State(EmptySql, EmptyRag, "unavailable")

  /** A new service starts with nothing served and nothing wrong. */
  lemma NewServiceIsRight()
    ensures StateOk(NewService) && Right(NewService, Ledger({}, {}))
  {
  }

  /**
   A successful last operation alone is not enough: a delete that commits but loses its restore leaves the
   version in the active set, and the cleanup that follows succeeds without taking it out.
   */
  lemma LostRestoreSurvivesCleanup(s: State, d: Id, now: int)
    requires StateOk(s) && Synced(s) && Live(s.sql, s.space, d)
    requires CleanupId(d, s.sql.docs[d].active.value, now) !in s.sql.cleanups
    ensures var v := s.sql.docs[d].active;
            var deleted := Delete(s, d, v, now, RestoreFault);
            var cleaned := Cleanup(deleted.0, CleanupId(d, v.value, now), NoFault);
            deleted.1.Error? && cleaned.1.Ok? && !Synced(cleaned.0)
  {
    var v := s.sql.docs[d].active;
    var deleted := Delete(s, d, v, now, RestoreFault).0;
    var cleaned := Cleanup(deleted, CleanupId(d, v.value, now), NoFault).0;
    assert d in s.rag.active;
    assert d in cleaned.rag.active;
    assert !Live(cleaned.sql, cleaned.space, d);
  }

  /** A cleanup, however late, removes only chunks of its own version, and none of a version that is active again. */
  lemma LateCleanupKeepsServed(s: State, job: CleanupId, f: Fault, c: ChunkId)
    requires StateOk(s) && c in s.rag.chunks
    ensures c !in Cleanup(s, job, f).0.rag.chunks ==> c.version == job.version && !StillActive(s.sql, job)
    ensures c.version.doc in s.sql.docs && s.sql.docs[c.version.doc].deletedAt.None? &&
            s.sql.docs[c.version.doc].active == Some(c.version) ==>
              var rag' := Cleanup(s, job, f).0.rag;
              c in rag'.chunks && rag'.chunks[c] == s.rag.chunks[c] && c in rag'.bm25
  {
    if job in s.sql.cleanups && !StillActive(s.sql, job) {
      assert s.rag.chunks[c].chunk.version == c.version;
    }
  }
}
