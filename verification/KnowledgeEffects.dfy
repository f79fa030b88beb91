/**
 What each knowledge operation does to documents, versions, jobs and mirrored chunks, one fact at a time.
 */
module KnowledgeEffects {
  import opened Records
  import opened Text
  import opened Knowledge
  import opened KnowledgeInvariants
  import opened Projection

  /** The document is undeleted and points at a version of the space that is active. */
  ghost predicate ServedBy(sql: Sql, space: string, d: Id, v: VersionId) {
    && d in sql.docs && sql.docs[d].deletedAt.None? && sql.docs[d].active == Some(v)
    && v in sql.versions && sql.versions[v].status == Active && sql.versions[v].space == space
  }

  ghost predicate SameMirror(a: Rag, b: Rag, c: ChunkId) {
    && (c in b.chunks <==> c in a.chunks) && (c in b.bm25 <==> c in a.bm25)
    && (c in a.chunks ==> b.chunks[c] == a.chunks[c])
  }

  // -------------------------------------------------------------------- cleanup

  /** The job's version is served again, so its chunks are needed. */
  ghost predicate ServedAgain(sql: Sql, job: CleanupId) {
    job.doc in sql.docs && sql.docs[job.doc].deletedAt.None? && sql.docs[job.doc].active == Some(job.version)
  }

  /**
   A cleanup that succeeds leaves no chunk of its version in the mirror or in the index unless the version is served
   again, and whatever becomes of it every other chunk stays as it was.
   */
  lemma CleanupRemoves(s: State, job: CleanupId, f: Fault)
    requires StateOk(s)
    ensures var (s', out) := Cleanup(s, job, f);
            && (out.Ok? <==> job in s.sql.cleanups && f !in {ReadFault, CommitFault} && (f == SourceFault ==> ServedAgain(s.sql, job)))
            && (out.Ok? && !ServedAgain(s.sql, job) ==>
                  forall c: ChunkId | c.version == job.version :: c !in s'.rag.chunks && c !in s'.rag.bm25)
            && (forall c: ChunkId | c.version != job.version || ServedAgain(s.sql, job) :: SameMirror(s.rag, s'.rag, c))
            && s'.rag.active == s.rag.active
  {
    hide SqlOk, RagOk, Unmirror;
    UnmirrorTakes(s.rag, job.version);
    if job in s.sql.cleanups { JobOk(s.sql, job); }
  }

  lemma UnmirrorTakes(rag: Rag, v: VersionId)
    requires RagOk(rag)
    ensures var rag' := Unmirror(rag, v);
            && (forall c: ChunkId | c.version == v :: c !in rag'.chunks && c !in rag'.bm25)
            && (forall c: ChunkId | c.version != v :: SameMirror(rag, rag', c))
            && rag'.active == rag.active
  {
  }

  lemma JobOk(sql: Sql, job: CleanupId)
    requires SqlOk(sql) && job in sql.cleanups
    ensures job.doc in sql.docs
  {
  }

  /** The facts change only on success: the job is done, and its document is removed if it is still deleted and points there. */
  lemma CleanupFacts(s: State, job: CleanupId, f: Fault)
    requires StateOk(s)
    ensures var (s', out) := Cleanup(s, job, f);
            if !out.Ok? then s'.sql == s.sql
            else
              && s'.sql.cleanups == s.sql.cleanups[job := true]
              && s'.sql.versions == s.sql.versions && s'.sql.chunks == s.sql.chunks && s'.sql.keys == s.sql.keys
              && s'.sql.docs.Keys == s.sql.docs.Keys
              && forall d | d in s.sql.docs ::
                   s'.sql.docs[d] == if d == job.doc && s.sql.docs[d].deletedAt.Some? && s.sql.docs[d].active == Some(job.version)
                                     then s.sql.docs[d].(index := Removed) else s.sql.docs[d]
  {
    hide SqlOk, RagOk, Unmirror, StillActive;
  }

  // -------------------------------------------------------------------- restore

  /** After a restore the active set holds exactly what the facts serve, and every chunk of it is mirrored and indexed. */
  lemma RestoredServes(s: State, d: Id)
    requires StateOk(s)
    ensures var rag := Restored(s).rag;
            && (forall v :: d in rag.active && rag.active[d].version == v <==> ServedBy(s.sql, s.space, d, v))
            && (forall c: ChunkId | ServedBy(s.sql, s.space, c.version.doc, c.version) && c.index < |s.sql.versions[c.version].chunks| ::
                  && c in rag.chunks && c in rag.bm25
                  && rag.chunks[c] == Mirrored(s.sql.versions[c.version].chunks[c.index], s.sql.docs[c.version.doc].environment))
            && (forall c: ChunkId | !ServedBy(s.sql, s.space, c.version.doc, c.version) :: SameMirror(s.rag, rag, c))
  {
    hide SqlOk, RagOk, LiveIds, LiveActive;
    ActiveServes(s, d);
    forall c: ChunkId
      ensures c in LiveIds(s.sql, s.space) <==>
              ServedBy(s.sql, s.space, c.version.doc, c.version) && c.index < |s.sql.versions[c.version].chunks|
      ensures c in LiveIds(s.sql, s.space) ==>
              c.version in s.sql.versions && c.version.doc in s.sql.docs && c.index < |s.sql.versions[c.version].chunks| &&
              LiveChunk(s.sql, c) == Mirrored(s.sql.versions[c.version].chunks[c.index], s.sql.docs[c.version.doc].environment)
    {
      ChunkServes(s.sql, s.space, c);
    }
  }

  lemma ActiveServes(s: State, d: Id)
    requires StateOk(s)
    ensures forall v :: d in LiveActive(s.sql, s.space) && LiveActive(s.sql, s.space)[d].version == v <==> ServedBy(s.sql, s.space, d, v)
  {
    hide SqlOk, RagOk;
    if d in s.sql.docs { OneDocOk(s.sql, d); }
  }

  lemma ChunkServes(sql: Sql, space: string, c: ChunkId)
    requires SqlOk(sql)
    ensures c in LiveIds(sql, space) <==>
            ServedBy(sql, space, c.version.doc, c.version) && c.index < |sql.versions[c.version].chunks|
    ensures c in LiveIds(sql, space) ==>
            LiveChunk(sql, c) == Mirrored(sql.versions[c.version].chunks[c.index], sql.docs[c.version.doc].environment)
  {
    hide SqlOk, LiveIds;
    LiveIdsAre(sql, space, c);
    if c.version.doc in sql.docs { OneDocOk(sql, c.version.doc); }
  }

  lemma OneDocOk(sql: Sql, d: Id)
    requires SqlOk(sql) && d in sql.docs
    ensures DocOk(sql, d)
  {
  }

  // --------------------------------------------------------------------- delete

  /**
   A delete with the current version as its expectation marks the document and leaves a pending job, and a delete that
   succeeds takes the document out of the active set. A delete that does not know the current version is refused.
   */
  lemma DeleteDoes(s: State, id: Id, expected: Option<VersionId>, now: int, f: Fault)
    requires StateOk(s)
    ensures var (s', out) := Delete(s, id, expected, now, f);
            var found := f != ReadFault && id in s.sql.docs;
            var current := found && expected.Some? && s.sql.docs[id].active == expected;
            var deleted := current && f != CommitFault && CleanupId(id, expected.value, now) !in s.sql.cleanups;
            && (out.Conflict? <==> found && !current)
            && (out.Ok? <==> deleted && f != RestoreFault)
            && (if deleted then
                  && s'.sql.docs == s.sql.docs[id := s.sql.docs[id].(deletedAt := Some(now), index := CleanupPending)]
                  && s'.sql.cleanups == s.sql.cleanups[CleanupId(id, expected.value, now) := false]
                  && s'.sql.versions == s.sql.versions && s'.sql.chunks == s.sql.chunks && s'.sql.keys == s.sql.keys
                else s'.sql == s.sql)
            && (out.Ok? ==> id !in s'.rag.active)
            && (!out.Ok? ==> s'.rag == s.rag)
            && s'.space == s.space
  {
    hide SqlOk, RagOk, LiveIds, LiveChunks;
  }

  // ----------------------------------------------------------- probe and restart

  /** A probe refuses a space other than the stored one, and otherwise takes it over with a restore, whole or not at all. */
  lemma ProbeDoes(s: State, space: string, dimension: nat, f: Fault, d: Id)
    requires StateOk(s)
    ensures var (s', out) := Probe(s, space, dimension, f);
            && (out.Conflict? <==> f != ReadFault && s.space !in {space, "", "unavailable"})
            && (out.Ok? <==> f !in {ReadFault, SourceFault} && s.space in {space, "", "unavailable"} &&
                             (s.space == space || f != RestoreFault))
            && s'.sql == s.sql
            && s'.space == (if out.Ok? then space else s.space)
            && (!out.Ok? ==> s'.rag.active == s.rag.active && s'.rag.chunks == s.rag.chunks && s'.rag.bm25 == s.rag.bm25)
            && (out.Ok? && s.space != space ==>
                  forall v :: d in s'.rag.active && s'.rag.active[d].version == v <==> ServedBy(s.sql, space, d, v))
  {
    hide SqlOk, RagOk, Restored, ServedBy;
    var x := s.(space := space, rag := s.rag.(space := space, dimension := dimension));
    SameParts(s, x);
    RestoredServes(x, d);
    RestoredParts(x);
  }

  lemma SameParts(s: State, x: State)
    requires StateOk(s) && x.sql == s.sql && x.rag.chunks == s.rag.chunks && x.rag.bm25 == s.rag.bm25
    ensures StateOk(x)
  {
    hide SqlOk;
  }

  lemma RestoredParts(s: State)
    ensures Restored(s).sql == s.sql && Restored(s).space == s.space
  {
    hide LiveChunks, LiveActive;
  }

  /** A restarted process serves the documents of the space it found, mirrors their chunks and nothing else, and keeps every fact. */
  lemma RestartDoes(s: State, space: string, dimension: nat, f: Fault, d: Id, c: ChunkId)
    requires StateOk(s)
    ensures var (s', out) := Restart(s, space, dimension, f);
            && s'.sql == s.sql
            && s'.space == (if f in {ReadFault, SourceFault} || (space != "unavailable" && f == RestoreFault) then "unavailable" else space)
            && (forall v :: d in s'.rag.active && s'.rag.active[d].version == v <==> ServedBy(s.sql, s'.space, d, v))
            && (c in s'.rag.chunks <==>
                  ServedBy(s.sql, s'.space, c.version.doc, c.version) && c.index < |s.sql.versions[c.version].chunks|)
            && (c in s'.rag.bm25 <==> c in s'.rag.chunks)
  {
    hide SqlOk, RagOk, Restored, ServedBy;
    var blank := State(s.sql, EmptyRag, "unavailable");
    var x := Probe(blank, space, dimension, f).0;
    BlankOk(s);
    ProbeDoes(blank, space, dimension, f, d);
    ProbeOk(blank, space, dimension, f);
    RestoredServes(x, d);
    RestoredParts(x);
    ProbedChunks(blank, space, dimension, f, c);
    RestoredOnly(x, c);
  }

  lemma BlankOk(s: State)
    requires StateOk(s)
    ensures StateOk(State(s.sql, EmptyRag, "unavailable"))
  {
    hide SqlOk;
  }

  /** A probe of an empty projection mirrors nothing but what the facts serve. */
  lemma ProbedChunks(s: State, space: string, dimension: nat, f: Fault, c: ChunkId)
    requires StateOk(s) && s.rag.chunks == map[] && s.rag.bm25 == {}
    ensures var s' := Probe(s, space, dimension, f).0;
            && (c in s'.rag.bm25 <==> c in s'.rag.chunks)
            && (c in s'.rag.chunks ==> c in LiveIds(s.sql, s'.space))
  {
    hide SqlOk, RagOk, LiveIds, LiveActive;
  }

  lemma RestoredOnly(s: State, c: ChunkId)
    requires StateOk(s) && (c in s.rag.bm25 <==> c in s.rag.chunks) && (c in s.rag.chunks ==> c in LiveIds(s.sql, s.space))
    ensures var rag := Restored(s).rag;
            && (c in rag.bm25 <==> c in rag.chunks)
            && (c in rag.chunks <==>
                  ServedBy(s.sql, s.space, c.version.doc, c.version) && c.index < |s.sql.versions[c.version].chunks|)
  {
    hide SqlOk, RagOk, LiveIds, LiveActive;
    LiveIdsAre(s.sql, s.space, c);
    if Live(s.sql, s.space, c.version.doc) { OneDocOk(s.sql, c.version.doc); }
  }

  // ------------------------------------------------------------------------ put

  /** The name of a put's document, its request body, and the row of its idempotency key. */
  function IdOf(q: PutRequest): Id {
    if q.id == "" then "doc_local:" + q.source + ":" + ToLower(TrimSpace(q.title)) else q.id
  }

  function EnvironmentOf(q: PutRequest): string {
    if q.environment == "" then "unknown" else q.environment
  }

  function BodyOf(q: PutRequest): Body {
    Body(IdOf(q), TrimSpace(q.title), q.content, q.source, EnvironmentOf(q))
  }

  function KeyFor(q: PutRequest): KeyId {
    KeyId(if q.id == "" then "document:create" else "document:" + q.id, q.key)
  }

  predicate KnownKey(s: State, q: PutRequest) { q.key != "" && KeyFor(q) in s.sql.keys }

  /** The key's version was published, so the request is answered from it. */
  predicate Replays(s: State, q: PutRequest) {
    && KnownKey(s, q) && s.sql.keys[KeyFor(q)].body == BodyOf(q) && IdOf(q) in s.sql.docs
    && (var v := s.sql.keys[KeyFor(q)].version;
        v in s.sql.versions && s.sql.versions[v].status in {Active, Superseded} && s.sql.versions[v].index == Indexed)
  }

  /** A known key with another body is refused, whatever became of its version; with the same body it is answered from it. */
  lemma KeyAnswers(s: State, q: PutRequest, now: int, f: Fault)
    requires ValidPut(q) && f != ReadFault && KnownKey(s, q)
    ensures var (s', out) := Put(s, q, now, f);
            && (s.sql.keys[KeyFor(q)].body != BodyOf(q) ==> s' == s && out.Conflict?)
            && (Replays(s, q) ==> s'.sql == s.sql && (out.Ok? <==> f != RestoreFault) && (!out.Ok? ==> s' == s && out.Error?))
  {
    hide PutFresh, LiveChunks, LiveActive, TrimSpace, ToLower, ValidPut;
  }

  /** The put is at odds with the document as it stands, or with its key. */
  predicate AtOdds(s: State, q: PutRequest) {
    if KnownKey(s, q) && s.sql.keys[KeyFor(q)].body != BodyOf(q) then true
    else if IdOf(q) !in s.sql.docs then q.expected.Some? && !KnownKey(s, q)
    else if KnownKey(s, q) && (Replays(s, q) || s.sql.keys[KeyFor(q)].version !in s.sql.versions) then false
    else
      var d := s.sql.docs[IdOf(q)];
      || d.source != q.source
      || (q.expected.Some? && d.active != q.expected)
      || (q.expected.None? && d.active.Some? && d.active.value in s.sql.versions &&
          (s.sql.versions[d.active.value].content != q.content || d.title != TrimSpace(q.title) || d.environment != EnvironmentOf(q)))
  }

  /** A put is refused as a conflict exactly when it is at odds, and then it changes nothing; it is invalid by its own text alone. */
  lemma PutRefuses(s: State, q: PutRequest, now: int, f: Fault)
    requires StateOk(s)
    ensures var (s', out) := Put(s, q, now, f);
            var valid := 0 < |TrimSpace(q.title)| <= 512 && TrimSpace(q.content) != "" && |q.content| <= 524288 &&
                         q.source in {"upload", "demo"};
            && (out.Invalid? <==> !valid)
            && (out.Conflict? <==> valid && f != ReadFault && AtOdds(s, q))
            && (out.Conflict? || out.Invalid? ==> s' == s)
  {
    hide SqlOk, RagOk, PutStaged, Restored, TrimSpace, ToLower, TitleTaken, WithKey;
    StagedIsNoConflict(s, q, TargetOf(q), now, f);
  }

  lemma StagedIsNoConflict(s: State, q: PutRequest, t: Target, now: int, f: Fault)
    ensures t.id in s.sql.docs ==> !PutStaged(s, q, t, now, f).1.Conflict? && !PutStaged(s, q, t, now, f).1.Invalid?
    ensures t.id !in s.sql.docs ==>
              var d := Document(t.title, q.source, t.environment, None, None, IndexPending);
              var out := PutStaged(s.(sql := s.sql.(docs := s.sql.docs[t.id := d])), q, t, now, f).1;
              !out.Conflict? && !out.Invalid?
  {
    hide Restored, StagedSql, KeyedSql, UnindexedSql, IndexedRag, PublishedState, IndexRefused, TitleTaken, VersionFor;
  }

  /** The document is undeleted and points at an indexed active version with the content, title, source and environment asked for. */
  ghost predicate HasContent(sql: Sql, q: PutRequest) {
    && IdOf(q) in sql.docs
    && (var d := sql.docs[IdOf(q)];
        && d.deletedAt.None? && d.title == TrimSpace(q.title) && d.source == q.source && d.environment == EnvironmentOf(q)
        && d.active.Some? && d.active.value in sql.versions
        && (var row := sql.versions[d.active.value];
            row.content == q.content && row.status == Active && row.index == Indexed))
  }

  /** The key, when there is one, answers for the body and the version that is active. */
  ghost predicate KeyKept(s: State, sql: Sql, q: PutRequest) {
    q.key != "" ==>
      && KeyFor(q) in sql.keys && sql.keys[KeyFor(q)].body == BodyOf(q)
      && (KeyFor(q) !in s.sql.keys ==> IdOf(q) in sql.docs && Some(sql.keys[KeyFor(q)].version) == sql.docs[IdOf(q)].active)
  }

  /** A put that succeeds, other than by its key's replay, leaves its document with exactly what was asked for. */
  lemma PutServes(s: State, q: PutRequest, now: int, f: Fault)
    requires StateOk(s)
    ensures var (s', out) := Put(s, q, now, f);
            out.Ok? && !Replays(s, q) ==> HasContent(s'.sql, q) && KeyKept(s, s'.sql, q)
  {
    hide SqlOk, RagOk, PutFresh, Restored, TrimSpace, ToLower, HasContent, KeyKept;
    var t := TargetOf(q);
    if ValidPut(q) && PassesKey(s, q) { FreshServes(s, q, t, now, f); }
  }

  lemma FreshServes(s: State, q: PutRequest, t: Target, now: int, f: Fault)
    requires StateOk(s) && t == TargetOf(q)
    requires KnownKey(s, q) ==> s.sql.keys[KeyFor(q)].body == BodyOf(q)
    ensures var (s', out) := PutFresh(s, q, t, now, f); out.Ok? ==> HasContent(s'.sql, q) && KeyKept(s, s'.sql, q)
  {
    hide SqlOk, RagOk, PutStaged, Restored, TrimSpace, ToLower, TitleTaken, LiveChunks, LiveActive;
    match Admit(s.sql, q, t) {
      case PutConflict =>
      case PutBroken =>
      case PutSame(current) =>
        OneDocOk(s.sql, t.id);
        RestoredParts(s.(sql := WithKey(s.sql, q, t, current)));
      case PutReplace =>
        AdmittedIsReady(s, q, t);
        hide HasContent, KeyKept;
        StagedServes(s, q, t, now, f);
      case PutNew =>
        var d := Document(t.title, q.source, t.environment, None, None, IndexPending);
        var s1 := s.(sql := s.sql.(docs := s.sql.docs[t.id := d]));
        InsertDocOk(s.sql, t.id, d);
        hide HasContent;
        StagedServes(s1, q, t, now, f);
    }
  }

  lemma StagedServes(s: State, q: PutRequest, t: Target, now: int, f: Fault)
    requires StateOk(s) && ReadyToStage(s, q, t) && t == TargetOf(q)
    ensures var (s', out) := PutStaged(s, q, t, now, f); out.Ok? ==> HasContent(s'.sql, q) && KeyKept(s, s'.sql, q)
  {
    hide SqlOk, RagOk, Restored, StagedSql, KeyedSql, UnindexedSql, IndexedRag, PublishedState, IndexRefused, TitleTaken, VersionFor,
         TargetOf, HasContent, KeyKept, Stageable;
    RestoredParts(PublishedState(s, q, t, now));
    PublishedServes(s, q, t, now);
  }

  lemma PublishedServes(s: State, q: PutRequest, t: Target, now: int)
    requires StateOk(s) && ReadyToStage(s, q, t) && t == TargetOf(q)
    ensures HasContent(PublishedState(s, q, t, now).sql, q) && KeyKept(s, PublishedState(s, q, t, now).sql, q)
  {
    hide RagOk, SqlOk, ChunksOf, Mirror, TrimSpace, ToLower, Stageable;
    var v := VersionFor(s, q, t);
    if v in s.sql.versions { assert VersionOk(s.sql, v) by { OneVersionOk(s.sql, v); } }
  }

  lemma OneVersionOk(sql: Sql, v: VersionId)
    requires SqlOk(sql) && v in sql.versions
    ensures VersionOk(sql, v)
  {
  }

  /** The document already has exactly what is asked for, undeleted. */
  ghost predicate HasAlready(sql: Sql, q: PutRequest) {
    && IdOf(q) in sql.docs
    && (var d := sql.docs[IdOf(q)];
        && d.deletedAt.None? && d.title == TrimSpace(q.title) && d.environment == EnvironmentOf(q)
        && d.active.Some? && d.active.value in sql.versions && sql.versions[d.active.value].content == q.content)
  }

  /** No other document of the source has the title, in any case. */
  ghost predicate TitleFree(sql: Sql, q: PutRequest) {
    forall d | d in sql.docs && d != IdOf(q) && sql.docs[d].source == q.source :: ToLower(sql.docs[d].title) != ToLower(TrimSpace(q.title))
  }

  /**
   Without faults and with a new key or none, a put succeeds exactly when it is valid and not at odds, and its document
   has the content already or can be indexed, in 1 to 512 chunks and in one space throughout, under a free title.
   */
  lemma PutSucceeds(s: State, q: PutRequest, now: int)
    requires StateOk(s) && !KnownKey(s, q)
    ensures Put(s, q, now, NoFault).1.Ok? <==>
            && ValidPut(q) && !AtOdds(s, q)
            && (HasAlready(s.sql, q) ||
                (s.space != "" && |Snippets(q.content)| <= 512 && s.rag.space in {"", s.space} && TitleFree(s.sql, q)))
  {
    hide SqlOk, RagOk, PutStaged, Restored, TrimSpace, ToLower, TitleTaken, WithKey, ValidPut, Snippets, TitleFree;
    var t := TargetOf(q);
    TitleIs(s.sql, q, t);
    StagedSucceeds(s, q, t, now);
    if t.id in s.sql.docs { OneDocOk(s.sql, t.id); }
  }

  lemma TitleIs(sql: Sql, q: PutRequest, t: Target)
    requires t == TargetOf(q)
    ensures TitleTaken(sql.docs, t.id, q.source, t.title) <==> !TitleFree(sql, q)
  {
    hide TrimSpace, ToLower;
  }

  lemma StagedSucceeds(s: State, q: PutRequest, t: Target, now: int)
    ensures var d := Document(t.title, q.source, t.environment, None, None, IndexPending);
            var s1 := if t.id in s.sql.docs then s else s.(sql := s.sql.(docs := s.sql.docs[t.id := d]));
            PutStaged(s1, q, t, now, NoFault).1.Ok? <==>
            s.space != "" && |Snippets(q.content)| <= 512 && s.rag.space in {"", s.space} &&
            !TitleTaken(s.sql.docs, t.id, q.source, t.title)
  {
    hide Restored, StagedSql, KeyedSql, UnindexedSql, IndexedRag, PublishedState, Snippets, TitleTaken;
    TitleInserted(s.sql.docs, t.id, Document(t.title, q.source, t.environment, None, None, IndexPending), q.source, t.title);
  }

  lemma TitleInserted(docs: map<Id, Document>, id: Id, d: Document, source: string, title: string)
    ensures TitleTaken(docs[id := d], id, source, title) <==> TitleTaken(docs, id, source, title)
  {
    hide ToLower;
    if x :| x in docs && x != id && docs[x].source == source && ToLower(docs[x].title) == ToLower(title) {
      assert docs[id := d][x] == docs[x];
    }
  }

  /** No other document, no version of another document, no other key and no job differs. */
  ghost predicate Elsewhere(sql: Sql, sql': Sql, q: PutRequest) {
    && (forall d | d != IdOf(q) :: (d in sql'.docs <==> d in sql.docs) && (d in sql.docs ==> sql'.docs[d] == sql.docs[d]))
    && (forall v: VersionId | v.doc != IdOf(q) ::
          (v in sql'.versions <==> v in sql.versions) && (v in sql.versions ==> sql'.versions[v] == sql.versions[v]))
    && (forall k | k != KeyFor(q) :: (k in sql'.keys <==> k in sql.keys) && (k in sql.keys ==> sql'.keys[k] == sql.keys[k]))
    && sql'.cleanups == sql.cleanups
  }

  /** Whatever becomes of a put, it touches nothing but its own document, versions and key. */
  lemma PutElsewhere(s: State, q: PutRequest, now: int, f: Fault)
    requires StateOk(s)
    ensures Elsewhere(s.sql, Put(s, q, now, f).0.sql, q)
  {
    hide SqlOk, RagOk, PutFresh, Restored, TrimSpace, ToLower, Elsewhere, TargetOf, ValidPut;
    RestoredParts(s);
    SameElsewhere(s.sql, q);
    FreshElsewhere(s, q, TargetOf(q), now, f);
  }

  lemma SameElsewhere(sql: Sql, q: PutRequest)
    ensures Elsewhere(sql, sql, q)
  {
    hide IdOf, KeyFor;
  }

  lemma ElsewhereTrans(a: Sql, b: Sql, c: Sql, q: PutRequest)
    requires Elsewhere(a, b, q) && Elsewhere(b, c, q)
    ensures Elsewhere(a, c, q)
  {
    hide IdOf, KeyFor;
  }

  lemma InsertElsewhere(sql: Sql, q: PutRequest, d: Document)
    ensures Elsewhere(sql, sql.(docs := sql.docs[IdOf(q) := d]), q)
  {
    hide IdOf, KeyFor;
  }

  lemma KeyElsewhere(sql: Sql, q: PutRequest, t: Target, v: VersionId)
    requires t.keyId == KeyFor(q)
    ensures Elsewhere(sql, WithKey(sql, q, t, v), q)
  {
    hide IdOf, KeyFor;
  }

  lemma VersionElsewhere(sql: Sql, q: PutRequest, v: VersionId, row: Version)
    requires v.doc == IdOf(q)
    ensures Elsewhere(sql, WithVersion(sql, v, row), q)
  {
    hide IdOf, KeyFor;
  }

  lemma PublishElsewhere(sql: Sql, q: PutRequest, t: Target, v: VersionId)
    requires t.id == IdOf(q) && t.keyId == KeyFor(q) && v.doc == IdOf(q) && t.id in sql.docs && v in sql.versions
    requires sql.docs[t.id].active.Some? ==> sql.docs[t.id].active.value.doc == t.id
    ensures Elsewhere(sql, Publish(sql, q, t, v), q)
  {
    hide IdOf, KeyFor, ChunksOf, ChunkRows;
  }

  lemma FreshElsewhere(s: State, q: PutRequest, t: Target, now: int, f: Fault)
    requires StateOk(s) && t == TargetOf(q)
    ensures Elsewhere(s.sql, PutFresh(s, q, t, now, f).0.sql, q)
  {
    hide SqlOk, RagOk, PutStaged, Restored, TrimSpace, ToLower, TitleTaken, Elsewhere, WithKey;
    SameElsewhere(s.sql, q);
    match Admit(s.sql, q, t) {
      case PutConflict =>
      case PutBroken =>
      case PutSame(current) =>
        RestoredParts(s.(sql := WithKey(s.sql, q, t, current)));
        KeyElsewhere(s.sql, q, t, current);
      case PutReplace =>
        AdmittedIsReady(s, q, t);
        StagedElsewhere(s, q, t, now, f);
      case PutNew =>
        var d := Document(t.title, q.source, t.environment, None, None, IndexPending);
        var s1 := s.(sql := s.sql.(docs := s.sql.docs[t.id := d]));
        InsertDocOk(s.sql, t.id, d);
        InsertElsewhere(s.sql, q, d);
        StagedElsewhere(s1, q, t, now, f);
        ElsewhereTrans(s.sql, s1.sql, PutStaged(s1, q, t, now, f).0.sql, q);
    }
  }

  lemma StagedElsewhere(s: State, q: PutRequest, t: Target, now: int, f: Fault)
    requires StateOk(s) && ReadyToStage(s, q, t) && t == TargetOf(q)
    ensures Elsewhere(s.sql, PutStaged(s, q, t, now, f).0.sql, q)
  {
    hide SqlOk, RagOk, Restored, StagedSql, KeyedSql, UnindexedSql, IndexedRag, PublishedState, IndexRefused, TitleTaken, VersionFor,
         TargetOf, Elsewhere, Stageable;
    RestoredParts(PublishedState(s, q, t, now));
    SameElsewhere(s.sql, q);
    CommitsElsewhere(s, q, t, now);
  }

  lemma CommitsElsewhere(s: State, q: PutRequest, t: Target, now: int)
    requires StateOk(s) && ReadyToStage(s, q, t) && t == TargetOf(q)
    ensures Elsewhere(s.sql, StagedSql(s, q, t, now), q) && Elsewhere(s.sql, KeyedSql(s, q, t, now), q)
    ensures Elsewhere(s.sql, UnindexedSql(s, q, t, now), q) && Elsewhere(s.sql, PublishedState(s, q, t, now).sql, q)
  {
    hide RagOk, SqlOk, Publish, Mirror, TrimSpace, ToLower, Stageable, StagedVersion, Elsewhere, WithKey, WithVersion;
    OneDocOk(s.sql, t.id);
    var v := VersionFor(s, q, t);
    var row := StagedVersion(s.sql, v, now);
    VersionElsewhere(s.sql, q, v, row);
    KeyElsewhere(StagedSql(s, q, t, now), q, t, v);
    ElsewhereTrans(s.sql, StagedSql(s, q, t, now), KeyedSql(s, q, t, now), q);
    VersionElsewhere(KeyedSql(s, q, t, now), q, v, row.(index := IndexFailed));
    ElsewhereTrans(s.sql, KeyedSql(s, q, t, now), UnindexedSql(s, q, t, now), q);
    KeyedParts(s, q, t, now);
    PublishElsewhere(KeyedSql(s, q, t, now), q, t, v);
    ElsewhereTrans(s.sql, KeyedSql(s, q, t, now), PublishedState(s, q, t, now).sql, q);
  }

  lemma KeyedParts(s: State, q: PutRequest, t: Target, now: int)
    ensures KeyedSql(s, q, t, now).docs == s.sql.docs && VersionFor(s, q, t) in KeyedSql(s, q, t, now).versions
  {
    hide StagedVersion;
  }
}
