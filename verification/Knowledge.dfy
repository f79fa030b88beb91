/**
 Versioned knowledge publication: the SQL facts, the retrieval projection beside them, and the
 operations that run one at a time under the knowledge lock.

 Every operation takes a fault, the point at which it fails or the process dies; what was committed
 before that point stays. Dense vectors are not part of this model.
 */
module Knowledge {
  import opened Records
  import opened Text

  datatype VersionStatus = Staging | Active | Superseded

  datatype IndexStatus = IndexPending | IndexFailed | Indexed | CleanupPending | Removed

  datatype Document = Document(title: string, source: string, environment: string,
                               active: Option<VersionId>, deletedAt: Option<int>, index: IndexStatus)

  datatype Version = Version(content: string, createdAt: int, status: VersionStatus, index: IndexStatus,
                             space: string, chunks: seq<Chunk>)

  datatype Body = Body(doc: Id, title: string, content: string, source: string, environment: string)

  datatype KeyRow = KeyRow(body: Body, version: VersionId)

  datatype KeyId = KeyId(scope: string, key: string)

  datatype CleanupId = CleanupId(doc: Id, version: VersionId, at: int)

  datatype Sql = Sql(docs: map<Id, Document>, versions: map<VersionId, Version>, chunks: map<ChunkId, Chunk>,
                     keys: map<KeyId, KeyRow>, cleanups: map<CleanupId, bool>)

  datatype Mirrored = Mirrored(chunk: Chunk, environment: string)

  datatype ActiveVersion = ActiveVersion(version: VersionId, space: string)

  /** The in-memory projection: the chunk map, the ids in the BM25 mirror and the active set. */
  datatype Rag = Rag(chunks: map<ChunkId, Mirrored>, bm25: set<ChunkId>, active: map<Id, ActiveVersion>,
                     versioned: bool, space: string, dimension: nat)

  datatype State = State(sql: Sql, rag: Rag, space: string)

  datatype Outcome = Ok | Conflict | Invalid | Unavailable | Error

  datatype Fault = NoFault | ReadFault | StageFault | KeyFault | SourceFault | IndexFault | IndexSaveFault | CommitFault | RestoreFault

  const EmptySql := Sql(map[], map[], map[], map[], map[])
  const EmptyRag := Rag(map[], {}, map[], false, "unavailable", 0)

  // ------------------------------------------------------------- projection

  predicate Live(sql: Sql, space: string, d: Id) {
    && d in sql.docs
    && sql.docs[d].deletedAt.None?
    && sql.docs[d].active.Some?
    && sql.docs[d].active.value in sql.versions
    && sql.versions[sql.docs[d].active.value].status == Active
    && sql.versions[sql.docs[d].active.value].space == space
  }

  /** The active set that the SQL facts call for. */
  function LiveActive(sql: Sql, space: string): map<Id, ActiveVersion> {
    map d | d in sql.docs && Live(sql, space, d) :: ActiveVersion(sql.docs[d].active.value, space)
  }

  function ChunkIds(v: VersionId, n: nat): set<ChunkId> {
    set i | 0 <= i < n :: ChunkId(v, i)
  }

  function LiveIds(sql: Sql, space: string): set<ChunkId> {
    set d, c | d in sql.docs && Live(sql, space, d) &&
               c in ChunkIds(sql.docs[d].active.value, |sql.versions[sql.docs[d].active.value].chunks|) :: c
  }

  function LiveChunk(sql: Sql, c: ChunkId): Mirrored
    requires c.version in sql.versions && c.index < |sql.versions[c.version].chunks|
  {
    Mirrored(sql.versions[c.version].chunks[c.index],
             if c.version.doc in sql.docs then sql.docs[c.version.doc].environment else "")
  }

  function LiveChunks(sql: Sql, space: string): map<ChunkId, Mirrored> {
    map c | c in LiveIds(sql, space) :: LiveChunk(sql, c)
  }

  /** RestoreProjection reads every fact before it changes the projection, so it takes effect whole or not at all. */
  function Restored(s: State): State {
    var live := LiveChunks(s.sql, s.space);
    s.(rag := s.rag.(chunks := s.rag.chunks + live, bm25 := s.rag.bm25 + live.Keys,
                     active := LiveActive(s.sql, s.space), versioned := true))
  }

  function Restore(s: State, f: Fault): (State, Outcome) {
    if f.RestoreFault? then (s, Error) else (Restored(s), Ok)
  }

  // -------------------------------------------------------------------- put

  datatype PutRequest = PutRequest(id: Id, title: string, content: string, source: string, environment: string,
                                   expected: Option<VersionId>, key: string)

  datatype Target = Target(id: Id, title: string, environment: string, body: Body, keyId: KeyId)

  predicate ValidPut(q: PutRequest) {
    var title := TrimSpace(q.title);
    && title != "" && |title| <= 512
    && TrimSpace(q.content) != "" && |q.content| <= 512 * 1024
    && (q.source == "upload" || q.source == "demo")
  }

  function TargetOf(q: PutRequest): Target {
    var title := TrimSpace(q.title);
    var environment := if q.environment == "" then "unknown" else q.environment;
    var id := if q.id == "" then "doc_local:" + q.source + ":" + ToLower(title) else q.id;
    Target(id, title, environment, Body(id, title, q.content, q.source, environment),
           KeyId(if q.id == "" then "document:create" else "document:" + id, q.key))
  }

  /** Documents are unique by namespace and lower-case title. */
  predicate TitleTaken(docs: map<Id, Document>, id: Id, source: string, title: string) {
    exists d | d in docs && d != id :: docs[d].source == source && ToLower(docs[d].title) == ToLower(title)
  }

  predicate Published(v: Version) {
    (v.status == Active || v.status == Superseded) && v.index == Indexed
  }

  function ChunksOf(v: VersionId, source: string): seq<Chunk> {
    var snippets := Snippets(v.content);
    seq(|snippets|, i requires 0 <= i < |snippets| => Chunk(v, v.doc, v.title, snippets[i], source, v.space))
  }

  function ChunkRows(v: VersionId, chunks: seq<Chunk>): map<ChunkId, Chunk> {
    map i | 0 <= i < |chunks| :: ChunkId(v, i) := chunks[i]
  }

  function WithKey(sql: Sql, q: PutRequest, t: Target, v: VersionId): Sql {
    if q.key == "" || t.keyId in sql.keys then sql else sql.(keys := sql.keys[t.keyId := KeyRow(t.body, v)])
  }

  function Put(s: State, q: PutRequest, now: int, f: Fault): (State, Outcome) {
    if !ValidPut(q) then (s, Invalid)
    else if f.ReadFault? then (s, Error)
    else
      var t := TargetOf(q);
      if q.key != "" && t.keyId in s.sql.keys then
        var k := s.sql.keys[t.keyId];
        if k.body != t.body then (s, Conflict)
        else if t.id !in s.sql.docs || k.version !in s.sql.versions then (s, Error)
        else if Published(s.sql.versions[k.version]) then Restore(s, f)
        else PutFresh(s, q, t, now, f)
      else PutFresh(s, q, t, now, f)
  }

  datatype Admission = PutConflict | PutBroken | PutSame(current: VersionId) | PutNew | PutReplace

  /** The compare-and-swap on the active version, and the recognition of an identical retransmission. */
  function Admit(sql: Sql, q: PutRequest, t: Target): Admission {
    if t.id !in sql.docs then
      if q.expected.Some? then PutConflict else if TitleTaken(sql.docs, t.id, q.source, t.title) then PutBroken else PutNew
    else
      var d := sql.docs[t.id];
      if d.source != q.source then PutConflict
      else if q.expected.Some? && d.active != q.expected then PutConflict
      else if d.active.None? then PutReplace
      else if d.active.value !in sql.versions then PutBroken
      else
        var same := sql.versions[d.active.value].content == q.content && d.title == t.title && d.environment == t.environment;
        if q.expected.None? && !same then PutConflict
        else if same && d.deletedAt.None? then PutSame(d.active.value)
        else PutReplace
  }

  function PutFresh(s: State, q: PutRequest, t: Target, now: int, f: Fault): (State, Outcome) {
    match Admit(s.sql, q, t)
    case PutConflict => (s, Conflict)
    case PutBroken => (s, Error)
    case PutSame(current) =>
      if f.KeyFault? then (s, Error) else Restore(s.(sql := WithKey(s.sql, q, t, current)), f)
    case PutReplace => PutStaged(s, q, t, now, f)
    case PutNew =>
      var d := Document(t.title, q.source, t.environment, None, None, IndexPending);
      PutStaged(s.(sql := s.sql.(docs := s.sql.docs[t.id := d])), q, t, now, f)
  }

  function StagedVersion(sql: Sql, v: VersionId, now: int): Version {
    if v in sql.versions then sql.versions[v].(status := Staging, index := IndexPending)
    else Version(v.content, now, Staging, IndexPending, v.space, [])
  }

  predicate IndexRefused(s: State, v: VersionId) {
    s.space == "" || |Snippets(v.content)| > 512 || (s.rag.space != "" && s.rag.space != s.space)
  }

  function WithVersion(sql: Sql, v: VersionId, row: Version): Sql {
    sql.(versions := sql.versions[v := row])
  }

  /** Indexing mirrors the chunks of a version without activating them. */
  function Mirror(rag: Rag, v: VersionId, chunks: seq<Chunk>): Rag {
    var rows := map i | 0 <= i < |chunks| :: ChunkId(v, i) := Mirrored(chunks[i], "");
    rag.(chunks := rag.chunks + rows, bm25 := rag.bm25 + rows.Keys)
  }

  /** The publishing transaction: demote the old version, activate the new one, point the document at it. */
  function Publish(sql: Sql, q: PutRequest, t: Target, v: VersionId): Sql
    requires t.id in sql.docs && v in sql.versions
  {
    var d := sql.docs[t.id];
    var chunks := ChunksOf(v, q.source);
    var row := sql.versions[v].(status := Active, index := Indexed, chunks := chunks);
    var demoted := if d.active.Some? && d.active.value in sql.versions
                   then sql.versions[d.active.value := sql.versions[d.active.value].(status := Superseded)]
                   else sql.versions;
    Sql(sql.docs[t.id := d.(active := Some(v), deletedAt := None, index := Indexed, title := t.title, environment := t.environment)],
        demoted[v := row],
        ChunkRows(v, chunks) + sql.chunks,
        if q.key == "" then sql.keys else sql.keys[t.keyId := KeyRow(t.body, v)],
        sql.cleanups)
  }

  function VersionFor(s: State, q: PutRequest, t: Target): VersionId {
    VersionId(t.id, q.content, t.title, t.environment, s.space)
  }

  /** The facts after the version row is staged, and after the idempotency key is recorded with it. */
  function StagedSql(s: State, q: PutRequest, t: Target, now: int): Sql {
    WithVersion(s.sql, VersionFor(s, q, t), StagedVersion(s.sql, VersionFor(s, q, t), now))
  }

  function KeyedSql(s: State, q: PutRequest, t: Target, now: int): Sql {
    WithKey(StagedSql(s, q, t, now), q, t, VersionFor(s, q, t))
  }

  function UnindexedSql(s: State, q: PutRequest, t: Target, now: int): Sql {
    WithVersion(KeyedSql(s, q, t, now), VersionFor(s, q, t),
                StagedVersion(s.sql, VersionFor(s, q, t), now).(index := IndexFailed))
  }

  function IndexedRag(s: State, q: PutRequest, t: Target): Rag {
    Mirror(s.rag, VersionFor(s, q, t), ChunksOf(VersionFor(s, q, t), q.source))
  }

  function PublishedState(s: State, q: PutRequest, t: Target, now: int): State
    requires t.id in s.sql.docs
  {
    State(Publish(KeyedSql(s, q, t, now), q, t, VersionFor(s, q, t)), IndexedRag(s, q, t), s.space)
  }

  function PutStaged(s: State, q: PutRequest, t: Target, now: int, f: Fault): (State, Outcome)
    requires t.id in s.sql.docs
  {
    if f.StageFault? then (s, Error)
    else if f.KeyFault? then (s.(sql := StagedSql(s, q, t, now)), Error)
    else if f.SourceFault? then (s.(sql := KeyedSql(s, q, t, now)), Unavailable)
    else if f.IndexSaveFault? then (s.(sql := KeyedSql(s, q, t, now)), Error)
    else if f.IndexFault? || IndexRefused(s, VersionFor(s, q, t)) then (s.(sql := UnindexedSql(s, q, t, now)), Error)
    else if f.CommitFault? || TitleTaken(s.sql.docs, t.id, q.source, t.title) then
      (State(KeyedSql(s, q, t, now), IndexedRag(s, q, t), s.space), Error)
    else Restore(PublishedState(s, q, t, now), f)
  }

  // ------------------------------------------------------ delete and cleanup

  function Tombstone(sql: Sql, id: Id, v: VersionId, now: int): Sql
    requires id in sql.docs
  {
    sql.(docs := sql.docs[id := sql.docs[id].(deletedAt := Some(now), index := CleanupPending)],
         cleanups := sql.cleanups[CleanupId(id, v, now) := false])
  }

  function Delete(s: State, id: Id, expected: Option<VersionId>, now: int, f: Fault): (State, Outcome) {
    if f.ReadFault? || id !in s.sql.docs then (s, Error)
    else if expected.None? || s.sql.docs[id].active != expected then (s, Conflict)
    else if f.CommitFault? || CleanupId(id, expected.value, now) in s.sql.cleanups then (s, Error)
    else Restore(s.(sql := Tombstone(s.sql, id, expected.value, now)), f)
  }

  /** DeleteVersion drops the mirrored chunks of one version. */
  function Unmirror(rag: Rag, v: VersionId): Rag {
    var gone := set c | c in rag.chunks && rag.chunks[c].chunk.version == v;
    rag.(chunks := rag.chunks - gone, bm25 := rag.bm25 - gone)
  }

  predicate StillActive(sql: Sql, job: CleanupId) {
    job.doc in sql.docs && sql.docs[job.doc].deletedAt.None? && sql.docs[job.doc].active == Some(job.version)
  }

  function CleanupDone(sql: Sql, job: CleanupId): Sql
    requires job.doc in sql.docs
  {
    var d := sql.docs[job.doc];
    sql.(docs := if d.deletedAt.Some? && d.active == Some(job.version)
                 then sql.docs[job.doc := d.(index := Removed)] else sql.docs,
         cleanups := sql.cleanups[job := true])
  }

  function Cleanup(s: State, job: CleanupId, f: Fault): (State, Outcome) {
    if f.ReadFault? || job !in s.sql.cleanups || job.doc !in s.sql.docs then (s, Error)
    else if !StillActive(s.sql, job) && f.SourceFault? then (s, Error)
    else
      var s1 := if StillActive(s.sql, job) then s else s.(rag := Unmirror(s.rag, job.version));
      if f.CommitFault? then (s1, Error) else (s1.(sql := CleanupDone(s1.sql, job)), Ok)
  }

  // --------------------------------------------------------- probe and restart

  /** `space` and `dimension` are what the embedding endpoint answered. */
  function Probe(s: State, space: string, dimension: nat, f: Fault): (State, Outcome) {
    if f.ReadFault? then (s, Error)
    else if s.space != space && s.space != "" && s.space != "unavailable" then (s, Conflict)
    else if f.SourceFault? then (s, Error)
    else if s.space == space then (s, Ok)
    else
      var s1 := s.(space := space, rag := s.rag.(space := space, dimension := dimension));
      if f.RestoreFault? then (s.(rag := s.rag.(space := s.space, dimension := 0)), Error) else (Restored(s1), Ok)
  }

  /** A new process: an empty projection, one probe, and a restore it does not start without. */
  function Restart(s: State, space: string, dimension: nat, f: Fault): (State, Outcome) {
    (Restored(Probe(State(s.sql, EmptyRag, "unavailable"), space, dimension, f).0), Ok)
  }

  // ------------------------------------------------------------------ histories

  datatype Op =
    | PutOp(q: PutRequest, now: int, f: Fault)
    | DeleteOp(id: Id, expected: Option<VersionId>, now: int, f: Fault)
    | CleanupOp(job: CleanupId, f: Fault)
    | ProbeOp(space: string, dimension: nat, f: Fault)
    | RestartOp(space: string, dimension: nat, f: Fault)

  function Apply(s: State, op: Op): (State, Outcome) {
    match op
    case PutOp(q, now, f) => Put(s, q, now, f)
    case DeleteOp(id, expected, now, f) => Delete(s, id, expected, now, f)
    case CleanupOp(job, f) => Cleanup(s, job, f)
    case ProbeOp(space, dimension, f) => Probe(s, space, dimension, f)
    case RestartOp(space, dimension, f) => Restart(s, space, dimension, f)
  }
}
