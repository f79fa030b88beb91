/**
 The knowledge service as it works on its two stores: the SQL rows and the in-memory projection beside them.
 Each method follows the source step by step and is proved to be the operation of the same name in Knowledge.
 */
module KnowledgeService {
  import opened Records
  import opened Text
  import opened Ordering
  import opened Knowledge
  import opened KnowledgeInvariants
  import Bm25

  /** One chunk to mirror; a later entry with the same id wins. */
  datatype Entry = Entry(id: ChunkId, row: Mirrored)

  ghost function Rows(es: seq<Entry>): map<ChunkId, Mirrored> {
    if es == [] then map[] else Rows(es[..|es| - 1])[es[|es| - 1].id := es[|es| - 1].row]
  }

  datatype Activation = Activation(doc: Id, version: ActiveVersion)

  ghost function ActiveRows(vs: seq<Activation>): map<Id, ActiveVersion> {
    if vs == [] then map[] else ActiveRows(vs[..|vs| - 1])[vs[|vs| - 1].doc := vs[|vs| - 1].version]
  }

  class Projection {
    const tokenize: string -> seq<string>
    const bm: Bm25.Index
    var chunks: map<ChunkId, Mirrored>
    var active: map<Id, ActiveVersion>
    var versioned: bool
    var space: string
    var dimension: nat

    ghost function Value(): Rag
      reads this, bm
    {
      Rag(chunks, bm.docs.Keys, active, versioned, space, dimension)
    }

    /** The index equals a rebuild on its entries, and every mirrored chunk is indexed under its own text. */
    ghost predicate Valid()
      reads this, bm
    {
      bm.Valid() && forall c | c in chunks :: c in bm.docs && Indexes(bm.docs[c], chunks[c].chunk)
    }

    ghost predicate Indexes(d: Bm25.Doc, c: Chunk) {
      var toks := tokenize(c.title + "\n" + c.snippet);
      && d.title == c.title && d.snippet == c.snippet && d.source == c.source
      && d.length == |toks| && Bm25.CountsOf(d.tf, toks)
    }

    constructor (tokenize: string -> seq<string>)
      ensures Valid() && Value() == EmptyRag && this.tokenize == tokenize && fresh(bm)
    {
      this.tokenize := tokenize;
      bm := new Bm25.Index();
      chunks, active, versioned, space, dimension := map[], map[], false, "unavailable", 0;
    }

    method MirrorChunk(id: ChunkId, row: Mirrored)
      requires Valid()
      modifies this`chunks, bm
      ensures Valid()
      ensures chunks == old(chunks)[id := row] && bm.docs.Keys == old(bm.docs.Keys) + {id}
    {
      hide Bm25.Rebuilt, Bm25.DocOk, Bm25.CountsOf;
      var c := row.chunk;
      chunks := chunks[id := row];
      bm.Upsert(id, c.title, c.title, c.snippet, c.source, tokenize(c.title + "\n" + c.snippet));
    }

    method RestoreChunks(es: seq<Entry>)
      requires Valid()
      modifies this`chunks, bm
      ensures Valid()
      ensures chunks == old(chunks) + Rows(es) && bm.docs.Keys == old(bm.docs.Keys) + Rows(es).Keys
    {
      hide Projection.Valid, Rows;
      NoRows();
      assert es[..0] == [];
      for i := 0 to |es|
        invariant Valid()
        invariant chunks == old(chunks) + Rows(es[..i]) && bm.docs.Keys == old(bm.docs.Keys) + Rows(es[..i]).Keys
      {
        RowsStep(es, i);
        MirrorChunk(es[i].id, es[i].row);
      }
      assert es[..|es|] == es;
    }

    method ActivateVersions(vs: seq<Activation>)
      requires Valid()
      modifies this`active, this`versioned
      ensures Valid()
      ensures active == ActiveRows(vs) && versioned
    {
      versioned := true;
      active := map[];
      for i := 0 to |vs|
        invariant versioned && active == ActiveRows(vs[..i])
      {
        assert vs[..i + 1][..i] == vs[..i];
        active := active[vs[i].doc := vs[i].version];
      }
      assert vs[..|vs|] == vs;
    }

    method SetEmbeddingSpace(space: string, dimension: nat)
      requires Valid()
      modifies this`space, this`dimension
      ensures Valid()
      ensures this.space == space && this.dimension == dimension
    {
      this.space, this.dimension := space, dimension;
    }

    method DropChunk(id: ChunkId)
      requires Valid()
      modifies this`chunks, bm
      ensures Valid() && chunks == old(chunks) - {id} && bm.docs == old(bm.docs) - {id}
    {
      hide Bm25.Rebuilt, Bm25.DocOk, Bm25.CountsOf;
      chunks := chunks - {id};
      bm.Remove(id);
    }

    /** Walks over the chunks while it deletes from them and from the index: exactly the chunks of the version go from both. */
    method DeleteVersion(v: VersionId)
      requires Valid()
      modifies this`chunks, bm
      ensures Valid() && Value() == Unmirror(old(Value()), v)
      ensures chunks == map c | c in old(chunks) && old(chunks)[c].chunk.version != v :: old(chunks)[c]
      ensures bm.docs == map c | c in old(bm.docs) && !(c in old(chunks) && old(chunks)[c].chunk.version == v) :: old(bm.docs)[c]
    {
      hide Projection.Valid;
      var ids := Elements(chunks.Keys);
      ghost var was, docs := Value(), bm.docs;
      ghost var gone: set<ChunkId> := {};
      for i := 0 to |ids|
        invariant Valid() && chunks == was.chunks - gone && bm.docs == docs - gone
        invariant forall c :: c in gone <==> c in ids[..i] && c in was.chunks && was.chunks[c].chunk.version == v
      {
        var id := ids[i];
        assert ids[..i + 1] == ids[..i] + [id];
        if id in chunks && chunks[id].chunk.version == v {
          DropChunk(id);
          gone := gone + {id};
        }
      }
      assert ids[..|ids|] == ids;
      assert gone == set c | c in was.chunks && was.chunks[c].chunk.version == v;
    }
  }

  // ---------------------------------------------------- the lists of a restore

  function EntriesOf(v: VersionId, chunks: seq<Chunk>, environment: string): seq<Entry> {
    seq(|chunks|, i requires 0 <= i < |chunks| => Entry(ChunkId(v, i), Mirrored(chunks[i], environment)))
  }

  ghost function MirroredRows(v: VersionId, chunks: seq<Chunk>, environment: string): map<ChunkId, Mirrored> {
    map i | 0 <= i < |chunks| :: ChunkId(v, i) := Mirrored(chunks[i], environment)
  }

  lemma {:induction false} RowsOfVersion(v: VersionId, chunks: seq<Chunk>, environment: string)
    ensures Rows(EntriesOf(v, chunks, environment)) == MirroredRows(v, chunks, environment)
    decreases |chunks|
  {
    if chunks != [] {
      var init := chunks[..|chunks| - 1];
      RowsOfVersion(v, init, environment);
      var es := EntriesOf(v, chunks, environment);
      assert es[..|es| - 1] == EntriesOf(v, init, environment);
    }
  }

  lemma {:induction false} RowsOfSum(a: seq<Entry>, b: seq<Entry>)
    ensures Rows(a + b) == Rows(a) + Rows(b)
    decreases |b|
  {
    if b == [] {
      assert a + b == a;
    } else {
      RowsOfSum(a, b[..|b| - 1]);
      assert (a + b)[..|a + b| - 1] == a + b[..|b| - 1];
    }
  }

  /** The projection of the documents in `done`. */
  ghost function ActiveOf(sql: Sql, space: string, done: set<Id>): map<Id, ActiveVersion> {
    map d | d in done && d in sql.docs && Live(sql, space, d) :: ActiveVersion(sql.docs[d].active.value, space)
  }

  ghost function ChunksOfDone(sql: Sql, space: string, done: set<Id>): map<ChunkId, Mirrored> {
    map c | c in LiveIds(sql, space) && c.version.doc in done :: LiveChunk(sql, c)
  }

  lemma NothingDone(sql: Sql, space: string)
    ensures ActiveOf(sql, space, {}) == map[] && ChunksOfDone(sql, space, {}) == map[]
  {
  }

  lemma AllDone(sql: Sql, space: string)
    requires SqlOk(sql)
    ensures ActiveOf(sql, space, sql.docs.Keys) == LiveActive(sql, space)
    ensures ChunksOfDone(sql, space, sql.docs.Keys) == LiveChunks(sql, space)
  {
    hide SqlOk;
    forall c ensures c in LiveIds(sql, space) ==> c.version.doc in sql.docs { LiveIdsAre(sql, space, c); }
  }

  lemma IdleDone(sql: Sql, space: string, done: set<Id>, d: Id)
    requires SqlOk(sql) && !Live(sql, space, d)
    ensures ActiveOf(sql, space, done + {d}) == ActiveOf(sql, space, done)
    ensures ChunksOfDone(sql, space, done + {d}) == ChunksOfDone(sql, space, done)
  {
    hide SqlOk, Live;
    forall c ensures c in LiveIds(sql, space) ==> c.version.doc != d { LiveIdsAre(sql, space, c); }
  }

  lemma LiveActiveDone(sql: Sql, space: string, done: set<Id>, d: Id)
    requires Live(sql, space, d) && d !in done
    ensures ActiveOf(sql, space, done + {d}) == ActiveOf(sql, space, done)[d := ActiveVersion(sql.docs[d].active.value, space)]
  {
  }

  lemma LiveChunksDone(sql: Sql, space: string, done: set<Id>, d: Id)
    requires SqlOk(sql) && Live(sql, space, d) && d !in done
    ensures var v := sql.docs[d].active.value;
            ChunksOfDone(sql, space, done + {d}) ==
            ChunksOfDone(sql, space, done) + MirroredRows(v, sql.versions[v].chunks, sql.docs[d].environment)
  {
    hide SqlOk, ChunksOf, LiveIds;
    var v := sql.docs[d].active.value;
    OwnVersion(sql, d);
    var rows := MirroredRows(v, sql.versions[v].chunks, sql.docs[d].environment);
    forall c ensures c in LiveIds(sql, space) && c.version.doc == d <==> c in rows {
      LiveIdsAre(sql, space, c);
      MirroredAt(v, sql.versions[v].chunks, sql.docs[d].environment, c);
    }
    forall c | c in rows ensures rows[c] == LiveChunk(sql, c) {
      MirroredAt(v, sql.versions[v].chunks, sql.docs[d].environment, c);
    }
    hide MirroredRows, Live;
  }

  lemma MirroredAt(v: VersionId, chunks: seq<Chunk>, environment: string, c: ChunkId)
    ensures c in MirroredRows(v, chunks, environment) <==> c.version == v && c.index < |chunks|
    ensures c in MirroredRows(v, chunks, environment) ==> MirroredRows(v, chunks, environment)[c] == Mirrored(chunks[c.index], environment)
  {
    if c.version == v && c.index < |chunks| { assert c == ChunkId(v, c.index); }
  }

  lemma OwnVersion(sql: Sql, d: Id)
    requires SqlOk(sql) && d in sql.docs && sql.docs[d].active.Some?
    ensures sql.docs[d].active.value.doc == d && sql.docs[d].active.value in sql.versions
  {
    assert DocOk(sql, d);
  }

  class Service {
    const rag: Projection
    var space: string
    var docs: map<Id, Document>
    var versions: map<VersionId, Version>
    var chunks: map<ChunkId, Chunk>
    var keys: map<KeyId, KeyRow>
    var cleanups: map<CleanupId, bool>

    ghost function Facts(): Sql
      reads this
    {
      Sql(docs, versions, chunks, keys, cleanups)
    }

    ghost function Current(): State
      reads this, rag, rag.bm
    {
      State(Facts(), rag.Value(), space)
    }

    ghost predicate Valid()
      reads this, rag, rag.bm
    {
      StateOk(Current()) && rag.Valid()
    }

    constructor (rag: Projection)
      requires rag.Valid() && rag.Value() == EmptyRag
      ensures this.rag == rag && Valid() && Current() == State(EmptySql, EmptyRag, "unavailable")
    {
      this.rag := rag;
      space, docs, versions, chunks, keys, cleanups := "unavailable", map[], map[], map[], map[], map[];
    }

    /** Reads the facts first and then changes the projection. */
    method RestoreProjection(f: Fault) returns (out: Outcome)
      requires SqlOk(Facts()) && rag.Valid()
      modifies rag, rag.bm
      ensures rag.Valid()
      ensures Current() == old(Restore(Current(), f)).0 && out == old(Restore(Current(), f)).1
    {
      hide Projection.Valid, SqlOk, LiveIds, LiveChunks, LiveActive, ActiveOf, ChunksOfDone, MirroredRows, EntriesOf, Rows;
      if f.RestoreFault? {
        return Error;
      }
      var active: seq<Activation>, list: seq<Entry> := [], [];
      var order := Elements(docs.Keys);
      ghost var sql := Facts();
      NothingDone(sql, space);
      NoRows();
      assert Members(order[..0]) == {};
      for i := 0 to |order|
        invariant rag.Valid() && rag.Value() == old(rag.Value())
        invariant ActiveRows(active) == ActiveOf(sql, space, Members(order[..i]))
        invariant Rows(list) == ChunksOfDone(sql, space, Members(order[..i]))
      {
        MembersStep(order, i);
        var d := order[i];
        var doc := docs[d];
        if doc.deletedAt.Some? || doc.active.None? {
          IdleDone(sql, space, Members(order[..i]), d);
          continue;
        }
        OwnVersion(sql, d);
        var v := versions[doc.active.value];
        if v.status != Active || v.space != space {
          IdleDone(sql, space, Members(order[..i]), d);
          continue;
        }
        LiveActiveDone(sql, space, Members(order[..i]), d);
        LiveChunksDone(sql, space, Members(order[..i]), d);
        RowsOfVersion(doc.active.value, v.chunks, doc.environment);
        RowsOfSum(list, EntriesOf(doc.active.value, v.chunks, doc.environment));
        ActivateMore(active, Activation(d, ActiveVersion(doc.active.value, v.space)));
        active := active + [Activation(d, ActiveVersion(doc.active.value, v.space))];
        list := list + EntriesOf(doc.active.value, v.chunks, doc.environment);
      }
      AllDone(sql, space);
      assert Members(order[..|order|]) == docs.Keys;
      rag.RestoreChunks(list);
      rag.ActivateVersions(active);
      out := Ok;
    }

    /** Index the chunks of a version; they are mirrored together at the end, without an environment. */
    method IndexVersion(v: VersionId, source: string, fails: bool) returns (ok: bool, list: seq<Chunk>)
      requires TrimSpace(v.content) != "" && v.space == space && rag.Valid()
      modifies rag, rag.bm
      ensures rag.Valid()
      ensures ok <==> !fails && !old(IndexRefused(Current(), v))
      ensures list == if ok then ChunksOf(v, source) else []
      ensures rag.Value() == if ok then Mirror(old(rag.Value()), v, ChunksOf(v, source)) else old(rag.Value())
    {
      hide Snippets, TrimSpace, EntriesOf, MirroredRows;
      SnippetsExist(v.content);
      if v.space == "" {
        return false, [];
      }
      var snippets := Snippets(v.content);
      if |snippets| > 512 {
        return false, [];
      }
      list := [];
      for i := 0 to |snippets|
        invariant list == ChunksOf(v, source)[..i]
        invariant i > 0 ==> !fails && (rag.space == "" || rag.space == v.space)
      {
        if fails || (rag.space != "" && rag.space != v.space) {
          return false, [];
        }
        list := list + [Chunk(v, v.doc, v.title, snippets[i], source, v.space)];
      }
      assert list == ChunksOf(v, source);
      RowsOfVersion(v, list, "");
      MirrorIsRows(old(rag.Value()), v, list);
      rag.RestoreChunks(EntriesOf(v, list, ""));
      ok := true;
    }

    /** The publishing transaction. */
    method PublishVersion(q: PutRequest, t: Target, v: VersionId, list: seq<Chunk>) returns (ok: bool)
      requires t.id in docs && v in versions && list == ChunksOf(v, q.source)
      modifies this`docs, this`versions, this`chunks, this`keys
      ensures ok <==> !old(TitleTaken(docs, t.id, docs[t.id].source, t.title))
      ensures Facts() == if ok then old(Publish(Facts(), q, t, v)) else old(Facts())
    {
      hide ChunksOf, TitleTaken, ChunkRows, ToLower;
      ghost var sql := Facts();
      var versions0 := versions;
      var d := docs[t.id];
      if d.active.Some? && d.active.value in versions {
        versions := versions[d.active.value := versions[d.active.value].(status := Superseded)];
      }
      versions := versions[v := versions0[v].(status := Active, index := Indexed, chunks := list)];
      if TitleTaken(docs, t.id, d.source, t.title) {
        versions := versions0;
        return false;
      }
      d := d.(active := Some(v), deletedAt := None, index := Indexed);
      d := d.(title := t.title, environment := t.environment);
      docs := docs[t.id := d];
      InsertChunks(v, list);
      if q.key != "" {
        keys := keys[t.keyId := KeyRow(t.body, v)];
      }
      ok := true;
    }

    /** INSERT OR IGNORE INTO chunks */
    method InsertChunks(v: VersionId, list: seq<Chunk>)
      modifies this`chunks
      ensures chunks == ChunkRows(v, list) + old(chunks)
    {
      for i := 0 to |list|
        invariant forall c :: c in chunks <==> c in old(chunks) || (c.version == v && c.index < i)
        invariant forall c | c in chunks :: chunks[c] == if c in old(chunks) then old(chunks)[c] else list[c.index]
      {
        if ChunkId(v, i) !in chunks {
          chunks := chunks[ChunkId(v, i) := list[i]];
        }
      }
      forall c ensures c in ChunkRows(v, list) <==> c.version == v && c.index < |list| {
        if c.version == v && c.index < |list| { assert c == ChunkId(v, c.index); }
      }
    }

    method RecordKey(q: PutRequest, t: Target, v: VersionId)
      modifies this`keys
      ensures Facts() == WithKey(old(Facts()), q, t, v)
    {
      if q.key != "" && t.keyId !in keys {
        keys := keys[t.keyId := KeyRow(t.body, v)];
      }
    }

    /** Stages the version, indexes it, publishes it and restores the projection. */
    method StageAndPublish(q: PutRequest, t: Target, now: int, f: Fault) returns (out: Outcome)
      requires Valid() && ReadyToStage(Current(), q, t) && TrimSpace(q.content) != ""
      modifies this, rag, rag.bm
      ensures rag.Valid()
      ensures Current() == old(PutStaged(Current(), q, t, now, f)).0 && out == old(PutStaged(Current(), q, t, now, f)).1
    {
      hide Projection.Valid, SqlOk, RagOk, Publish, ChunksOf, TrimSpace, Snippets, TitleTaken, Mirror, Restored, Stageable;
      ghost var s := Current();
      PutCommitsOk(s, q, t, now);
      if f.StageFault? {
        return Error;
      }
      var v := VersionId(t.id, q.content, t.title, t.environment, space);
      var row := Version(q.content, now, Staging, IndexPending, space, []);
      if v in versions {
        row := versions[v];
        row := row.(status := Staging);
        row := row.(index := IndexPending);
      }
      versions := versions[v := row];
      if f.KeyFault? {
        return Error;
      }
      RecordKey(q, t, v);
      if f.SourceFault? {
        return Unavailable;
      }
      var ok, list := IndexVersion(v, q.source, f.IndexFault? || f.IndexSaveFault?);
      if !ok {
        if f.IndexSaveFault? {
          return Error;
        }
        versions := versions[v := row.(index := IndexFailed)];
        assert versions == s.sql.versions[v := row][v := row.(index := IndexFailed)];
        return Error;
      }
      if f.CommitFault? {
        return Error;
      }
      ok := PublishVersion(q, t, v, list);
      if !ok {
        return Error;
      }
      out := RestoreProjection(f);
    }

    method PutDocument(q: PutRequest, now: int, f: Fault) returns (out: Outcome)
      requires Valid()
      modifies this, rag, rag.bm
      ensures Valid()
      ensures Current() == old(Put(Current(), q, now, f)).0 && out == old(Put(Current(), q, now, f)).1
    {
      hide Projection.Valid, SqlOk, RagOk, TrimSpace, ToLower, PutStaged, Restored, TitleTaken, Stageable;
      ghost var s := Current();
      PutOk(s, q, now, f);
      var title := TrimSpace(q.title);
      if title == "" || |title| > 512 || TrimSpace(q.content) == "" || |q.content| > 512 * 1024 {
        return Invalid;
      }
      if q.source != "upload" && q.source != "demo" {
        return Invalid;
      }
      var environment := q.environment;
      if environment == "" {
        environment := "unknown";
      }
      var id := q.id;
      if id == "" {
        id := "doc_local:" + q.source + ":" + ToLower(title);
      }
      var body := Body(id, title, q.content, q.source, environment);
      var scope := "document:" + id;
      if q.id == "" {
        scope := "document:create";
      }
      var keyId := KeyId(scope, q.key);
      var t := Target(id, title, environment, body, keyId);
      if f.ReadFault? {
        return Error;
      }
      if q.key != "" && keyId in keys {
        if keys[keyId].body != body {
          return Conflict;
        }
        if id !in docs || keys[keyId].version !in versions {
          return Error;
        }
        var v := versions[keys[keyId].version];
        if (v.status == Active || v.status == Superseded) && v.index == Indexed {
          out := RestoreProjection(f);
          return;
        }
      }
      out := PutUnkeyed(q, t, now, f);
    }

    /** An identical retransmission records its key and restores. */
    method Retransmit(q: PutRequest, t: Target, current: VersionId, f: Fault) returns (out: Outcome)
      requires Valid()
      modifies this, rag, rag.bm
      ensures rag.Valid()
      ensures var (s, o) := if f.KeyFault? then (old(Current()), Error)
                            else Restore(old(Current()).(sql := WithKey(old(Facts()), q, t, current)), f);
              Current() == s && out == o
    {
      hide Projection.Valid, SqlOk, RagOk, Restored, WithKey;
      if f.KeyFault? {
        return Error;
      }
      KeyOk(Facts(), q, t, current);
      RecordKey(q, t, current);
      out := RestoreProjection(f);
    }

    /** A document that is not known yet gets its row first. */
    method CreateAndStage(q: PutRequest, t: Target, now: int, f: Fault) returns (out: Outcome)
      requires Valid() && TrimSpace(q.content) != "" && t.id !in docs
      modifies this, rag, rag.bm
      ensures rag.Valid()
      ensures var d := Document(t.title, q.source, t.environment, None, None, IndexPending);
              var s := old(Current()).(sql := old(Facts()).(docs := old(docs)[t.id := d]));
              Current() == PutStaged(s, q, t, now, f).0 && out == PutStaged(s, q, t, now, f).1
    {
      hide Projection.Valid, SqlOk, RagOk, TrimSpace, PutStaged;
      InsertDocOk(Facts(), t.id, Document(t.title, q.source, t.environment, None, None, IndexPending));
      docs := docs[t.id := Document(t.title, q.source, t.environment, None, None, IndexPending)];
      out := StageAndPublish(q, t, now, f);
    }

    /** The compare-and-swap, past the recognition of the idempotency key. */
    method PutUnkeyed(q: PutRequest, t: Target, now: int, f: Fault) returns (out: Outcome)
      requires Valid() && TrimSpace(q.content) != ""
      modifies this, rag, rag.bm
      ensures rag.Valid()
      ensures Current() == old(PutFresh(Current(), q, t, now, f)).0 && out == old(PutFresh(Current(), q, t, now, f)).1
    {
      hide Projection.Valid, SqlOk, RagOk, TrimSpace, ToLower, PutStaged, Restore, WithKey, TitleTaken, Stageable;
      ghost var s := Current();
      if t.id !in docs {
        if q.expected.Some? {
          return Conflict;
        }
        if TitleTaken(docs, t.id, q.source, t.title) {
          return Error;
        }
        out := CreateAndStage(q, t, now, f);
        return;
      } else {
        var d := docs[t.id];
        if d.source != q.source {
          return Conflict;
        }
        if q.expected.Some? && (d.active.None? || q.expected.value != d.active.value) {
          return Conflict;
        }
        if q.expected.None? && d.active.Some? {
          if d.active.value !in versions {
            return Error;
          }
          if versions[d.active.value].content != q.content || d.title != t.title || d.environment != t.environment {
            return Conflict;
          }
        }
        if d.active.Some? {
          if d.active.value !in versions {
            return Error;
          }
          if versions[d.active.value].content == q.content && d.deletedAt.None? && d.title == t.title && d.environment == t.environment {
            out := Retransmit(q, t, d.active.value, f);
            return;
          }
        }
        AdmittedIsReady(s, q, t);
      }
      out := StageAndPublish(q, t, now, f);
    }

    method DeleteDocument(id: Id, expected: Option<VersionId>, now: int, f: Fault) returns (out: Outcome)
      requires Valid()
      modifies this, rag, rag.bm
      ensures Valid()
      ensures Current() == old(Delete(Current(), id, expected, now, f)).0 && out == old(Delete(Current(), id, expected, now, f)).1
    {
      hide Projection.Valid, SqlOk, RagOk, Restored;
      ghost var s := Current();
      DeleteOk(s, id, expected, now, f);
      if f.ReadFault? || id !in docs {
        return Error;
      }
      var d := docs[id];
      if d.active.None? || expected.None? || expected.value != d.active.value {
        return Conflict;
      }
      d := d.(deletedAt := Some(now), index := CleanupPending);
      var job := CleanupId(id, expected.value, now);
      if f.CommitFault? || job in cleanups {
        return Error;
      }
      DeleteOk(s, id, expected, now, RestoreFault);
      docs := docs[id := d];
      cleanups := cleanups[job := false];
      out := RestoreProjection(f);
    }

    /**
     A job whose version is served again only marks itself done. Otherwise success means that the version's chunks are
     gone from the mirror and the index, and nothing else is.
     */
    method DispatchCleanup(job: CleanupId, f: Fault) returns (out: Outcome)
      requires Valid()
      modifies this, rag, rag.bm
      ensures Valid()
      ensures Current() == old(Cleanup(Current(), job, f)).0 && out == old(Cleanup(Current(), job, f)).1
      ensures out == Ok && !(old(docs)[job.doc].deletedAt.None? && old(docs)[job.doc].active == Some(job.version)) ==>
                && rag.chunks == (map c | c in old(rag.chunks) && c.version != job.version :: old(rag.chunks)[c])
                && rag.bm.docs == (map c | c in old(rag.bm.docs) && c.version != job.version :: old(rag.bm.docs)[c])
      ensures out == Ok ==> job in cleanups && cleanups[job]
    {
      hide Projection.Valid, SqlOk, RagOk, Unmirror;
      CleanupOk(Current(), job, f);
      if f.ReadFault? || job !in cleanups || job.doc !in docs {
        return Error;
      }
      var d := docs[job.doc];
      var active := d.deletedAt.None? && d.active.Some? && d.active.value == job.version;
      if !active {
        if f.SourceFault? {
          return Error;
        }
        ChunksAreTheirVersions(rag.Value(), rag.bm.docs, job.version);
        rag.DeleteVersion(job.version);
      }
      if f.CommitFault? {
        return Error;
      }
      if !active && d.deletedAt.Some? && d.active.Some? && d.active.value == job.version {
        docs := docs[job.doc := d.(index := Removed)];
      }
      cleanups := cleanups[job := true];
      out := Ok;
    }

    method ProbeRetrieval(found: string, dimension: nat, f: Fault) returns (out: Outcome)
      requires Valid()
      modifies this, rag, rag.bm
      ensures Valid()
      ensures Current() == old(Probe(Current(), found, dimension, f)).0 && out == old(Probe(Current(), found, dimension, f)).1
    {
      hide Projection.Valid, SqlOk, RagOk, LiveChunks, LiveActive;
      ProbeOk(Current(), found, dimension, f);
      var existing := space;
      if f.ReadFault? {
        return Error;
      }
      if existing != found && existing != "" && existing != "unavailable" {
        return Conflict;
      }
      if f.SourceFault? {
        return Error;
      }
      if existing == found {
        return Ok;
      }
      space := found;
      rag.SetEmbeddingSpace(found, dimension);
      out := RestoreProjection(f);
      if out != Ok {
        space := existing;
        rag.SetEmbeddingSpace(existing, 0);
      }
    }
  }

  lemma ChunksAreTheirVersions(rag: Rag, docs: map<ChunkId, Bm25.Doc>, v: VersionId)
    requires RagOk(rag) && rag.bm25 == docs.Keys
    ensures (map c | c in rag.chunks && rag.chunks[c].chunk.version != v :: rag.chunks[c]) ==
            (map c | c in rag.chunks && c.version != v :: rag.chunks[c])
    ensures (map c | c in docs && !(c in rag.chunks && rag.chunks[c].chunk.version == v) :: docs[c]) ==
            (map c | c in docs && c.version != v :: docs[c])
  {
  }

  lemma RowsStep(es: seq<Entry>, i: nat)
    requires i < |es|
    ensures Rows(es[..i + 1]) == Rows(es[..i])[es[i].id := es[i].row]
  {
    assert es[..i + 1][..i] == es[..i];
  }

  lemma NoRows()
    ensures Rows([]) == map[] && ActiveRows([]) == map[]
  {
  }

  lemma ActivateMore(vs: seq<Activation>, a: Activation)
    ensures ActiveRows(vs + [a]) == ActiveRows(vs)[a.doc := a.version]
  {
    assert (vs + [a])[..|vs|] == vs;
  }

  lemma MirrorIsRows(rag: Rag, v: VersionId, list: seq<Chunk>)
    ensures Mirror(rag, v, list) ==
            rag.(chunks := rag.chunks + MirroredRows(v, list, ""), bm25 := rag.bm25 + MirroredRows(v, list, "").Keys)
  {
    assert (map i | 0 <= i < |list| :: ChunkId(v, i) := Mirrored(list[i], "")) == MirroredRows(v, list, "");
  }
}
