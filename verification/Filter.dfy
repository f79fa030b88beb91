/**
 Dense and sparse retrieval accept the same chunks: the payload filter sent to the vector store,
 interpreted by the in-memory store, against the eligibility test of the BM25 mirror.
 */
module Filter {

  datatype Point = Point(id: string, doc: string, version: string, space: string, source: string)

  datatype ChunkPayload = ChunkPayload(doc: string, version: string, space: string)

  datatype ActivePayload = ActivePayload(doc: string, version: string, space: string)

  /** A condition is a match on one payload key, or a nested filter. */
  datatype Cond = Match(key: string, value: string) | Nested(filter: Filter)

  datatype Clause = Missing | Conds(conds: seq<Cond>)

  datatype Filter = Filter(mustNot: Clause, must: Clause, should: Clause)

  function Payload(p: Point, key: string): string {
    match key
    case "source" => p.source
    case "version_id" => p.version
    case "space_id" => p.space
    case "doc_id" => p.doc
    case _ => ""
  }

  predicate Check(p: Point, c: Cond)
    decreases c
  {
    match c
    case Match(key, value) => Payload(p, key) == value
    case Nested(f) => Accepts(p, f)
  }

  /** matchesFilter: nothing excluded, everything required, and one of the alternatives where there are any. */
  predicate Accepts(p: Point, f: Filter)
    decreases f
  {
    && (f.mustNot.Conds? ==> forall i | 0 <= i < |f.mustNot.conds| :: !Check(p, f.mustNot.conds[i]))
    && (f.must.Conds? ==> forall i | 0 <= i < |f.must.conds| :: Check(p, f.must.conds[i]))
    && (f.should.Conds? ==> exists i | 0 <= i < |f.should.conds| :: Check(p, f.should.conds[i]))
  }

  datatype Payloads = Payloads(chunks: map<string, ChunkPayload>, active: map<string, ActivePayload>, versioned: bool)

  const NoActiveVersion := "__no_active_version__"

  function OneActive(v: ActivePayload): Cond {
    Nested(Filter(Missing, Conds([Match("version_id", v.version), Match("doc_id", v.doc), Match("space_id", v.space)]), Missing))
  }

  function Alternatives(active: seq<ActivePayload>): seq<Cond> {
    if active == [] then [Match("version_id", NoActiveVersion)]
    else seq(|active|, i requires 0 <= i < |active| => OneActive(active[i]))
  }

  /** `listed` is the active map in the order it happens to be iterated. */
  function CurrentFilter(versioned: bool, listed: seq<ActivePayload>): Filter {
    var excluded := Conds([Match("source", "incident"), Match("source", "space_metadata")]);
    if versioned then Filter(excluded, Missing, Conds(Alternatives(listed)))
    else Filter(excluded, Conds([Match("version_id", "")]), Missing)
  }

  predicate Eligible(r: Payloads, id: string, source: string) {
    if source == "incident" || source == "space_metadata" then false
    else if id !in r.chunks then !r.versioned
    else
      var c := r.chunks[id];
      c.doc in r.active && r.active[c.doc].version == c.version && r.active[c.doc].space == c.space
  }

  /** What ActivateVersions builds: entries under their own document, none before the first activation. */
  ghost predicate PayloadsOk(r: Payloads) {
    && (forall d | d in r.active :: r.active[d].doc == d && r.active[d].version != "")
    && (!r.versioned ==> r.active == map[])
    && (forall id | id in r.chunks :: r.chunks[id].version != "")
  }

  /** The iteration lists every entry of the active map. */
  ghost predicate Lists(r: Payloads, listed: seq<ActivePayload>) {
    && (forall i | 0 <= i < |listed| :: listed[i].doc in r.active && r.active[listed[i].doc] == listed[i])
    && (forall d | d in r.active :: r.active[d] in listed)
  }

  /** The chunk map mirrors the point: a versioned point is known with its own payload, others are unknown. */
  ghost predicate Mirrors(r: Payloads, p: Point) {
    if p.id in r.chunks then r.chunks[p.id] == ChunkPayload(p.doc, p.version, p.space) else p.version == ""
  }

  lemma OneActiveAccepts(p: Point, v: ActivePayload)
    ensures Check(p, OneActive(v)) <==> p.version == v.version && p.doc == v.doc && p.space == v.space
  {
    var conds := [Match("version_id", v.version), Match("doc_id", v.doc), Match("space_id", v.space)];
    var f := Filter(Missing, Conds(conds), Missing);
    assert Check(p, OneActive(v)) <==> Accepts(p, f);
    assert Check(p, conds[0]) <==> p.version == v.version;
    assert Check(p, conds[1]) <==> p.doc == v.doc;
    assert Check(p, conds[2]) <==> p.space == v.space;
  }

  lemma SourcesExcluded(p: Point, f: Filter)
    requires f.mustNot == Conds([Match("source", "incident"), Match("source", "space_metadata")])
    ensures (forall i | 0 <= i < 2 :: !Check(p, f.mustNot.conds[i])) <==> p.source != "incident" && p.source != "space_metadata"
  {
    assert Check(p, f.mustNot.conds[0]) <==> p.source == "incident";
    assert Check(p, f.mustNot.conds[1]) <==> p.source == "space_metadata";
  }

  /**
   Dense and sparse retrieval accept the same points, before versioning and after it, whether or not anything
   is active, exactly when no mirrored point carries the placeholder that stands for an empty active set.
   */
  lemma DenseAgreesWithSparse(r: Payloads, listed: seq<ActivePayload>, p: Point)
    requires PayloadsOk(r) && Lists(r, listed) && Mirrors(r, p)
    ensures (Accepts(p, CurrentFilter(r.versioned, listed)) <==> Eligible(r, p.id, p.source)) <==>
            !(r.versioned && r.active == map[] && p.version == NoActiveVersion &&
              p.source != "incident" && p.source != "space_metadata")
  {
    var f := CurrentFilter(r.versioned, listed);
    SourcesExcluded(p, f);
    if !r.versioned {
      assert Check(p, f.must.conds[0]) <==> p.version == "";
    } else if listed == [] {
      assert Check(p, f.should.conds[0]) <==> p.version == NoActiveVersion;
      assert r.active == map[];
    } else {
      assert listed[0].doc in r.active;
      forall i | 0 <= i < |listed|
        ensures Check(p, f.should.conds[i]) <==> p.version == listed[i].version && p.doc == listed[i].doc && p.space == listed[i].space
      {
        OneActiveAccepts(p, listed[i]);
      }
      AlternativeMatches(r, listed, p);
    }
  }

  lemma AlternativeMatches(r: Payloads, listed: seq<ActivePayload>, p: Point)
    requires PayloadsOk(r) && Lists(r, listed) && Mirrors(r, p)
    requires r.versioned
    ensures (exists i | 0 <= i < |listed| :: p.version == listed[i].version && p.doc == listed[i].doc && p.space == listed[i].space)
            <==> p.id in r.chunks && p.doc in r.active && r.active[p.doc].version == p.version && r.active[p.doc].space == p.space
  {
    if p.doc in r.active {
      assert r.active[p.doc] in listed;
    }
  }

  /** The version ids the service makes: a prefix and hexadecimal digits. Points without a version have none. */
  predicate ServiceVersion(version: string) {
    version == "" || (|version| >= 4 && version[..4] == "ver_")
  }

  /** For the ids the service makes, dense and sparse retrieval accept the same points without exception. */
  lemma ServiceIdsAgree(r: Payloads, listed: seq<ActivePayload>, p: Point)
    requires PayloadsOk(r) && Lists(r, listed) && Mirrors(r, p) && ServiceVersion(p.version)
    ensures Accepts(p, CurrentFilter(r.versioned, listed)) <==> Eligible(r, p.id, p.source)
  {
    hide Accepts, Eligible, CurrentFilter, PayloadsOk, Lists, Mirrors;
    DenseAgreesWithSparse(r, listed, p);
    assert NoActiveVersion[..4] != "ver_" by { assert NoActiveVersion[0] == '_'; }
  }

  /** The exception is real: a version named like the placeholder is found by dense retrieval alone. */
  lemma PlaceholderLeaks()
    ensures var r := Payloads(map["c" := ChunkPayload("d", NoActiveVersion, "s")], map[], true);
            var p := Point("c", "d", NoActiveVersion, "s", "upload");
            PayloadsOk(r) && Lists(r, []) && Mirrors(r, p) && Accepts(p, CurrentFilter(true, [])) && !Eligible(r, p.id, p.source)
  {
    var p := Point("c", "d", NoActiveVersion, "s", "upload");
    var f := CurrentFilter(true, []);
    SourcesExcluded(p, f);
    assert Check(p, f.should.conds[0]);
  }
}
