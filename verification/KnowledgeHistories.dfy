/**
 Concrete histories of a new service: a delete that loses its restore, and a put that fails while it reactivates.
 */
module KnowledgeHistories {
  import opened Records
  import opened Text
  import opened Knowledge
  import opened KnowledgeInvariants
  import opened Projection
  import opened Sync

  const Request := PutRequest("d", "t", "c", "upload", "", None, "")
  const Version1 := VersionId("d", "c", "t", "unknown", "space")

  const Begin := RestartOp("space", 1, NoFault)
  const Publish1 := PutOp(Request, 0, NoFault)

  lemma RequestIsValid()
    ensures ValidPut(Request)
    ensures TargetOf(Request) == Target("d", "t", "unknown", Body("d", "t", "c", "upload", "unknown"), KeyId("document:d", ""))
  {
    assert TrimLeft("t") == "t" && TrimRight("t") == "t" && TrimLeft("c") == "c" && TrimRight("c") == "c";
  }

  /** The service found its embedding space and has no documents. */
  ghost predicate Started(s: State) {
    s.sql == EmptySql && s.space == "space" && s.rag.space == "space"
  }

  lemma BeginStarts()
    ensures Started(Apply(NewService, Begin).0)
  {
    hide LiveChunks, LiveActive;
  }

  /** The document is published and not deleted, as `deleted` says, with no cleanups but those of the delete. */
  ghost predicate Stored(s: State, deleted: bool) {
    && StateOk(s) && s.space == "space" && s.rag.space == "space" && s.sql.keys == map[]
    && s.sql.docs.Keys == {"d"} && Version1 in s.sql.versions
    && s.sql.docs["d"].active == Some(Version1) && s.sql.docs["d"].deletedAt.Some? == deleted
    && s.sql.docs["d"].source == "upload" && s.sql.docs["d"].title == "t" && s.sql.docs["d"].environment == "unknown"
    && s.sql.versions[Version1].status == Active && s.sql.versions[Version1].content == "c" && s.sql.versions[Version1].space == "space"
    && (!deleted ==> s.sql.cleanups == map[])
  }

  lemma FirstPut(s: State)
    requires Started(s) && StateOk(s)
    ensures var (s', out) := Apply(s, Publish1);
            out.Ok? && Stored(s', false) && Live(s'.sql, "space", "d")
  {
    hide TargetOf, ValidPut, LiveChunks, LiveActive, ChunksOf, ChunkRows, Snippets, SqlOk, RagOk;
    RequestIsValid();
    SnippetsBound("c");
    PutOk(s, Request, 0, NoFault);
  }

  lemma DeleteStores(s: State, f: Fault)
    requires Stored(s, false) && (f.NoFault? || f.RestoreFault?)
    ensures Stored(Apply(s, DeleteOp("d", Some(Version1), 1, f)).0, true)
    ensures CleanupId("d", Version1, 1) in Apply(s, DeleteOp("d", Some(Version1), 1, f)).0.sql.cleanups
  {
    hide LiveChunks, LiveActive, SqlOk, RagOk;
    DeleteOk(s, "d", Some(Version1), 1, f);
  }

  lemma StartOk()
    ensures StateOk(NewService) && StateOk(Apply(NewService, Begin).0)
  {
    hide SqlOk, RagOk, Apply;
    NewServiceIsRight();
    ApplyOk(NewService, Begin);
  }

  lemma ExecFirst(s: State, a: Op, rest: seq<Op>)
    ensures Exec(s, [a] + rest) == Exec(Apply(s, a).0, rest)
  {
    hide Apply;
    assert ([a] + rest)[1..] == rest;
  }

  lemma FourOps(s: State, a: Op, b: Op, c: Op, d: Op)
    ensures Exec(s, [a, b, c]) == Apply(Apply(Apply(s, a).0, b).0, c).0
    ensures Exec(s, [a, b, c, d]) == Apply(Exec(s, [a, b, c]), d).0
  {
    hide Apply, Exec;
    var s1 := Apply(s, a).0;
    var s2 := Apply(s1, b).0;
    var s3 := Apply(s2, c).0;
    assert [a, b, c, d] == [a] + [b, c, d] && [b, c, d] == [b] + [c, d] && [c, d] == [c] + [d] && [d] == [d] + [];
    assert [a, b, c] == [a] + [b, c] && [b, c] == [b] + [c] && [c] == [c] + [];
    ExecFirst(s, a, [b, c]);
    ExecFirst(s1, b, [c]);
    ExecFirst(s2, c, []);
    ExecFirst(s, a, [b, c, d]);
    ExecFirst(s1, b, [c, d]);
    ExecFirst(s2, c, [d]);
    ExecFirst(s3, d, []);
    ExecNothing(s3);
    ExecNothing(Apply(s3, d).0);
  }

  lemma ExecNothing(s: State)
    ensures Exec(s, []) == s
  {
  }

  const LostDelete := DeleteOp("d", Some(Version1), 1, RestoreFault)
  const FinalCleanup := CleanupOp(CleanupId("d", Version1, 1), NoFault)

  lemma CleanupSucceeds(s: State)
    requires Stored(s, true) && CleanupId("d", Version1, 1) in s.sql.cleanups
    ensures Apply(s, FinalCleanup).1.Ok?
  {
    hide SqlOk, RagOk, Unmirror;
  }

  /** A live document whose delete loses its restore is left wrong. */
  lemma LostDeleteDisagrees(s: State)
    requires Stored(s, false) && "d" in s.rag.active
    ensures !Agrees(Apply(s, LostDelete).0, "d")
  {
    hide SqlOk, RagOk, Apply, Agrees;
    AgreesAfter(s, LostDelete, "d");
    LostDeleteFails(s);
  }

  lemma LostDeleteFails(s: State)
    requires Stored(s, false)
    ensures !Apply(s, LostDelete).1.Ok?
  {
    hide SqlOk, RagOk, Restored;
  }

  /**
   The last operation of this history returned without error and the projection does not agree: the version of
   the deleted document is still in the active set.
   */
  lemma LostRestoreHappens()
    ensures var ops := [Begin, Publish1, LostDelete];
            && Apply(Exec(NewService, ops), FinalCleanup).1.Ok?
            && !Synced(Exec(NewService, ops + [FinalCleanup]))
  {
    hide Apply, SqlOk, RagOk, Agrees, Synced, Stored, LiveActive, Live;
    var s1 := Apply(NewService, Begin).0;
    var s2 := Apply(s1, Publish1).0;
    var s3 := Apply(s2, LostDelete).0;
    StartOk();
    BeginStarts();
    FirstPut(s1);
    AgreesAfter(s1, Publish1, "d");
    LiveIsActive(s2);
    LostDeleteDisagrees(s2);
    DeleteStores(s2, RestoreFault);
    FourOps(NewService, Begin, Publish1, LostDelete, FinalCleanup);
    assert [Begin, Publish1, LostDelete] + [FinalCleanup] == [Begin, Publish1, LostDelete, FinalCleanup];
    CleanupSucceeds(s3);
    StoredOk(s3, true);
    AgreesAfter(s3, FinalCleanup, "d");
    ApplyOk(s3, FinalCleanup);
    SyncedIsAgreement(Apply(s3, FinalCleanup).0);
  }

  lemma StoredOk(s: State, deleted: bool)
    requires Stored(s, deleted)
    ensures StateOk(s)
  {
  }

  lemma LiveIsActive(s: State)
    requires Live(s.sql, "space", "d") && s.rag.active == LiveActive(s.sql, s.space) && Stored(s, false)
    ensures "d" in s.rag.active
  {
    hide SqlOk, RagOk;
  }

  const FailedReput := PutOp(Request, 2, IndexFault)

  /** The put passes the compare-and-swap as an identical retransmission, and stages the version again. */
  lemma ReputStages(s: State)
    requires Stored(s, true)
    ensures Stages(s, Request, IndexFault) && Reactivates(s, Request, Version1) && !Publishes(s, Request, IndexFault)
    ensures !Apply(s, FailedReput).1.Ok?
  {
    hide TargetOf, ValidPut, SqlOk, RagOk, Snippets;
    RequestIsValid();
  }

  /**
   A put can fail and change an active version: after publish and delete, the same content put again stages the
   version, which keeps that status when indexing fails, while the document still points at it.
   */
  lemma FailedReputHappens()
    ensures var ops := [Begin, Publish1, DeleteOp("d", Some(Version1), 1, NoFault)];
            var s, s' := Exec(NewService, ops), Exec(NewService, ops + [FailedReput]);
            && !Apply(s, FailedReput).1.Ok?
            && Version1 in s.sql.versions && s.sql.versions[Version1].status == Active
            && Version1 in s'.sql.versions && s'.sql.versions[Version1].status == Staging
            && "d" in s'.sql.docs && s'.sql.docs["d"].active == Some(Version1)
  {
    hide Apply, SqlOk, RagOk, Put, Stages, Publishes, TargetOf;
    var delete := DeleteOp("d", Some(Version1), 1, NoFault);
    var s1 := Apply(NewService, Begin).0;
    var s2 := Apply(s1, Publish1).0;
    var s3 := Apply(s2, delete).0;
    StartOk();
    BeginStarts();
    FirstPut(s1);
    DeleteStores(s2, NoFault);
    FourOps(NewService, Begin, Publish1, delete, FailedReput);
    assert [Begin, Publish1, delete] + [FailedReput] == [Begin, Publish1, delete, FailedReput];
    ReputStages(s3);
    FailedPutRows(s3, Request, 2, IndexFault);
    PutIsApply(s3);
  }

  lemma PutIsApply(s: State)
    ensures Apply(s, FailedReput) == Put(s, Request, 2, IndexFault)
  {
    hide Put;
  }
}
