/** What every transaction keeps true of jobs, documents and projects. */
module LeaseInvariants {
  import opened Common
  import opened WikiMerge
  import opened Tables
  import opened IngestionStore
  import opened DeletionStores

  /** A job is running exactly while it has an owner and an expiry; its kind fixes its columns. */
  ghost predicate JobShape(j: Job) {
    && (j.status.Running? <==> j.owner.Some?)
    && (j.owner.Some? <==> j.expires.Some?)
    && (!j.kind.DeleteProjectJob? ==> j.project.Some? && j.document.Some?)
    && (j.kind.DeleteProjectJob? ==> j.document.None? && (j.project.None? ==> j.status.Succeeded?))
  }

  /** The rows a job refers to are there; a deletion job means its target is marked. */
  ghost predicate JobRefs(db: Db, j: Job) {
    && (j.document.Some? ==> j.document.value in db.documents
                             && j.project == Some(db.documents[j.document.value].project))
    && (j.project.Some? ==> j.project.value in db.projects)
    && (j.kind.DeleteDocumentJob? && j.document.Some? && j.document.value in db.documents ==>
          db.documents[j.document.value].status.Deleted?)
    && (j.kind.DeleteProjectJob? && j.project.Some? && j.project.value in db.projects ==>
          db.projects[j.project.value].status.Deleting?)
  }

  ghost predicate JobsOk(db: Db) {
    forall k :: k in db.jobs ==> k < db.nextId && JobShape(db.jobs[k]) && JobRefs(db, db.jobs[k])
  }

  ghost predicate RowsOk(db: Db) {
    && (forall d :: d in db.documents ==> d < db.nextId && db.documents[d].project in db.projects
                                          && (db.documents[d].deleted <==> db.documents[d].status.Deleted?))
    && (forall p :: p in db.projects ==> p < db.nextId)
  }

  /** An ingestion `j` that a deletion job `k` excludes. */
  predicate Conflicts(k: Job, j: Job) {
    && j.kind.IngestJob?
    && ((k.kind.DeleteDocumentJob? && k.document == j.document)
        || (k.kind.DeleteProjectJob? && k.project == j.project))
  }

  /** No ingestion runs beside the deletion of its document or of its project. */
  ghost predicate Exclusive(db: Db) {
    forall k, j :: k in db.jobs && j in db.jobs && db.jobs[k].status.Running? && db.jobs[j].status.Running?
      ==> !Conflicts(db.jobs[k], db.jobs[j])
  }

  ghost predicate NoRowsOf(chunks: map<ChunkId, Chunk>, d: Id) {
    forall id :: id in chunks ==> chunks[id].document != Some(d)
  }

  /** No page and no chunk row of document `d`. */
  ghost predicate EmptyDocument(db: Db, d: Id) {
    && (forall r :: r in db.pages ==> r.document != d)
    && NoRowsOf(db.chunks, d)
  }

  ghost predicate DeletedEmpty(db: Db) {
    forall k :: k in db.jobs && db.jobs[k].kind.DeleteDocumentJob? && db.jobs[k].status.Succeeded?
                && db.jobs[k].document.Some?
      ==> EmptyDocument(db, db.jobs[k].document.value)
  }

  /** Of the deletion jobs of one project, all but the newest have failed. */
  ghost predicate OneProjectDeletion(db: Db) {
    forall k, m :: k in db.jobs && m in db.jobs && k < m
                   && db.jobs[k].kind.DeleteProjectJob? && db.jobs[m].kind.DeleteProjectJob?
                   && db.jobs[k].project.Some? && db.jobs[k].project == db.jobs[m].project
      ==> db.jobs[k].status.Failed?
  }

  ghost predicate DbOk(db: Db) {
    && JobsOk(db) && RowsOk(db) && Exclusive(db) && DeletedEmpty(db) && OneProjectDeletion(db)
  }

  /** Sound job changes: same rows, or released ones, none of them started or reopened. */
  ghost predicate Quieter(jobs: map<Id, Job>, jobs': map<Id, Job>) {
    && jobs'.Keys == jobs.Keys
    && forall k :: k in jobs ==>
         && jobs'[k].kind == jobs[k].kind && jobs'[k].project == jobs[k].project && jobs'[k].document == jobs[k].document
         && (jobs'[k] == jobs[k]
             || (!jobs[k].status.Succeeded? && !jobs[k].status.Failed? && jobs'[k] == jobs[k].Released(jobs'[k].status)
                 && jobs'[k].status != Running
                 && (jobs'[k].status.Succeeded? ==> jobs[k].kind.IngestJob?)))
  }

  /** Sound document changes: no row appears, vanishes, moves or comes back from deletion. */
  ghost predicate SameDocuments(documents: map<Id, Document>, documents': map<Id, Document>) {
    && documents'.Keys == documents.Keys
    && forall d :: d in documents ==>
         && documents'[d].project == documents[d].project
         && documents'[d].deleted == documents[d].deleted
         && documents'[d].status.Deleted? == documents[d].status.Deleted?
  }

  /** Every transaction that only releases jobs and moves live documents along keeps the invariant. */
  lemma QuietStep(db: Db, db': Db)
    requires DbOk(db) && Quieter(db.jobs, db'.jobs) && SameDocuments(db.documents, db'.documents)
    requires db'.projects.Keys == db.projects.Keys && db'.nextId == db.nextId
    requires forall p :: p in db.projects ==> db'.projects[p].status == db.projects[p].status
    requires db'.pages <= db.pages
    requires forall id :: id in db'.chunks ==> id in db.chunks && db'.chunks[id] == db.chunks[id]
    ensures DbOk(db')
  {
    forall k | k in db'.jobs ensures k < db'.nextId && JobShape(db'.jobs[k]) && JobRefs(db', db'.jobs[k]) {
      assert JobShape(db.jobs[k]) && JobRefs(db, db.jobs[k]);
    }
    forall k, j | k in db'.jobs && j in db'.jobs && db'.jobs[k].status.Running? && db'.jobs[j].status.Running?
      ensures !Conflicts(db'.jobs[k], db'.jobs[j])
    {
      assert db'.jobs[k] == db.jobs[k] && db'.jobs[j] == db.jobs[j];
    }
    forall k | k in db'.jobs && db'.jobs[k].kind.DeleteDocumentJob? && db'.jobs[k].status.Succeeded? && db'.jobs[k].document.Some?
      ensures EmptyDocument(db', db'.jobs[k].document.value)
    {
      assert db'.jobs[k] == db.jobs[k];
      assert EmptyDocument(db, db.jobs[k].document.value);
    }
  }

  /** A claim keeps the invariant when nothing it excludes is running. */
  lemma ClaimStep(db: Db, k: Id, worker: Id, seconds: nat)
    requires DbOk(db) && k in db.jobs && db.jobs[k].Claimable(db.now)
    requires forall i :: i in db.jobs && db.jobs[i].status.Running? ==>
               !Conflicts(db.jobs[k], db.jobs[i]) && !Conflicts(db.jobs[i], db.jobs[k])
    requires db.jobs[k].kind.DeleteProjectJob? ==> db.jobs[k].project.Some?
    ensures DbOk(db.(jobs := db.jobs[k := db.jobs[k].Claimed(worker, db.now, seconds)]))
  {
    var db' := db.(jobs := db.jobs[k := db.jobs[k].Claimed(worker, db.now, seconds)]);
    forall i | i in db'.jobs ensures i < db'.nextId && JobShape(db'.jobs[i]) && JobRefs(db', db'.jobs[i]) {
      assert JobShape(db.jobs[i]) && JobRefs(db, db.jobs[i]);
    }
    forall i, j | i in db'.jobs && j in db'.jobs && db'.jobs[i].status.Running? && db'.jobs[j].status.Running?
      ensures !Conflicts(db'.jobs[i], db'.jobs[j])
    {
      if i != k && j != k {
        assert !Conflicts(db.jobs[i], db.jobs[j]);
      }
    }
    forall i | i in db'.jobs && db'.jobs[i].kind.DeleteDocumentJob? && db'.jobs[i].status.Succeeded? && db'.jobs[i].document.Some?
      ensures EmptyDocument(db', db'.jobs[i].document.value)
    {
      assert EmptyDocument(db, db.jobs[i].document.value);
    }
  }

  lemma ClaimIngestOk(db: Db, e: Event, worker: Id, seconds: nat)
    requires DbOk(db)
    ensures DbOk(ClaimIngest(db, e, worker, seconds))
  {
    if IngestClaimable(db, e) {
      var d := db.documents[e.document];
      var db1 := db.(documents := db.documents[e.document := d.(status := Parsing)]);
      QuietStep(db, db1);
      forall i | i in db1.jobs && db1.jobs[i].status.Running?
        ensures !Conflicts(db1.jobs[e.job], db1.jobs[i]) && !Conflicts(db1.jobs[i], db1.jobs[e.job])
      {
        assert JobRefs(db, db.jobs[i]);
      }
      ClaimStep(db1, e.job, worker, seconds);
      assert ClaimIngest(db, e, worker, seconds)
          == db1.(jobs := db1.jobs[e.job := db1.jobs[e.job].Claimed(worker, db1.now, seconds)]);
    }
  }

  lemma ReplaceContentOk(db: Db, rec: Record, worker: Id, pages: seq<string>, chunks: seq<string>,
                         wiki: Option<seq<Compiled>>, base: nat, recovered: Option<nat>)
    requires DbOk(db) && rec.IngestionRecord? && CommitRunnable(db, rec, worker)
    requires db.jobs[rec.job].document == Some(rec.document)
    ensures DbOk(ReplaceContent(db, rec, worker, pages, chunks, wiki, base, recovered).value)
  {
    var db' := ReplaceContent(db, rec, worker, pages, chunks, wiki, base, recovered).value;
    var db1 := db.(projects := db'.projects, documents := db'.documents);
    QuietStep(db, db1);
    forall k | k in db'.jobs && db'.jobs[k].kind.DeleteDocumentJob? && db'.jobs[k].status.Succeeded? && db'.jobs[k].document.Some?
      ensures EmptyDocument(db', db'.jobs[k].document.value)
    {
      var d := db'.jobs[k].document.value;
      assert JobRefs(db, db.jobs[k]);
      assert d != rec.document;
      assert EmptyDocument(db, d);
      CommitLeavesOthersEmpty(db, rec, chunks, wiki, base, recovered, d);
    }
    forall k | k in db'.jobs ensures k < db'.nextId && JobShape(db'.jobs[k]) && JobRefs(db', db'.jobs[k]) {
      assert JobShape(db1.jobs[k]) && JobRefs(db1, db1.jobs[k]);
    }
  }

  lemma CommitLeavesOthersEmpty(db: Db, rec: Record, chunks: seq<string>, wiki: Option<seq<Compiled>>,
                                base: nat, recovered: Option<nat>, d: Id)
    requires rec.IngestionRecord? && rec.project in db.projects && d != rec.document
    requires NoRowsOf(db.chunks, d)
    ensures NoRowsOf(CommitChunks(db, rec, chunks, wiki, base, recovered), d)
  {
    var p := db.projects[rec.project];
    var rows := RawRows(rec.project, rec.document, chunks, p.knowledge + 1);
    forall id | id in rows ensures rows[id].document != Some(d) {
      var i :| 0 <= i < |chunks| && id == RawId(rec.document, i, chunks[i]);
    }
    var raw := DropRaw(db.chunks, rec.document) + rows;
    assert NoRowsOf(raw, d);
    if ApplyWiki(p, wiki, base, recovered) {
      WritePagesDocuments(raw, rec.project, p.knowledge + 1, wiki.value, d);
    }
  }

  lemma {:induction false} WritePagesDocuments(t: map<ChunkId, Chunk>, p: Id, generation: nat, cs: seq<Compiled>, d: Id)
    requires NoRowsOf(t, d)
    ensures NoRowsOf(WritePages(t, p, generation, cs), d)
  {
    if cs != [] {
      WritePagesDocuments(t, p, generation, cs[..|cs| - 1], d);
    }
  }

  lemma MarkReadyOk(db: Db, rec: Record, worker: Id)
    requires DbOk(db) && rec.IngestionRecord? && Runnable(db, rec.job, worker, {Indexing})
    requires db.jobs[rec.job].kind.IngestJob?
    ensures DbOk(MarkReady(db, rec, worker).value)
  {
    QuietStep(db, MarkReady(db, rec, worker).value);
  }

  lemma MarkRetryableOk(db: Db, rec: Record, worker: Id)
    requires DbOk(db)
    ensures DbOk(MarkRetryable(db, rec, worker))
  {
    if rec.job in db.jobs { assert JobShape(db.jobs[rec.job]); }
    QuietStep(db, MarkRetryable(db, rec, worker));
  }

  lemma MarkFailedOk(db: Db, rec: Record, worker: Id)
    requires DbOk(db) && rec.IngestionRecord?
    ensures DbOk(MarkFailed(db, rec, worker))
  {
    if rec.job in db.jobs { assert JobShape(db.jobs[rec.job]); }
    QuietStep(db, MarkFailed(db, rec, worker));
  }

  lemma ReleaseDeletionOk(db: Db, rec: Record, worker: Id, outcome: JobStatus)
    requires DbOk(db) && outcome in {Pending, Failed}
    ensures DbOk(ReleaseDeletion(db, rec, worker, outcome))
  {
    var db' := ReleaseDeletion(db, rec, worker, outcome);
    if rec.job in db.jobs { assert JobShape(db.jobs[rec.job]); }
    assert Quieter(db.jobs, db'.jobs);
    JobsQuiet(db, db');
  }

  /** A transaction on the jobs table alone. */
  lemma JobsQuiet(db: Db, db': Db)
    requires DbOk(db) && Quieter(db.jobs, db'.jobs) && db' == db.(jobs := db'.jobs)
    ensures DbOk(db')
  {
    QuietStep(db, db');
  }

  lemma BootstrapQuiet(db: Db, job: Id)
    requires DbOk(db)
    ensures Quieter(db.jobs, BootstrapFailed(db, job).jobs)
    ensures SameDocuments(db.documents, BootstrapFailed(db, job).documents)
  {
    BootstrapDocuments(db, job);
  }

  lemma BootstrapDocuments(db: Db, job: Id)
    ensures SameDocuments(db.documents, BootstrapFailed(db, job).documents)
  {
  }

  lemma BootstrapFailedOk(db: Db, job: Id)
    requires DbOk(db)
    ensures DbOk(BootstrapFailed(db, job))
  {
    BootstrapQuiet(db, job);
    QuietStep(db, BootstrapFailed(db, job));
  }

  lemma ClaimDeletionOk(db: Db, e: Event, worker: Id, seconds: nat)
    requires DbOk(db)
    ensures var r := ClaimDeletion(db, e, worker, seconds); r.Success? ==> DbOk(r.value.0)
  {
    var db1 := db.(jobs := FailAbandonedOn(db.jobs, e.document, db.now));
    QuietStep(db, db1);
    if DeletionClaimable(db1, e) {
      forall i | i in db1.jobs && db1.jobs[i].status.Running?
        ensures !Conflicts(db1.jobs[e.job], db1.jobs[i]) && !Conflicts(db1.jobs[i], db1.jobs[e.job])
      {
        assert JobShape(db1.jobs[i]) && !IngestingOn(db1.jobs[i], e.document, db1.now);
        assert !AbandonedOn(db1.jobs[i], e.document, db1.now);
      }
      ClaimStep(db1, e.job, worker, seconds);
    }
  }

  lemma ClaimProjectDeletionOk(db: Db, e: Event, worker: Id, seconds: nat)
    requires DbOk(db)
    ensures var r := ClaimProjectDeletion(db, e, worker, seconds); r.Success? ==> DbOk(r.value.0)
  {
    var db1 := db.(jobs := FailAbandonedIn(db.jobs, e.project, db.now));
    QuietStep(db, db1);
    if ProjectDeletionClaimable(db1, e) {
      forall i | i in db1.jobs && db1.jobs[i].status.Running?
        ensures !Conflicts(db1.jobs[e.job], db1.jobs[i]) && !Conflicts(db1.jobs[i], db1.jobs[e.job])
      {
        assert JobShape(db1.jobs[i]) && !IngestingIn(db1.jobs[i], e.project, db1.now);
        assert !AbandonedIn(db1.jobs[i], e.project, db1.now);
      }
      ClaimStep(db1, e.job, worker, seconds);
    }
  }

  lemma DocumentDeletionReadyOk(db: Db, rec: Record, worker: Id)
    requires DbOk(db) && rec.DeletionRecord? && Holds(db, rec.job, worker)
    requires db.jobs[rec.job].kind.DeleteDocumentJob? && db.jobs[rec.job].document == Some(rec.document)
    ensures DbOk(DocumentDeletionReady(db, rec, worker).value)
    ensures EmptyDocument(DocumentDeletionReady(db, rec, worker).value, rec.document)
  {
    var db' := DocumentDeletionReady(db, rec, worker).value;
    forall k | k in db'.jobs ensures k < db'.nextId && JobShape(db'.jobs[k]) && JobRefs(db', db'.jobs[k]) {
      assert JobShape(db.jobs[k]) && JobRefs(db, db.jobs[k]);
    }
    forall k, j | k in db'.jobs && j in db'.jobs && db'.jobs[k].status.Running? && db'.jobs[j].status.Running?
      ensures !Conflicts(db'.jobs[k], db'.jobs[j])
    {
      assert db'.jobs[k] == db.jobs[k] && db'.jobs[j] == db.jobs[j];
    }
    forall k | k in db'.jobs && db'.jobs[k].kind.DeleteDocumentJob? && db'.jobs[k].status.Succeeded? && db'.jobs[k].document.Some?
      ensures EmptyDocument(db', db'.jobs[k].document.value)
    {
      if k != rec.job { assert EmptyDocument(db, db.jobs[k].document.value); }
    }
  }

  lemma ProjectDeletionReadyOk(db: Db, rec: Record, worker: Id)
    requires DbOk(db) && rec.ProjectDeletionRecord? && ProjectDeletionReady(db, rec, worker).Success?
    requires db.jobs[rec.job].kind.DeleteProjectJob?
    ensures DbOk(ProjectDeletionReady(db, rec, worker).value)
  {
    var p := rec.project;
    var db0 := db.(jobs := db.jobs[rec.job := db.jobs[rec.job].(project := None, document := None)]);
    var db' := ProjectDeletionReady(db, rec, worker).value;
    forall k | k in db'.jobs ensures k < db'.nextId && JobShape(db'.jobs[k]) && JobRefs(db', db'.jobs[k]) {
      assert JobShape(db.jobs[k]) && JobRefs(db, db.jobs[k]);
    }
    forall k | k in db'.jobs && k != rec.job ensures db'.jobs[k] == db.jobs[k] {
    }
    forall k, j | k in db'.jobs && j in db'.jobs && db'.jobs[k].status.Running? && db'.jobs[j].status.Running?
      ensures !Conflicts(db'.jobs[k], db'.jobs[j])
    {
      assert k != rec.job && j != rec.job;
    }
    forall k | k in db'.jobs && db'.jobs[k].kind.DeleteDocumentJob? && db'.jobs[k].status.Succeeded? && db'.jobs[k].document.Some?
      ensures EmptyDocument(db', db'.jobs[k].document.value)
    {
      assert EmptyDocument(db, db.jobs[k].document.value);
    }
  }

  ghost predicate ProjectDeletionsFailed(db: Db, p: Option<Id>) {
    forall k :: k in db.jobs && db.jobs[k].kind.DeleteProjectJob? && db.jobs[k].project.Some? && db.jobs[k].project == p
      ==> db.jobs[k].status.Failed?
  }

  /** A new pending job about rows that are there, with no open deletion of the same project. */
  lemma InsertJobOk(db: Db, j: Job)
    requires DbOk(db) && j.status.Pending? && JobShape(j) && JobRefs(db, j)
    requires j.kind.DeleteProjectJob? ==> ProjectDeletionsFailed(db, j.project)
    ensures DbOk(InsertJob(db, j))
  {
    var db' := InsertJob(db, j);
    forall k | k in db'.jobs ensures k < db'.nextId && JobShape(db'.jobs[k]) && JobRefs(db', db'.jobs[k]) {
      if k != db.nextId { assert JobShape(db.jobs[k]) && JobRefs(db, db.jobs[k]); }
    }
    forall k | k in db'.jobs && db'.jobs[k].kind.DeleteDocumentJob? && db'.jobs[k].status.Succeeded? && db'.jobs[k].document.Some?
      ensures EmptyDocument(db', db'.jobs[k].document.value)
    {
      assert EmptyDocument(db, db.jobs[k].document.value);
    }
  }

  /** Adding documents or projects, and marking them for deletion, keeps the invariant. */
  lemma MarkStep(db: Db, db': Db)
    requires DbOk(db) && RowsOk(db') && db'.jobs == db.jobs && db'.nextId >= db.nextId
    requires db'.pages == db.pages && db'.chunks == db.chunks
    requires forall d :: d in db.documents ==> d in db'.documents && db'.documents[d].project == db.documents[d].project
                                               && (db.documents[d].status.Deleted? ==> db'.documents[d].status.Deleted?)
    requires forall p :: p in db.projects ==> p in db'.projects
                                              && (db.projects[p].status.Deleting? ==> db'.projects[p].status.Deleting?)
    ensures DbOk(db')
  {
    forall k | k in db'.jobs ensures k < db'.nextId && JobShape(db'.jobs[k]) && JobRefs(db', db'.jobs[k]) {
      assert JobShape(db.jobs[k]) && JobRefs(db, db.jobs[k]);
    }
    forall k | k in db'.jobs && db'.jobs[k].kind.DeleteDocumentJob? && db'.jobs[k].status.Succeeded? && db'.jobs[k].document.Some?
      ensures EmptyDocument(db', db'.jobs[k].document.value)
    {
      assert EmptyDocument(db, db.jobs[k].document.value);
    }
  }

  lemma CreateProjectOk(db: Db)
    requires DbOk(db)
    ensures DbOk(CreateProject(db))
  {
    MarkStep(db, CreateProject(db));
  }

  lemma CreateDocumentOk(db: Db, p: Id)
    requires DbOk(db)
    ensures DbOk(CreateDocument(db, p))
  {
    MarkStep(db, CreateDocument(db, p));
  }

  lemma RequestIngestionOk(db: Db, d: Id)
    requires DbOk(db)
    ensures DbOk(RequestIngestion(db, d))
  {
    if RequestIngestion(db, d) != db {
      var db1 := db.(documents := db.documents[d := db.documents[d].(status := Parsing)]);
      QuietStep(db, db1);
      InsertJobOk(db1, NewJob(IngestJob, Some(db.documents[d].project), Some(d)));
    }
  }

  /** Marking a document deleted keeps the invariant: nothing is lost, one more target is marked. */
  lemma MarkDeletedOk(db: Db, d: Id)
    requires DbOk(db) && d in db.documents
    ensures DbOk(db.(documents := db.documents[d := Document(db.documents[d].project, Deleted, true)]))
  {
    MarkStep(db, db.(documents := db.documents[d := Document(db.documents[d].project, Deleted, true)]));
  }

  lemma RequestDocumentDeletionOk(db: Db, d: Id)
    requires DbOk(db)
    ensures DbOk(RequestDocumentDeletion(db, d))
  {
    if d in db.documents && ProjectActive(db, db.documents[d].project) {
      var p := db.documents[d].project;
      var db1 := db.(jobs := FailPendingOn(db.jobs, d));
      forall k | k in db.jobs ensures JobShape(db.jobs[k]) {
      }
      QuietStep(db, db1);
      var db2 := if db.documents[d].deleted then db1 else db1.(documents := db1.documents[d := Document(p, Deleted, true)]);
      MarkDeletedOk(db1, d);
      InsertJobOk(db2, NewJob(DeleteDocumentJob, Some(p), Some(d)));
    }
  }

  lemma MarkDeletingOk(db: Db, p: Id)
    requires DbOk(db) && p in db.projects
    ensures DbOk(db.(projects := db.projects[p := db.projects[p].(status := Deleting)]))
  {
    MarkStep(db, db.(projects := db.projects[p := db.projects[p].(status := Deleting)]));
  }

  lemma NewestFailedMeansAllFailed(db: Db, p: Id)
    requires DbOk(db)
    requires p in db.projects && (db.projects[p].status.Deleting? ==> NewestIs(db.jobs, DeleteProjectJob, Some(p), None, Failed))
    ensures ProjectDeletionsFailed(db, Some(p))
  {
    forall k | k in db.jobs && db.jobs[k].kind.DeleteProjectJob? && db.jobs[k].project == Some(p)
      ensures db.jobs[k].status.Failed?
    {
      assert JobShape(db.jobs[k]) && JobRefs(db, db.jobs[k]);
      var m :| m in db.jobs && Newest(db.jobs, m, DeleteProjectJob, Some(p), None) && db.jobs[m].status == Failed;
      assert k <= m;
    }
  }

  lemma RequestProjectDeletionOk(db: Db, p: Id)
    requires DbOk(db)
    ensures DbOk(RequestProjectDeletion(db, p))
  {
    if p in db.projects && (db.projects[p].status.Deleting? ==> NewestIs(db.jobs, DeleteProjectJob, Some(p), None, Failed)) {
      NewestFailedMeansAllFailed(db, p);
      var db1 := db.(jobs := FailAbandonedIn(db.jobs, p, db.now));
      QuietStep(db, db1);
      MarkDeletingOk(db1, p);
      var db2 := db1.(projects := db1.projects[p := db1.projects[p].(status := Deleting)]);
      assert JobRefs(db2, NewJob(DeleteProjectJob, Some(p), None));
      assert ProjectDeletionsFailed(db2, Some(p));
      InsertJobOk(db2, NewJob(DeleteProjectJob, Some(p), None));
    }
  }
}
