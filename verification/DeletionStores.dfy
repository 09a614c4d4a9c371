/**
 * `SqlDeletionStore`, `SqlProjectDeletionStore`, the task bootstrap failure marker,
 * and the API requests that put documents, jobs and deletions into the tables.
 */
module DeletionStores {
  import opened Common
  import opened Tables
  import opened IngestionStore

  /** An ingestion of document `d` whose lease is gone. */
  predicate AbandonedOn(j: Job, d: Id, now: nat) {
    j.kind.IngestJob? && j.document == Some(d) && j.status.Running? && j.LeaseGone(now)
  }

  predicate IngestingOn(j: Job, d: Id, now: nat) {
    j.kind.IngestJob? && j.document == Some(d) && j.status.Running? && j.LeaseLive(now)
  }

  /** An ingestion in project `p` that is pending or whose lease is gone. */
  predicate AbandonedIn(j: Job, p: Id, now: nat) {
    j.kind.IngestJob? && j.project == Some(p) && (j.status.Pending? || (j.status.Running? && j.LeaseGone(now)))
  }

  predicate IngestingIn(j: Job, p: Id, now: nat) {
    j.kind.IngestJob? && j.project == Some(p) && j.status.Running? && j.LeaseLive(now)
  }

  function FailAbandonedOn(jobs: map<Id, Job>, d: Id, now: nat): map<Id, Job> {
    map k | k in jobs :: if AbandonedOn(jobs[k], d, now) then jobs[k].Released(Failed) else jobs[k]
  }

  function FailAbandonedIn(jobs: map<Id, Job>, p: Id, now: nat): map<Id, Job> {
    map k | k in jobs :: if AbandonedIn(jobs[k], p, now) then jobs[k].Released(Failed) else jobs[k]
  }

  predicate SomeIngestingOn(jobs: map<Id, Job>, d: Id, now: nat) {
    exists k :: k in jobs && IngestingOn(jobs[k], d, now)
  }

  predicate SomeIngestingIn(jobs: map<Id, Job>, p: Id, now: nat) {
    exists k :: k in jobs && IngestingIn(jobs[k], p, now)
  }

  predicate DeletionClaimable(db: Db, e: Event) {
    && e.job in db.jobs && e.document in db.documents
    && var j, d := db.jobs[e.job], db.documents[e.document];
       && j.kind.DeleteDocumentJob? && j.project == Some(e.project) && j.document == Some(e.document)
       && d.project == e.project && d.status.Deleted?
       && !SomeIngestingOn(db.jobs, e.document, db.now)
       && j.Claimable(db.now)
  }

  /** The claim's transaction, with whether it hands out a record; a blocked claim raises. */
  function ClaimDeletion(db: Db, e: Event, worker: Id, seconds: nat): Result<(Db, bool)> {
    var db1 := db.(jobs := FailAbandonedOn(db.jobs, e.document, db.now));
    if DeletionClaimable(db1, e) then
      Success((db1.(jobs := db1.jobs[e.job := db1.jobs[e.job].Claimed(worker, db.now, seconds)]), true))
    else if e.job in db1.jobs && db1.jobs[e.job].kind.DeleteDocumentJob? && db1.jobs[e.job].document == Some(e.document)
            && db1.jobs[e.job].status.Pending? && SomeIngestingOn(db1.jobs, e.document, db.now) then
      Failure("DOCUMENT_INGESTION_RUNNING")
    else Success((db1, false))
  }

  predicate Holds(db: Db, job: Id, worker: Id) {
    job in db.jobs && db.jobs[job].HeldBy(worker, db.now)
  }

  function DocumentDeletionReady(db: Db, rec: Record, worker: Id): Result<Db>
    requires rec.DeletionRecord?
  {
    if !Holds(db, rec.job, worker) then Failure("JOB_LEASE_LOST")
    else Success(db.(pages := db.pages - PagesOf(db.pages, rec.document),
                     chunks := map id | id in db.chunks && db.chunks[id].document != Some(rec.document) :: db.chunks[id],
                     jobs := db.jobs[rec.job := db.jobs[rec.job].Released(Succeeded)]))
  }

  /** `mark_retryable` and `mark_failed` of both deletion stores. */
  function ReleaseDeletion(db: Db, rec: Record, worker: Id, outcome: JobStatus): Db {
    if rec.job in db.jobs && db.jobs[rec.job].owner == Some(worker)
    then db.(jobs := db.jobs[rec.job := db.jobs[rec.job].Released(outcome)]) else db
  }

  predicate ProjectDeletionClaimable(db: Db, e: Event) {
    && e.job in db.jobs && e.project in db.projects
    && var j := db.jobs[e.job];
       && j.kind.DeleteProjectJob? && j.project == Some(e.project)
       && db.projects[e.project].status.Deleting?
       && !SomeIngestingIn(db.jobs, e.project, db.now)
       && j.Claimable(db.now)
  }

  function ClaimProjectDeletion(db: Db, e: Event, worker: Id, seconds: nat): Result<(Db, bool)> {
    var db1 := db.(jobs := FailAbandonedIn(db.jobs, e.project, db.now));
    if ProjectDeletionClaimable(db1, e) then
      Success((db1.(jobs := db1.jobs[e.job := db1.jobs[e.job].Claimed(worker, db.now, seconds)]), true))
    else if e.job in db1.jobs && db1.jobs[e.job].kind.DeleteProjectJob? && db1.jobs[e.job].project == Some(e.project)
            && db1.jobs[e.job].status.Pending? && SomeIngestingIn(db1.jobs, e.project, db.now) then
      Failure("PROJECT_INGESTION_RUNNING")
    else Success((db1, false))
  }

  function DocumentsIn(db: Db, p: Id): set<Id> {
    set d | d in db.documents && db.documents[d].project == p
  }

  /** A row the deletion of project `p` cascades to. */
  predicate Cascaded(db: Db, p: Id, j: Job) {
    j.project == Some(p) || (j.document.Some? && j.document.value in DocumentsIn(db, p))
  }

  function DropProject(db: Db, p: Id): Db {
    var gone := DocumentsIn(db, p);
    db.(projects := db.projects - {p},
        documents := db.documents - gone,
        pages := (set r | r in db.pages && r.document !in gone),
        chunks := map id | id in db.chunks && db.chunks[id].project != p
                           && !(db.chunks[id].document.Some? && db.chunks[id].document.value in gone) :: db.chunks[id],
        jobs := map k | k in db.jobs && !Cascaded(db, p, db.jobs[k]) :: db.jobs[k])
  }

  function ProjectDeletionReady(db: Db, rec: Record, worker: Id): Result<Db>
    requires rec.ProjectDeletionRecord?
  {
    if !Holds(db, rec.job, worker) then Failure("JOB_LEASE_LOST")
    else if rec.project !in db.projects || !db.projects[rec.project].status.Deleting? then
      Failure("PROJECT_DELETE_STATE_CHANGED")
    else
      var j := db.jobs[rec.job].(project := None, document := None);
      var db1 := DropProject(db.(jobs := db.jobs[rec.job := j]), rec.project);
      Success(db1.(jobs := db1.jobs[rec.job := j.Released(Succeeded)]))
  }

  /** `_mark_job_bootstrap_failed` */
  function BootstrapFailed(db: Db, job: Id): Db {
    if job in db.jobs && db.jobs[job].Claimable(db.now) then
      var j := db.jobs[job];
      db.(jobs := db.jobs[job := j.Released(Failed)],
          documents := if j.kind.IngestJob? && j.document.Some? && j.document.value in db.documents
                          && db.documents[j.document.value].status in {Uploaded, Parsing, Parsed, Indexing}
                       then db.documents[j.document.value := db.documents[j.document.value].(status := DocumentFailed)]
                       else db.documents)
    else db
  }

  function NewJob(kind: JobKind, project: Option<Id>, document: Option<Id>): Job {
    Job(kind, project, document, Pending, 0, None, None)
  }

  function InsertJob(db: Db, j: Job): Db {
    db.(nextId := db.nextId + 1, jobs := db.jobs[db.nextId := j])
  }

  /** `order by created_at desc limit 1`: identifiers are handed out in creation order. */
  predicate Newest(jobs: map<Id, Job>, k: Id, kind: JobKind, project: Option<Id>, document: Option<Id>) {
    && k in jobs && jobs[k].kind == kind && jobs[k].project == project && jobs[k].document == document
    && forall i :: i in jobs && jobs[i].kind == kind && jobs[i].project == project && jobs[i].document == document ==> i <= k
  }

  predicate NewestIs(jobs: map<Id, Job>, kind: JobKind, project: Option<Id>, document: Option<Id>, status: JobStatus) {
    exists k :: k in jobs && Newest(jobs, k, kind, project, document) && jobs[k].status == status
  }

  function CreateProject(db: Db): Db {
    db.(nextId := db.nextId + 1, projects := db.projects[db.nextId := Project(Active, 0, 0)])
  }

  function CreateDocument(db: Db, p: Id): Db {
    if !ProjectActive(db, p) then db
    else db.(nextId := db.nextId + 1, documents := db.documents[db.nextId := Document(p, Uploaded, false)])
  }

  /** Completing an upload: only an uploaded or failed document gets a new ingestion job. */
  function RequestIngestion(db: Db, d: Id): Db {
    if d in db.documents && ProjectActive(db, db.documents[d].project) && !db.documents[d].deleted
       && db.documents[d].status in {Uploaded, DocumentFailed} then
      InsertJob(db.(documents := db.documents[d := db.documents[d].(status := Parsing)]),
                NewJob(IngestJob, Some(db.documents[d].project), Some(d)))
    else db
  }

  function FailPendingOn(jobs: map<Id, Job>, d: Id): map<Id, Job> {
    map k | k in jobs :: if jobs[k].kind.IngestJob? && jobs[k].document == Some(d) && jobs[k].status.Pending?
                         then jobs[k].(status := Failed) else jobs[k]
  }

  function RequestDocumentDeletion(db: Db, d: Id): Db {
    if d !in db.documents || !ProjectActive(db, db.documents[d].project) then db
    else
      var p := db.documents[d].project;
      var db1 := db.(jobs := FailPendingOn(db.jobs, d));
      if db.documents[d].deleted
         && (exists s :: s != Failed && NewestIs(db1.jobs, DeleteDocumentJob, Some(p), Some(d), s)) then db1
      else
        InsertJob(db1.(documents := if db.documents[d].deleted then db.documents
                                    else db.documents[d := Document(p, Deleted, true)]),
                  NewJob(DeleteDocumentJob, Some(p), Some(d)))
  }

  function RequestProjectDeletion(db: Db, p: Id): Db {
    if p !in db.projects then db
    else if db.projects[p].status.Deleting? && !NewestIs(db.jobs, DeleteProjectJob, Some(p), None, Failed) then db
    else
      InsertJob(db.(projects := db.projects[p := db.projects[p].(status := Deleting)],
                    jobs := FailAbandonedIn(db.jobs, p, db.now)),
                NewJob(DeleteProjectJob, Some(p), None))
  }

  class SqlDeletionStore {
    const engine: Database

    constructor (engine: Database)
      ensures this.engine == engine
    {
      this.engine := engine;
    }

    method Claim(e: Event, worker: Id, seconds: nat) returns (r: Result<Option<Record>>)
      modifies engine
      ensures var after := ClaimDeletion(old(engine.State()), e, worker, seconds);
              && r.Success? == after.Success?
              && engine.State() == (if after.Success? then after.value.0 else old(engine.State()))
              && (r.Success? ==> r.value.Some? == after.value.1)
      ensures r.Success? && r.value.Some? ==>
                r.value.value == DeletionRecord(e.job, e.project, e.document, engine.jobs[e.job].attempts)
    {
      var before := engine.jobs;
      engine.jobs := FailAbandonedOn(engine.jobs, e.document, engine.now);
      if DeletionClaimable(engine.State(), e) {
        var j := engine.jobs[e.job];
        engine.jobs := engine.jobs[e.job := j.Claimed(worker, engine.now, seconds)];
        return Success(Some(DeletionRecord(e.job, e.project, e.document, j.attempts + 1)));
      }
      if e.job in engine.jobs && engine.jobs[e.job].kind.DeleteDocumentJob?
         && engine.jobs[e.job].document == Some(e.document)
         && engine.jobs[e.job].status.Pending? && SomeIngestingOn(engine.jobs, e.document, engine.now) {
        engine.jobs := before;
        return Failure("DOCUMENT_INGESTION_RUNNING");
      }
      return Success(None);
    }

    method MarkReady(rec: Record, worker: Id) returns (r: Result<()>)
      requires rec.DeletionRecord?
      modifies engine
      ensures var after := DocumentDeletionReady(old(engine.State()), rec, worker);
              && r.Success? == after.Success?
              && engine.State() == (if after.Success? then after.value else old(engine.State()))
    {
      if !Holds(engine.State(), rec.job, worker) {
        return Failure("JOB_LEASE_LOST");
      }
      engine.pages := engine.pages - PagesOf(engine.pages, rec.document);
      engine.chunks := map id | id in engine.chunks && engine.chunks[id].document != Some(rec.document) :: engine.chunks[id];
      engine.jobs := engine.jobs[rec.job := engine.jobs[rec.job].Released(Succeeded)];
      return Success(());
    }

    /** The owner's report ends the lease and sets the outcome; anyone else's report changes nothing. */
    method Release(rec: Record, worker: Id, outcome: JobStatus)
      modifies engine
      ensures engine.State() == old(engine.State()).(jobs := engine.jobs)
      ensures engine.jobs.Keys == old(engine.jobs).Keys
      ensures forall k :: k in engine.jobs && (k != rec.job || old(engine.jobs)[k].owner != Some(worker)) ==>
                engine.jobs[k] == old(engine.jobs)[k]
      ensures rec.job in engine.jobs && old(engine.jobs)[rec.job].owner == Some(worker) ==>
                && engine.jobs[rec.job].owner == None && engine.jobs[rec.job].expires == None
                && engine.jobs[rec.job] == old(engine.jobs)[rec.job].Released(engine.jobs[rec.job].status)
                && engine.jobs[rec.job].status == outcome
    {
      if rec.job in engine.jobs && engine.jobs[rec.job].owner == Some(worker) {
        engine.jobs := engine.jobs[rec.job := engine.jobs[rec.job].Released(outcome)];
      }
    }
  }

  class SqlProjectDeletionStore {
    const engine: Database

    constructor (engine: Database)
      ensures this.engine == engine
    {
      this.engine := engine;
    }

    method Claim(e: Event, worker: Id, seconds: nat) returns (r: Result<Option<Record>>)
      modifies engine
      ensures var after := ClaimProjectDeletion(old(engine.State()), e, worker, seconds);
              && r.Success? == after.Success?
              && engine.State() == (if after.Success? then after.value.0 else old(engine.State()))
              && (r.Success? ==> r.value.Some? == after.value.1)
      ensures r.Success? && r.value.Some? ==>
                r.value.value == ProjectDeletionRecord(e.job, e.project, engine.jobs[e.job].attempts)
    {
      var before := engine.jobs;
      engine.jobs := FailAbandonedIn(engine.jobs, e.project, engine.now);
      if ProjectDeletionClaimable(engine.State(), e) {
        var j := engine.jobs[e.job];
        engine.jobs := engine.jobs[e.job := j.Claimed(worker, engine.now, seconds)];
        return Success(Some(ProjectDeletionRecord(e.job, e.project, j.attempts + 1)));
      }
      if e.job in engine.jobs && engine.jobs[e.job].kind.DeleteProjectJob?
         && engine.jobs[e.job].project == Some(e.project)
         && engine.jobs[e.job].status.Pending? && SomeIngestingIn(engine.jobs, e.project, engine.now) {
        engine.jobs := before;
        return Failure("PROJECT_INGESTION_RUNNING");
      }
      return Success(None);
    }

    /** Deleting the project row cascades; a vanished project rolls everything back. */
    method MarkReady(rec: Record, worker: Id) returns (r: Result<()>)
      requires rec.ProjectDeletionRecord?
      modifies engine
      ensures var after := ProjectDeletionReady(old(engine.State()), rec, worker);
              && r.Success? == after.Success?
              && engine.State() == (if after.Success? then after.value else old(engine.State()))
    {
      if !Holds(engine.State(), rec.job, worker) {
        return Failure("JOB_LEASE_LOST");
      }
      var before := engine.jobs;
      var p := rec.project;
      engine.jobs := engine.jobs[rec.job := engine.jobs[rec.job].(project := None, document := None)];
      if p !in engine.projects || !engine.projects[p].status.Deleting? {
        engine.jobs := before;
        return Failure("PROJECT_DELETE_STATE_CHANGED");
      }
      var dropped := DropProject(engine.State(), p);
      engine.projects := dropped.projects;
      engine.documents := dropped.documents;
      engine.pages := dropped.pages;
      engine.chunks := dropped.chunks;
      engine.jobs := dropped.jobs;
      engine.jobs := engine.jobs[rec.job := engine.jobs[rec.job].Released(Succeeded)];
      return Success(());
    }
  }

  /** `_mark_job_bootstrap_failed` as a transaction. */
  method MarkJobBootstrapFailed(engine: Database, job: Id)
    modifies engine
    ensures engine.State() == BootstrapFailed(old(engine.State()), job)
  {
    if job !in engine.jobs || !engine.jobs[job].Claimable(engine.now) {
      return;
    }
    var failed := engine.jobs[job];
    engine.jobs := engine.jobs[job := failed.Released(Failed)];
    if failed.kind.IngestJob? && failed.document.Some? {
      var d := failed.document.value;
      if d in engine.documents && engine.documents[d].status in {Uploaded, Parsing, Parsed, Indexing} {
        engine.documents := engine.documents[d := engine.documents[d].(status := DocumentFailed)];
      }
    }
  }
}
