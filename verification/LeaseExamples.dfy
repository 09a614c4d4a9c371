/** Concrete runs that reach the two exceptions the lease theorems name. */
module LeaseExamples {
  import opened Common
  import opened Tables
  import opened DeletionStores
  import opened IngestionStore
  import opened Deliveries
  import opened LeaseTheorems

  function OneDocument(): seq<Step> { [NewProject, NewDocument(0)] }

  lemma OneDocumentState()
    ensures Run(INIT, OneDocument())
         == Sys(Db(0, 2, map[], map[1 := Document(0, Uploaded, false)], map[0 := Project(Active, 0, 0)], {}, map[]),
                map[], [], map[0 := []])
  {
    assert [] + [NewProject] == [NewProject] && [NewProject] + [NewDocument(0)] == OneDocument();
    RunStep(INIT, [], NewProject);
    RunStep(INIT, [NewProject], NewDocument(0));
    assert Run(INIT, []) == INIT;
  }

  const DELETION := Job(DeleteDocumentJob, Some(0), Some(1), Running, 1, Some(10), Some(100))

  lemma LeasedDeletion()
    ensures Run(INIT, OneDocument() + [AskDocumentDeletion(1), DocumentDeletionClaim(Event(2, 0, 1), 10, 100)])
         == Sys(Db(0, 3, map[2 := DELETION], map[1 := Document(0, Deleted, true)], map[0 := Project(Active, 0, 0)], {}, map[]),
                map[10 := Delivery(DeletionRecord(2, 0, 1, 1), None)], [ClaimEntry(2, 10)], map[0 := []])
  {
    OneDocumentState();
    var a := OneDocument() + [AskDocumentDeletion(1)];
    RunStep(INIT, OneDocument(), AskDocumentDeletion(1));
    var s := Run(INIT, a);
    assert s.db.jobs == map[2 := NewJob(DeleteDocumentJob, Some(0), Some(1))];
    assert s.db.documents == map[1 := Document(0, Deleted, true)];
    RunStep(INIT, a, DocumentDeletionClaim(Event(2, 0, 1), 10, 100));
    assert FailAbandonedOn(s.db.jobs, 1, 0) == s.db.jobs;
    assert DeletionClaimable(s.db, Event(2, 0, 1));
    assert OneDocument() + [AskDocumentDeletion(1), DocumentDeletionClaim(Event(2, 0, 1), 10, 100)]
        == a + [DocumentDeletionClaim(Event(2, 0, 1), 10, 100)];
  }

  function DeletionRun(): seq<Step> {
    OneDocument() + [AskDocumentDeletion(1), DocumentDeletionClaim(Event(2, 0, 1), 10, 100)]
  }

  lemma ProjectDeletionAsked()
    ensures var t := Run(INIT, DeletionRun() + [AskProjectDeletion(0)]);
            && t.db.now == 0 && t.db.jobs == map[2 := DELETION, 3 := NewJob(DeleteProjectJob, Some(0), None)]
            && t.db.projects == map[0 := Project(Deleting, 0, 0)] && t.deliveries.Keys == {10}
  {
    LeasedDeletion();
    var s := Run(INIT, DeletionRun());
    RunStep(INIT, DeletionRun(), AskProjectDeletion(0));
    assert FailAbandonedIn(s.db.jobs, 0, 0) == s.db.jobs;
  }

  const CLAIM_PROJECT := ProjectDeletionClaim(Event(3, 0, 1), 11, 100)

  lemma ProjectDeletionClaimed()
    ensures var u := Run(INIT, DeletionRun() + [AskProjectDeletion(0)] + [CLAIM_PROJECT]);
            && u.db.now == 0 && u.db.jobs.Keys == {2, 3} && u.db.jobs[2] == DELETION
            && u.db.jobs[3].HeldBy(11, 0) && u.db.projects == map[0 := Project(Deleting, 0, 0)]
            && u.deliveries.Keys == {10, 11} && u.deliveries[11].record == ProjectDeletionRecord(3, 0, 1)
  {
    ProjectDeletionAsked();
    var b := DeletionRun() + [AskProjectDeletion(0)];
    var t := Run(INIT, b);
    RunStep(INIT, b, CLAIM_PROJECT);
    assert FailAbandonedIn(t.db.jobs, 0, 0) == t.db.jobs;
    assert t.db.(jobs := t.db.jobs) == t.db;
    assert ProjectDeletionClaimable(t.db, Event(3, 0, 1));
  }

  /** A project deletion drops the row of a document deletion that still holds its lease. */
  lemma LeaseDroppedExample()
    ensures exists steps, step, k, owner ::
              Leased(Run(INIT, steps).db, k, owner) && !ActsAs(step, owner)
              && k !in Run(INIT, steps + [step]).db.jobs
  {
    ProjectDeletionClaimed();
    var c := DeletionRun() + [AskProjectDeletion(0)] + [CLAIM_PROJECT];
    assert Leased(Run(INIT, c).db, 2, 10);
    LeaseIsExclusive(c, ProjectDeletionDone(11), 2, 10);
    assert DropsProjectOf(Run(INIT, c), ProjectDeletionDone(11), 2);
  }

  // ---- a late failure report ----

  const INGEST := Event(2, 0, 1)

  /** The shortest lease the settings allow, in seconds. */
  const LEASE := 60

  /** Delivery 10 claims the ingestion; one second after its lease has run out nothing has happened. */
  function Stalled(): seq<Step> {
    OneDocument() + [AskIngestion(1)] + [IngestClaim(INGEST, 10, LEASE)] + [Tick(LEASE + 1)]
  }

  const COMMIT := IngestCommit(11, ["a page"], ["a chunk"], None)

  /** Delivery 11 then ingests the document, one page and one chunk, to the end. */
  function Overtaken(): seq<Step> {
    Stalled() + [IngestClaim(INGEST, 11, LEASE)] + [IngestLoad(11)] + [COMMIT] + [IngestReady(11)]
  }

  /** The document and its job, and who has been delivered the job. */
  ghost predicate Shows(s: Sys, now: nat, status: DocumentStatus, job: JobStatus, owner: Option<Id>, workers: set<Id>) {
    && s.db.now == now && s.db.projects.Keys == {0} && s.db.projects[0].status == Active
    && s.db.documents == map[1 := Document(0, status, false)]
    && s.db.jobs.Keys == {2}
    && s.db.jobs[2].kind.IngestJob? && s.db.jobs[2].project == Some(0) && s.db.jobs[2].document == Some(1)
    && s.db.jobs[2].status == job && s.db.jobs[2].owner == owner
    && s.deliveries.Keys == workers
    && forall w :: w in workers ==>
         && s.deliveries[w].record.IngestionRecord? && s.deliveries[w].record.job == 2
         && s.deliveries[w].record.project == 0 && s.deliveries[w].record.document == 1
  }

  lemma StalledState()
    ensures var s := Run(INIT, Stalled());
      Shows(s, LEASE + 1, Parsing, Running, Some(10), {10}) && s.db.jobs[2].expires == Some(LEASE)
  {
    OneDocumentState();
    var a := OneDocument() + [AskIngestion(1)];
    RunStep(INIT, OneDocument(), AskIngestion(1));
    assert Run(INIT, a).db.jobs == map[2 := NewJob(IngestJob, Some(0), Some(1))];
    assert Run(INIT, a).db.documents == map[1 := Document(0, Parsing, false)];
    RunStep(INIT, a, IngestClaim(INGEST, 10, LEASE));
    RunStep(INIT, a + [IngestClaim(INGEST, 10, LEASE)], Tick(LEASE + 1));
  }

  lemma ReclaimedState()
    ensures var s := Run(INIT, Stalled() + [IngestClaim(INGEST, 11, LEASE)]);
      Shows(s, LEASE + 1, Parsing, Running, Some(11), {10, 11}) && s.db.jobs[2].expires == Some(121)
  {
    StalledState();
    RunStep(INIT, Stalled(), IngestClaim(INGEST, 11, LEASE));
    assert IngestClaimable(Run(INIT, Stalled()).db, INGEST);
  }

  lemma LoadedState()
    ensures var s := Run(INIT, Stalled() + [IngestClaim(INGEST, 11, LEASE)] + [IngestLoad(11)]);
      && Shows(s, LEASE + 1, Parsing, Running, Some(11), {10, 11}) && s.db.jobs[2].expires == Some(121)
      && s.deliveries[11].wiki.Some?
  {
    ReclaimedState();
    RunStep(INIT, Stalled() + [IngestClaim(INGEST, 11, LEASE)], IngestLoad(11));
  }

  lemma CommittedState()
    ensures var s := Run(INIT, Stalled() + [IngestClaim(INGEST, 11, LEASE)] + [IngestLoad(11)] + [COMMIT]);
      Shows(s, LEASE + 1, Indexing, Running, Some(11), {10, 11}) && s.db.jobs[2].expires == Some(121)
  {
    LoadedState();
    var b := Stalled() + [IngestClaim(INGEST, 11, LEASE)] + [IngestLoad(11)];
    RunStep(INIT, b, COMMIT);
    assert Commits(Run(INIT, b), 11);
  }

  lemma ReadyState()
    ensures Shows(Run(INIT, Overtaken()), LEASE + 1, Ready, Succeeded, None, {10, 11})
  {
    CommittedState();
    RunStep(INIT, Stalled() + [IngestClaim(INGEST, 11, LEASE)] + [IngestLoad(11)] + [COMMIT], IngestReady(11));
  }

  /**
   * The ingestion has succeeded and the document is ready; the late failure report of the
   * delivery that lost its lease fails the document and leaves the job succeeded.
   */
  lemma ReadyLostExample()
    ensures var s := Run(INIT, Overtaken());
      2 in s.db.jobs && s.db.jobs[2].status == Succeeded && 1 in s.db.documents && s.db.documents[1].status == Ready
    ensures var t := Run(INIT, Overtaken() + [IngestFail(10)]);
      2 in t.db.jobs && t.db.jobs[2].status == Succeeded && t.db.documents == map[1 := Document(0, DocumentFailed, false)]
  {
    ReadyState();
    RunStep(INIT, Overtaken(), IngestFail(10));
  }
}
