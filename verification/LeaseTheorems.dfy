/** The lease protocol's guarantees, for every run from the empty database. */
module LeaseTheorems {
  import opened Common
  import opened WikiMerge
  import opened Tables
  import opened IngestionStore
  import opened DeletionStores
  import opened Deliveries
  import opened LeaseInvariants
  import opened LeaseProofs

  /** A job is running exactly when it has a lease owner; its attempts are its claims. */
  lemma JobLifecycle(steps: seq<Step>, k: Id)
    requires k in Run(INIT, steps).db.jobs
    ensures var s := Run(INIT, steps);
            && (s.db.jobs[k].status.Running? <==> s.db.jobs[k].owner.Some?)
            && s.db.jobs[k].attempts == ClaimCount(s.claims, k)
  {
    RunOk(steps);
    assert JobShape(Run(INIT, steps).db.jobs[k]);
  }

  /** Rows seen before and after any number of steps are the same rows, evolved. */
  lemma {:induction false} RunEvolves(steps: seq<Step>, more: seq<Step>, k: Id)
    requires k in Run(INIT, steps).db.jobs && k in Run(INIT, steps + more).db.jobs
    ensures var j, j' := Run(INIT, steps).db.jobs[k], Run(INIT, steps + more).db.jobs[k];
            j'.kind == j.kind && (Closed(j) ==> j'.status == j.status)
    ensures Run(INIT, steps).db.nextId <= Run(INIT, steps + more).db.nextId
  {
    if more == [] {
      assert steps + more == steps;
    } else {
      var init, last := more[..|more| - 1], more[|more| - 1];
      assert steps + more == (steps + init) + [last];
      RunStep(INIT, steps + init, last);
      RunOk(steps);
      RunOk(steps + init);
      var mid := Run(INIT, steps + init);
      ApplyOk(mid, last);
      NextIdGrows(steps, init);
      if k in mid.db.jobs {
        RunEvolves(steps, init, k);
      }
    }
  }

  lemma {:induction false} NextIdGrows(steps: seq<Step>, more: seq<Step>)
    ensures Run(INIT, steps).db.nextId <= Run(INIT, steps + more).db.nextId
  {
    if more == [] {
      assert steps + more == steps;
    } else {
      var init, last := more[..|more| - 1], more[|more| - 1];
      assert steps + more == (steps + init) + [last];
      RunStep(INIT, steps + init, last);
      RunOk(steps + init);
      ApplyOk(Run(INIT, steps + init), last);
      NextIdGrows(steps, init);
    }
  }

  /** Succeeded and failed are never left: such a job keeps its status until its row is dropped. */
  lemma ClosedJobsStayClosed(steps: seq<Step>, more: seq<Step>, k: Id)
    requires k in Run(INIT, steps).db.jobs && Closed(Run(INIT, steps).db.jobs[k])
    requires k in Run(INIT, steps + more).db.jobs
    ensures Run(INIT, steps + more).db.jobs[k].status == Run(INIT, steps).db.jobs[k].status
  {
    RunEvolves(steps, more, k);
  }

  /** The write a step makes under its lease took effect, for this worker. */
  ghost predicate LeasedWrite(s: Sys, step: Step, worker: Id) {
    match step
    case IngestCommit(w, _, _, _) => w == worker && Commits(s, w)
    case IngestReady(w) => w == worker && Ingesting(s, w) && MarkReady(s.db, s.deliveries[w].record, w).Success?
    case DocumentDeletionDone(w) => w == worker && w in s.deliveries && s.deliveries[w].record.DeletionRecord?
      && DocumentDeletionReady(s.db, s.deliveries[w].record, w).Success?
    case ProjectDeletionDone(w) => w == worker && w in s.deliveries && s.deliveries[w].record.ProjectDeletionRecord?
      && ProjectDeletionReady(s.db, s.deliveries[w].record, w).Success?
    case _ => false
  }

  /** Fencing: content writes and completions take effect only for the job's most recent claimer. */
  lemma OnlyLastClaimerWrites(steps: seq<Step>, step: Step, worker: Id)
    requires LeasedWrite(Run(INIT, steps), step, worker)
    ensures var s := Run(INIT, steps);
            LastClaimer(s.claims, s.deliveries[worker].record.job) == Some(worker)
  {
    RunOk(steps);
  }

  predicate ActsAs(step: Step, worker: Id) {
    match step
    case IngestClaim(_, w, _) => w == worker
    case IngestLoad(w) => w == worker
    case IngestCommit(w, _, _, _) => w == worker
    case IngestReady(w) => w == worker
    case IngestRetry(w) => w == worker
    case IngestFail(w) => w == worker
    case DocumentDeletionClaim(_, w, _) => w == worker
    case DocumentDeletionDone(w) => w == worker
    case ProjectDeletionClaim(_, w, _) => w == worker
    case ProjectDeletionDone(w) => w == worker
    case DeletionRetry(w) => w == worker
    case DeletionFail(w) => w == worker
    case _ => false
  }

  ghost predicate Leased(db: Db, k: Id, owner: Id) {
    k in db.jobs && db.jobs[k].HeldBy(owner, db.now)
  }

  ghost predicate Untouched(s: Sys, s': Sys, k: Id)
    requires k in s.db.jobs
  {
    k in s'.db.jobs && s'.db.jobs[k] == s.db.jobs[k]
  }

  /**
   * The step finishes the deletion of the project the job belongs to: the delivery holds a live
   * lease on its own project deletion, and that project is still being deleted.
   */
  ghost predicate DropsProjectOf(s: Sys, step: Step, k: Id)
    requires k in s.db.jobs
  {
    && step.ProjectDeletionDone? && step.worker in s.deliveries && s.deliveries[step.worker].record.ProjectDeletionRecord?
    && var rec := s.deliveries[step.worker].record;
    && rec.job in s.db.jobs && s.db.jobs[rec.job].HeldBy(step.worker, s.db.now)
    && rec.project in s.db.projects && s.db.projects[rec.project].status.Deleting?
    && s.db.jobs[k].project == Some(rec.project)
  }

  lemma LeaseSurvivesDrop(s: Sys, worker: Id, k: Id, owner: Id)
    requires SysOk(s) && Leased(s.db, k, owner) && owner != worker
    requires LeasedWrite(s, ProjectDeletionDone(worker), worker)
    ensures var s' := Apply(s, ProjectDeletionDone(worker));
            && (Untouched(s, s', k) <==> !DropsProjectOf(s, ProjectDeletionDone(worker), k))
            && (DropsProjectOf(s, ProjectDeletionDone(worker), k) ==> k !in s'.db.jobs && s.db.jobs[k].kind.DeleteDocumentJob?)
  {
    var rec := s.deliveries[worker].record;
    assert RecordOk(s.db, rec);
    assert JobShape(s.db.jobs[k]) && JobRefs(s.db, s.db.jobs[k]);
    assert k != rec.job;
    if s.db.jobs[k].project == Some(rec.project) {
      assert !Conflicts(s.db.jobs[rec.job], s.db.jobs[k]);
    }
  }

  lemma LeaseSurvivesClaims(s: Sys, e: Event, worker: Id, lease: nat, k: Id, owner: Id)
    requires SysOk(s) && Leased(s.db, k, owner)
    ensures Untouched(s, DoIngestClaim(s, e, worker, lease), k)
  {
  }

  lemma LeaseSurvivesDeletionClaims(s: Sys, e: Event, worker: Id, lease: nat, k: Id, owner: Id)
    requires SysOk(s) && Leased(s.db, k, owner)
    ensures Untouched(s, DoDocumentDeletionClaim(s, e, worker, lease), k)
  {
  }

  lemma LeaseSurvivesProjectClaims(s: Sys, e: Event, worker: Id, lease: nat, k: Id, owner: Id)
    requires SysOk(s) && Leased(s.db, k, owner)
    ensures Untouched(s, DoProjectDeletionClaim(s, e, worker, lease), k)
  {
  }

  lemma LeaseSurvivesRequests(s: Sys, x: Id, k: Id, owner: Id)
    requires SysOk(s) && Leased(s.db, k, owner)
    ensures Untouched(s, Apply(s, NewProject), k) && Untouched(s, Apply(s, NewDocument(x)), k)
    ensures Untouched(s, Apply(s, AskIngestion(x)), k) && Untouched(s, Apply(s, Bootstrap(x)), k)
  {
    assert k < s.db.nextId;
  }

  lemma LeaseSurvivesDeletionRequests(s: Sys, x: Id, k: Id, owner: Id)
    requires SysOk(s) && Leased(s.db, k, owner)
    ensures Untouched(s, Apply(s, AskDocumentDeletion(x)), k)
    ensures Untouched(s, Apply(s, AskProjectDeletion(x)), k)
  {
    assert k < s.db.nextId;
    assert FailPendingOn(s.db.jobs, x)[k] == s.db.jobs[k];
    assert FailAbandonedIn(s.db.jobs, x, s.db.now)[k] == s.db.jobs[k];
  }

  lemma LeaseSurvivesWorkers(s: Sys, worker: Id, k: Id, owner: Id)
    requires SysOk(s) && Leased(s.db, k, owner) && owner != worker
    ensures Untouched(s, DoLoad(s, worker), k)
  {
  }

  lemma LeaseSurvivesReady(s: Sys, worker: Id, k: Id, owner: Id)
    requires SysOk(s) && Leased(s.db, k, owner) && owner != worker
    ensures Untouched(s, DoReady(s, worker), k)
  {
  }

  lemma LeaseSurvivesReports(s: Sys, worker: Id, k: Id, owner: Id)
    requires SysOk(s) && Leased(s.db, k, owner) && owner != worker
    ensures Untouched(s, Apply(s, IngestRetry(worker)), k) && Untouched(s, Apply(s, IngestFail(worker)), k)
  {
  }

  lemma LeaseSurvivesDeletionWorkers(s: Sys, worker: Id, k: Id, owner: Id)
    requires SysOk(s) && Leased(s.db, k, owner) && owner != worker
    ensures Untouched(s, DoDeletionRelease(s, worker, Pending), k) && Untouched(s, DoDeletionRelease(s, worker, Failed), k)
  {
  }

  lemma LeaseSurvivesDeletionDone(s: Sys, worker: Id, k: Id, owner: Id)
    requires SysOk(s) && Leased(s.db, k, owner) && owner != worker
    ensures Untouched(s, DoDocumentDeletionDone(s, worker), k)
  {
  }

  lemma LeaseSurvivesCommit(s: Sys, worker: Id, pages: seq<string>, chunks: seq<string>, compiled: Option<seq<Compiled>>, k: Id)
    requires k in s.db.jobs
    ensures Untouched(s, DoCommit(s, worker, pages, chunks, compiled), k)
  {
  }

  /**
   * While a lease is unexpired no step of anyone else changes that job's row, with
   * one exception that is exact: finishing the deletion of a project drops the rows
   * of its jobs, and of those only a document deletion can still be leased.
   */
  lemma LeaseIsExclusive(steps: seq<Step>, step: Step, k: Id, owner: Id)
    requires Leased(Run(INIT, steps).db, k, owner) && !ActsAs(step, owner)
    ensures var s, s' := Run(INIT, steps), Run(INIT, steps + [step]);
            && (Untouched(s, s', k) <==> !DropsProjectOf(s, step, k))
            && (DropsProjectOf(s, step, k) ==> k !in s'.db.jobs && s.db.jobs[k].kind.DeleteDocumentJob?)
  {
    RunOk(steps);
    RunStep(INIT, steps, step);
    var s := Run(INIT, steps);
    match step
    case Tick(_) =>
    case NewProject => LeaseSurvivesRequests(s, 0, k, owner);
    case NewDocument(p) => LeaseSurvivesRequests(s, p, k, owner);
    case AskIngestion(d) => LeaseSurvivesRequests(s, d, k, owner);
    case AskDocumentDeletion(d) => LeaseSurvivesDeletionRequests(s, d, k, owner);
    case AskProjectDeletion(p) => LeaseSurvivesDeletionRequests(s, p, k, owner);
    case Bootstrap(j) => LeaseSurvivesRequests(s, j, k, owner);
    case IngestClaim(e, w, lease) => LeaseSurvivesClaims(s, e, w, lease, k, owner);
    case DocumentDeletionClaim(e, w, lease) => LeaseSurvivesDeletionClaims(s, e, w, lease, k, owner);
    case ProjectDeletionClaim(e, w, lease) => LeaseSurvivesProjectClaims(s, e, w, lease, k, owner);
    case IngestCommit(w, pages, chunks, compiled) => LeaseSurvivesCommit(s, w, pages, chunks, compiled, k);
    case ProjectDeletionDone(w) =>
      if LeasedWrite(s, step, w) { LeaseSurvivesDrop(s, w, k, owner); }
    case IngestLoad(w) => LeaseSurvivesWorkers(s, w, k, owner);
    case IngestReady(w) => LeaseSurvivesReady(s, w, k, owner);
    case IngestRetry(w) => LeaseSurvivesReports(s, w, k, owner);
    case IngestFail(w) => LeaseSurvivesReports(s, w, k, owner);
    case DeletionRetry(w) => LeaseSurvivesDeletionWorkers(s, w, k, owner);
    case DeletionFail(w) => LeaseSurvivesDeletionWorkers(s, w, k, owner);
    case DocumentDeletionDone(w) => LeaseSurvivesDeletionDone(s, w, k, owner);
  }

  /** While a deletion job runs, no ingestion of its document, or of its project, is running. */
  lemma DeletionExcludesIngestion(steps: seq<Step>, k: Id, j: Id)
    requires var db := Run(INIT, steps).db;
             && k in db.jobs && j in db.jobs && db.jobs[k].status.Running? && db.jobs[j].kind.IngestJob?
             && ((db.jobs[k].kind.DeleteDocumentJob? && db.jobs[k].document == db.jobs[j].document)
                 || (db.jobs[k].kind.DeleteProjectJob? && db.jobs[k].project == db.jobs[j].project))
    ensures !Run(INIT, steps).db.jobs[j].status.Running?
  {
    RunOk(steps);
    var db := Run(INIT, steps).db;
    assert Conflicts(db.jobs[k], db.jobs[j]);
  }

  /** The event that asked for the deletion a delivery works on. */
  function EventOf(rec: Record): Event
    requires !rec.IngestionRecord?
  {
    Event(rec.job, rec.project, if rec.DeletionRecord? then rec.document else 0)
  }

  /** A new claim of the deletion would be granted. */
  predicate ClaimableAgain(db: Db, rec: Record) {
    match rec
    case IngestionRecord(_, _, _, _) => false
    case DeletionRecord(_, _, _, _) => DeletionClaimable(db, EventOf(rec))
    case ProjectDeletionRecord(_, _, _) => ProjectDeletionClaimable(db, EventOf(rec))
  }

  lemma ReleasedIsClaimable(db: Db, rec: Record, worker: Id)
    requires DbOk(db) && RecordOk(db, rec) && !rec.IngestionRecord?
    requires rec.job in db.jobs && db.jobs[rec.job].owner == Some(worker)
    ensures ClaimableAgain(ReleaseDeletion(db, rec, worker, Pending), rec)
  {
    var j := db.jobs[rec.job];
    assert JobShape(j) && JobRefs(db, j);
    forall k | k in db.jobs && db.jobs[k].status.Running? && db.jobs[k].kind.IngestJob?
      ensures !Conflicts(j, db.jobs[k])
    {
    }
  }

  /**
   * A retry report by the owner of a running deletion hands the deletion back: a claim is granted
   * at once, because no ingestion can have started in its scope; anyone else's report does nothing.
   */
  lemma RetriedDeletionIsClaimable(steps: seq<Step>, worker: Id)
    requires var s := Run(INIT, steps); worker in s.deliveries && !s.deliveries[worker].record.IngestionRecord?
    ensures var s, s' := Run(INIT, steps), Run(INIT, steps + [DeletionRetry(worker)]);
      var rec := s.deliveries[worker].record;
      if rec.job in s.db.jobs && s.db.jobs[rec.job].owner == Some(worker)
      then ClaimableAgain(s'.db, rec) && s'.db.jobs[rec.job].attempts == s.db.jobs[rec.job].attempts
      else s' == s
  {
    RunOk(steps);
    RunStep(INIT, steps, DeletionRetry(worker));
    var s := Run(INIT, steps);
    var rec := s.deliveries[worker].record;
    assert RecordOk(s.db, rec);
    if rec.job in s.db.jobs && s.db.jobs[rec.job].owner == Some(worker) {
      ReleasedIsClaimable(s.db, rec, worker);
    }
  }

  /** The document of `rec` can still be ingested: it is live and its project active. */
  ghost predicate StillWanted(db: Db, rec: Record)
    requires rec.IngestionRecord?
  {
    && rec.document in db.documents && !db.documents[rec.document].deleted && !db.documents[rec.document].status.Deleted?
    && rec.project in db.projects && db.projects[rec.project].status.Active?
  }

  /** What the owner's retry report makes of an ingestion. */
  ghost predicate HandedBack(db: Db, db': Db, rec: Record)
    requires rec.IngestionRecord? && rec.job in db.jobs && rec.job in db'.jobs
  {
    var j, j' := db.jobs[rec.job], db'.jobs[rec.job];
    && j'.owner == None && j'.expires == None && j'.attempts == j.attempts
    && j'.kind == j.kind && j'.project == j.project && j'.document == j.document
    && j'.status == (if StillWanted(db, rec) then Pending else Failed)
    && (StillWanted(db, rec) ==>
          (IngestClaimable(db', Event(rec.job, rec.project, rec.document)) <==>
            db.documents[rec.document].status !in {Ready, Expired}))
    && db' == db.(jobs := db.jobs[rec.job := j'])
  }

  /**
   * A retry report by the owner of a running ingestion hands it back: it is pending again, its
   * attempts kept, if and only if its document is live and its project active, and then a claim is
   * granted at once unless the document is ready or expired; otherwise it has failed for good.
   * Anyone else's report changes nothing.
   */
  lemma RetriedIngestion(steps: seq<Step>, worker: Id)
    ensures var s, s' := Run(INIT, steps), Run(INIT, steps + [IngestRetry(worker)]);
      if Ingesting(s, worker) && s.deliveries[worker].record.job in s.db.jobs
         && s.db.jobs[s.deliveries[worker].record.job].owner == Some(worker)
      then s'.deliveries == s.deliveries && s.deliveries[worker].record.job in s'.db.jobs
           && HandedBack(s.db, s'.db, s.deliveries[worker].record)
      else s' == s
  {
    RunOk(steps);
    RunStep(INIT, steps, IngestRetry(worker));
    var s := Run(INIT, steps);
    if Ingesting(s, worker) && s.deliveries[worker].record.job in s.db.jobs {
      var rec := s.deliveries[worker].record;
      assert RecordOk(s.db, rec);
      assert JobShape(s.db.jobs[rec.job]) && JobRefs(s.db, s.db.jobs[rec.job]);
    }
  }

  /** A document that is deleted, or whose row is gone, for good. */
  ghost predicate Dead(db: Db, d: Id) {
    d < db.nextId && (d in db.documents ==> db.documents[d].status.Deleted?)
  }

  lemma {:induction false} DeadStays(s: Sys, more: seq<Step>, d: Id)
    requires SysOk(s) && Dead(s.db, d)
    ensures SysOk(Run(s, more)) && Dead(Run(s, more).db, d)
  {
    if more != [] {
      DeadStays(s, more[..|more| - 1], d);
      ApplyOk(Run(s, more[..|more| - 1]), more[|more| - 1]);
    }
  }

  /** Status 'deleted' is never left, however the run goes on. */
  lemma DeletedIsFinal(steps: seq<Step>, more: seq<Step>, d: Id)
    requires d in Run(INIT, steps).db.documents && Run(INIT, steps).db.documents[d].status.Deleted?
    ensures var db := Run(INIT, steps + more).db; d in db.documents ==> db.documents[d].status.Deleted?
  {
    RunOk(steps);
    RunConcat(INIT, steps, more);
    DeadStays(Run(INIT, steps), more, d);
  }

  /** Only a commit adds page or chunk rows. */
  ghost predicate Shrinks(db: Db, db': Db) {
    && db'.pages <= db.pages
    && forall id :: id in db'.chunks ==> id in db.chunks && db'.chunks[id] == db.chunks[id]
  }

  lemma OthersShrink(s: Sys, step: Step)
    requires !step.IngestCommit?
    ensures Shrinks(s.db, Apply(s, step).db)
  {
  }

  lemma CommitSparesTheDead(s: Sys, worker: Id, pages: seq<string>, chunks: seq<string>, compiled: Option<seq<Compiled>>, d: Id)
    requires SysOk(s) && Dead(s.db, d) && EmptyDocument(s.db, d)
    ensures EmptyDocument(DoCommit(s, worker, pages, chunks, compiled).db, d)
  {
    if Commits(s, worker) {
      var rec, w := s.deliveries[worker].record, s.deliveries[worker].wiki.value;
      assert RecordOk(s.db, rec);
      assert d != rec.document;
      CommitLeavesOthersEmpty(s.db, rec, chunks, Queued(w, compiled), w.knowledge, Recovered(w, compiled), d);
    }
  }

  lemma {:induction false} DeadStaysEmpty(s: Sys, more: seq<Step>, d: Id)
    requires SysOk(s) && Dead(s.db, d) && EmptyDocument(s.db, d)
    ensures EmptyDocument(Run(s, more).db, d)
  {
    if more != [] {
      var init, step := more[..|more| - 1], more[|more| - 1];
      DeadStays(s, init, d);
      DeadStaysEmpty(s, init, d);
      var mid := Run(s, init);
      if step.IngestCommit? {
        CommitSparesTheDead(mid, step.worker, step.pages, step.chunks, step.compiled, d);
      } else {
        OthersShrink(mid, step);
      }
    }
  }

  /** Once a document's deletion has succeeded, its pages and chunks are empty in every later state. */
  lemma DeletedStaysEmpty(steps: seq<Step>, more: seq<Step>, k: Id)
    requires var s := Run(INIT, steps);
             k in s.db.jobs && s.db.jobs[k].kind.DeleteDocumentJob? && s.db.jobs[k].status.Succeeded?
    ensures Run(INIT, steps).db.jobs[k].document.Some?
    ensures EmptyDocument(Run(INIT, steps + more).db, Run(INIT, steps).db.jobs[k].document.value)
  {
    RunOk(steps);
    var s := Run(INIT, steps);
    assert JobShape(s.db.jobs[k]) && JobRefs(s.db, s.db.jobs[k]);
    var d := s.db.jobs[k].document.value;
    assert EmptyDocument(s.db, d);
    RunConcat(INIT, steps, more);
    DeadStaysEmpty(s, more, d);
  }

  /** The step is one of the two that take a live document out of 'ready'. */
  ghost predicate UnreadiesDocument(s: Sys, step: Step, d: Id)
    requires d in s.db.documents
  {
    match step
    case IngestFail(w) => Ingesting(s, w) && s.deliveries[w].record.document == d
    case AskDocumentDeletion(x) => x == d && ProjectActive(s.db, s.db.documents[d].project)
    case ProjectDeletionDone(w) => LeasedWrite(s, step, w)
                                   && s.db.documents[d].project == s.deliveries[w].record.project
    case _ => false
  }

  ghost predicate ReadyIn(db: Db, d: Id) {
    d in db.documents && db.documents[d].status.Ready?
  }

  lemma ReadyUnderRequests(s: Sys, step: Step, d: Id)
    requires SysOk(s) && ReadyIn(s.db, d)
    requires step.Tick? || step.NewProject? || step.NewDocument? || step.AskIngestion? || step.AskDocumentDeletion?
             || step.AskProjectDeletion? || step.Bootstrap?
    ensures ReadyIn(Apply(s, step).db, d) <==> !UnreadiesDocument(s, step, d)
  {
    assert d < s.db.nextId;
  }

  lemma ReadyUnderClaims(s: Sys, e: Event, worker: Id, lease: nat, d: Id)
    requires SysOk(s) && ReadyIn(s.db, d)
    ensures ReadyIn(DoIngestClaim(s, e, worker, lease).db, d)
    ensures ReadyIn(DoDocumentDeletionClaim(s, e, worker, lease).db, d)
    ensures ReadyIn(DoProjectDeletionClaim(s, e, worker, lease).db, d)
  {
    DeletionClaimsKeepDocuments(s, e, worker, lease);
  }

  lemma DeletionClaimsKeepDocuments(s: Sys, e: Event, worker: Id, lease: nat)
    ensures DoDocumentDeletionClaim(s, e, worker, lease).db.documents == s.db.documents
    ensures DoProjectDeletionClaim(s, e, worker, lease).db.documents == s.db.documents
  {
  }

  lemma ReadyUnderIngestion(s: Sys, step: Step, d: Id)
    requires SysOk(s) && ReadyIn(s.db, d)
    requires step.IngestLoad? || step.IngestReady? || step.IngestRetry? || step.IngestFail?
    ensures ReadyIn(Apply(s, step).db, d) <==> !UnreadiesDocument(s, step, d)
  {
  }

  lemma ReadyUnderCommit(s: Sys, worker: Id, pages: seq<string>, chunks: seq<string>, compiled: Option<seq<Compiled>>, d: Id)
    requires SysOk(s) && ReadyIn(s.db, d)
    ensures ReadyIn(DoCommit(s, worker, pages, chunks, compiled).db, d)
  {
    if Commits(s, worker) { assert RecordOk(s.db, s.deliveries[worker].record); }
  }

  lemma ReadyUnderDeletion(s: Sys, step: Step, d: Id)
    requires SysOk(s) && ReadyIn(s.db, d)
    requires step.DeletionRetry? || step.DeletionFail? || step.DocumentDeletionDone? || step.ProjectDeletionDone?
    ensures ReadyIn(Apply(s, step).db, d) <==> !UnreadiesDocument(s, step, d)
  {
  }

  /**
   * A ready document stays ready through every step except a deletion and, because
   * `mark_failed` checks no lease, a failure report by any delivery of that document.
   */
  lemma ReadyIsStable(steps: seq<Step>, step: Step, d: Id)
    requires ReadyIn(Run(INIT, steps).db, d)
    ensures ReadyIn(Run(INIT, steps + [step]).db, d) <==> !UnreadiesDocument(Run(INIT, steps), step, d)
  {
    RunOk(steps);
    RunStep(INIT, steps, step);
    var s := Run(INIT, steps);
    match step
    case IngestClaim(e, w, lease) => ReadyUnderClaims(s, e, w, lease, d);
    case DocumentDeletionClaim(e, w, lease) => ReadyUnderClaims(s, e, w, lease, d);
    case ProjectDeletionClaim(e, w, lease) => ReadyUnderClaims(s, e, w, lease, d);
    case IngestCommit(w, pages, chunks, compiled) => ReadyUnderCommit(s, w, pages, chunks, compiled, d);
    case IngestLoad(_) => ReadyUnderIngestion(s, step, d);
    case IngestReady(_) => ReadyUnderIngestion(s, step, d);
    case IngestRetry(_) => ReadyUnderIngestion(s, step, d);
    case IngestFail(_) => ReadyUnderIngestion(s, step, d);
    case DocumentDeletionDone(_) => ReadyUnderDeletion(s, step, d);
    case ProjectDeletionDone(_) => ReadyUnderDeletion(s, step, d);
    case DeletionRetry(_) => ReadyUnderDeletion(s, step, d);
    case DeletionFail(_) => ReadyUnderDeletion(s, step, d);
    case _ => ReadyUnderRequests(s, step, d);
  }
}
