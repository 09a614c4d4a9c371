/** Leases, fencing, exclusion and deletion over whole runs. */
module LeaseProofs {
  import opened Common
  import opened WikiMerge
  import opened Tables
  import opened IngestionStore
  import opened DeletionStores
  import opened Deliveries
  import opened LeaseInvariants

  function ClaimCount(claims: seq<ClaimEntry>, job: Id): nat {
    if claims == [] then 0
    else ClaimCount(claims[..|claims| - 1], job) + if claims[|claims| - 1].job == job then 1 else 0
  }

  function LastClaimer(claims: seq<ClaimEntry>, job: Id): Option<Id> {
    if claims == [] then None
    else if claims[|claims| - 1].job == job then Some(claims[|claims| - 1].worker)
    else LastClaimer(claims[..|claims| - 1], job)
  }

  predicate Closed(j: Job) { j.status.Succeeded? || j.status.Failed? }

  /** The row of one job before and after a step, which may have been the claim of that job. */
  ghost predicate JobEvolves(j: Job, j': Job, claimed: bool) {
    && j'.kind == j.kind
    && ((j'.document == j.document && j'.project == j.project) || (j'.kind.DeleteProjectJob? && j'.status.Succeeded?))
    && (Closed(j) ==> j'.status == j.status)
    && j'.attempts == j.attempts + (if claimed then 1 else 0)
    && (!claimed && j'.status.Running? ==> j' == j)
  }

  /** What every step does to the tables at most; `claimed` is the job it claimed, if any. */
  ghost predicate Evolves(db: Db, db': Db, claimed: Option<Id>) {
    && db.nextId <= db'.nextId && db.now <= db'.now
    && (forall k :: k in db'.jobs && k !in db.jobs ==>
          k >= db.nextId && db'.jobs[k].attempts == 0 && db'.jobs[k].status.Pending?)
    && (forall k :: k in db'.jobs && k in db.jobs ==> JobEvolves(db.jobs[k], db'.jobs[k], claimed == Some(k)))
    && (forall d :: d in db'.documents && d in db.documents ==>
          && db'.documents[d].project == db.documents[d].project
          && (db.documents[d].status.Deleted? ==> db'.documents[d].status.Deleted?))
    && (forall d :: d in db'.documents && d !in db.documents ==> d >= db.nextId)
  }

  /** A delivery's record agrees with the rows it was taken from, as long as they are there. */
  ghost predicate RecordOk(db: Db, rec: Record) {
    && rec.job < db.nextId && rec.project < db.nextId
    && (rec.job in db.jobs ==>
          var j := db.jobs[rec.job];
          match rec
          case IngestionRecord(_, p, d, _) => j.kind.IngestJob? && j.project == Some(p) && j.document == Some(d)
          case DeletionRecord(_, p, d, _) => j.kind.DeleteDocumentJob? && j.project == Some(p) && j.document == Some(d)
          case ProjectDeletionRecord(_, p, _) => j.kind.DeleteProjectJob? && (j.status.Succeeded? || j.project == Some(p)))
    && (!rec.ProjectDeletionRecord? ==>
          rec.document < db.nextId
          && (rec.document in db.documents ==> db.documents[rec.document].project == rec.project))
  }

  ghost predicate DeliveriesOk(s: Sys) {
    forall w :: w in s.deliveries ==> RecordOk(s.db, s.deliveries[w].record)
  }

  /** The claim log accounts for every attempt and names the holder of every lease. */
  ghost predicate ClaimsOk(s: Sys) {
    AttemptsOk(s.db.jobs, s.claims) && LogOk(s)
  }

  ghost predicate AttemptsOk(jobs: map<Id, Job>, claims: seq<ClaimEntry>) {
    forall k :: k in jobs ==>
      && jobs[k].attempts == ClaimCount(claims, k)
      && (jobs[k].status.Running? ==> jobs[k].owner == LastClaimer(claims, k))
  }

  ghost predicate LogOk(s: Sys) {
    && (forall c :: c in s.claims ==> c.job < s.db.nextId && c.worker in s.deliveries
                                      && s.deliveries[c.worker].record.job == c.job)
    && Distinct(s.claims)
  }

  ghost predicate SysOk(s: Sys) {
    DbOk(s.db) && DeliveriesOk(s) && ClaimsOk(s)
  }

  lemma {:induction false} NoClaims(claims: seq<ClaimEntry>, job: Id)
    requires forall c :: c in claims ==> c.job != job
    ensures ClaimCount(claims, job) == 0
  {
    if claims != [] {
      assert claims[|claims| - 1] in claims;
      NoClaims(claims[..|claims| - 1], job);
    }
  }

  /** The job a step claimed, read off the claim log. */
  function NewClaim(s: Sys, s': Sys): Option<Id> {
    if |s'.claims| == |s.claims| + 1 then Some(s'.claims[|s.claims|].job) else None
  }

  ghost predicate StepOk(s: Sys, s': Sys) {
    SysOk(s') && Evolves(s.db, s'.db, NewClaim(s, s'))
  }

  lemma Idle(s: Sys)
    requires SysOk(s)
    ensures StepOk(s, s)
  {
  }

  /** A step that is not a claim keeps the claim log and the records true. */
  lemma {:induction false} Settle(s: Sys, s': Sys)
    requires SysOk(s) && DbOk(s'.db) && Evolves(s.db, s'.db, None)
    requires s'.claims == s.claims && s'.deliveries.Keys == s.deliveries.Keys
    requires forall w :: w in s.deliveries ==> s'.deliveries[w].record == s.deliveries[w].record
    ensures StepOk(s, s')
  {
    forall k | k in s'.db.jobs
      ensures s'.db.jobs[k].attempts == ClaimCount(s'.claims, k)
      ensures s'.db.jobs[k].status.Running? ==> s'.db.jobs[k].owner == LastClaimer(s'.claims, k)
    {
      if k !in s.db.jobs { NoClaims(s.claims, k); }
    }
    forall w | w in s'.deliveries ensures RecordOk(s'.db, s'.deliveries[w].record) {
      assert RecordOk(s.db, s.deliveries[w].record);
      RecordPersists(s.db, s'.db, None, s.deliveries[w].record);
    }
  }

  lemma ClaimedAttempts(db: Db, db': Db, claims: seq<ClaimEntry>, c: ClaimEntry)
    requires AttemptsOk(db.jobs, claims) && Evolves(db, db', Some(c.job))
    requires forall x :: x in claims ==> x.job < db.nextId
    requires c.job in db.jobs && c.job in db'.jobs && db'.jobs[c.job].owner == Some(c.worker)
    ensures AttemptsOk(db'.jobs, claims + [c])
  {
    assert (claims + [c])[..|claims|] == claims;
    forall k | k in db'.jobs
      ensures db'.jobs[k].attempts == ClaimCount(claims + [c], k)
      ensures db'.jobs[k].status.Running? ==> db'.jobs[k].owner == LastClaimer(claims + [c], k)
    {
      if k !in db.jobs { NoClaims(claims, k); }
    }
  }

  /** A claim hands the job to its worker and is logged. */
  lemma {:induction false} SettleClaim(s: Sys, s': Sys, worker: Id, rec: Record)
    requires SysOk(s) && DbOk(s'.db) && Evolves(s.db, s'.db, Some(rec.job)) && worker !in s.deliveries
    requires rec.job in s.db.jobs && rec.job in s'.db.jobs && s'.db.jobs[rec.job].owner == Some(worker)
    requires RecordOk(s'.db, rec) && s' == Began(s, s'.db, worker, rec)
    ensures StepOk(s, s')
  {
    ClaimedAttempts(s.db, s'.db, s.claims, ClaimEntry(rec.job, worker));
    forall w | w in s'.deliveries ensures RecordOk(s'.db, s'.deliveries[w].record) {
      if w != worker {
        assert RecordOk(s.db, s.deliveries[w].record);
        RecordPersists(s.db, s'.db, Some(rec.job), s.deliveries[w].record);
      }
    }
    ClaimedLog(s, s', worker, rec);
  }

  lemma ClaimedLog(s: Sys, s': Sys, worker: Id, rec: Record)
    requires LogOk(s) && worker !in s.deliveries && rec.job < s'.db.nextId && s.db.nextId <= s'.db.nextId
    requires s' == Began(s, s'.db, worker, rec)
    ensures LogOk(s')
  {
    assert ClaimEntry(rec.job, worker) !in s.claims;
  }

  lemma RecordPersists(db: Db, db': Db, claimed: Option<Id>, rec: Record)
    requires RecordOk(db, rec) && Evolves(db, db', claimed)
    ensures RecordOk(db', rec)
  {
  }

  lemma QuietEvolves(db: Db, db': Db)
    requires DbOk(db) && Quieter(db.jobs, db'.jobs) && SameDocuments(db.documents, db'.documents)
    requires db.nextId == db'.nextId && db.now <= db'.now
    ensures Evolves(db, db', None)
  {
  }

  lemma IngestClaimEvolves(db: Db, e: Event, worker: Id, lease: nat)
    requires DbOk(db) && IngestClaimable(db, e)
    ensures Evolves(db, ClaimIngest(db, e, worker, lease), Some(e.job))
  {
  }

  lemma ReleaseThenClaimEvolves(db: Db, jobs: map<Id, Job>, k: Id, worker: Id, lease: nat)
    requires Quieter(db.jobs, jobs) && k in jobs && jobs[k].Claimable(db.now)
    ensures Evolves(db, db.(jobs := jobs[k := jobs[k].Claimed(worker, db.now, lease)]), Some(k))
  {
  }

  lemma {:induction false} DeletionClaimEvolves(db: Db, e: Event, worker: Id, lease: nat)
    requires DbOk(db)
    ensures var r := ClaimDeletion(db, e, worker, lease);
            r.Success? ==> Evolves(db, r.value.0, if r.value.1 then Some(e.job) else None)
  {
    var jobs := FailAbandonedOn(db.jobs, e.document, db.now);
    assert Quieter(db.jobs, jobs);
    if DeletionClaimable(db.(jobs := jobs), e) {
      ReleaseThenClaimEvolves(db, jobs, e.job, worker, lease);
    } else {
      QuietEvolves(db, db.(jobs := jobs));
    }
  }

  lemma ProjectDeletionClaimEvolves(db: Db, e: Event, worker: Id, lease: nat)
    requires DbOk(db)
    ensures var r := ClaimProjectDeletion(db, e, worker, lease);
            r.Success? ==> Evolves(db, r.value.0, if r.value.1 then Some(e.job) else None)
  {
    var jobs := FailAbandonedIn(db.jobs, e.project, db.now);
    assert Quieter(db.jobs, jobs);
    if ProjectDeletionClaimable(db.(jobs := jobs), e) {
      ReleaseThenClaimEvolves(db, jobs, e.job, worker, lease);
    } else {
      QuietEvolves(db, db.(jobs := jobs));
    }
  }

  lemma InsertEvolves(db: Db, db1: Db, j: Job)
    requires JobsOk(db) && Evolves(db, db1, None) && db1.nextId == db.nextId && db1.jobs.Keys == db.jobs.Keys
    requires j.attempts == 0 && j.status.Pending?
    ensures Evolves(db, InsertJob(db1, j), None)
  {
  }

  lemma CreateEvolves(db: Db, x: Id)
    requires DbOk(db)
    ensures Evolves(db, CreateProject(db), None) && Evolves(db, CreateDocument(db, x), None)
  {
  }

  lemma RequestIngestionEvolves(db: Db, d: Id)
    requires DbOk(db)
    ensures Evolves(db, RequestIngestion(db, d), None)
  {
  }

  lemma RequestProjectDeletionEvolves(db: Db, p: Id)
    requires DbOk(db)
    ensures Evolves(db, RequestProjectDeletion(db, p), None)
  {
    if p in db.projects {
      var db1 := db.(projects := db.projects[p := db.projects[p].(status := Deleting)],
                     jobs := FailAbandonedIn(db.jobs, p, db.now));
      QuietEvolves(db, db1);
      InsertEvolves(db, db1, NewJob(DeleteProjectJob, Some(p), None));
    }
  }

  lemma RequestDocumentDeletionEvolves(db: Db, d: Id)
    requires DbOk(db)
    ensures Evolves(db, RequestDocumentDeletion(db, d), None)
  {
    if d in db.documents && ProjectActive(db, db.documents[d].project) {
      var p := db.documents[d].project;
      var db1 := db.(jobs := FailPendingOn(db.jobs, d));
      QuietEvolves(db, db1);
      var db2 := db1.(documents := if db.documents[d].deleted then db.documents
                                   else db.documents[d := Document(p, Deleted, true)]);
      DeleteEvolves(db, db1, db2, d);
      InsertEvolves(db, db2, NewJob(DeleteDocumentJob, Some(p), Some(d)));
    }
  }

  lemma DeleteEvolves(db: Db, db1: Db, db2: Db, d: Id)
    requires Evolves(db, db1, None) && db2.jobs == db1.jobs && db2.nextId == db1.nextId && db2.now == db1.now
    requires db1.documents == db.documents && d in db.documents
    requires db2.documents == db.documents || db2.documents == db.documents[d := Document(db.documents[d].project, Deleted, true)]
    ensures Evolves(db, db2, None)
  {
  }

  lemma DocumentDeletionEvolves(db: Db, rec: Record, worker: Id)
    requires DbOk(db) && rec.DeletionRecord? && DocumentDeletionReady(db, rec, worker).Success?
    ensures Evolves(db, DocumentDeletionReady(db, rec, worker).value, None)
  {
  }

  lemma ProjectDeletionEvolves(db: Db, rec: Record, worker: Id)
    requires DbOk(db) && rec.ProjectDeletionRecord? && ProjectDeletionReady(db, rec, worker).Success?
    requires db.jobs[rec.job].kind.DeleteProjectJob?
    ensures Evolves(db, ProjectDeletionReady(db, rec, worker).value, None)
  {
    var db' := ProjectDeletionReady(db, rec, worker).value;
    forall k | k in db'.jobs ensures k in db.jobs && JobEvolves(db.jobs[k], db'.jobs[k], false) {
      if k != rec.job { assert db'.jobs[k] == db.jobs[k]; }
    }
  }

  lemma {:induction false} ClaimStepsOk(s: Sys, e: Event, worker: Id, lease: nat)
    requires SysOk(s)
    ensures StepOk(s, DoIngestClaim(s, e, worker, lease))
  {
    Idle(s);
    if worker !in s.deliveries && IngestClaimable(s.db, e) {
      var s' := DoIngestClaim(s, e, worker, lease);
      ClaimIngestOk(s.db, e, worker, lease);
      IngestClaimEvolves(s.db, e, worker, lease);
      assert JobRefs(s.db, s.db.jobs[e.job]);
      SettleClaim(s, s', worker, s'.deliveries[worker].record);
    }
  }

  lemma {:induction false} DocumentDeletionClaimOk(s: Sys, e: Event, worker: Id, lease: nat)
    requires SysOk(s)
    ensures StepOk(s, DoDocumentDeletionClaim(s, e, worker, lease))
  {
    Idle(s);
    var r := ClaimDeletion(s.db, e, worker, lease);
    if worker !in s.deliveries && r.Success? {
      var s' := DoDocumentDeletionClaim(s, e, worker, lease);
      ClaimDeletionOk(s.db, e, worker, lease);
      DeletionClaimEvolves(s.db, e, worker, lease);
      if r.value.1 {
        assert JobRefs(s'.db, s'.db.jobs[e.job]);
        SettleClaim(s, s', worker, s'.deliveries[worker].record);
      } else {
        Settle(s, s');
      }
    }
  }

  lemma {:induction false} ProjectDeletionClaimOk(s: Sys, e: Event, worker: Id, lease: nat)
    requires SysOk(s)
    ensures StepOk(s, DoProjectDeletionClaim(s, e, worker, lease))
  {
    Idle(s);
    var r := ClaimProjectDeletion(s.db, e, worker, lease);
    if worker !in s.deliveries && r.Success? {
      var s' := DoProjectDeletionClaim(s, e, worker, lease);
      LeaseInvariants.ClaimProjectDeletionOk(s.db, e, worker, lease);
      ProjectDeletionClaimEvolves(s.db, e, worker, lease);
      if r.value.1 {
        assert JobRefs(s'.db, s'.db.jobs[e.job]);
        SettleClaim(s, s', worker, s'.deliveries[worker].record);
      } else {
        Settle(s, s');
      }
    }
  }

  lemma {:induction false} CommitOk(s: Sys, worker: Id, pages: seq<string>, chunks: seq<string>, compiled: Option<seq<Compiled>>)
    requires SysOk(s)
    ensures StepOk(s, DoCommit(s, worker, pages, chunks, compiled))
  {
    Idle(s);
    if Commits(s, worker) {
      var rec, w := s.deliveries[worker].record, s.deliveries[worker].wiki.value;
      assert RecordOk(s.db, rec);
      ReplaceContentOk(s.db, rec, worker, pages, chunks, Queued(w, compiled), w.knowledge, Recovered(w, compiled));
      var s' := DoCommit(s, worker, pages, chunks, compiled);
      assert SameDocuments(s.db.documents, s'.db.documents);
      QuietEvolves(s.db, s'.db);
      Settle(s, s');
    }
  }

  lemma {:induction false} ReadyOk(s: Sys, worker: Id)
    requires SysOk(s)
    ensures StepOk(s, DoReady(s, worker))
  {
    Idle(s);
    if Ingesting(s, worker) && MarkReady(s.db, s.deliveries[worker].record, worker).Success? {
      var rec := s.deliveries[worker].record;
      assert RecordOk(s.db, rec);
      MarkReadyOk(s.db, rec, worker);
      QuietEvolves(s.db, DoReady(s, worker).db);
      Settle(s, DoReady(s, worker));
    }
  }

  lemma {:induction false} RetryOk(s: Sys, worker: Id)
    requires SysOk(s) && Ingesting(s, worker)
    ensures StepOk(s, s.(db := MarkRetryable(s.db, s.deliveries[worker].record, worker)))
  {
    var rec := s.deliveries[worker].record;
    MarkRetryableOk(s.db, rec, worker);
    if rec.job in s.db.jobs { assert JobShape(s.db.jobs[rec.job]); }
    QuietEvolves(s.db, MarkRetryable(s.db, rec, worker));
    Settle(s, s.(db := MarkRetryable(s.db, rec, worker)));
  }

  lemma {:induction false} FailOk(s: Sys, worker: Id)
    requires SysOk(s) && Ingesting(s, worker)
    ensures StepOk(s, s.(db := MarkFailed(s.db, s.deliveries[worker].record, worker)))
  {
    var rec := s.deliveries[worker].record;
    MarkFailedOk(s.db, rec, worker);
    if rec.job in s.db.jobs { assert JobShape(s.db.jobs[rec.job]); }
    QuietEvolves(s.db, MarkFailed(s.db, rec, worker));
    Settle(s, s.(db := MarkFailed(s.db, rec, worker)));
  }

  lemma {:induction false} DeletionReleaseOk(s: Sys, worker: Id, outcome: JobStatus)
    requires SysOk(s) && outcome in {Pending, Failed}
    ensures StepOk(s, DoDeletionRelease(s, worker, outcome))
  {
    Idle(s);
    if worker in s.deliveries && !s.deliveries[worker].record.IngestionRecord? {
      var rec := s.deliveries[worker].record;
      ReleaseDeletionOk(s.db, rec, worker, outcome);
      if rec.job in s.db.jobs { assert JobShape(s.db.jobs[rec.job]); }
      QuietEvolves(s.db, ReleaseDeletion(s.db, rec, worker, outcome));
      Settle(s, DoDeletionRelease(s, worker, outcome));
    }
  }

  lemma {:induction false} DocumentDeletionDoneOk(s: Sys, worker: Id)
    requires SysOk(s)
    ensures StepOk(s, DoDocumentDeletionDone(s, worker))
  {
    Idle(s);
    if worker in s.deliveries && s.deliveries[worker].record.DeletionRecord? {
      var rec := s.deliveries[worker].record;
      assert RecordOk(s.db, rec);
      if DocumentDeletionReady(s.db, rec, worker).Success? {
        DocumentDeletionReadyOk(s.db, rec, worker);
        DocumentDeletionEvolves(s.db, rec, worker);
        Settle(s, DoDocumentDeletionDone(s, worker));
      }
    }
  }

  lemma {:induction false} ProjectDeletionDoneOk(s: Sys, worker: Id)
    requires SysOk(s)
    ensures StepOk(s, DoProjectDeletionDone(s, worker))
  {
    Idle(s);
    if worker in s.deliveries && s.deliveries[worker].record.ProjectDeletionRecord? {
      var rec := s.deliveries[worker].record;
      assert RecordOk(s.db, rec);
      if ProjectDeletionReady(s.db, rec, worker).Success? {
        ProjectDeletionReadyOk(s.db, rec, worker);
        ProjectDeletionEvolves(s.db, rec, worker);
        Settle(s, DoProjectDeletionDone(s, worker));
      }
    }
  }

  lemma {:induction false} RequestOk(s: Sys, db': Db, history': map<Id, seq<Batch>>)
    requires SysOk(s) && DbOk(db') && Evolves(s.db, db', None)
    ensures StepOk(s, s.(db := db', history := history'))
  {
    Settle(s, s.(db := db', history := history'));
  }

  lemma TickOk(s: Sys, seconds: nat)
    requires SysOk(s)
    ensures StepOk(s, Apply(s, Tick(seconds)))
  {
    var s' := Apply(s, Tick(seconds));
    QuietStep(s.db, s'.db);
    QuietEvolves(s.db, s'.db);
    Settle(s, s');
  }

  lemma {:induction false} CreateStepsOk(s: Sys, p: Id)
    requires SysOk(s)
    ensures StepOk(s, Apply(s, NewProject)) && StepOk(s, Apply(s, NewDocument(p)))
  {
    CreateEvolves(s.db, p);
    CreateProjectOk(s.db);
    RequestOk(s, CreateProject(s.db), s.history[s.db.nextId := []]);
    CreateDocumentOk(s.db, p);
    RequestOk(s, CreateDocument(s.db, p), s.history);
  }

  lemma {:induction false} RequestStepsOk(s: Sys, x: Id)
    requires SysOk(s)
    ensures StepOk(s, Apply(s, AskIngestion(x))) && StepOk(s, Apply(s, AskDocumentDeletion(x)))
    ensures StepOk(s, Apply(s, AskProjectDeletion(x)))
  {
    RequestIngestionOk(s.db, x);
    RequestIngestionEvolves(s.db, x);
    RequestOk(s, RequestIngestion(s.db, x), s.history);
    RequestDocumentDeletionOk(s.db, x);
    RequestDocumentDeletionEvolves(s.db, x);
    RequestOk(s, RequestDocumentDeletion(s.db, x), s.history);
    RequestProjectDeletionOk(s.db, x);
    RequestProjectDeletionEvolves(s.db, x);
    RequestOk(s, RequestProjectDeletion(s.db, x), s.history);
  }

  lemma {:induction false} BootstrapOk(s: Sys, job: Id)
    requires SysOk(s)
    ensures StepOk(s, Apply(s, Bootstrap(job)))
  {
    BootstrapFailedOk(s.db, job);
    BootstrapQuiet(s.db, job);
    QuietEvolves(s.db, BootstrapFailed(s.db, job));
    RequestOk(s, BootstrapFailed(s.db, job), s.history);
  }

  lemma {:induction false} LoadOk(s: Sys, worker: Id)
    requires SysOk(s)
    ensures StepOk(s, DoLoad(s, worker))
  {
    Settle(s, DoLoad(s, worker));
  }

  lemma {:induction false} ApplyOk(s: Sys, step: Step)
    requires SysOk(s)
    ensures StepOk(s, Apply(s, step))
  {
    Idle(s);
    match step
    case Tick(seconds) => TickOk(s, seconds);
    case NewProject => CreateStepsOk(s, 0);
    case NewDocument(p) => CreateStepsOk(s, p);
    case AskIngestion(d) => RequestStepsOk(s, d);
    case AskDocumentDeletion(d) => RequestStepsOk(s, d);
    case AskProjectDeletion(p) => RequestStepsOk(s, p);
    case IngestClaim(e, w, lease) => ClaimStepsOk(s, e, w, lease);
    case IngestLoad(w) => LoadOk(s, w);
    case IngestCommit(w, pages, chunks, compiled) => CommitOk(s, w, pages, chunks, compiled);
    case IngestReady(w) => ReadyOk(s, w);
    case IngestRetry(w) => if Ingesting(s, w) { RetryOk(s, w); }
    case IngestFail(w) => if Ingesting(s, w) { FailOk(s, w); }
    case DocumentDeletionClaim(e, w, lease) => DocumentDeletionClaimOk(s, e, w, lease);
    case DocumentDeletionDone(w) => DocumentDeletionDoneOk(s, w);
    case ProjectDeletionClaim(e, w, lease) => ProjectDeletionClaimOk(s, e, w, lease);
    case ProjectDeletionDone(w) => ProjectDeletionDoneOk(s, w);
    case DeletionRetry(w) => DeletionReleaseOk(s, w, Pending);
    case DeletionFail(w) => DeletionReleaseOk(s, w, Failed);
    case Bootstrap(job) => BootstrapOk(s, job);
  }

  /** Every reachable state satisfies the invariant. */
  lemma {:induction false} RunOk(steps: seq<Step>)
    ensures SysOk(Run(INIT, steps))
  {
    if steps != [] {
      RunOk(steps[..|steps| - 1]);
      ApplyOk(Run(INIT, steps[..|steps| - 1]), steps[|steps| - 1]);
    }
  }
}
