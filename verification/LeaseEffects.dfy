/**
 * What requests and reports do to the rows, over every reachable state and in the caller's
 * terms: which rows a commit, a completion, a request or the end of a deletion leaves.
 */
module LeaseEffects {
  import opened Common
  import opened Tables
  import opened IngestionStore
  import opened DeletionStores
  import opened Deliveries
  import opened LeaseInvariants
  import opened LeaseProofs
  import Coverage

  // ---- ingestion ----

  /** The delivery may write: own unexpired lease, live document in an active project. */
  ghost predicate MayWrite(s: Sys, worker: Id) {
    && worker in s.deliveries && s.deliveries[worker].record.IngestionRecord?
    && var rec := s.deliveries[worker].record;
    && rec.job in s.db.jobs && s.db.jobs[rec.job].status.Running? && s.db.jobs[rec.job].owner == Some(worker)
    && s.db.jobs[rec.job].expires.Some? && s.db.jobs[rec.job].expires.value > s.db.now
    && rec.document in s.db.documents && !s.db.documents[rec.document].deleted
    && rec.project in s.db.projects && s.db.projects[rec.project].status.Active?
  }

  lemma MayWriteIs(s: Sys, worker: Id, allowed: set<DocumentStatus>)
    requires SysOk(s) && Ingesting(s, worker)
    ensures var rec := s.deliveries[worker].record;
      Runnable(s.db, rec.job, worker, allowed) <==> MayWrite(s, worker) && s.db.documents[rec.document].status in allowed
  {
    var rec := s.deliveries[worker].record;
    assert RecordOk(s.db, rec);
  }

  /** The stored document is exactly what was committed: its pages and its raw chunks, stamped with the new generation. */
  ghost predicate Stores(db: Db, db': Db, d: Id, p: Id, pages: seq<string>, chunks: seq<string>)
    requires p in db.projects
  {
    && (forall r :: r in db'.pages <==>
          if r.document == d then r.index < |pages| && r.text == pages[r.index] else r in db.pages)
    && (forall id: ChunkId :: id.RawId? && id.document == d ==>
          (id in db'.chunks <==> id.index < |chunks| && id.text == chunks[id.index])
          && (id in db'.chunks ==> db'.chunks[id] == Chunk(p, Some(d), id.text, [], db.projects[p].knowledge + 1)))
    && (forall id: ChunkId :: id.RawId? && id.document != d ==>
          (id in db'.chunks <==> id in db.chunks) && (id in db'.chunks ==> db'.chunks[id] == db.chunks[id]))
  }

  lemma RawRowIs(p: Id, d: Id, texts: seq<string>, generation: nat, id: ChunkId)
    ensures id in RawRows(p, d, texts, generation) <==>
      id.RawId? && id.document == d && id.index < |texts| && id.text == texts[id.index]
    ensures id in RawRows(p, d, texts, generation) ==>
      RawRows(p, d, texts, generation)[id] == Chunk(p, Some(d), id.text, [], generation)
  {
    if id.RawId? && id.document == d && id.index < |texts| && id.text == texts[id.index] {
      var i := id.index;
      assert id == RawId(d, i, texts[i]);
    }
  }

  lemma PageRowIs(d: Id, texts: seq<string>, r: PageRow)
    ensures r in PageRows(d, texts) <==> r.document == d && r.index < |texts| && r.text == texts[r.index]
  {
    if r.document == d && r.index < |texts| && r.text == texts[r.index] {
      var i := r.index;
      assert r == PageRow(d, i, texts[i]);
    }
  }

  /**
   * A commit takes effect exactly for a delivery that may write and has loaded the Wiki; it then
   * stores exactly the document's pages and raw chunks under the next generation, leaves every
   * other document's alone, and marks the document indexing.  Otherwise nothing changes.
   */
  lemma CommitStoresTheDocument(steps: seq<Step>, worker: Id, pages: seq<string>, chunks: seq<string>,
                                compiled: Option<seq<WikiMerge.Compiled>>)
    ensures var s, s' := Run(INIT, steps), Run(INIT, steps + [IngestCommit(worker, pages, chunks, compiled)]);
      if MayCommit(s, worker) then CommittedInto(s, s', s.deliveries[worker].record, pages, chunks) else s' == s
  {
    RunOk(steps);
    Coverage.RunCovered(steps);
    RunStep(INIT, steps, IngestCommit(worker, pages, chunks, compiled));
    CommitOutcome(Run(INIT, steps), worker, pages, chunks, compiled);
  }

  /** The delivery may write, has loaded the Wiki, and its document is neither ready nor expired. */
  ghost predicate MayCommit(s: Sys, worker: Id) {
    && MayWrite(s, worker) && s.deliveries[worker].wiki.Some?
    && s.db.documents[s.deliveries[worker].record.document].status in {Uploaded, Parsing, Parsed, Indexing, DocumentFailed}
  }

  lemma MayCommitIs(s: Sys, worker: Id)
    requires SysOk(s)
    ensures Commits(s, worker) <==> MayCommit(s, worker)
  {
    if Ingesting(s, worker) {
      MayWriteIs(s, worker, WRITABLE);
    }
  }

  lemma CommitOutcome(s: Sys, worker: Id, pages: seq<string>, chunks: seq<string>, compiled: Option<seq<WikiMerge.Compiled>>)
    requires SysOk(s) && Coverage.CoverageOk(s)
    ensures var s' := DoCommit(s, worker, pages, chunks, compiled);
      if MayCommit(s, worker) then CommittedInto(s, s', s.deliveries[worker].record, pages, chunks) else s' == s
  {
    MayCommitIs(s, worker);
    if Commits(s, worker) {
      CommitTakesEffect(s, worker, pages, chunks, compiled);
    }
  }

  /** The state after a commit that took effect. */
  ghost predicate CommittedInto(s: Sys, s': Sys, rec: Record, pages: seq<string>, chunks: seq<string>)
    requires rec.IngestionRecord? && rec.project in s.db.projects && rec.document in s.db.documents
  {
    && Stores(s.db, s'.db, rec.document, rec.project, pages, chunks)
    && s'.db.documents == s.db.documents[rec.document := s.db.documents[rec.document].(status := Indexing)]
    && s'.db.jobs == s.db.jobs && s'.deliveries == s.deliveries
    && s'.db.projects.Keys == s.db.projects.Keys
    && s'.db.projects[rec.project].knowledge == s.db.projects[rec.project].knowledge + 1
    && forall p :: p in s.db.projects && p != rec.project ==> s'.db.projects[p] == s.db.projects[p]
  }

  lemma CommitTakesEffect(s: Sys, worker: Id, pages: seq<string>, chunks: seq<string>, compiled: Option<seq<WikiMerge.Compiled>>)
    requires SysOk(s) && Coverage.CoverageOk(s) && Commits(s, worker)
    ensures CommittedInto(s, DoCommit(s, worker, pages, chunks, compiled), s.deliveries[worker].record, pages, chunks)
  {
    CommitStores(s, worker, pages, chunks, compiled);
    CommitLeavesTheRest(s, worker, pages, chunks, compiled);
  }

  lemma CommitLeavesTheRest(s: Sys, worker: Id, pages: seq<string>, chunks: seq<string>, compiled: Option<seq<WikiMerge.Compiled>>)
    requires SysOk(s) && Commits(s, worker)
    ensures var s', rec := DoCommit(s, worker, pages, chunks, compiled), s.deliveries[worker].record;
      && rec.document in s.db.documents
      && s'.db.documents == s.db.documents[rec.document := s.db.documents[rec.document].(status := Indexing)]
      && s'.db.jobs == s.db.jobs && s'.deliveries == s.deliveries
      && s'.db.projects.Keys == s.db.projects.Keys
      && s'.db.projects[rec.project].knowledge == s.db.projects[rec.project].knowledge + 1
      && forall p :: p in s.db.projects && p != rec.project ==> s'.db.projects[p] == s.db.projects[p]
  {
    MayCommitIs(s, worker);
    assert RecordOk(s.db, s.deliveries[worker].record);
  }

  lemma CommitStores(s: Sys, worker: Id, pages: seq<string>, chunks: seq<string>, compiled: Option<seq<WikiMerge.Compiled>>)
    requires SysOk(s) && Coverage.CoverageOk(s) && Commits(s, worker)
    ensures var rec := s.deliveries[worker].record;
      Stores(s.db, DoCommit(s, worker, pages, chunks, compiled).db, rec.document, rec.project, pages, chunks)
  {
    var rec, w := s.deliveries[worker].record, s.deliveries[worker].wiki.value;
    var db' := DoCommit(s, worker, pages, chunks, compiled).db;
    forall r
      ensures r in db'.pages <==>
        if r.document == rec.document then r.index < |pages| && r.text == pages[r.index] else r in s.db.pages
    {
      PageRowIs(rec.document, pages, r);
    }
    forall id | id in s.db.chunks && id.RawId?
      ensures s.db.chunks[id].document == Some(id.document)
    {
      assert Coverage.ChunkOk(s.db, id);
    }
    CommitChunkRows(s.db, rec, chunks, Queued(w, compiled), w.knowledge, Recovered(w, compiled));
  }

  lemma CommitChunkRows(db: Db, rec: Record, chunks: seq<string>, wiki: Option<seq<WikiMerge.Compiled>>, base: nat, recovered: Option<nat>)
    requires rec.IngestionRecord? && rec.project in db.projects
    requires forall id :: id in db.chunks && id.RawId? ==> db.chunks[id].document == Some(id.document)
    ensures var t, d, g := CommitChunks(db, rec, chunks, wiki, base, recovered), rec.document, db.projects[rec.project].knowledge + 1;
      && (forall id: ChunkId :: id.RawId? && id.document == d ==>
            (id in t <==> id.index < |chunks| && id.text == chunks[id.index])
            && (id in t ==> t[id] == Chunk(rec.project, Some(d), id.text, [], g)))
      && (forall id: ChunkId :: id.RawId? && id.document != d ==>
            (id in t <==> id in db.chunks) && (id in t ==> t[id] == db.chunks[id]))
  {
    var g := db.projects[rec.project].knowledge + 1;
    var raw := DropRaw(db.chunks, rec.document) + RawRows(rec.project, rec.document, chunks, g);
    forall id: ChunkId | id.RawId?
      ensures id in raw <==> id in CommitChunks(db, rec, chunks, wiki, base, recovered)
      ensures id in raw ==> raw[id] == CommitChunks(db, rec, chunks, wiki, base, recovered)[id]
    {
      if ApplyWiki(db.projects[rec.project], wiki, base, recovered) {
        WritePagesKeepsRaw(raw, rec.project, g, wiki.value, id);
      }
    }
    forall id: ChunkId
      ensures id in RawRows(rec.project, rec.document, chunks, g) <==>
        id.RawId? && id.document == rec.document && id.index < |chunks| && id.text == chunks[id.index]
      ensures id in RawRows(rec.project, rec.document, chunks, g) ==>
        RawRows(rec.project, rec.document, chunks, g)[id] == Chunk(rec.project, Some(rec.document), id.text, [], g)
    {
      RawRowIs(rec.project, rec.document, chunks, g, id);
    }
  }

  /**
   * A completion takes effect exactly for a delivery that may write and whose document is indexing:
   * the job succeeds without an owner and the document is ready.
   */
  lemma CompletionMakesReady(steps: seq<Step>, worker: Id)
    ensures var s, s' := Run(INIT, steps), Run(INIT, steps + [IngestReady(worker)]);
      if MayWrite(s, worker) && s.db.documents[s.deliveries[worker].record.document].status.Indexing?
      then
        var rec := s.deliveries[worker].record;
        s' == s.(db := s.db.(
          jobs := s.db.jobs[rec.job := s.db.jobs[rec.job].(status := Succeeded, owner := None, expires := None)],
          documents := s.db.documents[rec.document := s.db.documents[rec.document].(status := Ready)]))
      else s' == s
  {
    RunOk(steps);
    RunStep(INIT, steps, IngestReady(worker));
    var s := Run(INIT, steps);
    if Ingesting(s, worker) {
      MayWriteIs(s, worker, {Indexing});
      assert RecordOk(s.db, s.deliveries[worker].record);
    }
  }

  /**
   * A failure report fails the job only when its delivery still owns it; it fails the document
   * of anyone, as long as that is not deleted.
   */
  lemma FailureReportFails(steps: seq<Step>, worker: Id)
    requires Ingesting(Run(INIT, steps), worker)
    ensures var s, s' := Run(INIT, steps), Run(INIT, steps + [IngestFail(worker)]);
      var rec := s.deliveries[worker].record;
      && s'.db.jobs == (if rec.job in s.db.jobs && s.db.jobs[rec.job].owner == Some(worker)
                        then s.db.jobs[rec.job := s.db.jobs[rec.job].(status := Failed, owner := None, expires := None)]
                        else s.db.jobs)
      && s'.db.documents == (if rec.document in s.db.documents && !s.db.documents[rec.document].status.Deleted?
                             then s.db.documents[rec.document := s.db.documents[rec.document].(status := DocumentFailed)]
                             else s.db.documents)
      && s' == s.(db := s.db.(jobs := s'.db.jobs, documents := s'.db.documents))
  {
    RunOk(steps);
    RunStep(INIT, steps, IngestFail(worker));
  }

  /**
   * A claim takes effect exactly for a pending or expired ingestion of a live document, neither
   * ready nor expired, in an active project, by a worker not seen before: the worker gets a lease
   * of the seconds asked for and the document is being parsed.
   */
  lemma ClaimStartsParsing(steps: seq<Step>, e: Event, worker: Id, lease: nat)
    ensures var s, s' := Run(INIT, steps), Run(INIT, steps + [IngestClaim(e, worker, lease)]);
      if worker !in s.deliveries && e.job in s.db.jobs && e.document in s.db.documents && e.project in s.db.projects
         && s.db.jobs[e.job].kind.IngestJob?
         && s.db.jobs[e.job].project == Some(e.project) && s.db.jobs[e.job].document == Some(e.document)
         && (s.db.jobs[e.job].status.Pending?
             || (s.db.jobs[e.job].status.Running? && s.db.jobs[e.job].expires.Some? && s.db.jobs[e.job].expires.value < s.db.now))
         && s.db.documents[e.document].status !in {Deleted, Expired, Ready} && s.db.projects[e.project].status.Active?
      then
        && s'.db == s.db.(
             jobs := s.db.jobs[e.job := Job(IngestJob, Some(e.project), Some(e.document), Running, s.db.jobs[e.job].attempts + 1,
                                            Some(worker), Some(s.db.now + lease))],
             documents := s.db.documents[e.document := s.db.documents[e.document].(status := Parsing)])
        && s'.deliveries == s.deliveries[worker :=
             Delivery(IngestionRecord(e.job, e.project, e.document, s.db.jobs[e.job].attempts + 1), None)]
      else s' == s
  {
    RunOk(steps);
    RunStep(INIT, steps, IngestClaim(e, worker, lease));
    var s := Run(INIT, steps);
    if e.job in s.db.jobs {
      assert JobShape(s.db.jobs[e.job]) && JobRefs(s.db, s.db.jobs[e.job]);
    }
  }

  /**
   * When its worker cannot even be built, a job that is pending or expired fails, and with an
   * ingestion the document that was still on its way; a job under a live lease is left alone.
   */
  lemma BootstrapFailureFails(steps: seq<Step>, job: Id)
    ensures var s, s' := Run(INIT, steps), Run(INIT, steps + [Bootstrap(job)]);
      if job in s.db.jobs
         && (s.db.jobs[job].status.Pending?
             || (s.db.jobs[job].status.Running? && s.db.jobs[job].expires.Some? && s.db.jobs[job].expires.value < s.db.now))
      then
        var j := s.db.jobs[job];
        && s'.db.jobs == s.db.jobs[job := j.(status := Failed, owner := None, expires := None)]
        && s'.db.documents == (if j.kind.IngestJob? && j.document.Some? && j.document.value in s.db.documents
                                  && s.db.documents[j.document.value].status in {Uploaded, Parsing, Parsed, Indexing}
                               then s.db.documents[j.document.value := s.db.documents[j.document.value].(status := DocumentFailed)]
                               else s.db.documents)
        && s' == s.(db := s.db.(jobs := s'.db.jobs, documents := s'.db.documents))
      else s' == s
  {
    RunStep(INIT, steps, Bootstrap(job));
  }

  // ---- requests ----

  /**
   * Asking for an ingestion is answered exactly for an uploaded or failed document of an active
   * project: the document is being parsed and its new job, under an identifier nothing had
   * before, can be claimed at once.
   */
  lemma RequestedIngestionIsClaimable(steps: seq<Step>, d: Id)
    ensures var s, s' := Run(INIT, steps), Run(INIT, steps + [AskIngestion(d)]);
      if d in s.db.documents && s.db.documents[d].status in {Uploaded, DocumentFailed}
         && s.db.documents[d].project in s.db.projects && s.db.projects[s.db.documents[d].project].status.Active?
      then
        var p := s.db.documents[d].project;
        && s.db.nextId !in s.db.jobs
        && s'.db.jobs.Keys == s.db.jobs.Keys + {s.db.nextId} && (forall k :: k in s.db.jobs ==> s'.db.jobs[k] == s.db.jobs[k])
        && s'.db.documents == s.db.documents[d := s.db.documents[d].(status := Parsing)]
        && IngestClaimable(s'.db, Event(s.db.nextId, p, d)) && s'.db.jobs[s.db.nextId].attempts == 0
      else s' == s
  {
    RunOk(steps);
    RunStep(INIT, steps, AskIngestion(d));
    var s := Run(INIT, steps);
    assert s.db.nextId !in s.db.jobs;
  }

  /** A deletion job of document `d` that has not failed. */
  ghost predicate DeletionUnderWay(db: Db, d: Id, k: Id) {
    && k in db.jobs && db.jobs[k].kind.DeleteDocumentJob? && db.jobs[k].document == Some(d) && !db.jobs[k].status.Failed?
  }

  ghost predicate NewerDeletion(db: Db, d: Id, k: Id, i: Id) {
    i in db.jobs && i > k && db.jobs[i].kind.DeleteDocumentJob? && db.jobs[i].document == Some(d)
  }

  /**
   * Asking for the deletion of a document of an active project marks it deleted, fails its pending
   * ingestions, and sees to it that its newest deletion job has not failed: a new one is
   * inserted exactly when the document was not deleted yet or the newest one had failed or was gone.
   */
  lemma RequestedDeletionIsUnderWay(steps: seq<Step>, d: Id)
    ensures var s, s' := Run(INIT, steps), Run(INIT, steps + [AskDocumentDeletion(d)]);
      if d in s.db.documents && s.db.documents[d].project in s.db.projects
         && s.db.projects[s.db.documents[d].project].status.Active?
      then
        && s'.db.documents == s.db.documents[d := Document(s.db.documents[d].project, Deleted, true)]
        && (forall k :: k in s'.db.jobs && s'.db.jobs[k].kind.IngestJob? && s'.db.jobs[k].document == Some(d) ==>
              !s'.db.jobs[k].status.Pending?)
        && NewestAlive(s'.db, d)
        && (s'.db.nextId == s.db.nextId <==> s.db.documents[d].deleted && NewestAlive(s.db, d))
      else s' == s
  {
    RunOk(steps);
    RunStep(INIT, steps, AskDocumentDeletion(d));
    var s := Run(INIT, steps);
    if d in s.db.documents && ProjectActive(s.db, s.db.documents[d].project) {
      DeletionRequested(s.db, d);
    }
  }

  /** Deletion jobs of a document belong to its project; failing pending ingestions leaves them alone. */
  lemma DeletionRowsStay(db: Db, d: Id, k: Id)
    requires JobsOk(db) && d in db.documents
    ensures var jobs := FailPendingOn(db.jobs, d);
      && (k in jobs <==> k in db.jobs)
      && (k in db.jobs && db.jobs[k].kind.DeleteDocumentJob? ==>
            jobs[k] == db.jobs[k] && (db.jobs[k].document == Some(d) ==> db.jobs[k].project == Some(db.documents[d].project)))
      && (k in db.jobs && !db.jobs[k].kind.DeleteDocumentJob? ==> !jobs[k].kind.DeleteDocumentJob?)
  {
    if k in db.jobs {
      assert JobRefs(db, db.jobs[k]);
    }
  }

  /** The newest deletion job of the document has not failed. */
  ghost predicate NewestAlive(db: Db, d: Id) {
    exists k :: DeletionUnderWay(db, d, k) && forall i :: !NewerDeletion(db, d, k, i)
  }

  lemma NewestDeletionIs(db: Db, d: Id)
    requires DbOk(db) && d in db.documents
    ensures var p, jobs := db.documents[d].project, FailPendingOn(db.jobs, d);
      (exists st :: st != Failed && NewestIs(jobs, DeleteDocumentJob, Some(p), Some(d), st)) <==> NewestAlive(db, d)
  {
    var p, jobs := db.documents[d].project, FailPendingOn(db.jobs, d);
    forall k
      ensures k in jobs <==> k in db.jobs
      ensures k in db.jobs && db.jobs[k].kind.DeleteDocumentJob? ==> jobs[k] == db.jobs[k]
      ensures k in db.jobs && db.jobs[k].kind.DeleteDocumentJob? && db.jobs[k].document == Some(d) ==> db.jobs[k].project == Some(p)
      ensures k in db.jobs && !db.jobs[k].kind.DeleteDocumentJob? ==> !jobs[k].kind.DeleteDocumentJob?
    {
      DeletionRowsStay(db, d, k);
    }
    NewestAmong(db, jobs, d, p);
  }

  lemma NewestAmong(db: Db, jobs: map<Id, Job>, d: Id, p: Id)
    requires jobs.Keys == db.jobs.Keys
    requires forall k :: k in db.jobs && db.jobs[k].kind.DeleteDocumentJob? ==> jobs[k] == db.jobs[k]
    requires forall k :: k in db.jobs && db.jobs[k].kind.DeleteDocumentJob? && db.jobs[k].document == Some(d) ==> db.jobs[k].project == Some(p)
    requires forall k :: k in db.jobs && !db.jobs[k].kind.DeleteDocumentJob? ==> !jobs[k].kind.DeleteDocumentJob?
    ensures (exists st :: st != Failed && NewestIs(jobs, DeleteDocumentJob, Some(p), Some(d), st)) <==> NewestAlive(db, d)
  {
    if st :| st != Failed && NewestIs(jobs, DeleteDocumentJob, Some(p), Some(d), st) {
      var k :| k in jobs && Newest(jobs, k, DeleteDocumentJob, Some(p), Some(d)) && jobs[k].status == st;
      assert DeletionUnderWay(db, d, k);
      forall i | i in db.jobs && db.jobs[i].kind.DeleteDocumentJob? && db.jobs[i].document == Some(d)
        ensures i <= k
      {
        assert jobs[i] == db.jobs[i];
      }
      assert forall i :: !NewerDeletion(db, d, k, i);
    }
    if NewestAlive(db, d) {
      var k :| DeletionUnderWay(db, d, k) && forall i :: !NewerDeletion(db, d, k, i);
      forall i | i in jobs && jobs[i].kind == DeleteDocumentJob && jobs[i].project == Some(p) && jobs[i].document == Some(d)
        ensures i <= k
      {
        assert !NewerDeletion(db, d, k, i);
      }
      assert Newest(jobs, k, DeleteDocumentJob, Some(p), Some(d));
      assert NewestIs(jobs, DeleteDocumentJob, Some(p), Some(d), jobs[k].status);
    }
  }

  lemma DeletionRequested(db: Db, d: Id)
    requires DbOk(db) && db.nextId !in db.jobs && (forall k :: k in db.jobs ==> k < db.nextId)
    requires d in db.documents && ProjectActive(db, db.documents[d].project)
    ensures var t := RequestDocumentDeletion(db, d);
      && t.documents == db.documents[d := Document(db.documents[d].project, Deleted, true)]
      && (forall k :: k in t.jobs && t.jobs[k].kind.IngestJob? && t.jobs[k].document == Some(d) ==> !t.jobs[k].status.Pending?)
      && NewestAlive(t, d) && (t.nextId == db.nextId <==> db.documents[d].deleted && NewestAlive(db, d))
  {
    NewestDeletionIs(db, d);
    var t := RequestDocumentDeletion(db, d);
    assert db.documents[d].deleted ==> db.documents[d].status.Deleted?;
    if t.nextId == db.nextId {
      var k :| DeletionUnderWay(db, d, k) && forall i :: !NewerDeletion(db, d, k, i);
      assert DeletionUnderWay(t, d, k);
      forall i
        ensures !NewerDeletion(t, d, k, i)
      {
        assert !NewerDeletion(db, d, k, i);
      }
    } else {
      assert DeletionUnderWay(t, d, db.nextId);
      forall i
        ensures !NewerDeletion(t, d, db.nextId, i)
      {
      }
    }
  }

  // ---- the end of a project ----

  /** Whether a row belongs to the project. */
  ghost predicate OfProject(db: Db, p: Id, d: Id) {
    d in db.documents && db.documents[d].project == p
  }

  /** Nothing of the project is left, and nothing else is gone. */
  ghost predicate ProjectGone(db: Db, db': Db, p: Id, job: Id) {
    && (forall q :: q in db'.projects <==> q in db.projects && q != p)
    && (forall q :: q in db'.projects ==> db'.projects[q] == db.projects[q])
    && (forall d :: d in db'.documents <==> d in db.documents && db.documents[d].project != p)
    && (forall d :: d in db'.documents ==> db'.documents[d] == db.documents[d])
    && (forall r :: r in db'.pages <==> r in db.pages && !OfProject(db, p, r.document))
    && (forall id :: id in db'.chunks <==> id in db.chunks && db.chunks[id].project != p)
    && (forall id :: id in db'.chunks ==> db'.chunks[id] == db.chunks[id])
    && (forall k :: k in db'.jobs <==> k == job || (k in db.jobs && db.jobs[k].project != Some(p)))
    && (forall k :: k in db'.jobs && k != job ==> db'.jobs[k] == db.jobs[k])
  }

  /**
   * The end of a project deletion takes effect exactly under its own live lease while the project
   * is still being deleted; it removes the project with everything that belongs to it and
   * nothing else, and its own job stays as a succeeded one.
   */
  lemma DeletionEndsTheProject(steps: seq<Step>, worker: Id)
    ensures var s, s' := Run(INIT, steps), Run(INIT, steps + [ProjectDeletionDone(worker)]);
      if worker in s.deliveries && s.deliveries[worker].record.ProjectDeletionRecord?
         && s.deliveries[worker].record.job in s.db.jobs && s.db.jobs[s.deliveries[worker].record.job].HeldBy(worker, s.db.now)
         && s.deliveries[worker].record.project in s.db.projects
         && s.db.projects[s.deliveries[worker].record.project].status.Deleting?
      then
        var rec := s.deliveries[worker].record;
        && ProjectGone(s.db, s'.db, rec.project, rec.job) && s'.db.jobs[rec.job].status.Succeeded?
        && s'.db.jobs[rec.job].owner == None && s'.db.jobs[rec.job].project == None
        && s'.db.jobs[rec.job].attempts == s.db.jobs[rec.job].attempts
      else s' == s
  {
    RunOk(steps);
    Coverage.RunCovered(steps);
    RunStep(INIT, steps, ProjectDeletionDone(worker));
    var s := Run(INIT, steps);
    if worker in s.deliveries && s.deliveries[worker].record.ProjectDeletionRecord?
       && ProjectDeletionReady(s.db, s.deliveries[worker].record, worker).Success? {
      ProjectEnds(s, worker);
    }
  }

  lemma ProjectEnds(s: Sys, worker: Id)
    requires SysOk(s) && Coverage.CoverageOk(s)
    requires worker in s.deliveries && s.deliveries[worker].record.ProjectDeletionRecord?
    requires ProjectDeletionReady(s.db, s.deliveries[worker].record, worker).Success?
    ensures var rec := s.deliveries[worker].record;
      ProjectGone(s.db, ProjectDeletionReady(s.db, rec, worker).value, rec.project, rec.job)
  {
    var rec := s.deliveries[worker].record;
    assert RecordOk(s.db, rec);
    ChunksRefer(s);
    CascadeIs(s.db, rec.project, rec.job);
    Detached(s.db, rec.project, rec.job, s.db.jobs[rec.job].(project := None, document := None).Released(Succeeded));
  }

  /** Detaching the deletion's own row, dropping the project and putting the row back. */
  lemma Detached(db: Db, p: Id, job: Id, row: Job)
    requires job in db.jobs && forall id :: id in db.chunks ==> ChunkRefs(db, id)
    requires var db1 := db.(jobs := db.jobs[job := db.jobs[job].(project := None, document := None)]);
      forall k :: k in db1.jobs ==> (Cascaded(db1, p, db1.jobs[k]) <==> db1.jobs[k].project == Some(p))
    ensures var db1 := db.(jobs := db.jobs[job := db.jobs[job].(project := None, document := None)]);
      ProjectGone(db, DropProject(db1, p).(jobs := DropProject(db1, p).jobs[job := row]), p, job)
  {
    var db1 := db.(jobs := db.jobs[job := db.jobs[job].(project := None, document := None)]);
    forall id | id in db1.chunks
      ensures ChunkRefs(db1, id)
    {
      assert ChunkRefs(db, id);
    }
    DropRemoves(db1, p);
    assert forall d :: OfProject(db1, p, d) <==> OfProject(db, p, d);
  }

  lemma ChunksRefer(s: Sys)
    requires Coverage.CoverageOk(s)
    ensures forall id :: id in s.db.chunks ==> ChunkRefs(s.db, id)
  {
    forall id | id in s.db.chunks
      ensures ChunkRefs(s.db, id)
    {
      assert Coverage.ChunkOk(s.db, id);
    }
  }

  /** A job's document belongs to its project, so the cascade follows the project column; the detached row is spared. */
  lemma CascadeIs(db: Db, p: Id, job: Id)
    requires JobsOk(db) && job in db.jobs
    ensures var db1 := db.(jobs := db.jobs[job := db.jobs[job].(project := None, document := None)]);
      forall k :: k in db1.jobs ==> (Cascaded(db1, p, db1.jobs[k]) <==> db1.jobs[k].project == Some(p))
  {
    forall k | k in db.jobs
      ensures Cascaded(db, p, db.jobs[k]) <==> db.jobs[k].project == Some(p)
    {
      assert JobRefs(db, db.jobs[k]);
    }
  }

  ghost predicate ChunkRefs(db: Db, id: ChunkId)
    requires id in db.chunks
  {
    db.chunks[id].document.Some? ==>
      && db.chunks[id].document.value in db.documents
      && db.documents[db.chunks[id].document.value].project == db.chunks[id].project
  }

  lemma DropRemoves(db: Db, p: Id)
    requires forall id :: id in db.chunks ==> ChunkRefs(db, id)
    requires forall k :: k in db.jobs ==> (Cascaded(db, p, db.jobs[k]) <==> db.jobs[k].project == Some(p))
    ensures var t := DropProject(db, p);
      && t.projects == db.projects - {p}
      && (forall d :: d in t.documents <==> d in db.documents && db.documents[d].project != p)
      && (forall d :: d in t.documents ==> t.documents[d] == db.documents[d])
      && (forall r :: r in t.pages <==> r in db.pages && !OfProject(db, p, r.document))
      && (forall id :: id in t.chunks <==> id in db.chunks && db.chunks[id].project != p)
      && (forall id :: id in t.chunks ==> t.chunks[id] == db.chunks[id])
      && (forall k :: k in t.jobs <==> k in db.jobs && db.jobs[k].project != Some(p))
      && (forall k :: k in t.jobs ==> t.jobs[k] == db.jobs[k])
  {
    forall id | id in db.chunks
      ensures db.chunks[id].project == p || !(db.chunks[id].document.Some? && db.chunks[id].document.value in DocumentsIn(db, p))
    {
      assert ChunkRefs(db, id);
    }
  }

  // ---- claims and ends of deletions ----

  /** An ingestion in question is running under a live lease. */
  ghost predicate IngestingNow(db: Db, k: Id) {
    k in db.jobs && db.jobs[k].kind.IngestJob? && db.jobs[k].status.Running?
    && db.jobs[k].expires.Some? && db.jobs[k].expires.value > db.now
  }

  /** An ingestion that was running and whose lease is over. */
  ghost predicate Abandoned(db: Db, k: Id) {
    k in db.jobs && db.jobs[k].kind.IngestJob? && db.jobs[k].status.Running?
    && db.jobs[k].expires.Some? && db.jobs[k].expires.value <= db.now
  }

  ghost predicate PendingOrExpired(j: Job, now: nat) {
    j.status.Pending? || (j.status.Running? && j.expires.Some? && j.expires.value < now)
  }

  /** The job may be claimed as the deletion of the event's document, which is deleted and not being ingested. */
  ghost predicate DocumentDeletable(db: Db, e: Event) {
    && e.job in db.jobs && e.document in db.documents
    && db.jobs[e.job].kind.DeleteDocumentJob? && db.jobs[e.job].project == Some(e.project)
    && db.jobs[e.job].document == Some(e.document) && db.documents[e.document].status.Deleted?
    && PendingOrExpired(db.jobs[e.job], db.now)
    && forall k :: IngestingNow(db, k) ==> db.jobs[k].document != Some(e.document)
  }

  /** A pending deletion of the document has to wait for an ingestion. */
  ghost predicate DocumentBlocked(db: Db, e: Event) {
    && e.job in db.jobs && db.jobs[e.job].kind.DeleteDocumentJob? && db.jobs[e.job].document == Some(e.document)
    && db.jobs[e.job].status.Pending?
    && exists k :: IngestingNow(db, k) && db.jobs[k].document == Some(e.document)
  }

  function Ended(j: Job, outcome: JobStatus): Job {
    j.(status := outcome, owner := None, expires := None)
  }

  /** The jobs after a claim: abandoned ingestions of the document have failed, and `granted` is as given. */
  ghost predicate JobsAfterClaim(db: Db, db': Db, d: Id, granted: Option<Id>) {
    && db'.jobs.Keys == db.jobs.Keys
    && forall k :: k in db.jobs && granted != Some(k) ==>
         db'.jobs[k] == if Abandoned(db, k) && db.jobs[k].document == Some(d) then Ended(db.jobs[k], Failed) else db.jobs[k]
  }

  /**
   * The claim of a document deletion by a new worker: granted exactly when the document is deleted, the job
   * is pending or expired and no ingestion of the document is running; then, and whenever it is
   * not blocked, ingestions of the document whose lease is over fail for good.  A blocked claim
   * changes nothing.
   */
  lemma DocumentDeletionClaimed(steps: seq<Step>, e: Event, worker: Id, lease: nat)
    requires worker !in Run(INIT, steps).deliveries
    ensures AfterDocumentClaim(Run(INIT, steps), Run(INIT, steps + [DocumentDeletionClaim(e, worker, lease)]), e, worker, lease)
  {
    RunOk(steps);
    RunStep(INIT, steps, DocumentDeletionClaim(e, worker, lease));
    DocumentClaimOutcome(Run(INIT, steps), e, worker, lease);
  }

  ghost predicate AfterDocumentClaim(s: Sys, s': Sys, e: Event, worker: Id, lease: nat) {
    if DocumentDeletable(s.db, e) then
      && JobsAfterClaim(s.db, s'.db, e.document, Some(e.job))
      && s'.db.jobs[e.job] == Leased(s.db.jobs[e.job], worker, s.db.now + lease)
      && worker in s'.deliveries && s'.db == s.db.(jobs := s'.db.jobs)
    else if DocumentBlocked(s.db, e) then s' == s
    else JobsAfterClaim(s.db, s'.db, e.document, None) && s' == s.(db := s.db.(jobs := s'.db.jobs))
  }

  function Leased(j: Job, worker: Id, until: nat): Job {
    j.(status := Running, attempts := j.attempts + 1, owner := Some(worker), expires := Some(until))
  }

  lemma DocumentClaimOutcome(s: Sys, e: Event, worker: Id, lease: nat)
    requires DbOk(s.db) && worker !in s.deliveries
    ensures AfterDocumentClaim(s, DoDocumentDeletionClaim(s, e, worker, lease), e, worker, lease)
  {
    DocumentClaimIs(s.db, e);
    DocumentClaimFollows(s, e, worker, lease);
  }

  /** What the claim query sees once abandoned ingestions have failed. */
  ghost predicate DocumentClaimSees(db: Db, e: Event) {
    var db1 := db.(jobs := FailAbandonedOn(db.jobs, e.document, db.now));
    && JobsAfterClaim(db, db1, e.document, None)
    && (DeletionClaimable(db1, e) <==> DocumentDeletable(db, e))
    && (DocumentBlocked(db, e) <==>
          e.job in db1.jobs && db1.jobs[e.job].kind.DeleteDocumentJob? && db1.jobs[e.job].document == Some(e.document)
          && db1.jobs[e.job].status.Pending? && SomeIngestingOn(db1.jobs, e.document, db.now))
    && (e.job in db.jobs && db.jobs[e.job].kind.DeleteDocumentJob? ==> db1.jobs[e.job] == db.jobs[e.job])
  }

  lemma DocumentClaimFollows(s: Sys, e: Event, worker: Id, lease: nat)
    requires DocumentClaimSees(s.db, e) && worker !in s.deliveries
    ensures AfterDocumentClaim(s, DoDocumentDeletionClaim(s, e, worker, lease), e, worker, lease)
  {
  }

  lemma DocumentJobsIs(db: Db, d: Id)
    requires DbOk(db)
    ensures var jobs := FailAbandonedOn(db.jobs, d, db.now);
      && JobsAfterClaim(db, db.(jobs := jobs), d, None)
      && (SomeIngestingOn(jobs, d, db.now) <==> exists k :: IngestingNow(db, k) && db.jobs[k].document == Some(d))
  {
    var jobs := FailAbandonedOn(db.jobs, d, db.now);
    forall k | k in db.jobs
      ensures AbandonedOn(db.jobs[k], d, db.now) <==> Abandoned(db, k) && db.jobs[k].document == Some(d)
      ensures IngestingOn(jobs[k], d, db.now) <==> IngestingNow(db, k) && db.jobs[k].document == Some(d)
    {
      assert JobShape(db.jobs[k]);
    }
    if k :| IngestingNow(db, k) && db.jobs[k].document == Some(d) {
      assert k in jobs && IngestingOn(jobs[k], d, db.now);
    }
  }

  /** A deletion job names a document of its own project. */
  lemma DocumentClaimIs(db: Db, e: Event)
    requires DbOk(db)
    ensures DocumentClaimSees(db, e)
  {
    DocumentJobsIs(db, e.document);
    if e.job in db.jobs {
      assert JobRefs(db, db.jobs[e.job]);
    }
  }

  /**
   * The end of a document deletion takes effect exactly under its own live lease: pages and chunks
   * of the document are gone, all others stay, and the job has succeeded.
   */
  lemma DeletionEndsTheDocument(steps: seq<Step>, worker: Id)
    ensures var s, s' := Run(INIT, steps), Run(INIT, steps + [DocumentDeletionDone(worker)]);
      if worker in s.deliveries && s.deliveries[worker].record.DeletionRecord?
         && s.deliveries[worker].record.job in s.db.jobs && s.db.jobs[s.deliveries[worker].record.job].HeldBy(worker, s.db.now)
      then
        var rec := s.deliveries[worker].record;
        && (forall r :: r in s'.db.pages <==> r in s.db.pages && r.document != rec.document)
        && (forall id :: id in s'.db.chunks <==> id in s.db.chunks && s.db.chunks[id].document != Some(rec.document))
        && (forall id :: id in s'.db.chunks ==> s'.db.chunks[id] == s.db.chunks[id])
        && s'.db.jobs == s.db.jobs[rec.job := Ended(s.db.jobs[rec.job], Succeeded)]
        && s' == s.(db := s.db.(pages := s'.db.pages, chunks := s'.db.chunks, jobs := s'.db.jobs))
      else s' == s
  {
    RunStep(INIT, steps, DocumentDeletionDone(worker));
  }

  /** The newest deletion job of the project has failed. */
  ghost predicate NewestFailed(db: Db, p: Id, k: Id) {
    && k in db.jobs && db.jobs[k].kind.DeleteProjectJob? && db.jobs[k].project == Some(p) && db.jobs[k].status.Failed?
    && forall i :: i in db.jobs && db.jobs[i].kind.DeleteProjectJob? && db.jobs[i].project == Some(p) ==> i <= k
  }

  /**
   * Asking for the deletion of a project: unless it is being deleted already and its newest deletion job has
   * not failed, the project is marked, its ingestions that are pending or whose lease is over
   * fail, and a new pending deletion job is inserted.  Otherwise nothing changes.
   */
  lemma RequestedProjectDeletionIsUnderWay(steps: seq<Step>, p: Id)
    ensures var s, s' := Run(INIT, steps), Run(INIT, steps + [AskProjectDeletion(p)]);
      if p in s.db.projects && (s.db.projects[p].status.Active? || exists k :: NewestFailed(s.db, p, k))
      then
        && s.db.nextId !in s.db.jobs && s'.db.jobs.Keys == s.db.jobs.Keys + {s.db.nextId}
        && s'.db.jobs[s.db.nextId] == Job(DeleteProjectJob, Some(p), None, Pending, 0, None, None)
        && (forall k :: k in s.db.jobs ==>
              s'.db.jobs[k] ==
              if s.db.jobs[k].kind.IngestJob? && s.db.jobs[k].project == Some(p) && (s.db.jobs[k].status.Pending? || Abandoned(s.db, k))
              then Ended(s.db.jobs[k], Failed) else s.db.jobs[k])
        && s'.db.projects == s.db.projects[p := s.db.projects[p].(status := Deleting)]
        && s'.db.documents == s.db.documents && s'.db.chunks == s.db.chunks && s'.db.pages == s.db.pages
      else s' == s
  {
    RunOk(steps);
    RunStep(INIT, steps, AskProjectDeletion(p));
    ProjectRequestIs(Run(INIT, steps).db, p);
  }

  lemma ProjectRequestIs(db: Db, p: Id)
    requires DbOk(db)
    ensures NewestIs(db.jobs, DeleteProjectJob, Some(p), None, Failed) <==> exists k :: NewestFailed(db, p, k)
    ensures forall k :: k in db.jobs ==>
      (AbandonedIn(db.jobs[k], p, db.now) <==>
        db.jobs[k].kind.IngestJob? && db.jobs[k].project == Some(p) && (db.jobs[k].status.Pending? || Abandoned(db, k)))
  {
    forall k | k in db.jobs
      ensures JobShape(db.jobs[k])
    {
    }
    if NewestIs(db.jobs, DeleteProjectJob, Some(p), None, Failed) {
      var k :| k in db.jobs && Newest(db.jobs, k, DeleteProjectJob, Some(p), None) && db.jobs[k].status == Failed;
      assert NewestFailed(db, p, k);
    }
    if k :| NewestFailed(db, p, k) {
      assert Newest(db.jobs, k, DeleteProjectJob, Some(p), None);
    }
  }

  /** The job may be claimed as the deletion of the event's project, in which no ingestion is running. */
  ghost predicate ProjectDeletable(db: Db, e: Event) {
    && e.job in db.jobs && e.project in db.projects
    && db.jobs[e.job].kind.DeleteProjectJob? && db.jobs[e.job].project == Some(e.project)
    && db.projects[e.project].status.Deleting? && PendingOrExpired(db.jobs[e.job], db.now)
    && forall k :: IngestingNow(db, k) ==> db.jobs[k].project != Some(e.project)
  }

  ghost predicate ProjectBlocked(db: Db, e: Event) {
    && e.job in db.jobs && db.jobs[e.job].kind.DeleteProjectJob? && db.jobs[e.job].project == Some(e.project)
    && db.jobs[e.job].status.Pending?
    && exists k :: IngestingNow(db, k) && db.jobs[k].project == Some(e.project)
  }

  /** The jobs after a claim: ingestions of the project that are pending or abandoned have failed. */
  ghost predicate JobsAfterProjectClaim(db: Db, db': Db, p: Id, granted: Option<Id>) {
    && db'.jobs.Keys == db.jobs.Keys
    && forall k :: k in db.jobs && granted != Some(k) ==>
         db'.jobs[k] ==
         if db.jobs[k].kind.IngestJob? && db.jobs[k].project == Some(p) && (db.jobs[k].status.Pending? || Abandoned(db, k))
         then Ended(db.jobs[k], Failed) else db.jobs[k]
  }

  /** The claim of a project deletion by a new worker, in the same three cases. */
  lemma ProjectDeletionClaimed(steps: seq<Step>, e: Event, worker: Id, lease: nat)
    requires worker !in Run(INIT, steps).deliveries
    ensures AfterProjectClaim(Run(INIT, steps), Run(INIT, steps + [ProjectDeletionClaim(e, worker, lease)]), e, worker, lease)
  {
    RunOk(steps);
    RunStep(INIT, steps, ProjectDeletionClaim(e, worker, lease));
    ProjectClaimOutcome(Run(INIT, steps), e, worker, lease);
  }

  ghost predicate AfterProjectClaim(s: Sys, s': Sys, e: Event, worker: Id, lease: nat) {
    if ProjectDeletable(s.db, e) then
      && JobsAfterProjectClaim(s.db, s'.db, e.project, Some(e.job))
      && s'.db.jobs[e.job] == Leased(s.db.jobs[e.job], worker, s.db.now + lease)
      && worker in s'.deliveries && s'.db == s.db.(jobs := s'.db.jobs)
    else if ProjectBlocked(s.db, e) then s' == s
    else JobsAfterProjectClaim(s.db, s'.db, e.project, None) && s' == s.(db := s.db.(jobs := s'.db.jobs))
  }

  lemma ProjectClaimOutcome(s: Sys, e: Event, worker: Id, lease: nat)
    requires DbOk(s.db) && worker !in s.deliveries
    ensures AfterProjectClaim(s, DoProjectDeletionClaim(s, e, worker, lease), e, worker, lease)
  {
    ProjectClaimIs(s.db, e);
    ProjectClaimFollows(s, e, worker, lease);
  }

  lemma ProjectJobsIs(db: Db, p: Id)
    requires DbOk(db)
    ensures var jobs := FailAbandonedIn(db.jobs, p, db.now);
      && JobsAfterProjectClaim(db, db.(jobs := jobs), p, None)
      && (SomeIngestingIn(jobs, p, db.now) <==> exists k :: IngestingNow(db, k) && db.jobs[k].project == Some(p))
  {
    var jobs := FailAbandonedIn(db.jobs, p, db.now);
    ProjectRequestIs(db, p);
    forall k | k in db.jobs
      ensures IngestingIn(jobs[k], p, db.now) <==> IngestingNow(db, k) && db.jobs[k].project == Some(p)
    {
      assert JobShape(db.jobs[k]);
    }
    if k :| IngestingNow(db, k) && db.jobs[k].project == Some(p) {
      assert k in jobs && IngestingIn(jobs[k], p, db.now);
    }
  }

  /** What the claim query sees once abandoned ingestions have failed. */
  ghost predicate ProjectClaimSees(db: Db, e: Event) {
    var db1 := db.(jobs := FailAbandonedIn(db.jobs, e.project, db.now));
    && JobsAfterProjectClaim(db, db1, e.project, None)
    && (ProjectDeletionClaimable(db1, e) <==> ProjectDeletable(db, e))
    && (ProjectBlocked(db, e) <==>
          e.job in db1.jobs && db1.jobs[e.job].kind.DeleteProjectJob? && db1.jobs[e.job].project == Some(e.project)
          && db1.jobs[e.job].status.Pending? && SomeIngestingIn(db1.jobs, e.project, db.now))
    && (e.job in db.jobs && db.jobs[e.job].kind.DeleteProjectJob? ==> db1.jobs[e.job] == db.jobs[e.job])
  }

  lemma ProjectClaimIs(db: Db, e: Event)
    requires DbOk(db)
    ensures ProjectClaimSees(db, e)
  {
    ProjectJobsIs(db, e.project);
  }

  lemma ProjectClaimFollows(s: Sys, e: Event, worker: Id, lease: nat)
    requires ProjectClaimSees(s.db, e) && worker !in s.deliveries
    ensures AfterProjectClaim(s, DoProjectDeletionClaim(s, e, worker, lease), e, worker, lease)
  {
  }
}
