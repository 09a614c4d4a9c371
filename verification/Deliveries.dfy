/**
 * The whole system: the tables, the deliveries in flight, and what has happened
 * so far.  A step is one transaction by anyone, or time passing; the answers of
 * the parser and the Wiki compiler are part of the step, so a run is a list of
 * steps and "every interleaving" is "every list".  A crashed delivery simply
 * takes no further step.
 */
module Deliveries {
  import opened Common
  import opened WikiMerge
  import opened Tables
  import opened IngestionStore
  import opened DeletionStores

  /** A delivery between its claim and its end: its record and the Wiki state it loaded, if any. */
  datatype Delivery = Delivery(record: Record, wiki: Option<WikiState>)

  /** A Wiki commit: the chunks that went through the compiler, and what it returned. */
  datatype Batch = Batch(inputs: set<ChunkId>, compiled: seq<Compiled>)

  datatype ClaimEntry = ClaimEntry(job: Id, worker: Id)

  /** `claims` and `history` record the past; no step reads them. */
  datatype Sys = Sys(db: Db, deliveries: map<Id, Delivery>, claims: seq<ClaimEntry>, history: map<Id, seq<Batch>>)

  datatype Step =
    | Tick(seconds: nat)
    | NewProject
    | NewDocument(project: Id)
    | AskIngestion(document: Id)
    | AskDocumentDeletion(document: Id)
    | AskProjectDeletion(project: Id)
    | IngestClaim(event: Event, worker: Id, lease: nat)
    | IngestLoad(worker: Id)
    | IngestCommit(worker: Id, pages: seq<string>, chunks: seq<string>, compiled: Option<seq<Compiled>>)
    | IngestReady(worker: Id)
    | IngestRetry(worker: Id)
    | IngestFail(worker: Id)
    | DocumentDeletionClaim(event: Event, worker: Id, lease: nat)
    | DocumentDeletionDone(worker: Id)
    | ProjectDeletionClaim(event: Event, worker: Id, lease: nat)
    | ProjectDeletionDone(worker: Id)
    | DeletionRetry(worker: Id)
    | DeletionFail(worker: Id)
    | Bootstrap(job: Id)

  const INIT := Sys(Db(0, 0, map[], map[], map[], {}, map[]), map[], [], map[])

  function History(s: Sys, p: Id): seq<Batch> {
    if p in s.history then s.history[p] else []
  }

  /** What the merge queues for the database, in dictionary order. */
  function Queue(pages: map<Id, Page>, compiled: seq<Compiled>): seq<Compiled> {
    ReplayRefinesMerge(pages, compiled);
    MergeAll(Start(pages), compiled).affected.Entries()
  }

  /** Every chunk the compiler is given: pending chunks of other documents, and the document itself. */
  function Inputs(w: WikiState, d: Id, chunks: seq<string>): set<ChunkId> {
    (set id | id in w.pending && id.RawId? && id.document != d)
    + (set i | 0 <= i < |chunks| :: RawId(d, i, chunks[i]))
  }

  /** A claim starts a delivery under a worker id that no delivery has used before. */
  function Began(s: Sys, db: Db, worker: Id, rec: Record): Sys {
    Sys(db, s.deliveries[worker := Delivery(rec, None)], s.claims + [ClaimEntry(rec.job, worker)], s.history)
  }

  function DoIngestClaim(s: Sys, e: Event, worker: Id, lease: nat): Sys {
    if worker in s.deliveries || !IngestClaimable(s.db, e) then s
    else Began(s, ClaimIngest(s.db, e, worker, lease), worker,
               IngestionRecord(e.job, e.project, e.document, s.db.jobs[e.job].attempts + 1))
  }

  function DoDocumentDeletionClaim(s: Sys, e: Event, worker: Id, lease: nat): Sys {
    if worker in s.deliveries then s
    else
      var r := ClaimDeletion(s.db, e, worker, lease);
      if r.Failure? then s
      else if r.value.1 then
        Began(s, r.value.0, worker, DeletionRecord(e.job, e.project, e.document, r.value.0.jobs[e.job].attempts))
      else s.(db := r.value.0)
  }

  function DoProjectDeletionClaim(s: Sys, e: Event, worker: Id, lease: nat): Sys {
    if worker in s.deliveries then s
    else
      var r := ClaimProjectDeletion(s.db, e, worker, lease);
      if r.Failure? then s
      else if r.value.1 then
        Began(s, r.value.0, worker, ProjectDeletionRecord(e.job, e.project, r.value.0.jobs[e.job].attempts))
      else s.(db := r.value.0)
  }

  predicate Ingesting(s: Sys, worker: Id) {
    worker in s.deliveries && s.deliveries[worker].record.IngestionRecord?
  }

  function DoLoad(s: Sys, worker: Id): Sys {
    if !Ingesting(s, worker) then s
    else
      var r := LoadWikiState(s.db, s.deliveries[worker].record.project);
      if r.Failure? then s
      else s.(deliveries := s.deliveries[worker := s.deliveries[worker].(wiki := Some(r.value))])
  }

  /** The Wiki argument of `replace_content`: none when the compiler is absent or raised. */
  function Queued(w: WikiState, compiled: Option<seq<Compiled>>): Option<seq<Compiled>> {
    if compiled.Some? then Some(Queue(w.pages, compiled.value)) else None
  }

  function Recovered(w: WikiState, compiled: Option<seq<Compiled>>): Option<nat> {
    if compiled.Some? then Some(w.wiki) else None
  }

  predicate Commits(s: Sys, worker: Id) {
    && Ingesting(s, worker) && s.deliveries[worker].wiki.Some?
    && CommitRunnable(s.db, s.deliveries[worker].record, worker)
  }

  /** Whether the commit of `worker` would write the Wiki it compiled. */
  predicate AppliesWiki(s: Sys, worker: Id, compiled: Option<seq<Compiled>>)
    requires Commits(s, worker)
  {
    var w := s.deliveries[worker].wiki.value;
    ApplyWiki(s.db.projects[s.deliveries[worker].record.project], Queued(w, compiled), w.knowledge, Recovered(w, compiled))
  }

  function DoCommit(s: Sys, worker: Id, pages: seq<string>, chunks: seq<string>, compiled: Option<seq<Compiled>>): Sys {
    if !Commits(s, worker) then s
    else
      var rec, w := s.deliveries[worker].record, s.deliveries[worker].wiki.value;
      var r := ReplaceContent(s.db, rec, worker, pages, chunks, Queued(w, compiled), w.knowledge, Recovered(w, compiled));
      s.(db := r.value,
         history := if AppliesWiki(s, worker, compiled)
                    then s.history[rec.project := History(s, rec.project)
                                   + [Batch(Inputs(w, rec.document, chunks), compiled.value)]]
                    else s.history)
  }

  function DoReady(s: Sys, worker: Id): Sys {
    if !Ingesting(s, worker) then s
    else
      var r := MarkReady(s.db, s.deliveries[worker].record, worker);
      if r.Failure? then s else s.(db := r.value)
  }

  function DoDocumentDeletionDone(s: Sys, worker: Id): Sys {
    if worker !in s.deliveries || !s.deliveries[worker].record.DeletionRecord? then s
    else
      var r := DocumentDeletionReady(s.db, s.deliveries[worker].record, worker);
      if r.Failure? then s else s.(db := r.value)
  }

  function DoProjectDeletionDone(s: Sys, worker: Id): Sys {
    if worker !in s.deliveries || !s.deliveries[worker].record.ProjectDeletionRecord? then s
    else
      var r := ProjectDeletionReady(s.db, s.deliveries[worker].record, worker);
      if r.Failure? then s else s.(db := r.value)
  }

  function DoDeletionRelease(s: Sys, worker: Id, outcome: JobStatus): Sys {
    if worker !in s.deliveries || s.deliveries[worker].record.IngestionRecord? then s
    else s.(db := ReleaseDeletion(s.db, s.deliveries[worker].record, worker, outcome))
  }

  function Apply(s: Sys, step: Step): Sys {
    match step
    case Tick(seconds) => s.(db := s.db.(now := s.db.now + seconds))
    case NewProject => s.(db := CreateProject(s.db), history := s.history[s.db.nextId := []])
    case NewDocument(p) => s.(db := CreateDocument(s.db, p))
    case AskIngestion(d) => s.(db := RequestIngestion(s.db, d))
    case AskDocumentDeletion(d) => s.(db := RequestDocumentDeletion(s.db, d))
    case AskProjectDeletion(p) => s.(db := RequestProjectDeletion(s.db, p))
    case IngestClaim(e, w, lease) => DoIngestClaim(s, e, w, lease)
    case IngestLoad(w) => DoLoad(s, w)
    case IngestCommit(w, pages, chunks, compiled) => DoCommit(s, w, pages, chunks, compiled)
    case IngestReady(w) => DoReady(s, w)
    case IngestRetry(w) =>
      if Ingesting(s, w) then s.(db := MarkRetryable(s.db, s.deliveries[w].record, w)) else s
    case IngestFail(w) =>
      if Ingesting(s, w) then s.(db := MarkFailed(s.db, s.deliveries[w].record, w)) else s
    case DocumentDeletionClaim(e, w, lease) => DoDocumentDeletionClaim(s, e, w, lease)
    case DocumentDeletionDone(w) => DoDocumentDeletionDone(s, w)
    case ProjectDeletionClaim(e, w, lease) => DoProjectDeletionClaim(s, e, w, lease)
    case ProjectDeletionDone(w) => DoProjectDeletionDone(s, w)
    case DeletionRetry(w) => DoDeletionRelease(s, w, Pending)
    case DeletionFail(w) => DoDeletionRelease(s, w, Failed)
    case Bootstrap(job) => s.(db := BootstrapFailed(s.db, job))
  }

  function Run(s: Sys, steps: seq<Step>): Sys {
    Fold(Apply, s, steps)
  }

  lemma RunStep(s: Sys, steps: seq<Step>, step: Step)
    ensures Run(s, steps + [step]) == Apply(Run(s, steps), step)
  {
    FoldStep(Apply, s, steps, step);
  }

  lemma RunConcat(s: Sys, a: seq<Step>, b: seq<Step>)
    ensures Run(Run(s, a), b) == Run(s, a + b)
  {
    FoldConcat(Apply, s, a, b);
  }
}
