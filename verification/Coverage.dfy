/**
 * The generation protocol: Wiki commits are serial, and every raw chunk of a live
 * document up to the Wiki's generation has gone through a committed compilation.
 */
module Coverage {
  import opened Common
  import opened WikiMerge
  import opened Tables
  import opened IngestionStore
  import opened DeletionStores
  import opened Deliveries
  import opened LeaseInvariants
  import opened LeaseProofs

  /** The Wiki that results when the batches are compiled and written one after another. */
  function WikiAfter(log: seq<Batch>): map<Id, Page> {
    if log == [] then map[]
    else
      var before := WikiAfter(log[..|log| - 1]);
      Replay(before, Queue(before, log[|log| - 1].compiled))
  }

  /** Every chunk that some batch took in. */
  function Folded(log: seq<Batch>): set<ChunkId> {
    if log == [] then {} else Folded(log[..|log| - 1]) + log[|log| - 1].inputs
  }

  lemma LogStep(log: seq<Batch>, b: Batch)
    ensures WikiAfter(log + [b]) == Replay(WikiAfter(log), Queue(WikiAfter(log), b.compiled))
    ensures Folded(log + [b]) == Folded(log) + b.inputs
  {
    assert (log + [b])[..|log|] == log;
  }

  /** Chunk rows sit in a known project under a generation it has reached; raw rows in a known document. */
  ghost predicate ChunkOk(db: Db, id: ChunkId) {
    && id in db.chunks
    && var c := db.chunks[id];
       && c.project in db.projects && c.generation <= db.projects[c.project].knowledge
       && (id.RawId? ==> c.document == Some(id.document) && id.document in db.documents
                         && db.documents[id.document].project == c.project)
       && (id.PageId? ==> c.document.None? && c.project == id.project)
  }

  ghost predicate GenerationsOk(db: Db) {
    && (forall p :: p in db.projects ==> db.projects[p].wiki <= db.projects[p].knowledge)
    && (forall id :: id in db.chunks ==> ChunkOk(db, id))
  }

  /** The Wiki table of a project is the serial outcome of its committed batches. */
  ghost predicate Serial(s: Sys) {
    forall p :: p in s.db.projects ==> WikiPages(s.db.chunks, p) == WikiAfter(History(s, p))
  }

  ghost predicate LiveRaw(db: Db, id: ChunkId) {
    id in db.chunks && id.RawId? && id.document in db.documents && db.documents[id.document].Live()
  }

  /** The chunk's generation is one the Wiki of its project has reached. */
  ghost predicate WithinWiki(db: Db, id: ChunkId)
    requires id in db.chunks
  {
    db.chunks[id].project in db.projects && db.chunks[id].generation <= db.projects[db.chunks[id].project].wiki
  }

  ghost predicate Covered(s: Sys) {
    forall id :: LiveRaw(s.db, id) && WithinWiki(s.db, id) ==> id in Folded(History(s, s.db.chunks[id].project))
  }

  /** A loaded state whose base generation is still current is still exactly right. */
  ghost predicate StateCurrent(db: Db, p: Id, w: WikiState) {
    p in db.projects ==>
      && w.knowledge <= db.projects[p].knowledge
      && (w.knowledge == db.projects[p].knowledge ==>
            && w.wiki == db.projects[p].wiki
            && w.pages == WikiPages(db.chunks, p)
            && forall id :: LiveRaw(db, id) && db.chunks[id].project == p && !WithinWiki(db, id) ==> id in w.pending)
  }

  ghost predicate StatesCurrent(s: Sys) {
    forall w :: w in s.deliveries && s.deliveries[w].wiki.Some? ==>
      StateCurrent(s.db, s.deliveries[w].record.project, s.deliveries[w].wiki.value)
  }

  ghost predicate CoverageOk(s: Sys) {
    GenerationsOk(s.db) && Serial(s) && Covered(s) && StatesCurrent(s)
  }

  /** Projects keep their counters, or are new and empty. */
  ghost predicate SameGenerations(s: Sys, s': Sys) {
    forall p :: p in s'.db.projects ==>
      && History(s', p) == (if p in s.db.projects then History(s, p) else [])
      && if p in s.db.projects then
           s'.db.projects[p].knowledge == s.db.projects[p].knowledge && s'.db.projects[p].wiki == s.db.projects[p].wiki
         else p >= s.db.nextId && s'.db.projects[p].knowledge == 0 && s'.db.projects[p].wiki == 0
  }

  /** Chunk rows only vanish; those left keep their document, and documents do not come back to life. */
  ghost predicate ChunksOnlyVanish(db: Db, db': Db) {
    && (forall id :: id in db'.chunks ==>
          && id in db.chunks && db'.chunks[id] == db.chunks[id] && db.chunks[id].project in db'.projects
          && (id.RawId? ==> id.document in db'.documents))
    && (forall id :: id in db.chunks && id.PageId? && db.chunks[id].project in db'.projects ==> id in db'.chunks)
    && (forall d :: d in db'.documents && d in db.documents ==>
          && db'.documents[d].project == db.documents[d].project
          && (db'.documents[d].Live() ==> db.documents[d].Live()))
  }

  /** The deliveries keep what they loaded; new ones have loaded nothing. */
  ghost predicate SameStates(s: Sys, s': Sys) {
    forall w :: w in s'.deliveries ==> (w in s.deliveries && s'.deliveries[w] == s.deliveries[w]) || s'.deliveries[w].wiki.None?
  }

  lemma PagesUnchanged(db: Db, db': Db, p: Id)
    requires GenerationsOk(db) && ChunksOnlyVanish(db, db') && p in db'.projects
    ensures WikiPages(db'.chunks, p) == WikiPages(db.chunks, p)
  {
    forall id: ChunkId | id.PageId? && id.project == p ensures id in db'.chunks <==> id in db.chunks {
      if id in db.chunks { assert ChunkOk(db, id); }
    }
  }

  lemma NoPagesYet(db: Db, p: Id)
    requires GenerationsOk(db) && p !in db.projects
    ensures WikiPages(db.chunks, p) == map[]
  {
    forall id | id in db.chunks && id.PageId? ensures id.project != p {
      assert ChunkOk(db, id);
    }
  }

  lemma FrameSerial(s: Sys, s': Sys)
    requires GenerationsOk(s.db) && Serial(s) && SameGenerations(s, s') && ChunksOnlyVanish(s.db, s'.db)
    ensures Serial(s')
  {
    forall p | p in s'.db.projects ensures WikiPages(s'.db.chunks, p) == WikiAfter(History(s', p)) {
      PagesUnchanged(s.db, s'.db, p);
      if p !in s.db.projects { NoPagesYet(s.db, p); }
    }
  }

  lemma FrameGenerations(s: Sys, s': Sys)
    requires GenerationsOk(s.db) && Covered(s) && SameGenerations(s, s') && ChunksOnlyVanish(s.db, s'.db)
    ensures GenerationsOk(s'.db) && Covered(s')
  {
    forall id | id in s'.db.chunks ensures ChunkOk(s'.db, id) {
      assert ChunkOk(s.db, id);
    }
    forall id | LiveRaw(s'.db, id) && WithinWiki(s'.db, id)
      ensures id in Folded(History(s', s'.db.chunks[id].project))
    {
      assert ChunkOk(s.db, id);
      assert LiveRaw(s.db, id) && WithinWiki(s.db, id);
    }
  }

  lemma FrameStates(s: Sys, s': Sys)
    requires DeliveriesOk(s) && GenerationsOk(s.db) && StatesCurrent(s)
    requires SameGenerations(s, s') && ChunksOnlyVanish(s.db, s'.db) && SameStates(s, s')
    ensures StatesCurrent(s')
  {
    forall w | w in s'.deliveries && s'.deliveries[w].wiki.Some?
      ensures StateCurrent(s'.db, s'.deliveries[w].record.project, s'.deliveries[w].wiki.value)
    {
      var p, st := s'.deliveries[w].record.project, s'.deliveries[w].wiki.value;
      assert RecordOk(s.db, s.deliveries[w].record);
      assert StateCurrent(s.db, p, st);
      if p in s'.db.projects {
        assert p in s.db.projects;
        PagesUnchanged(s.db, s'.db, p);
        forall id | LiveRaw(s'.db, id) && s'.db.chunks[id].project == p && !WithinWiki(s'.db, id)
          ensures LiveRaw(s.db, id) && !WithinWiki(s.db, id)
        {
          assert ChunkOk(s.db, id);
        }
      }
    }
  }

  /** A step that commits nothing keeps coverage. */
  lemma Frame(s: Sys, s': Sys)
    requires DeliveriesOk(s) && CoverageOk(s)
    requires SameGenerations(s, s') && ChunksOnlyVanish(s.db, s'.db) && SameStates(s, s')
    ensures CoverageOk(s')
  {
    FrameSerial(s, s');
    FrameGenerations(s, s');
    FrameStates(s, s');
  }

  /** The transaction touches neither chunks nor counters, loses no document and revives none. */
  ghost predicate Calm(db: Db, db': Db) {
    && db'.chunks == db.chunks
    && db'.projects.Keys == db.projects.Keys
    && (forall p :: p in db.projects ==>
          db'.projects[p].knowledge == db.projects[p].knowledge && db'.projects[p].wiki == db.projects[p].wiki)
    && (forall d :: d in db.documents ==>
          && d in db'.documents && db'.documents[d].project == db.documents[d].project
          && (db'.documents[d].Live() ==> db.documents[d].Live()))
  }

  lemma CalmCovered(s: Sys, s': Sys)
    requires DeliveriesOk(s) && CoverageOk(s) && Calm(s.db, s'.db) && s'.history == s.history && SameStates(s, s')
    ensures CoverageOk(s')
  {
    CalmVanishes(s.db, s'.db);
    Frame(s, s');
  }

  lemma CalmVanishes(db: Db, db': Db)
    requires GenerationsOk(db) && Calm(db, db')
    ensures ChunksOnlyVanish(db, db')
  {
    forall id | id in db.chunks
      ensures db.chunks[id].project in db'.projects && (id.RawId? ==> id.document in db'.documents)
    {
      assert ChunkOk(db, id);
    }
  }

  lemma NewProjectSame(s: Sys)
    requires SysOk(s)
    ensures SameGenerations(s, Apply(s, NewProject))
  {
    assert s.db.nextId !in s.db.projects;
  }

  lemma NewProjectVanish(db: Db)
    requires GenerationsOk(db)
    ensures ChunksOnlyVanish(db, CreateProject(db))
  {
    forall id | id in db.chunks
      ensures db.chunks[id].project in db.projects && (id.RawId? ==> id.document in db.documents)
    {
      assert ChunkOk(db, id);
    }
  }

  lemma NewProjectCovered(s: Sys)
    requires SysOk(s) && CoverageOk(s)
    ensures CoverageOk(Apply(s, NewProject))
  {
    NewProjectSame(s);
    NewProjectVanish(s.db);
    Frame(s, Apply(s, NewProject));
  }

  lemma CreationCalm(db: Db, x: Id)
    requires DbOk(db)
    ensures Calm(db, CreateDocument(db, x))
  {
    assert db.nextId !in db.documents;
  }

  lemma BootstrapCalm(db: Db, x: Id)
    ensures Calm(db, BootstrapFailed(db, x))
  {
  }

  lemma RequestsCalm(db: Db, x: Id)
    requires DbOk(db)
    ensures Calm(db, CreateDocument(db, x)) && Calm(db, RequestIngestion(db, x)) && Calm(db, BootstrapFailed(db, x))
  {
    CreationCalm(db, x);
    BootstrapCalm(db, x);
  }

  lemma DeletionRequestsCalm(db: Db, x: Id)
    ensures Calm(db, RequestDocumentDeletion(db, x)) && Calm(db, RequestProjectDeletion(db, x))
  {
  }

  lemma ClaimsCalm(db: Db, e: Event, worker: Id, lease: nat)
    ensures Calm(db, ClaimIngest(db, e, worker, lease))
    ensures ClaimDeletion(db, e, worker, lease).Success? ==> Calm(db, ClaimDeletion(db, e, worker, lease).value.0)
    ensures ClaimProjectDeletion(db, e, worker, lease).Success? ==> Calm(db, ClaimProjectDeletion(db, e, worker, lease).value.0)
  {
  }

  lemma ReportsCalm(db: Db, rec: Record, worker: Id)
    ensures Calm(db, MarkRetryable(db, rec, worker))
    ensures rec.IngestionRecord? ==> Calm(db, MarkFailed(db, rec, worker))
    ensures rec.IngestionRecord? && MarkReady(db, rec, worker).Success? ==> Calm(db, MarkReady(db, rec, worker).value)
    ensures Calm(db, ReleaseDeletion(db, rec, worker, Pending)) && Calm(db, ReleaseDeletion(db, rec, worker, Failed))
  {
  }

  /** A step that only reports, requests or claims. */
  predicate CommitsNothing(step: Step) {
    !step.NewProject? && !step.IngestLoad? && !step.IngestCommit? && !step.DocumentDeletionDone? && !step.ProjectDeletionDone?
  }

  lemma CalmRequest(s: Sys, step: Step)
    requires SysOk(s)
    requires step.Tick? || step.NewDocument? || step.AskIngestion? || step.Bootstrap? || step.AskDocumentDeletion?
             || step.AskProjectDeletion?
    ensures var s' := Apply(s, step); Calm(s.db, s'.db) && s'.history == s.history && SameStates(s, s')
  {
    match step
    case Tick(_) =>
    case NewDocument(p) => RequestsCalm(s.db, p);
    case AskIngestion(d) => RequestsCalm(s.db, d);
    case Bootstrap(job) => RequestsCalm(s.db, job);
    case AskDocumentDeletion(d) => DeletionRequestsCalm(s.db, d);
    case AskProjectDeletion(p) => DeletionRequestsCalm(s.db, p);
  }

  lemma CalmIngestClaim(s: Sys, e: Event, worker: Id, lease: nat)
    ensures var s' := DoIngestClaim(s, e, worker, lease); Calm(s.db, s'.db) && s'.history == s.history && SameStates(s, s')
  {
    ClaimsCalm(s.db, e, worker, lease);
  }

  lemma CalmDocumentDeletionClaim(s: Sys, e: Event, worker: Id, lease: nat)
    ensures var s' := DoDocumentDeletionClaim(s, e, worker, lease);
            Calm(s.db, s'.db) && s'.history == s.history && SameStates(s, s')
  {
    ClaimsCalm(s.db, e, worker, lease);
  }

  lemma CalmProjectDeletionClaim(s: Sys, e: Event, worker: Id, lease: nat)
    ensures var s' := DoProjectDeletionClaim(s, e, worker, lease);
            Calm(s.db, s'.db) && s'.history == s.history && SameStates(s, s')
  {
    ClaimsCalm(s.db, e, worker, lease);
  }

  lemma CalmReport(s: Sys, step: Step)
    requires step.IngestReady? || step.IngestRetry? || step.IngestFail? || step.DeletionRetry? || step.DeletionFail?
    ensures var s' := Apply(s, step); Calm(s.db, s'.db) && s'.history == s.history && SameStates(s, s')
  {
    if step.worker in s.deliveries { ReportsCalm(s.db, s.deliveries[step.worker].record, step.worker); }
  }

  lemma CalmStep(s: Sys, step: Step)
    requires SysOk(s) && CommitsNothing(step)
    ensures var s' := Apply(s, step); Calm(s.db, s'.db) && s'.history == s.history && SameStates(s, s')
  {
    if step.IngestClaim? {
      CalmIngestClaim(s, step.event, step.worker, step.lease);
    } else if step.DocumentDeletionClaim? {
      CalmDocumentDeletionClaim(s, step.event, step.worker, step.lease);
    } else if step.ProjectDeletionClaim? {
      CalmProjectDeletionClaim(s, step.event, step.worker, step.lease);
    } else if step.IngestReady? || step.IngestRetry? || step.IngestFail? || step.DeletionRetry? || step.DeletionFail? {
      CalmReport(s, step);
    } else {
      CalmRequest(s, step);
    }
  }

  lemma DocumentDeletionCovered(s: Sys, worker: Id)
    requires SysOk(s) && CoverageOk(s)
    ensures CoverageOk(DoDocumentDeletionDone(s, worker))
  {
    var s' := DoDocumentDeletionDone(s, worker);
    forall id | id in s.db.chunks ensures ChunkOk(s.db, id) {
    }
    assert ChunksOnlyVanish(s.db, s'.db);
    Frame(s, s');
  }

  lemma DropVanishes(db: Db, p: Id)
    requires GenerationsOk(db)
    ensures ChunksOnlyVanish(db, DropProject(db, p))
  {
    var db' := DropProject(db, p);
    forall id | id in db.chunks
      ensures id in db'.chunks <==> db.chunks[id].project != p
    {
      assert ChunkOk(db, id);
    }
    forall id | id in db'.chunks ensures ChunkOk(db, id) {
    }
  }

  lemma ProjectDeletionCovered(s: Sys, worker: Id)
    requires SysOk(s) && CoverageOk(s)
    ensures CoverageOk(DoProjectDeletionDone(s, worker))
  {
    var s' := DoProjectDeletionDone(s, worker);
    if s' != s {
      DropVanishes(s.db, s.deliveries[worker].record.project);
      VanishesAlike(s.db, DropProject(s.db, s.deliveries[worker].record.project), s'.db);
      Frame(s, s');
    }
  }

  lemma VanishesAlike(db: Db, d: Db, db': Db)
    requires ChunksOnlyVanish(db, d)
    requires db'.chunks == d.chunks && db'.documents == d.documents && db'.projects == d.projects
    ensures ChunksOnlyVanish(db, db')
  {
  }

  lemma LoadedStateCurrent(db: Db, p: Id)
    requires GenerationsOk(db) && LoadWikiState(db, p).Success?
    ensures StateCurrent(db, p, LoadWikiState(db, p).value)
  {
    var st := LoadWikiState(db, p).value;
    forall id | LiveRaw(db, id) && db.chunks[id].project == p && !WithinWiki(db, id) ensures id in st.pending {
      assert ChunkOk(db, id);
    }
  }

  lemma LoadCovered(s: Sys, worker: Id)
    requires SysOk(s) && CoverageOk(s)
    ensures CoverageOk(DoLoad(s, worker))
  {
    var s' := DoLoad(s, worker);
    if s' != s {
      LoadedStatesCurrent(s, worker);
      assert s'.db == s.db && s'.history == s.history;
      SameTables(s, s');
    }
  }

  lemma LoadedStatesCurrent(s: Sys, worker: Id)
    requires GenerationsOk(s.db) && StatesCurrent(s) && DoLoad(s, worker) != s
    ensures StatesCurrent(DoLoad(s, worker))
  {
    LoadedStateCurrent(s.db, s.deliveries[worker].record.project);
    var s' := DoLoad(s, worker);
    forall w | w in s'.deliveries && s'.deliveries[w].wiki.Some?
      ensures StateCurrent(s'.db, s'.deliveries[w].record.project, s'.deliveries[w].wiki.value)
    {
      assert w != worker ==> s'.deliveries[w] == s.deliveries[w];
    }
  }

  lemma SameTables(s: Sys, s': Sys)
    requires CoverageOk(s) && s'.db == s.db && s'.history == s.history && StatesCurrent(s')
    ensures CoverageOk(s')
  {
    assert forall p :: History(s', p) == History(s, p);
  }

  /** What a commit knows when it applies its Wiki: nothing was committed since its load. */
  lemma AppliedBaseIsCurrent(s: Sys, worker: Id, compiled: Option<seq<Compiled>>)
    requires SysOk(s) && CoverageOk(s) && Commits(s, worker)
    ensures AppliesWiki(s, worker, compiled) <==>
              compiled.Some? && s.deliveries[worker].wiki.value.knowledge
                                == s.db.projects[s.deliveries[worker].record.project].knowledge
    ensures AppliesWiki(s, worker, compiled) ==>
              s.deliveries[worker].wiki.value.pages == WikiPages(s.db.chunks, s.deliveries[worker].record.project)
  {
    assert StateCurrent(s.db, s.deliveries[worker].record.project, s.deliveries[worker].wiki.value);
  }

  function RawPart(db: Db, rec: Record, chunks: seq<string>): map<ChunkId, Chunk>
    requires rec.IngestionRecord? && rec.project in db.projects
  {
    DropRaw(db.chunks, rec.document) + RawRows(rec.project, rec.document, chunks, db.projects[rec.project].knowledge + 1)
  }

  /** The raw rows a commit leaves: its own under the new generation, the others untouched. */
  lemma CommitRaw(db: Db, rec: Record, chunks: seq<string>, wiki: Option<seq<Compiled>>, base: nat, recovered: Option<nat>, id: ChunkId)
    requires rec.IngestionRecord? && rec.project in db.projects && GenerationsOk(db) && id.RawId?
    ensures var t := CommitChunks(db, rec, chunks, wiki, base, recovered);
            id in t <==> (if id.document == rec.document then 0 <= id.index < |chunks| && id == RawId(rec.document, id.index, chunks[id.index])
                          else id in db.chunks)
    ensures var t := CommitChunks(db, rec, chunks, wiki, base, recovered);
            id in t ==>
              t[id] == if id.document == rec.document
                       then Chunk(rec.project, Some(rec.document), id.text, [], db.projects[rec.project].knowledge + 1)
                       else db.chunks[id]
  {
    var p := db.projects[rec.project];
    var rows := RawRows(rec.project, rec.document, chunks, p.knowledge + 1);
    var raw := DropRaw(db.chunks, rec.document) + rows;
    if id in db.chunks { assert ChunkOk(db, id); }
    assert id in rows <==> id.document == rec.document && 0 <= id.index < |chunks| && id == RawId(rec.document, id.index, chunks[id.index]);
    if ApplyWiki(p, wiki, base, recovered) {
      WritePagesKeepsRaw(raw, rec.project, p.knowledge + 1, wiki.value, id);
    }
  }

  lemma RawKeepsPages(db: Db, rec: Record, chunks: seq<string>, q: Id)
    requires rec.IngestionRecord? && rec.project in db.projects
    ensures WikiPages(RawPart(db, rec, chunks), q) == WikiPages(db.chunks, q)
  {
    var raw := RawPart(db, rec, chunks);
    forall id: ChunkId | id.PageId? ensures id in raw <==> id in db.chunks
                           ensures id in raw ==> raw[id] == db.chunks[id] {
    }
  }

  lemma {:induction false} WritePagesRows(t: map<ChunkId, Chunk>, p: Id, generation: nat, cs: seq<Compiled>, id: ChunkId)
    requires id in WritePages(t, p, generation, cs)
    ensures var t' := WritePages(t, p, generation, cs);
            (id in t && t'[id] == t[id])
            || (id.PageId? && id.project == p && t'[id].project == p && t'[id].document.None? && t'[id].generation == generation)
  {
    if cs != [] {
      var init := WritePages(t, p, generation, cs[..|cs| - 1]);
      if id != PageId(p, cs[|cs| - 1].id) {
        assert id in init;
        WritePagesRows(t, p, generation, cs[..|cs| - 1], id);
      }
    }
  }

  lemma CommitChunkRows(db: Db, rec: Record, chunks: seq<string>, wiki: Option<seq<Compiled>>, base: nat, recovered: Option<nat>, id: ChunkId)
    requires rec.IngestionRecord? && rec.project in db.projects && GenerationsOk(db)
    requires rec.document in db.documents && db.documents[rec.document].project == rec.project
    requires id in CommitChunks(db, rec, chunks, wiki, base, recovered)
    ensures var c := CommitChunks(db, rec, chunks, wiki, base, recovered)[id];
            && c.project in db.projects
            && c.generation <= db.projects[c.project].knowledge + (if c.project == rec.project then 1 else 0)
            && (id.RawId? ==> c.document == Some(id.document) && id.document in db.documents
                              && db.documents[id.document].project == c.project)
            && (id.PageId? ==> c.document.None? && c.project == id.project)
  {
    var p := db.projects[rec.project];
    if id in db.chunks { assert ChunkOk(db, id); }
    if id.RawId? {
      CommitRaw(db, rec, chunks, wiki, base, recovered, id);
    } else if ApplyWiki(p, wiki, base, recovered) {
      WritePagesRows(DropRaw(db.chunks, rec.document) + RawRows(rec.project, rec.document, chunks, p.knowledge + 1),
                     rec.project, p.knowledge + 1, wiki.value, id);
    }
  }

  /** The raw rows after a commit of `chunks` for the record's document. */
  ghost predicate RawAfter(db: Db, t: map<ChunkId, Chunk>, rec: Record, chunks: seq<string>)
    requires rec.IngestionRecord? && rec.project in db.projects
  {
    forall id :: id in t && id.RawId? ==>
      if id.document == rec.document then
        && 0 <= id.index < |chunks| && id == RawId(rec.document, id.index, chunks[id.index])
        && t[id].project == rec.project && t[id].generation == db.projects[rec.project].knowledge + 1
      else id in db.chunks && t[id] == db.chunks[id]
  }

  /** The Wiki pages after a commit that queued `queue`. */
  ghost predicate PagesAfter(db: Db, t: map<ChunkId, Chunk>, p: Id, applies: bool, queue: seq<Compiled>) {
    forall q :: WikiPages(t, q) == if q == p && applies then Replay(WikiPages(db.chunks, q), queue) else WikiPages(db.chunks, q)
  }

  /** A commit seen from outside: what `replace_content` did to the system. */
  ghost predicate Committed(s: Sys, s': Sys, rec: Record, w: WikiState, chunks: seq<string>, applies: bool, compiled: seq<Compiled>) {
    && rec.IngestionRecord? && rec.project in s.db.projects
    && s'.deliveries == s.deliveries
    && (var p := s.db.projects[rec.project];
        s'.db.projects == s.db.projects[rec.project :=
          p.(knowledge := p.knowledge + 1, wiki := if applies then p.knowledge + 1 else p.wiki)])
    && s'.history == (if applies then s.history[rec.project := History(s, rec.project)
                                                  + [Batch(Inputs(w, rec.document, chunks), compiled)]] else s.history)
    && SameDocuments(s.db.documents, s'.db.documents)
    && (forall d :: d in s'.db.documents ==> s'.db.documents[d].Live() == s.db.documents[d].Live())
    && RawAfter(s.db, s'.db.chunks, rec, chunks)
    && (applies ==> PagesAfter(s.db, s'.db.chunks, rec.project, true, Queue(w.pages, compiled)))
    && (!applies ==> PagesAfter(s.db, s'.db.chunks, rec.project, false, []))
  }

  lemma CommitRawAfter(db: Db, rec: Record, chunks: seq<string>, wiki: Option<seq<Compiled>>, base: nat, recovered: Option<nat>)
    requires rec.IngestionRecord? && rec.project in db.projects && GenerationsOk(db)
    ensures RawAfter(db, CommitChunks(db, rec, chunks, wiki, base, recovered), rec, chunks)
  {
    var t := CommitChunks(db, rec, chunks, wiki, base, recovered);
    forall id | id in t && id.RawId?
      ensures if id.document == rec.document then
                && 0 <= id.index < |chunks| && id == RawId(rec.document, id.index, chunks[id.index])
                && t[id].project == rec.project && t[id].generation == db.projects[rec.project].knowledge + 1
              else id in db.chunks && t[id] == db.chunks[id]
    {
      CommitRaw(db, rec, chunks, wiki, base, recovered, id);
    }
  }

  /** Writing the queued pages on top of unchanged pages is a replay in one project. */
  lemma WrittenPagesAfter(db: Db, raw: map<ChunkId, Chunk>, p: Id, generation: nat, queue: seq<Compiled>)
    requires forall q :: WikiPages(raw, q) == WikiPages(db.chunks, q)
    ensures PagesAfter(db, WritePages(raw, p, generation, queue), p, true, queue)
    ensures PagesAfter(db, raw, p, false, [])
  {
    forall q ensures WikiPages(WritePages(raw, p, generation, queue), q)
                  == if q == p then Replay(WikiPages(db.chunks, q), queue) else WikiPages(db.chunks, q) {
      WritePagesIsReplay(raw, p, generation, queue, q);
    }
  }

  lemma CommitPagesAfter(db: Db, rec: Record, chunks: seq<string>, wiki: Option<seq<Compiled>>, base: nat, recovered: Option<nat>)
    requires rec.IngestionRecord? && rec.project in db.projects
    ensures var t := CommitChunks(db, rec, chunks, wiki, base, recovered);
            if ApplyWiki(db.projects[rec.project], wiki, base, recovered)
            then PagesAfter(db, t, rec.project, true, wiki.value) else PagesAfter(db, t, rec.project, false, [])
  {
    var raw, next := RawPart(db, rec, chunks), db.projects[rec.project].knowledge + 1;
    assert forall q :: WikiPages(raw, q) == WikiPages(db.chunks, q) by {
      forall q { RawKeepsPages(db, rec, chunks, q); }
    }
    CommitChunksParts(db, rec, chunks, wiki, base, recovered);
    WrittenPagesAfter(db, raw, rec.project, next, if wiki.Some? then wiki.value else []);
  }

  lemma CommitChunksParts(db: Db, rec: Record, chunks: seq<string>, wiki: Option<seq<Compiled>>, base: nat, recovered: Option<nat>)
    requires rec.IngestionRecord? && rec.project in db.projects
    ensures CommitChunks(db, rec, chunks, wiki, base, recovered)
         == if ApplyWiki(db.projects[rec.project], wiki, base, recovered)
            then WritePages(RawPart(db, rec, chunks), rec.project, db.projects[rec.project].knowledge + 1, wiki.value)
            else RawPart(db, rec, chunks)
  {
  }

  lemma CommitDocuments(s: Sys, worker: Id, pages: seq<string>, chunks: seq<string>, compiled: Option<seq<Compiled>>)
    requires Commits(s, worker)
    ensures var documents := DoCommit(s, worker, pages, chunks, compiled).db.documents;
            && SameDocuments(s.db.documents, documents)
            && forall d :: d in documents ==> documents[d].Live() == s.db.documents[d].Live()
  {
  }

  /** Whether a commit applies, and that it is then `Committed`. */
  lemma CommitIsCommitted(s: Sys, worker: Id, pages: seq<string>, chunks: seq<string>, compiled: Option<seq<Compiled>>)
    requires Commits(s, worker) && GenerationsOk(s.db)
    ensures var rec, w := s.deliveries[worker].record, s.deliveries[worker].wiki.value;
            var applies := AppliesWiki(s, worker, compiled);
            Committed(s, DoCommit(s, worker, pages, chunks, compiled), rec, w, chunks, applies,
                      if applies then compiled.value else [])
  {
    var rec, w := s.deliveries[worker].record, s.deliveries[worker].wiki.value;
    CommitDocuments(s, worker, pages, chunks, compiled);
    CommitRawAfter(s.db, rec, chunks, Queued(w, compiled), w.knowledge, Recovered(w, compiled));
    CommitPagesAfter(s.db, rec, chunks, Queued(w, compiled), w.knowledge, Recovered(w, compiled));
  }

  /** Every row after a commit sits where it should, under a generation at most one further. */
  ghost predicate RowsAfter(db: Db, t: map<ChunkId, Chunk>, p: Id) {
    forall id :: id in t ==>
      && t[id].project in db.projects
      && t[id].generation <= db.projects[t[id].project].knowledge + (if t[id].project == p then 1 else 0)
      && (id.RawId? ==> t[id].document == Some(id.document) && id.document in db.documents
                        && db.documents[id.document].project == t[id].project)
      && (id.PageId? ==> t[id].document.None? && t[id].project == id.project)
  }

  lemma CommitRowsAfter(db: Db, rec: Record, chunks: seq<string>, wiki: Option<seq<Compiled>>, base: nat, recovered: Option<nat>)
    requires rec.IngestionRecord? && rec.project in db.projects && GenerationsOk(db)
    requires rec.document in db.documents && db.documents[rec.document].project == rec.project
    ensures RowsAfter(db, CommitChunks(db, rec, chunks, wiki, base, recovered), rec.project)
  {
    var t := CommitChunks(db, rec, chunks, wiki, base, recovered);
    forall id | id in t {
      CommitChunkRows(db, rec, chunks, wiki, base, recovered, id);
    }
  }

  lemma CommittedGenerations(s: Sys, s': Sys, rec: Record, w: WikiState, chunks: seq<string>, applies: bool, compiled: seq<Compiled>)
    requires GenerationsOk(s.db) && Committed(s, s', rec, w, chunks, applies, compiled)
    requires RowsAfter(s.db, s'.db.chunks, rec.project)
    ensures GenerationsOk(s'.db)
  {
  }

  lemma CommittedSerial(s: Sys, s': Sys, rec: Record, w: WikiState, chunks: seq<string>, applies: bool, compiled: seq<Compiled>)
    requires Serial(s) && Committed(s, s', rec, w, chunks, applies, compiled)
    requires applies ==> w.pages == WikiPages(s.db.chunks, rec.project)
    ensures Serial(s')
  {
    forall q | q in s'.db.projects ensures WikiPages(s'.db.chunks, q) == WikiAfter(History(s', q)) {
      CommittedSerialIn(s, s', rec, w, chunks, applies, compiled, q);
    }
  }

  lemma CommittedSerialIn(s: Sys, s': Sys, rec: Record, w: WikiState, chunks: seq<string>, applies: bool,
                          compiled: seq<Compiled>, q: Id)
    requires Serial(s) && Committed(s, s', rec, w, chunks, applies, compiled) && q in s'.db.projects
    requires applies ==> w.pages == WikiPages(s.db.chunks, rec.project)
    ensures WikiPages(s'.db.chunks, q) == WikiAfter(History(s', q))
  {
    if q == rec.project && applies {
      LogStep(History(s, q), Batch(Inputs(w, rec.document, chunks), compiled));
    }
  }

  lemma CommittedCovered(s: Sys, s': Sys, rec: Record, w: WikiState, chunks: seq<string>, applies: bool, compiled: seq<Compiled>)
    requires GenerationsOk(s.db) && Covered(s) && Committed(s, s', rec, w, chunks, applies, compiled)
    requires applies ==> StateCurrent(s.db, rec.project, w) && w.knowledge == s.db.projects[rec.project].knowledge
    ensures Covered(s')
  {
    forall id | LiveRaw(s'.db, id) && WithinWiki(s'.db, id)
      ensures id in Folded(History(s', s'.db.chunks[id].project))
    {
      CommittedChunkCovered(s, s', rec, w, chunks, applies, compiled, id);
    }
  }

  lemma CommittedChunkCovered(s: Sys, s': Sys, rec: Record, w: WikiState, chunks: seq<string>, applies: bool,
                              compiled: seq<Compiled>, id: ChunkId)
    requires GenerationsOk(s.db) && Covered(s) && Committed(s, s', rec, w, chunks, applies, compiled)
    requires applies ==> StateCurrent(s.db, rec.project, w) && w.knowledge == s.db.projects[rec.project].knowledge
    requires LiveRaw(s'.db, id) && WithinWiki(s'.db, id)
    ensures id in Folded(History(s', s'.db.chunks[id].project))
  {
    if id.document != rec.document {
      assert ChunkOk(s.db, id) && LiveRaw(s.db, id);
      CommittedOtherChunk(s, s', rec, w, chunks, applies, compiled, id);
    } else {
      assert applies;
      assert id in Inputs(w, rec.document, chunks);
      LogStep(History(s, rec.project), Batch(Inputs(w, rec.document, chunks), compiled));
    }
  }

  /** A chunk of another document was covered before, or was pending and is in the batch. */
  lemma CommittedOtherChunk(s: Sys, s': Sys, rec: Record, w: WikiState, chunks: seq<string>, applies: bool,
                            compiled: seq<Compiled>, id: ChunkId)
    requires Covered(s) && Committed(s, s', rec, w, chunks, applies, compiled)
    requires applies ==> StateCurrent(s.db, rec.project, w) && w.knowledge == s.db.projects[rec.project].knowledge
    requires LiveRaw(s'.db, id) && WithinWiki(s'.db, id) && id.document != rec.document
    requires LiveRaw(s.db, id) && ChunkOk(s.db, id)
    ensures id in Folded(History(s', s'.db.chunks[id].project))
  {
    var batch := Inputs(w, rec.document, chunks);
    if applies {
      LogStep(History(s, rec.project), Batch(batch, compiled));
      if s.db.chunks[id].project == rec.project && !WithinWiki(s.db, id) {
        assert id in w.pending;
        assert id in batch;
      }
    }
  }

  lemma CommittedStates(s: Sys, s': Sys, rec: Record, w: WikiState, chunks: seq<string>, applies: bool, compiled: seq<Compiled>)
    requires SysOk(s) && GenerationsOk(s.db) && StatesCurrent(s) && Committed(s, s', rec, w, chunks, applies, compiled)
    requires rec.document in s.db.documents && s.db.documents[rec.document].project == rec.project
    ensures StatesCurrent(s')
  {
    forall v | v in s'.deliveries && s'.deliveries[v].wiki.Some?
      ensures StateCurrent(s'.db, s'.deliveries[v].record.project, s'.deliveries[v].wiki.value)
    {
      var q, st := s'.deliveries[v].record.project, s'.deliveries[v].wiki.value;
      assert StateCurrent(s.db, q, st);
      if q in s'.db.projects && q != rec.project {
        forall id | LiveRaw(s'.db, id) && s'.db.chunks[id].project == q && !WithinWiki(s'.db, id)
          ensures LiveRaw(s.db, id) && s.db.chunks[id].project == q && !WithinWiki(s.db, id)
        {
          assert id.document != rec.document;
        }
      }
    }
  }

  lemma CommitCovered(s: Sys, worker: Id, pages: seq<string>, chunks: seq<string>, compiled: Option<seq<Compiled>>)
    requires SysOk(s) && CoverageOk(s) && Commits(s, worker)
    ensures CoverageOk(DoCommit(s, worker, pages, chunks, compiled))
  {
    var rec, w := s.deliveries[worker].record, s.deliveries[worker].wiki.value;
    assert RecordOk(s.db, rec);
    var s' := DoCommit(s, worker, pages, chunks, compiled);
    var applies := AppliesWiki(s, worker, compiled);
    var list := if applies then compiled.value else [];
    CommitRowsAfter(s.db, rec, chunks, Queued(w, compiled), w.knowledge, Recovered(w, compiled));
    CommitIsCommitted(s, worker, pages, chunks, compiled);
    AppliedBaseIsCurrent(s, worker, compiled);
    assert StateCurrent(s.db, rec.project, w);
    CommittedGenerations(s, s', rec, w, chunks, applies, list);
    CommittedSerial(s, s', rec, w, chunks, applies, list);
    CommittedCovered(s, s', rec, w, chunks, applies, list);
    CommittedStates(s, s', rec, w, chunks, applies, list);
  }

  lemma ApplyCovered(s: Sys, step: Step)
    requires SysOk(s) && CoverageOk(s)
    ensures CoverageOk(Apply(s, step))
  {
    match step
    case NewProject => NewProjectCovered(s);
    case IngestLoad(w) => LoadCovered(s, w);
    case IngestCommit(w, pages, chunks, compiled) =>
      if Commits(s, w) { CommitCovered(s, w, pages, chunks, compiled); }
    case DocumentDeletionDone(w) => DocumentDeletionCovered(s, w);
    case ProjectDeletionDone(w) => ProjectDeletionCovered(s, w);
    case _ =>
      CalmStep(s, step);
      CalmCovered(s, Apply(s, step));
  }

  lemma {:induction false} RunCovered(steps: seq<Step>)
    ensures CoverageOk(Run(INIT, steps))
  {
    if steps != [] {
      var init := steps[..|steps| - 1];
      RunCovered(init);
      RunOk(init);
      ApplyCovered(Run(INIT, init), steps[|steps| - 1]);
    }
  }

  /**
   * In every reachable state the Wiki generation never passes the knowledge
   * generation, the Wiki table is the outcome of its committed batches applied one
   * after another, each compiled against the table the previous one left, and every
   * raw chunk of a live document up to the Wiki generation went through one of them.
   */
  lemma WikiCoversItsGeneration(steps: seq<Step>, p: Id)
    requires p in Run(INIT, steps).db.projects
    ensures var s := Run(INIT, steps);
            && s.db.projects[p].wiki <= s.db.projects[p].knowledge
            && WikiPages(s.db.chunks, p) == WikiAfter(History(s, p))
            && forall id :: LiveRaw(s.db, id) && s.db.chunks[id].project == p
                            && s.db.chunks[id].generation <= s.db.projects[p].wiki
                 ==> id in Folded(History(s, p))
  {
    RunCovered(steps);
    var s := Run(INIT, steps);
    forall id | LiveRaw(s.db, id) && s.db.chunks[id].project == p && s.db.chunks[id].generation <= s.db.projects[p].wiki
      ensures id in Folded(History(s, p))
    {
      assert WithinWiki(s.db, id);
    }
  }

  /**
   * What a load is for: a commit that writes the Wiki it compiled from the loaded state brings
   * the Wiki up to date, with every live raw chunk of the project folded in.
   */
  lemma AppliedCommitCatchesUp(steps: seq<Step>, step: Step, p: Id)
    requires step.IngestCommit? && Commits(Run(INIT, steps), step.worker)
    requires AppliesWiki(Run(INIT, steps), step.worker, step.compiled)
    requires p == Run(INIT, steps).deliveries[step.worker].record.project
    ensures var s' := Run(INIT, steps + [step]);
            && p in s'.db.projects && s'.db.projects[p].wiki == s'.db.projects[p].knowledge
            && forall id :: LiveRaw(s'.db, id) && s'.db.chunks[id].project == p ==> id in Folded(History(s', p))
  {
    RunStep(INIT, steps, step);
    RunCovered(steps + [step]);
    var s' := Run(INIT, steps + [step]);
    forall id | LiveRaw(s'.db, id) && s'.db.chunks[id].project == p
      ensures id in Folded(History(s', p))
    {
      assert ChunkOk(s'.db, id);
      assert WithinWiki(s'.db, id);
    }
  }

  /**
   * A commit writes its Wiki exactly when it compiled one and no commit has bumped the
   * knowledge generation since its load; the Wiki it compiled against is then the stored one.
   */
  lemma WikiWriteIsCompareAndSet(steps: seq<Step>, worker: Id, compiled: Option<seq<Compiled>>)
    requires Commits(Run(INIT, steps), worker)
    ensures var s := Run(INIT, steps);
            var rec, w := s.deliveries[worker].record, s.deliveries[worker].wiki.value;
            && (AppliesWiki(s, worker, compiled) <==> compiled.Some? && w.knowledge == s.db.projects[rec.project].knowledge)
            && (AppliesWiki(s, worker, compiled) ==> w.pages == WikiPages(s.db.chunks, rec.project))
  {
    RunOk(steps);
    RunCovered(steps);
    AppliedBaseIsCurrent(Run(INIT, steps), worker, compiled);
  }
}
