/** `SqlIngestionStore`: what each transaction does to the tables, and the transactions themselves. */
module IngestionStore {
  import opened Common
  import opened WikiMerge
  import opened Tables

  /** The `where` clause of the ingestion claim. */
  predicate IngestClaimable(db: Db, e: Event) {
    && e.job in db.jobs && e.document in db.documents
    && var j, d := db.jobs[e.job], db.documents[e.document];
       && j.kind.IngestJob? && j.project == Some(e.project) && j.document == Some(e.document)
       && d.project == e.project && !d.deleted
       && ProjectActive(db, e.project)
       && d.status !in {Deleted, Expired, Ready}
       && j.Claimable(db.now)
  }

  function ClaimIngest(db: Db, e: Event, worker: Id, seconds: nat): Db {
    if IngestClaimable(db, e) then
      db.(jobs := db.jobs[e.job := db.jobs[e.job].Claimed(worker, db.now, seconds)],
          documents := db.documents[e.document := db.documents[e.document].(status := Parsing)])
    else db
  }

  /** The lock both writers take: own unexpired lease, runnable document, active project. */
  predicate Runnable(db: Db, job: Id, worker: Id, allowed: set<DocumentStatus>) {
    && job in db.jobs
    && var j := db.jobs[job];
       && j.HeldBy(worker, db.now)
       && j.document.Some? && j.document.value in db.documents
       && (var d := db.documents[j.document.value]; !d.deleted && d.status in allowed)
       && j.project.Some? && ProjectActive(db, j.project.value)
  }

  const WRITABLE := {Uploaded, Parsing, Parsed, Indexing, DocumentFailed}

  /** `apply_wiki`: no commit since the load, and the Wiki is current or was just recovered. */
  predicate ApplyWiki(p: Project, wiki: Option<seq<Compiled>>, base: nat, recovered: Option<nat>) {
    && wiki.Some?
    && p.knowledge == base
    && (p.wiki == p.knowledge || Some(p.wiki) == recovered)
  }

  function PageRows(d: Id, texts: seq<string>): set<PageRow> {
    set i | 0 <= i < |texts| :: PageRow(d, i, texts[i])
  }

  function PagesOf(pages: set<PageRow>, d: Id): set<PageRow> {
    set r | r in pages && r.document == d
  }

  function MarkDocument(documents: map<Id, Document>, d: Id, status: DocumentStatus): map<Id, Document> {
    if d in documents && documents[d].Live() then documents[d := documents[d].(status := status)] else documents
  }

  predicate CommitRunnable(db: Db, rec: Record, worker: Id)
    requires rec.IngestionRecord?
  {
    Runnable(db, rec.job, worker, WRITABLE) && ProjectActive(db, rec.project)
  }

  function CommitChunks(db: Db, rec: Record, chunks: seq<string>, wiki: Option<seq<Compiled>>,
                        base: nat, recovered: Option<nat>): map<ChunkId, Chunk>
    requires rec.IngestionRecord? && rec.project in db.projects
  {
    var p := db.projects[rec.project];
    var next := p.knowledge + 1;
    var raw := DropRaw(db.chunks, rec.document) + RawRows(rec.project, rec.document, chunks, next);
    if ApplyWiki(p, wiki, base, recovered) then WritePages(raw, rec.project, next, wiki.value) else raw
  }

  /** The tables after `replace_content`, or its error with the tables untouched. */
  function ReplaceContent(db: Db, rec: Record, worker: Id, pages: seq<string>, chunks: seq<string>,
                          wiki: Option<seq<Compiled>>, base: nat, recovered: Option<nat>): Result<Db>
    requires rec.IngestionRecord?
  {
    if !CommitRunnable(db, rec, worker) then Failure("DOCUMENT_NOT_RUNNABLE")
    else
      var p := db.projects[rec.project];
      var next := p.knowledge + 1;
      var wikiNow := if ApplyWiki(p, wiki, base, recovered) then next else p.wiki;
      Success(db.(pages := db.pages - PagesOf(db.pages, rec.document) + PageRows(rec.document, pages),
                  chunks := CommitChunks(db, rec, chunks, wiki, base, recovered),
                  projects := db.projects[rec.project := p.(knowledge := next, wiki := wikiNow)],
                  documents := MarkDocument(db.documents, rec.document, Indexing)))
  }

  function MarkReady(db: Db, rec: Record, worker: Id): Result<Db>
    requires rec.IngestionRecord?
  {
    if !Runnable(db, rec.job, worker, {Indexing}) then Failure("DOCUMENT_NOT_RUNNABLE")
    else
      var d := rec.document;
      Success(db.(jobs := db.jobs[rec.job := db.jobs[rec.job].Released(Succeeded)],
                  documents := if d in db.documents && !db.documents[d].deleted && db.documents[d].status == Indexing
                               then db.documents[d := db.documents[d].(status := Ready)] else db.documents))
  }

  /** The document and project a retry still needs to be there. */
  predicate Retryable(db: Db, j: Job) {
    && j.document.Some? && j.document.value in db.documents
    && var d := db.documents[j.document.value];
       d.Live() && ProjectActive(db, d.project)
  }

  function MarkRetryable(db: Db, rec: Record, worker: Id): Db {
    if rec.job in db.jobs && db.jobs[rec.job].owner == Some(worker) then
      var j := db.jobs[rec.job];
      db.(jobs := db.jobs[rec.job := j.Released(if Retryable(db, j) then Pending else Failed)])
    else db
  }

  /** The job fails only under its owner; the document fails for anyone. */
  function MarkFailed(db: Db, rec: Record, worker: Id): Db
    requires rec.IngestionRecord?
  {
    db.(jobs := if rec.job in db.jobs && db.jobs[rec.job].owner == Some(worker)
                then db.jobs[rec.job := db.jobs[rec.job].Released(Failed)] else db.jobs,
        documents := MarkDocument(db.documents, rec.document, DocumentFailed))
  }

  /** The canonical Wiki, the counters and the chunks not yet compiled, as one delivery loaded them. */
  datatype WikiState = WikiState(pages: map<Id, Page>, knowledge: nat, wiki: nat, pending: set<ChunkId>)

  function PendingChunks(db: Db, p: Id): set<ChunkId>
    requires p in db.projects
  {
    set id | id in db.chunks && id.RawId? && db.chunks[id].project == p
             && id.document in db.documents && db.documents[id.document].Live()
             && db.chunks[id].generation > db.projects[p].wiki
  }

  function LoadWikiState(db: Db, p: Id): Result<WikiState> {
    if !ProjectActive(db, p) then Failure("DOCUMENT_NOT_RUNNABLE")
    else Success(WikiState(WikiPages(db.chunks, p), db.projects[p].knowledge, db.projects[p].wiki, PendingChunks(db, p)))
  }

  lemma PutBehind(a: map<ChunkId, Chunk>, b: map<ChunkId, Chunk>, id: ChunkId, c: Chunk)
    ensures (a + b)[id := c] == a + b[id := c]
  {
  }

  class SqlIngestionStore {
    const engine: Database

    constructor (engine: Database)
      ensures this.engine == engine
    {
      this.engine := engine;
    }

    method Claim(e: Event, worker: Id, seconds: nat) returns (r: Option<Record>)
      modifies engine
      ensures engine.State() == ClaimIngest(old(engine.State()), e, worker, seconds)
      ensures r.Some? <==> old(IngestClaimable(engine.State(), e))
      ensures r.Some? ==> r.value == IngestionRecord(e.job, e.project, e.document, engine.jobs[e.job].attempts)
    {
      if !IngestClaimable(engine.State(), e) {
        return None;
      }
      var j := engine.jobs[e.job];
      engine.jobs := engine.jobs[e.job := j.Claimed(worker, engine.now, seconds)];
      engine.documents := engine.documents[e.document := engine.documents[e.document].(status := Parsing)];
      return Some(IngestionRecord(e.job, e.project, e.document, j.attempts + 1));
    }

    /** `replace_content`, row by row. */
    method Replace(rec: Record, worker: Id, pages: seq<string>, chunks: seq<string>,
                   wiki: Option<seq<Compiled>>, base: nat, recovered: Option<nat>) returns (r: Result<()>)
      requires rec.IngestionRecord?
      modifies engine
      ensures var after := ReplaceContent(old(engine.State()), rec, worker, pages, chunks, wiki, base, recovered);
              && r.Success? == after.Success?
              && engine.State() == (if after.Success? then after.value else old(engine.State()))
    {
      if !Runnable(engine.State(), rec.job, worker, WRITABLE) || !ProjectActive(engine.State(), rec.project) {
        return Failure("DOCUMENT_NOT_RUNNABLE");
      }
      var p := engine.projects[rec.project];
      var next := p.knowledge + 1;
      var apply := ApplyWiki(p, wiki, base, recovered);
      ReplacePages(rec.document, pages);
      ReplaceRaw(rec, chunks, next);
      if apply {
        WriteWiki(rec.project, next, wiki.value);
      }
      engine.projects := engine.projects[rec.project := p.(knowledge := next, wiki := if apply then next else p.wiki)];
      engine.documents := MarkDocument(engine.documents, rec.document, Indexing);
      return Success(());
    }

    method ReplacePages(d: Id, texts: seq<string>)
      modifies engine`pages
      ensures engine.pages == old(engine.pages) - PagesOf(old(engine.pages), d) + PageRows(d, texts)
    {
      engine.pages := engine.pages - PagesOf(engine.pages, d);
      ghost var kept := engine.pages;
      for i := 0 to |texts|
        invariant engine.pages == kept + PageRows(d, texts[..i])
      {
        assert PageRows(d, texts[..i + 1]) == PageRows(d, texts[..i]) + {PageRow(d, i, texts[i])};
        engine.pages := engine.pages + {PageRow(d, i, texts[i])};
      }
      assert texts[..|texts|] == texts;
    }

    method ReplaceRaw(rec: Record, texts: seq<string>, generation: nat)
      requires rec.IngestionRecord?
      modifies engine`chunks
      ensures engine.chunks
           == DropRaw(old(engine.chunks), rec.document) + RawRows(rec.project, rec.document, texts, generation)
    {
      engine.chunks := DropRaw(engine.chunks, rec.document);
      ghost var kept := engine.chunks;
      for i := 0 to |texts|
        invariant engine.chunks == kept + RawRows(rec.project, rec.document, texts[..i], generation)
      {
        RawRowsStep(rec.project, rec.document, texts, generation, i);
        PutBehind(kept, RawRows(rec.project, rec.document, texts[..i], generation), RawId(rec.document, i, texts[i]),
                  Chunk(rec.project, Some(rec.document), texts[i], [], generation));
        engine.chunks := engine.chunks[RawId(rec.document, i, texts[i]) :=
          Chunk(rec.project, Some(rec.document), texts[i], [], generation)];
      }
      assert texts[..|texts|] == texts;
    }

    /** Write the queued Wiki pages in their order. */
    method WriteWiki(p: Id, generation: nat, cs: seq<Compiled>)
      modifies engine`chunks
      ensures engine.chunks == WritePages(old(engine.chunks), p, generation, cs)
    {
      for i := 0 to |cs|
        invariant engine.chunks == WritePages(old(engine.chunks), p, generation, cs[..i])
      {
        var c := cs[i];
        assert cs[..i + 1][..i] == cs[..i];
        if c.page.merged != [] {
          engine.chunks := engine.chunks - PageIds(p, c.page.merged);
        }
        engine.chunks := engine.chunks[PageId(p, c.id) := Chunk(p, None, c.page.text, c.page.merged, generation)];
      }
      assert cs[..|cs|] == cs;
    }

    method MarkReadyRow(rec: Record, worker: Id) returns (r: Result<()>)
      requires rec.IngestionRecord?
      modifies engine
      ensures var after := MarkReady(old(engine.State()), rec, worker);
              && r.Success? == after.Success?
              && engine.State() == (if after.Success? then after.value else old(engine.State()))
    {
      if !Runnable(engine.State(), rec.job, worker, {Indexing}) {
        return Failure("DOCUMENT_NOT_RUNNABLE");
      }
      engine.jobs := engine.jobs[rec.job := engine.jobs[rec.job].Released(Succeeded)];
      var d := rec.document;
      if d in engine.documents && !engine.documents[d].deleted && engine.documents[d].status == Indexing {
        engine.documents := engine.documents[d := engine.documents[d].(status := Ready)];
      }
      return Success(());
    }

    method MarkRetryableRow(rec: Record, worker: Id)
      modifies engine
      ensures engine.State() == MarkRetryable(old(engine.State()), rec, worker)
    {
      var updated := false;
      if rec.job in engine.jobs {
        var j := engine.jobs[rec.job];
        if j.owner == Some(worker) && Retryable(engine.State(), j) {
          engine.jobs := engine.jobs[rec.job := j.Released(Pending)];
          updated := true;
        }
      }
      if !updated && rec.job in engine.jobs && engine.jobs[rec.job].owner == Some(worker) {
        engine.jobs := engine.jobs[rec.job := engine.jobs[rec.job].Released(Failed)];
      }
    }

    method MarkFailedRow(rec: Record, worker: Id)
      requires rec.IngestionRecord?
      modifies engine
      ensures engine.State() == MarkFailed(old(engine.State()), rec, worker)
    {
      if rec.job in engine.jobs && engine.jobs[rec.job].owner == Some(worker) {
        engine.jobs := engine.jobs[rec.job := engine.jobs[rec.job].Released(Failed)];
      }
      engine.documents := MarkDocument(engine.documents, rec.document, DocumentFailed);
    }

    /** The pages as stored, both counters, and exactly the live raw chunks the Wiki generation has not reached. */
    method Load(p: Id) returns (r: Result<WikiState>)
      ensures r.Success? <==> p in engine.projects && engine.projects[p].status.Active?
      ensures r.Success? ==> r.value.knowledge == engine.projects[p].knowledge && r.value.wiki == engine.projects[p].wiki
      ensures r.Success? ==> forall k :: k in r.value.pages <==> PageId(p, k) in engine.chunks
      ensures r.Success? ==> forall k :: k in r.value.pages ==>
                r.value.pages[k] == Page(engine.chunks[PageId(p, k)].text, engine.chunks[PageId(p, k)].merged)
      ensures r.Success? ==> forall id: ChunkId :: id in r.value.pending <==>
                && id in engine.chunks && id.RawId? && engine.chunks[id].project == p
                && id.document in engine.documents && engine.documents[id.document].Live()
                && engine.chunks[id].generation > engine.projects[p].wiki
    {
      if !ProjectActive(engine.State(), p) {
        return Failure("DOCUMENT_NOT_RUNNABLE");
      }
      var project := engine.projects[p];
      var pages := WikiPages(engine.chunks, p);
      return Success(WikiState(pages, project.knowledge, project.wiki, PendingChunks(engine.State(), p)));
    }
  }
}
