/**
 * The shared tables the workers race over.  A transaction of the program is one
 * atomic change of these tables; a transaction that raises leaves them alone.
 */
module Tables {
  import opened Common
  import opened WikiMerge

  datatype JobKind = IngestJob | DeleteDocumentJob | DeleteProjectJob

  datatype JobStatus = Pending | Running | Succeeded | Failed

  /** One row of `jobs`: the lease is the pair of nullable columns owner and expiry. */
  datatype Job = Job(kind: JobKind, project: Option<Id>, document: Option<Id>, status: JobStatus,
                     attempts: nat, owner: Option<Id>, expires: Option<nat>) {
    /** `lease_expires_at > now()`; a null expiry compares as false. */
    predicate LeaseLive(now: nat) { expires.Some? && expires.value > now }

    /** `lease_expires_at is null or lease_expires_at <= now()` */
    predicate LeaseGone(now: nat) { expires.None? || expires.value <= now }

    /** `status = 'pending' or (status = 'running' and lease_expires_at < now())` */
    predicate Claimable(now: nat) {
      status.Pending? || (status.Running? && expires.Some? && expires.value < now)
    }

    predicate HeldBy(worker: Id, now: nat) {
      status.Running? && owner == Some(worker) && LeaseLive(now)
    }

    function Claimed(worker: Id, now: nat, seconds: nat): Job {
      this.(status := Running, attempts := attempts + 1, owner := Some(worker), expires := Some(now + seconds))
    }

    function Released(outcome: JobStatus): Job {
      this.(status := outcome, owner := None, expires := None)
    }
  }

  datatype DocumentStatus =
    Uploaded | Parsing | Parsed | Indexing | Ready | DocumentFailed | Deleted | Expired

  /** `deleted` stands for `deleted_at is not null`. */
  datatype Document = Document(project: Id, status: DocumentStatus, deleted: bool) {
    predicate Live() { !deleted && !status.Deleted? }
  }

  datatype ProjectStatus = Active | Deleting

  datatype Project = Project(status: ProjectStatus, knowledge: nat, wiki: nat)

  /**
   * Chunk identifiers.  A raw chunk's UUID5 is taken over its document, index and
   * text, a Wiki page's UUID4 is never shared by two projects; both are injective.
   */
  datatype ChunkId = RawId(document: Id, index: nat, text: string) | PageId(project: Id, page: Id)

  /** One row of `chunks`, with the metadata the generation protocol reads. */
  datatype Chunk = Chunk(project: Id, document: Option<Id>, text: string, merged: seq<Id>, generation: nat)

  /** One row of `document_pages`. */
  datatype PageRow = PageRow(document: Id, index: nat, text: string)

  datatype Db = Db(now: nat, nextId: Id,
                   jobs: map<Id, Job>, documents: map<Id, Document>, projects: map<Id, Project>,
                   pages: set<PageRow>, chunks: map<ChunkId, Chunk>)

  /** The identifiers a queue event carries (a project deletion has no document). */
  datatype Event = Event(job: Id, project: Id, document: Id)

  /** The work record a successful claim hands to its delivery. */
  datatype Record =
    | IngestionRecord(job: Id, project: Id, document: Id, attempts: nat)
    | DeletionRecord(job: Id, project: Id, document: Id, attempts: nat)
    | ProjectDeletionRecord(job: Id, project: Id, attempts: nat)

  predicate ProjectActive(db: Db, p: Id) {
    p in db.projects && db.projects[p].status.Active?
  }

  /** The Wiki pages of project `p` as the merge sees them. */
  function WikiPages(chunks: map<ChunkId, Chunk>, p: Id): map<Id, Page> {
    map id | id in chunks && id.PageId? && id.project == p :: id.page := Page(chunks[id].text, chunks[id].merged)
  }

  /** `delete from chunks where document_id = d and wiki_mode is distinct from 'true'` */
  function DropRaw(chunks: map<ChunkId, Chunk>, d: Id): map<ChunkId, Chunk> {
    map id | id in chunks && !(id.RawId? && chunks[id].document == Some(d)) :: chunks[id]
  }

  /** The raw chunk rows of one parsed document, stamped with their generation. */
  function RawRows(p: Id, d: Id, texts: seq<string>, generation: nat): map<ChunkId, Chunk> {
    map i | 0 <= i < |texts| :: RawId(d, i, texts[i]) := Chunk(p, Some(d), texts[i], [], generation)
  }

  function PageIds(p: Id, pages: seq<Id>): set<ChunkId> {
    set g | g in pages :: PageId(p, g)
  }

  /** One Wiki page written: delete the pages it names in this project, then upsert it. */
  function WritePage(chunks: map<ChunkId, Chunk>, p: Id, generation: nat, c: Compiled): map<ChunkId, Chunk> {
    (chunks - PageIds(p, c.page.merged))
      [PageId(p, c.id) := Chunk(p, None, c.page.text, c.page.merged, generation)]
  }

  function WritePages(chunks: map<ChunkId, Chunk>, p: Id, generation: nat, cs: seq<Compiled>): map<ChunkId, Chunk> {
    if cs == [] then chunks
    else WritePage(WritePages(chunks, p, generation, cs[..|cs| - 1]), p, generation, cs[|cs| - 1])
  }

  /** The mutable tables; the clock moves only between transactions. */
  class Database {
    var now: nat
    var nextId: Id
    var jobs: map<Id, Job>
    var documents: map<Id, Document>
    var projects: map<Id, Project>
    var pages: set<PageRow>
    var chunks: map<ChunkId, Chunk>

    constructor ()
      ensures State() == Db(0, 0, map[], map[], map[], {}, map[])
    {
      now, nextId, jobs, documents, projects, pages, chunks := 0, 0, map[], map[], map[], {}, map[];
    }

    function State(): Db
      reads this
    {
      Db(now, nextId, jobs, documents, projects, pages, chunks)
    }
  }

  lemma WritePagePages(chunks: map<ChunkId, Chunk>, p: Id, generation: nat, c: Compiled, q: Id)
    ensures WikiPages(WritePage(chunks, p, generation, c), q)
         == if q == p then Upsert(WikiPages(chunks, p), c) else WikiPages(chunks, q)
  {
    var t := WritePage(chunks, p, generation, c);
    var before, after := WikiPages(chunks, q), WikiPages(t, q);
    forall k ensures k in before <==> PageId(q, k) in chunks
             ensures k in after <==> PageId(q, k) in t
    {
      if k in before { assert PageId(q, k) in chunks; }
      if k in after { assert PageId(q, k) in t; }
    }
  }

  /** Writing the queued pages into the chunk table is the replay on the Wiki of that project. */
  lemma {:induction false} WritePagesIsReplay(chunks: map<ChunkId, Chunk>, p: Id, generation: nat, cs: seq<Compiled>, q: Id)
    ensures WikiPages(WritePages(chunks, p, generation, cs), q)
         == if q == p then Replay(WikiPages(chunks, p), cs) else WikiPages(chunks, q)
  {
    if cs != [] {
      var init := cs[..|cs| - 1];
      WritePagesIsReplay(chunks, p, generation, init, q);
      WritePagePages(WritePages(chunks, p, generation, init), p, generation, cs[|cs| - 1], q);
    }
  }

  /** Wiki writes leave every raw chunk row alone. */
  lemma {:induction false} WritePagesKeepsRaw(chunks: map<ChunkId, Chunk>, p: Id, generation: nat, cs: seq<Compiled>, id: ChunkId)
    requires id.RawId?
    ensures var t := WritePages(chunks, p, generation, cs);
            (id in t <==> id in chunks) && (id in t ==> t[id] == chunks[id])
  {
    if cs != [] {
      WritePagesKeepsRaw(chunks, p, generation, cs[..|cs| - 1], id);
    }
  }

  lemma RawRowsStep(p: Id, d: Id, texts: seq<string>, generation: nat, n: nat)
    requires n < |texts|
    ensures RawRows(p, d, texts[..n + 1], generation)
         == RawRows(p, d, texts[..n], generation)[RawId(d, n, texts[n]) := Chunk(p, Some(d), texts[n], [], generation)]
  {
    var a, b := RawRows(p, d, texts[..n + 1], generation), RawRows(p, d, texts[..n], generation);
    forall id ensures id in a <==> id == RawId(d, n, texts[n]) || id in b {
      if id in a {
        var i :| 0 <= i < n + 1 && id == RawId(d, i, texts[..n + 1][i]);
        if i < n { assert texts[..n][i] == texts[i]; }
      }
      if id in b {
        var i :| 0 <= i < n && id == RawId(d, i, texts[..n][i]);
        assert texts[..n + 1][i] == texts[i];
      }
      if id == RawId(d, n, texts[n]) { assert texts[..n + 1][n] == texts[n]; }
    }
  }
}
