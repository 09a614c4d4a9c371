/** The API's freshness test over the chunks it reads, and what passing it guarantees. */
module Freshness {
  import opened Common
  import opened WikiMerge
  import opened Tables
  import opened Deliveries
  import opened LeaseProofs
  import opened Coverage

  /** A chunk as the API sees it: its identity and the generations stamped on its metadata. */
  datatype ChunkView = ChunkView(id: ChunkId, wiki: bool, knowledge: Option<nat>, wikiGeneration: Option<nat>)

  /** A row `project_chunks` returns: a Wiki page, or a raw chunk of a ready document. */
  predicate Readable(db: Db, p: Id, id: ChunkId) {
    && id in db.chunks && db.chunks[id].project == p
    && (id.PageId?
        || (id.document in db.documents && db.documents[id.document].status.Ready? && !db.documents[id.document].deleted))
  }

  /** The project's counters are stamped over whatever generation a chunk was stored with. */
  function ProjectChunks(db: Db, p: Id): set<ChunkView>
    requires p in db.projects
  {
    set id | id in db.chunks && Readable(db, p, id) ::
      ChunkView(id, id.PageId?, Some(db.projects[p].knowledge),
                if id.PageId? then Some(db.projects[p].wiki) else None)
  }

  function WikiGenerations(chunks: set<ChunkView>): set<Option<nat>> {
    set c | c in chunks && c.wiki :: c.wikiGeneration
  }

  function KnowledgeGenerations(chunks: set<ChunkView>): set<Option<nat>> {
    set c | c in chunks && !c.wiki :: c.knowledge
  }

  /** `_wiki_is_fresh` */
  predicate WikiIsFresh(requiresFresh: bool, chunks: set<ChunkView>) {
    !requiresFresh
    || (&& |WikiGenerations(chunks)| == 1
        && |KnowledgeGenerations(chunks)| == 1
        && None !in WikiGenerations(chunks)
        && WikiGenerations(chunks) == KnowledgeGenerations(chunks))
  }

  lemma GenerationsSeen(db: Db, p: Id)
    requires p in db.projects
    ensures WikiGenerations(ProjectChunks(db, p))
         == if exists id :: Readable(db, p, id) && id.PageId? then {Some(db.projects[p].wiki)} else {}
    ensures KnowledgeGenerations(ProjectChunks(db, p))
         == if exists id :: Readable(db, p, id) && id.RawId? then {Some(db.projects[p].knowledge)} else {}
  {
    var cs := ProjectChunks(db, p);
    if id :| Readable(db, p, id) && id.PageId? {
      var c := ChunkView(id, true, Some(db.projects[p].knowledge), Some(db.projects[p].wiki));
      assert c in cs;
      assert c.wikiGeneration in WikiGenerations(cs);
    }
    if id :| Readable(db, p, id) && id.RawId? {
      var c := ChunkView(id, false, Some(db.projects[p].knowledge), None);
      assert c in cs;
      assert c.knowledge in KnowledgeGenerations(cs);
    }
  }

  /** The test accepts exactly when both kinds of chunk are there and the two counters agree. */
  lemma FreshMeansEqualCounters(db: Db, p: Id)
    requires p in db.projects
    ensures WikiIsFresh(true, ProjectChunks(db, p)) <==>
              && (exists id :: Readable(db, p, id) && id.PageId?)
              && (exists id :: Readable(db, p, id) && id.RawId?)
              && db.projects[p].wiki == db.projects[p].knowledge
  {
    GenerationsSeen(db, p);
    var w, k := {Some(db.projects[p].wiki)}, {Some(db.projects[p].knowledge)};
    assert w == k <==> db.projects[p].wiki == db.projects[p].knowledge by {
      if w == k { assert Some(db.projects[p].wiki) in k; }
    }
  }

  /**
   * End to end: when the test accepts what the API read, every raw chunk it read has
   * gone through a compilation whose result is in the stored Wiki.
   */
  lemma FreshnessIsSound(steps: seq<Step>, p: Id)
    requires p in Run(INIT, steps).db.projects
    requires WikiIsFresh(true, ProjectChunks(Run(INIT, steps).db, p))
    ensures var s := Run(INIT, steps);
            && (forall c :: c in ProjectChunks(s.db, p) && !c.wiki ==> c.id in Folded(History(s, p)))
            && WikiPages(s.db.chunks, p) == WikiAfter(History(s, p))
  {
    var s := Run(INIT, steps);
    RunOk(steps);
    RunCovered(steps);
    FreshMeansEqualCounters(s.db, p);
    forall c | c in ProjectChunks(s.db, p) && !c.wiki ensures c.id in Folded(History(s, p)) {
      assert ChunkOk(s.db, c.id);
      assert LiveRaw(s.db, c.id) && WithinWiki(s.db, c.id);
    }
  }
}
