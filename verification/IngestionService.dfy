/** `_compile_wiki_index`: pending documents are compiled first, then the one being ingested. */
module IngestionService {
  import opened Common
  import opened WikiMerge
  import opened Tables
  import opened Deliveries

  /** The compiler: an arbitrary answer to the chunks of one document and the Wiki so far. */
  type Compiler = (seq<ChunkId>, map<Id, Page>) -> Result<seq<Compiled>>

  /** Chunks of document `d`, in the order of `rows`. */
  function RowsOf(rows: seq<ChunkId>, d: Id): seq<ChunkId> {
    if rows == [] then []
    else
      var init := RowsOf(rows[..|rows| - 1], d);
      var last := rows[|rows| - 1];
      if last.RawId? && last.document == d then init + [last] else init
  }

  /** The documents other than `own` with a row in `rows`, by first appearance. */
  function PendingDocuments(rows: seq<ChunkId>, own: Id): seq<Id> {
    if rows == [] then []
    else
      var init := PendingDocuments(rows[..|rows| - 1], own);
      var last := rows[|rows| - 1];
      if last.RawId? && last.document != own && last.document !in init then init + [last.document] else init
  }

  /** The chunk lists handed to the compiler, one call each. */
  function Calls(rows: seq<ChunkId>, own: Id, chunks: seq<ChunkId>): seq<seq<ChunkId>> {
    var docs := PendingDocuments(rows, own);
    seq(|docs|, i requires 0 <= i < |docs| => RowsOf(rows, docs[i])) + [chunks]
  }

  /** All answers in order; each call sees the Wiki as merged so far, and one failure fails them all. */
  function CompileAll(compile: Compiler, pages: map<Id, Page>, calls: seq<seq<ChunkId>>): Result<seq<Compiled>> {
    if calls == [] then Success([])
    else
      var before := CompileAll(compile, pages, calls[..|calls| - 1]);
      if before.Failure? then before
      else
        var answer := compile(calls[|calls| - 1], MergeAll(Start(pages), before.value).existing);
        if answer.Failure? then answer else Success(before.value + answer.value)
  }

  lemma {:induction false} RowsOfIsFilter(rows: seq<ChunkId>, d: Id, id: ChunkId)
    ensures id in RowsOf(rows, d) <==> id in rows && id.RawId? && id.document == d
  {
    if rows != [] {
      RowsOfIsFilter(rows[..|rows| - 1], d, id);
      assert rows == rows[..|rows| - 1] + [rows[|rows| - 1]];
    }
  }

  lemma {:induction false} PendingDocumentsComplete(rows: seq<ChunkId>, own: Id, d: Id)
    ensures d in PendingDocuments(rows, own) <==> d != own && exists id :: id in rows && id.RawId? && id.document == d
    ensures Distinct(PendingDocuments(rows, own))
  {
    if rows != [] {
      var init, last := rows[..|rows| - 1], rows[|rows| - 1];
      PendingDocumentsComplete(init, own, d);
      assert rows == init + [last];
      if d != own && (exists id :: id in rows && id.RawId? && id.document == d) && d !in PendingDocuments(init, own) {
        assert last.RawId? && last.document == d;
      }
      if last.RawId? && last.document == d { assert last in rows; }
    }
  }

  /** The compiler is given every pending chunk of another document and every chunk of this one, and no more. */
  lemma CallsFeedInputs(rows: seq<ChunkId>, own: Id, chunks: seq<ChunkId>, id: ChunkId)
    ensures (exists i :: 0 <= i < |Calls(rows, own, chunks)| && id in Calls(rows, own, chunks)[i])
       <==> id in chunks || (id in rows && id.RawId? && id.document != own)
  {
    var docs, calls := PendingDocuments(rows, own), Calls(rows, own, chunks);
    assert calls[|docs|] == chunks;
    if i :| 0 <= i < |docs| && id in calls[i] {
      RowsOfIsFilter(rows, docs[i], id);
      PendingDocumentsComplete(rows, own, docs[i]);
    }
    if id in rows && id.RawId? && id.document != own {
      PendingDocumentsComplete(rows, own, id.document);
      var i :| 0 <= i < |docs| && docs[i] == id.document;
      RowsOfIsFilter(rows, docs[i], id);
      assert id in calls[i];
    }
  }

  /** `pending.setdefault(document, []).append(chunk)` over the loaded rows. */
  method GroupPending(rows: seq<ChunkId>, own: Id) returns (order: seq<Id>, pending: map<Id, seq<ChunkId>>)
    ensures order == PendingDocuments(rows, own)
    ensures forall d :: d in order ==> d in pending && pending[d] == RowsOf(rows, d)
  {
    order, pending := [], map[];
    for n := 0 to |rows|
      invariant order == PendingDocuments(rows[..n], own)
      invariant forall d :: d in pending <==> d in order
      invariant forall d :: d in order ==> pending[d] == RowsOf(rows[..n], d)
    {
      assert rows[..n + 1][..n] == rows[..n];
      var chunk := rows[n];
      if chunk.RawId? && chunk.document != own {
        if chunk.document !in pending {
          NothingYet(rows[..n], own, chunk.document);
          order := order + [chunk.document];
          pending := pending[chunk.document := [chunk]];
        } else {
          pending := pending[chunk.document := pending[chunk.document] + [chunk]];
        }
      } else {
        forall d | d in order ensures d != own {
          PendingDocumentsComplete(rows[..n], own, d);
        }
      }
    }
    assert rows[..|rows|] == rows;
  }

  lemma NothingYet(rows: seq<ChunkId>, own: Id, d: Id)
    requires d != own && d !in PendingDocuments(rows, own)
    ensures RowsOf(rows, d) == []
  {
    PendingDocumentsComplete(rows, own, d);
    if RowsOf(rows, d) != [] {
      RowsOfIsFilter(rows, d, RowsOf(rows, d)[0]);
    }
  }

  method CompileWikiIndex(compile: Compiler, pages: map<Id, Page>, rows: seq<ChunkId>, own: Id, chunks: seq<ChunkId>)
    returns (r: Option<seq<Compiled>>)
    ensures var all := CompileAll(compile, pages, Calls(rows, own, chunks));
            r == if all.Success? then Some(Queue(pages, all.value)) else None
  {
    var work := new WikiWork(pages);
    var order, pending := GroupPending(rows, own);
    ghost var calls := Calls(rows, own, chunks);
    ghost var all: seq<Compiled> := [];
    for i := 0 to |order|
      invariant CompileAll(compile, pages, calls[..i]) == Success(all)
      invariant work.Value() == MergeAll(Start(pages), all)
    {
      assert calls[..i + 1][..i] == calls[..i] && calls[i] == pending[order[i]];
      var recovered := compile(pending[order[i]], work.existing);
      if recovered.Failure? {
        FailureSticks(compile, pages, calls, i + 1);
        return None;
      }
      MergeAllConcat(Start(pages), all, recovered.value);
      work.MergeCompiledChunks(recovered.value);
      all := all + recovered.value;
    }
    assert calls[..|order| + 1] == calls && calls[|order|] == chunks;
    var latest := compile(chunks, work.existing);
    if latest.Failure? {
      return None;
    }
    MergeAllConcat(Start(pages), all, latest.value);
    work.MergeCompiledChunks(latest.value);
    ReplayRefinesMerge(pages, all + latest.value);
    return Some(work.affected.Entries());
  }

  lemma {:induction false} FailureSticks(compile: Compiler, pages: map<Id, Page>, calls: seq<seq<ChunkId>>, n: nat)
    requires n <= |calls| && CompileAll(compile, pages, calls[..n]).Failure?
    ensures CompileAll(compile, pages, calls).Failure?
    decreases |calls| - n
  {
    if n < |calls| {
      assert calls[..n + 1][..n] == calls[..n];
      FailureSticks(compile, pages, calls, n + 1);
    } else {
      assert calls[..n] == calls;
    }
  }

  lemma MergeAllConcat(w: Work, a: seq<Compiled>, b: seq<Compiled>)
    ensures MergeAll(MergeAll(w, a), b) == MergeAll(w, a + b)
  {
    FoldConcat(MergeOne, w, a, b);
  }
}
