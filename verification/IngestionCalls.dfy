/** What the compiler is given, call by call: whose chunks, in which order, and which Wiki. */
module IngestionCalls {
  import opened Common
  import opened WikiMerge
  import opened Tables
  import opened IngestionService
  import opened WikiOrphans
  import opened WikiTexts

  /** What call number `n` was given, and where its answer went. */
  ghost predicate Answered(compile: Compiler, pages: map<Id, Page>, calls: seq<seq<ChunkId>>, n: nat, all: seq<Compiled>)
    requires n < |calls|
  {
    exists wiki, before, answer ::
      && compile(calls[n], wiki) == Success(answer)
      && CompileAll(compile, pages, calls[..n]) == Success(before)
      && Reflects(pages, before, wiki)
      && before + answer <= all
  }

  /**
   * Every call of the compiler is given the Wiki that reflects all answers before it: their pages
   * under their latest texts, without those they removed for good; its own answer comes next.
   */
  lemma {:induction false} CallsSeeEarlierAnswers(compile: Compiler, pages: map<Id, Page>, calls: seq<seq<ChunkId>>, n: nat,
                                                  all: seq<Compiled>)
    requires n < |calls| && CompileAll(compile, pages, calls) == Success(all)
    ensures Answered(compile, pages, calls, n, all)
  {
    var before, answer := LastAnswer(compile, pages, calls, all);
    if n < |calls| - 1 {
      CallsSeeEarlierAnswers(compile, pages, calls[..|calls| - 1], n, before);
      StillAnswered(compile, pages, calls, n, before, answer);
    }
  }

  /** The last call: what it was given, and what it adds. */
  lemma LastAnswer(compile: Compiler, pages: map<Id, Page>, calls: seq<seq<ChunkId>>, all: seq<Compiled>)
    returns (before: seq<Compiled>, answer: seq<Compiled>)
    requires calls != [] && CompileAll(compile, pages, calls) == Success(all)
    ensures CompileAll(compile, pages, calls[..|calls| - 1]) == Success(before) && all == before + answer
    ensures Answered(compile, pages, calls, |calls| - 1, all)
  {
    before := CompileAll(compile, pages, calls[..|calls| - 1]).value;
    var wiki := MergeAll(Start(pages), before).existing;
    MergedWikiIs(pages, before);
    assert compile(calls[|calls| - 1], wiki).Success?;
    answer := compile(calls[|calls| - 1], wiki).value;
  }

  lemma StillAnswered(compile: Compiler, pages: map<Id, Page>, calls: seq<seq<ChunkId>>, n: nat, all: seq<Compiled>, more: seq<Compiled>)
    requires n < |calls| - 1 && Answered(compile, pages, calls[..|calls| - 1], n, all)
    ensures Answered(compile, pages, calls, n, all + more)
  {
    assert calls[..|calls| - 1][..n] == calls[..n];
    var wiki, before, answer :|
      && compile(calls[..|calls| - 1][n], wiki) == Success(answer)
      && CompileAll(compile, pages, calls[..|calls| - 1][..n]) == Success(before)
      && Reflects(pages, before, wiki)
      && before + answer <= all;
    assert compile(calls[n], wiki) == Success(answer) && before + answer <= all + more;
  }

  predicate RowOf(id: ChunkId, d: Id) {
    id.RawId? && id.document == d
  }

  /** Some row of `d` comes before every row of `e`. */
  ghost predicate AppearsBefore(rows: seq<ChunkId>, d: Id, e: Id) {
    exists a :: 0 <= a < |rows| && RowOf(rows[a], d) && forall b :: 0 <= b <= a ==> !RowOf(rows[b], e)
  }

  /** Rows keep their order within a call. */
  lemma {:induction false} RowsOfInOrder(rows: seq<ChunkId>, d: Id, i: nat, j: nat)
    requires i < j < |RowsOf(rows, d)|
    ensures exists a, b :: 0 <= a < b < |rows| && rows[a] == RowsOf(rows, d)[i] && rows[b] == RowsOf(rows, d)[j]
  {
    var n := |rows| - 1;
    var init := RowsOf(rows[..n], d);
    if j < |init| {
      RowsOfInOrder(rows[..n], d, i, j);
      var a, b :| 0 <= a < b < n && rows[..n][a] == init[i] && rows[..n][b] == init[j];
      assert rows[a] == init[i] && rows[b] == init[j];
    } else {
      RowsOfIsFilter(rows[..n], d, init[i]);
      var a :| 0 <= a < n && rows[..n][a] == init[i];
      assert rows[a] == init[i] && rows[n] == RowsOf(rows, d)[j];
    }
  }

  /** A document is listed before another when a row of it comes before every row of the other. */
  lemma {:induction false} DocumentsInOrder(rows: seq<ChunkId>, own: Id, i: nat, j: nat)
    requires i < j < |PendingDocuments(rows, own)|
    ensures AppearsBefore(rows, PendingDocuments(rows, own)[i], PendingDocuments(rows, own)[j])
  {
    var n := |rows| - 1;
    var init, docs := PendingDocuments(rows[..n], own), PendingDocuments(rows, own);
    if j < |init| {
      DocumentsInOrder(rows[..n], own, i, j);
      var a :| 0 <= a < n && RowOf(rows[..n][a], init[i]) && forall b :: 0 <= b <= a ==> !RowOf(rows[..n][b], init[j]);
      assert RowOf(rows[a], docs[i]) && forall b :: 0 <= b <= a ==> rows[..n][b] == rows[b];
    } else {
      PendingDocumentsComplete(rows[..n], own, init[i]);
      PendingDocumentsComplete(rows[..n], own, docs[j]);
      var id :| id in rows[..n] && RowOf(id, init[i]);
      var a :| 0 <= a < n && rows[..n][a] == id;
      forall b | 0 <= b <= a
        ensures !RowOf(rows[b], docs[j])
      {
        assert rows[..n][b] in rows[..n];
      }
      assert RowOf(rows[a], docs[i]);
    }
  }

  /**
   * One call per pending document, in order of first appearance, with that document's rows;
   * the document being ingested is compiled last.
   */
  lemma {:induction false} CallsInOrder(rows: seq<ChunkId>, own: Id, chunks: seq<ChunkId>)
    ensures var docs, calls := PendingDocuments(rows, own), Calls(rows, own, chunks);
      && |calls| == |docs| + 1 && calls[|docs|] == chunks && Distinct(docs) && own !in docs
      && (forall i, id :: 0 <= i < |docs| ==> (id in calls[i] <==> id in rows && RowOf(id, docs[i])))
      && forall i, j :: 0 <= i < j < |docs| ==>
           AppearsBefore(rows, docs[i], docs[j])
  {
    var docs, calls := PendingDocuments(rows, own), Calls(rows, own, chunks);
    PendingDocumentsComplete(rows, own, own);
    forall i, id | 0 <= i < |docs|
      ensures id in calls[i] <==> id in rows && RowOf(id, docs[i])
    {
      RowsOfIsFilter(rows, docs[i], id);
    }
    forall i, j | 0 <= i < j < |docs|
      ensures AppearsBefore(rows, docs[i], docs[j])
    {
      DocumentsInOrder(rows, own, i, j);
    }
  }
}
