/**
 * The rows `_commit` inserts (workflow_commit.py:89-225), with the errors that roll it back:
 * its own lookups and the constraints of the tables it writes
 * (202607150002_evidence_review_schema.sql, 202605260001_initial_schema.sql:129-140).
 */
module EvidenceCommit {
  import opened Common
  import opened EvidenceWorkflow

  /** A `citations` row: a Web citation names no chunk row. */
  datatype CitationRow = CitationRow(id: Id, chunk: Option<Id>, document: Option<Id>, url: Option<string>, quote: string)

  /** A `claims` row: its position and the question it answers. */
  datatype ClaimRow = ClaimRow(text: string, question: nat)

  /** A `claim_evidence` row: claim position and cited chunk. */
  datatype EvidenceRow = EvidenceRow(claim: nat, chunk: Id)

  /** The primary key of a `claim_relations` row: claim positions and the kind. */
  datatype RelationRow = RelationRow(source: nat, target: nat, kind: Kind)

  datatype Rows = Rows(questions: seq<string>, citations: seq<CitationRow>, claims: seq<ClaimRow>,
                       evidence: seq<EvidenceRow>, relations: set<RelationRow>)

  /** The rows of `chunks` and `documents` at the time of the commit. */
  datatype Store = Store(chunks: set<Id>, documents: set<Id>)

  // ---- what the columns accept ----

  /** A text column takes every character but NUL. */
  predicate Text(s: string) {
    '\0' !in s
  }

  /** A text column with the check `char_length(trim(s)) > 0`; `trim` removes spaces only. */
  predicate NonBlankText(s: string) {
    Text(s) && exists c :: c in s && c != ' '
  }

  const QUOTE_LENGTH := 1000

  function Quote(c: Chunk): string {
    if |c.text| <= QUOTE_LENGTH then c.text else c.text[..QUOTE_LENGTH]
  }

  /** What the citation of a chunk needs: its texts, and the rows its foreign keys name. */
  predicate Citable(c: Chunk, store: Store) {
    && Text(Quote(c)) && (c.url.Some? ==> Text(c.url.value))
    && (!c.web ==> c.id in store.chunks)
    && (c.document.Some? ==> c.document.value in store.documents)
  }

  function CitationOf(c: Chunk): CitationRow {
    CitationRow(c.id, if c.web then None else Some(c.id), c.document, c.url, Quote(c))
  }

  function CitationsOf(cs: seq<Chunk>): seq<CitationRow> {
    seq(|cs|, i requires 0 <= i < |cs| => CitationOf(cs[i]))
  }

  function AllChunks(bs: seq<Batch>): seq<Chunk> {
    if bs == [] then [] else AllChunks(bs[..|bs| - 1]) + bs[|bs| - 1].chunks
  }

  /** The values of `chunks_by_id`, in its order: first position, last value. */
  function Cited(bs: seq<Batch>): seq<Chunk> {
    UniqueById(AllChunks(bs))
  }

  /** Ids of all chunks in all batches: the keys of `chunks_by_id`. */
  function BatchIds(bs: seq<Batch>): set<Id> {
    set b, c | b in bs && c in b.chunks :: c.id
  }

  function EvidenceOf(claim: nat, chunks: seq<Id>): seq<EvidenceRow> {
    seq(|chunks|, i requires 0 <= i < |chunks| => EvidenceRow(claim, chunks[i]))
  }

  function AllEvidence(claims: seq<Claim>): seq<EvidenceRow> {
    if claims == [] then []
    else AllEvidence(claims[..|claims| - 1]) + EvidenceOf(|claims| - 1, claims[|claims| - 1].chunks)
  }

  function RowsOfClaims(claims: seq<Claim>): seq<ClaimRow>
    requires forall c :: c in claims ==> c.question >= 0
  {
    seq(|claims|, i requires 0 <= i < |claims| => (assert claims[i] in claims; ClaimRow(claims[i].text, claims[i].question)))
  }

  /** What one claim needs to be inserted. */
  predicate Insertable(c: Claim, questions: nat, citations: set<Id>) {
    && 0 <= c.question < questions
    && NonBlankText(c.text) && 0.0 <= c.confidence <= 1.0
    && (forall id :: id in c.chunks ==> id in citations)
    && Distinct(c.chunks)
  }

  predicate RelationInRange(r: Relation, claims: nat) {
    1 <= r.source <= claims && 1 <= r.target <= claims
  }

  /** What one relation needs to be inserted. */
  predicate Relatable(r: Relation, claims: nat) {
    RelationInRange(r, claims) && r.source != r.target && 0.0 <= r.confidence <= 1.0 && Text(r.rationale)
  }

  function RelationRows(rs: seq<Relation>, claims: nat): set<RelationRow> {
    set r | r in rs && RelationInRange(r, claims) :: RelationRow((r.source - 1) as nat, (r.target - 1) as nat, r.kind)
  }

  /** The commit goes through exactly under these conditions. */
  predicate Committable(questions: seq<string>, bs: seq<Batch>, claims: seq<Claim>, rs: seq<Relation>, store: Store) {
    && (forall q :: q in questions ==> NonBlankText(q))
    && (forall c :: c in Cited(bs) ==> Citable(c, store))
    && (forall c :: c in claims ==> c.chunks != [] && Insertable(c, |questions|, BatchIds(bs)))
    && (forall r :: r in rs ==> Relatable(r, |claims|))
  }

  function RowsOf(questions: seq<string>, bs: seq<Batch>, claims: seq<Claim>, rs: seq<Relation>, store: Store): Rows
    requires Committable(questions, bs, claims, rs, store)
  {
    Rows(questions, CitationsOf(Cited(bs)), RowsOfClaims(claims), AllEvidence(claims), RelationRows(rs, |claims|))
  }

  // ---- why a row is refused ----

  predicate ExplainsCitation(code: string, c: Chunk, store: Store) {
    || (code == "CITATION_TEXT_REFUSED" && !(Text(Quote(c)) && (c.url.Some? ==> Text(c.url.value))))
    || (code == "CHUNK_NOT_FOUND" && !c.web && c.id !in store.chunks)
    || (code == "DOCUMENT_NOT_FOUND" && c.document.Some? && c.document.value !in store.documents)
  }

  predicate ExplainsClaim(code: string, c: Claim, questions: nat, citations: set<Id>) {
    || (code == "CLAIM_INDEX_OUT_OF_RANGE" && !(0 <= c.question < questions))
    || (code == "CLAIM_TEXT_REFUSED" && !NonBlankText(c.text))
    || (code == "CLAIM_CONFIDENCE_REFUSED" && !(0.0 <= c.confidence <= 1.0))
    || (code == "KEY_ERROR" && exists id :: id in c.chunks && id !in citations)
    || (code == "CLAIM_EVIDENCE_DUPLICATE" && !Distinct(c.chunks))
  }

  predicate ExplainsRelation(code: string, r: Relation, claims: nat) {
    || (code == "RELATION_INDEX_OUT_OF_RANGE" && !RelationInRange(r, claims))
    || (code == "RELATION_REFUSED" && !(r.source != r.target && 0.0 <= r.confidence <= 1.0 && Text(r.rationale)))
  }

  /** The commit may fail with `code` only for a reason the code names. */
  predicate Explains(code: string, questions: seq<string>, bs: seq<Batch>, claims: seq<Claim>, rs: seq<Relation>,
                     store: Store)
  {
    || (code == "CLAIM_WITHOUT_EVIDENCE" && exists c :: c in claims && c.chunks == [])
    || (code == "QUESTION_REFUSED" && exists q :: q in questions && !NonBlankText(q))
    || (exists c :: c in Cited(bs) && ExplainsCitation(code, c, store))
    || (exists c :: c in claims && ExplainsClaim(code, c, |questions|, BatchIds(bs)))
    || (exists r :: r in rs && ExplainsRelation(code, r, |claims|))
  }

  // ---- the dictionary of chunks ----

  lemma AllChunksStep(bs: seq<Batch>, n: nat)
    requires n < |bs|
    ensures AllChunks(bs[..n + 1]) == AllChunks(bs[..n]) + bs[n].chunks
  {
    assert bs[..n + 1][..n] == bs[..n];
  }

  /** The keys of the dictionary are the ids of all chunks. */
  lemma {:induction false} CitedIds(bs: seq<Batch>)
    ensures BatchIds(bs) == set id | id in IdsOf(AllChunks(bs))
    ensures forall id :: id in BatchIds(bs) <==> id in IdsOf(Cited(bs))
  {
    forall id
      ensures id in BatchIds(bs) <==> id in IdsOf(AllChunks(bs))
      ensures id in BatchIds(bs) <==> id in IdsOf(Cited(bs))
    {
      IdOfBatch(bs, id);
      IdOfUnique(AllChunks(bs), id);
    }
  }

  lemma IdOfUnique(cs: seq<Chunk>, id: Id)
    ensures id in IdsOf(UniqueById(cs)) <==> id in IdsOf(cs)
  {
    var ids := Dedup(IdsOf(cs));
    assert |UniqueById(cs)| == |ids| && forall i :: 0 <= i < |ids| ==> IdsOf(UniqueById(cs))[i] == ids[i];
    assert id in ids <==> id in IdsOf(cs);
    assert IdsOf(UniqueById(cs)) == ids;
  }

  lemma InIds(cs: seq<Chunk>, id: Id)
    ensures id in IdsOf(cs) <==> exists c :: c in cs && c.id == id
  {
    if id in IdsOf(cs) {
      var i :| 0 <= i < |cs| && IdsOf(cs)[i] == id;
      assert cs[i] in cs;
    }
    if c :| c in cs && c.id == id {
      var i :| 0 <= i < |cs| && cs[i] == c;
      assert IdsOf(cs)[i] == id;
    }
  }

  lemma {:induction false} IdOfBatch(bs: seq<Batch>, id: Id)
    ensures id in BatchIds(bs) <==> id in IdsOf(AllChunks(bs))
  {
    InIds(AllChunks(bs), id);
    if bs != [] {
      var init, last := bs[..|bs| - 1], bs[|bs| - 1];
      IdOfBatch(init, id);
      InIds(AllChunks(init), id);
      assert bs == init + [last];
      BatchIdsStep(init, last);
    }
  }

  lemma BatchIdsStep(bs: seq<Batch>, b: Batch)
    ensures BatchIds(bs + [b]) == BatchIds(bs) + (set c | c in b.chunks :: c.id)
  {
    forall x | x in BatchIds(bs) + (set c | c in b.chunks :: c.id)
      ensures x in BatchIds(bs + [b])
    {
      if x in BatchIds(bs) {
        var y, c :| y in bs && c in y.chunks && c.id == x;
        assert y in bs + [b];
      } else {
        assert b in bs + [b];
      }
    }
  }

  /** One assignment `chunks_by_id[chunk.id] = chunk`. */
  lemma AssignOne(cs: seq<Chunk>, c: Chunk, k: nat)
    requires k < |UniqueById(cs)| ==> UniqueById(cs)[k].id == c.id
    requires k == |UniqueById(cs)| ==> c.id !in IdsOf(UniqueById(cs))
    requires k <= |UniqueById(cs)|
    ensures UniqueById(cs + [c])
         == if k < |UniqueById(cs)| then UniqueById(cs)[k := c] else UniqueById(cs) + [c]
  {
    var old_ids, ids := Dedup(IdsOf(cs)), Dedup(IdsOf(cs + [c]));
    assert IdsOf(cs + [c]) == IdsOf(cs) + [c.id];
    assert (cs + [c])[..|cs|] == cs;
    var u, v := UniqueById(cs), UniqueById(cs + [c]);
    assert IdsOf(u) == old_ids && IdsOf(v) == ids;
    assert ids == if c.id in old_ids then old_ids else old_ids + [c.id];
    if k < |u| {
      assert old_ids[k] == c.id;
    }
    forall i | 0 <= i < |v|
      ensures v[i] == if ids[i] == c.id then c else u[i]
    {
      assert v[i] == LastById(cs + [c], ids[i]);
      if ids[i] != c.id {
        assert ids[i] in IdsOf(cs);
        assert u[i] == LastById(cs, ids[i]);
      }
    }
  }

  /** `chunks_by_id[chunk.id] = chunk` on the values in order. */
  method AssignChunk(chunks: seq<Chunk>, chunk: Chunk, ghost seen: seq<Chunk>) returns (after: seq<Chunk>)
    requires chunks == UniqueById(seen)
    ensures after == UniqueById(seen + [chunk])
  {
    var k := Position(chunks, chunk.id);
    AssignOne(seen, chunk, k);
    after := if k < |chunks| then chunks[k := chunk] else chunks + [chunk];
  }

  /** The inner loop: the chunks of one batch. */
  method AssignChunks(chunks: seq<Chunk>, batch: seq<Chunk>, ghost seen: seq<Chunk>) returns (after: seq<Chunk>)
    requires chunks == UniqueById(seen)
    ensures after == UniqueById(seen + batch)
  {
    after := chunks;
    assert seen + batch[..0] == seen;
    for j := 0 to |batch|
      invariant after == UniqueById(seen + batch[..j])
    {
      assert seen + batch[..j + 1] == (seen + batch[..j]) + [batch[j]];
      after := AssignChunk(after, batch[j], seen + batch[..j]);
    }
    assert batch[..|batch|] == batch;
  }

  /** The dictionary comprehension over batches and chunks. */
  method CollectCitations(bs: seq<Batch>) returns (chunks: seq<Chunk>)
    ensures chunks == Cited(bs)
  {
    chunks := [];
    for i := 0 to |bs|
      invariant chunks == UniqueById(AllChunks(bs[..i]))
    {
      AllChunksStep(bs, i);
      chunks := AssignChunks(chunks, bs[i].chunks, AllChunks(bs[..i]));
    }
    assert bs[..|bs|] == bs;
  }

  /** Where an id stands among the keys, or the end. */
  function Position(cs: seq<Chunk>, id: Id): (k: nat)
    ensures k <= |cs|
    ensures k < |cs| ==> cs[k].id == id
    ensures k == |cs| ==> id !in IdsOf(cs)
  {
    if cs == [] then 0
    else if cs[0].id == id then 0
    else
      var k := Position(cs[1..], id);
      assert IdsOf(cs) == [cs[0].id] + IdsOf(cs[1..]);
      k + 1
  }

  // ---- the insert loops ----

  method InsertQuestions(questions: seq<string>) returns (rows: Result<seq<string>>)
    ensures rows.Success? <==> forall q :: q in questions ==> NonBlankText(q)
    ensures rows.Success? ==> rows.value == questions
    ensures rows.Failure? ==> rows.code == "QUESTION_REFUSED"
  {
    var inserted: seq<string> := [];
    for i := 0 to |questions|
      invariant inserted == questions[..i]
      invariant forall k :: 0 <= k < i ==> NonBlankText(questions[k])
    {
      if !NonBlankText(questions[i]) {
        assert questions[i] in questions;
        return Failure("QUESTION_REFUSED");
      }
      inserted := inserted + [questions[i]];
    }
    return Success(inserted);
  }

  method InsertCitations(chunks: seq<Chunk>, store: Store) returns (rows: Result<seq<CitationRow>>)
    ensures rows.Success? <==> forall c :: c in chunks ==> Citable(c, store)
    ensures rows.Success? ==> rows.value == CitationsOf(chunks)
    ensures rows.Failure? ==> exists c :: c in chunks && ExplainsCitation(rows.code, c, store)
  {
    var inserted: seq<CitationRow> := [];
    for i := 0 to |chunks|
      invariant inserted == CitationsOf(chunks[..i])
      invariant forall k :: 0 <= k < i ==> Citable(chunks[k], store)
    {
      var chunk := chunks[i];
      assert chunk in chunks;
      var quote := if |chunk.text| <= QUOTE_LENGTH then chunk.text else chunk.text[..QUOTE_LENGTH];
      if !Text(quote) || (chunk.url.Some? && !Text(chunk.url.value)) {
        assert ExplainsCitation("CITATION_TEXT_REFUSED", chunk, store);
        return Failure("CITATION_TEXT_REFUSED");
      }
      var row: Option<Id> := if chunk.web then None else Some(chunk.id);
      if row.Some? && row.value !in store.chunks {
        assert ExplainsCitation("CHUNK_NOT_FOUND", chunk, store);
        return Failure("CHUNK_NOT_FOUND");
      }
      if chunk.document.Some? && chunk.document.value !in store.documents {
        assert ExplainsCitation("DOCUMENT_NOT_FOUND", chunk, store);
        return Failure("DOCUMENT_NOT_FOUND");
      }
      inserted := inserted + [CitationRow(chunk.id, row, chunk.document, chunk.url, quote)];
      assert chunks[..i + 1] == chunks[..i] + [chunk];
    }
    assert chunks[..|chunks|] == chunks;
    return Success(inserted);
  }

  /**
   * The inner loop over one claim's chunk ids: a missing citation is a key error, a chunk
   * cited twice violates the primary key of `claim_evidence`.
   */
  method InsertEvidence(claim: nat, chunks: seq<Id>, citations: set<Id>) returns (rows: Result<seq<EvidenceRow>>)
    ensures rows.Success? <==> (forall id :: id in chunks ==> id in citations) && Distinct(chunks)
    ensures rows.Success? ==> rows.value == EvidenceOf(claim, chunks)
    ensures rows == Failure("KEY_ERROR") ==> exists id :: id in chunks && id !in citations
    ensures rows == Failure("CLAIM_EVIDENCE_DUPLICATE") ==> !Distinct(chunks)
    ensures rows.Failure? ==> rows.code in {"KEY_ERROR", "CLAIM_EVIDENCE_DUPLICATE"}
  {
    var inserted: seq<EvidenceRow> := [];
    for i := 0 to |chunks|
      invariant inserted == EvidenceOf(claim, chunks[..i])
      invariant forall k :: 0 <= k < i ==> chunks[k] in citations
      invariant Distinct(chunks[..i])
    {
      if chunks[i] !in citations {
        assert chunks[i] in chunks;
        return Failure("KEY_ERROR");
      }
      if EvidenceRow(claim, chunks[i]) in inserted {
        var k :| 0 <= k < i && inserted[k] == EvidenceRow(claim, chunks[i]);
        assert chunks[k] == chunks[i];
        return Failure("CLAIM_EVIDENCE_DUPLICATE");
      }
      assert forall k :: 0 <= k < i ==> inserted[k] == EvidenceRow(claim, chunks[k]);
      inserted := inserted + [EvidenceRow(claim, chunks[i])];
      assert chunks[..i + 1] == chunks[..i] + [chunks[i]];
    }
    assert chunks[..|chunks|] == chunks;
    return Success(inserted);
  }

  lemma AllEvidenceStep(claims: seq<Claim>, n: nat)
    requires n < |claims|
    ensures AllEvidence(claims[..n + 1]) == AllEvidence(claims[..n]) + EvidenceOf(n, claims[n].chunks)
  {
    assert claims[..n + 1][..n] == claims[..n];
  }

  method InsertClaims(questions: nat, citations: set<Id>, claims: seq<Claim>)
    returns (rows: Result<(seq<ClaimRow>, seq<EvidenceRow>)>)
    ensures rows.Success? <==> forall c :: c in claims ==> Insertable(c, questions, citations)
    ensures rows.Success? ==> rows.value == (RowsOfClaims(claims), AllEvidence(claims))
    ensures rows.Failure? ==> exists c :: c in claims && ExplainsClaim(rows.code, c, questions, citations)
  {
    var inserted: seq<ClaimRow> := [];
    var evidence: seq<EvidenceRow> := [];
    for i := 0 to |claims|
      invariant forall k :: 0 <= k < i ==> Insertable(claims[k], questions, citations)
      invariant |inserted| == i && forall k :: 0 <= k < i ==> inserted[k] == ClaimRow(claims[k].text, claims[k].question)
      invariant evidence == AllEvidence(claims[..i])
    {
      var claim := claims[i];
      assert claim in claims;
      if claim.question < 0 || claim.question >= questions {
        assert ExplainsClaim("CLAIM_INDEX_OUT_OF_RANGE", claim, questions, citations);
        return Failure("CLAIM_INDEX_OUT_OF_RANGE");
      }
      if !NonBlankText(claim.text) {
        assert ExplainsClaim("CLAIM_TEXT_REFUSED", claim, questions, citations);
        return Failure("CLAIM_TEXT_REFUSED");
      }
      if claim.confidence < 0.0 || claim.confidence > 1.0 {
        assert ExplainsClaim("CLAIM_CONFIDENCE_REFUSED", claim, questions, citations);
        return Failure("CLAIM_CONFIDENCE_REFUSED");
      }
      var cited := InsertEvidence(i, claim.chunks, citations);
      if cited.Failure? {
        assert ExplainsClaim(cited.code, claim, questions, citations);
        return Failure(cited.code);
      }
      AllEvidenceStep(claims, i);
      inserted := inserted + [ClaimRow(claim.text, claim.question)];
      evidence := evidence + cited.value;
    }
    assert claims[..|claims|] == claims;
    assert inserted == RowsOfClaims(claims);
    return Success((inserted, evidence));
  }

  lemma RelationRowsStep(rs: seq<Relation>, n: nat, claims: nat)
    requires n < |rs| && RelationInRange(rs[n], claims)
    ensures RelationRows(rs[..n + 1], claims)
         == RelationRows(rs[..n], claims) + {RelationRow((rs[n].source - 1) as nat, (rs[n].target - 1) as nat, rs[n].kind)}
  {
    assert rs[..n + 1] == rs[..n] + [rs[n]];
    assert rs[n] in rs[..n + 1];
    forall x | x in RelationRows(rs[..n], claims)
      ensures x in RelationRows(rs[..n + 1], claims)
    {
      var r :| r in rs[..n] && RelationInRange(r, claims)
            && x == RelationRow((r.source - 1) as nat, (r.target - 1) as nat, r.kind);
      assert r in rs[..n + 1];
    }
  }

  method InsertRelations(claims: nat, rs: seq<Relation>) returns (rows: Result<set<RelationRow>>)
    ensures rows.Success? <==> forall r :: r in rs ==> Relatable(r, claims)
    ensures rows.Success? ==> rows.value == RelationRows(rs, claims)
    ensures rows.Failure? ==> exists r :: r in rs && ExplainsRelation(rows.code, r, claims)
  {
    var inserted: set<RelationRow> := {};
    for i := 0 to |rs|
      invariant forall k :: 0 <= k < i ==> Relatable(rs[k], claims)
      invariant inserted == RelationRows(rs[..i], claims)
    {
      var r := rs[i];
      assert r in rs;
      var source, target := r.source - 1, r.target - 1;
      if !(0 <= source < claims) || !(0 <= target < claims) {
        assert ExplainsRelation("RELATION_INDEX_OUT_OF_RANGE", r, claims);
        return Failure("RELATION_INDEX_OUT_OF_RANGE");
      }
      if source == target || r.confidence < 0.0 || r.confidence > 1.0 || !Text(r.rationale) {
        assert ExplainsRelation("RELATION_REFUSED", r, claims);
        return Failure("RELATION_REFUSED");
      }
      RelationRowsStep(rs, i, claims);
      inserted := inserted + {RelationRow(source, target, r.kind)};
    }
    assert rs[..|rs|] == rs;
    return Success(inserted);
  }

  /** One transaction: all rows or, on the first failing insert, none. */
  method Commit(questions: seq<string>, bs: seq<Batch>, claims: seq<Claim>, rs: seq<Relation>, store: Store)
    returns (rows: Result<Rows>)
    ensures rows.Success? <==> Committable(questions, bs, claims, rs, store)
    ensures rows.Success? ==> rows.value == RowsOf(questions, bs, claims, rs, store)
    ensures rows.Failure? ==> Explains(rows.code, questions, bs, claims, rs, store)
  {
    if exists c :: c in claims && c.chunks == [] {
      return Failure("CLAIM_WITHOUT_EVIDENCE");
    }
    var asked := InsertQuestions(questions);
    if asked.Failure? {
      return Failure(asked.code);
    }
    var chunks := CollectCitations(bs);
    var cited := InsertCitations(chunks, store);
    if cited.Failure? {
      return Failure(cited.code);
    }
    CitedIds(bs);
    var ids := set id | id in IdsOf(chunks);
    assert ids == BatchIds(bs);
    var inserted := InsertClaims(|questions|, ids, claims);
    if inserted.Failure? {
      return Failure(inserted.code);
    }
    var related := InsertRelations(|claims|, rs);
    if related.Failure? {
      return Failure(related.code);
    }
    return Success(Rows(asked.value, cited.value, inserted.value.0, inserted.value.1, related.value));
  }
}
