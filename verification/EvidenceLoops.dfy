/** The loops of workflow_execution.py that build and overwrite lists. */
module EvidenceLoops {
  import opened Common
  import opened EvidenceWorkflow

  /** `retrieve_and_extract` behind the search: the loop that gives every claim its chunk ids. */
  method RetrieveAndExtract(t: Task, f: Finding) returns (batch: Result<Batch>)
    ensures batch == Extract(t, f)
  {
    var chunks := UniqueById(f.chunks);
    if chunks == [] {
      return Failure("EVIDENCE_NOT_FOUND");
    }
    if !Allowed(f.proposals, |chunks|) {
      return Failure("EVIDENCE_GENERATION");
    }
    var serialized: seq<Claim> := [];
    for i := 0 to |f.proposals|
      invariant serialized == CiteAll(chunks, f.proposals, t.index)[..i]
    {
      var p := f.proposals[i];
      assert p in f.proposals;
      serialized := serialized + [Cite(chunks, p, t.index)];
      assert serialized == CiteAll(chunks, f.proposals, t.index)[..i + 1];
    }
    assert serialized == CiteAll(chunks, f.proposals, t.index);
    return Success(Batch(t.index, chunks, serialized));
  }

  /** The nested loops of `review_payload`. */
  method CollectSuspicious(batches: seq<Batch>) returns (suspicious: seq<Id>)
    ensures suspicious == SuspiciousIds(batches)
  {
    suspicious := [];
    for i := 0 to |batches|
      invariant suspicious == SuspiciousIds(batches[..i])
    {
      var chunks := batches[i].chunks;
      assert batches[..i + 1][..i] == batches[..i];
      ghost var before := suspicious;
      for j := 0 to |chunks|
        invariant suspicious == before + SuspiciousIn(chunks[..j])
      {
        assert chunks[..j + 1][..j] == chunks[..j];
        if Suspicious(chunks[j]) {
          suspicious := suspicious + [chunks[j].id];
        }
      }
      assert chunks[..|chunks|] == chunks;
    }
    assert batches[..|batches|] == batches;
  }

  /** The edit branch of `apply_decision`: claims are overwritten one by one. */
  method ApplyEdits(claims: seq<Claim>, edits: seq<TextEdit>) returns (edited: Result<seq<Claim>>)
    ensures edited == EditAll(claims, edits)
  {
    var current := claims;
    assert edits[0..] == edits;
    for i := 0 to |edits|
      invariant EditAll(current, edits[i..]) == EditAll(claims, edits)
    {
      var e := edits[i];
      assert edits[i..][0] == e && edits[i..][1..] == edits[i + 1..];
      if !ValidEdit(e, |current|) {
        return Failure("EDIT_SCHEMA_INVALID");
      }
      current := EditOne(current, e);
    }
    return Success(current);
  }
}
