/**
 * The evidence workflow up to the commit (evidence_graph.py, workflow_execution.py,
 * evidence_generation.py): planning, parallel extraction, fan-in, human review.  Providers
 * and searches are arbitrary inputs.
 */
module EvidenceWorkflow {
  import opened Common
  import opened SentenceSplit

  /** Retrieved evidence; `marked` says its lower-cased text contains an injection marker. */
  datatype Chunk = Chunk(id: Id, web: bool, document: Option<Id>, marked: bool, text: string, url: Option<string>)

  /** A claim as the provider proposes it: evidence ids are one-based positions in the chunk list. */
  datatype Proposal = Proposal(text: string, confidence: real, evidence: seq<int>)

  datatype Claim = Claim(text: string, confidence: real, chunks: seq<Id>, question: int, edited: bool)

  datatype Batch = Batch(question: nat, chunks: seq<Chunk>, claims: seq<Claim>)

  datatype Kind = Supports | Contradicts | Duplicates

  datatype Relation = Relation(source: int, target: int, kind: Kind, confidence: real, rationale: string)

  datatype Task = Task(index: nat, question: string)

  /** The evidence one branch found and the claims the provider made of it. */
  datatype Finding = Finding(chunks: seq<Chunk>, proposals: seq<Proposal>)

  // ---- plan ----

  const MIN_QUESTIONS := 2
  const MAX_QUESTIONS := 4

  function StripAll(ss: seq<string>): seq<string> {
    seq(|ss|, i requires 0 <= i < |ss| => Strip(ss[i]))
  }

  /** The provider's questions without outer whitespace, when they are few and unique. */
  function Plan(proposed: seq<string>): Result<seq<string>> {
    if !(MIN_QUESTIONS <= |proposed| <= MAX_QUESTIONS) || !Distinct(StripAll(proposed))
    then Failure("EVIDENCE_GENERATION")
    else Success(StripAll(proposed))
  }

  // ---- fan-out ----

  function FanOut(questions: seq<string>): seq<Task> {
    seq(|questions|, i requires 0 <= i < |questions| => Task(i, questions[i]))
  }

  // ---- retrieve_and_extract ----

  function IdsOf(cs: seq<Chunk>): seq<Id> {
    seq(|cs|, i requires 0 <= i < |cs| => cs[i].id)
  }

  /** The last chunk with an id that occurs. */
  function LastById(cs: seq<Chunk>, id: Id): (c: Chunk)
    requires id in IdsOf(cs)
    ensures c in cs && c.id == id
  {
    var n := |cs| - 1;
    if cs[n].id == id then cs[n]
    else
      assert exists i :: 0 <= i < n && IdsOf(cs)[i] == id && IdsOf(cs[..n])[i] == id;
      LastById(cs[..n], id)
  }

  /** `list({chunk.id: chunk for chunk in chunks}.values())`: first position, last value. */
  function UniqueById(cs: seq<Chunk>): seq<Chunk> {
    var ids := Dedup(IdsOf(cs));
    seq(|ids|, i requires 0 <= i < |ids| => (assert ids[i] in ids; LastById(cs, ids[i])))
  }

  const MAX_TEXT := 1600
  const MAX_CITED := 12
  const MAX_CLAIMS := 30

  /** The schema of one claim. */
  predicate WellFormed(p: Proposal) {
    1 <= |p.text| <= MAX_TEXT && 0.0 <= p.confidence <= 1.0 && 1 <= |p.evidence| <= MAX_CITED
  }

  /** What the provider's schema and the server's allowlist accept. */
  predicate Allowed(ps: seq<Proposal>, n: nat) {
    && 1 <= |ps| <= MAX_CLAIMS
    && forall p :: p in ps ==> WellFormed(p) && forall e :: e in p.evidence ==> 1 <= e <= n
  }

  /** Evidence ids count the chunks from one. */
  function CitedId(cs: seq<Chunk>, e: int): Id
    requires 1 <= e <= |cs|
  {
    cs[e - 1].id
  }

  function Cite(cs: seq<Chunk>, p: Proposal, question: nat): Claim
    requires forall e :: e in p.evidence ==> 1 <= e <= |cs|
  {
    Claim(p.text, p.confidence,
          seq(|p.evidence|, i requires 0 <= i < |p.evidence| => (assert p.evidence[i] in p.evidence; CitedId(cs, p.evidence[i]))),
          question, false)
  }

  function CiteAll(cs: seq<Chunk>, ps: seq<Proposal>, question: nat): seq<Claim>
    requires forall p :: p in ps ==> forall e :: e in p.evidence ==> 1 <= e <= |cs|
  {
    seq(|ps|, i requires 0 <= i < |ps| => (assert ps[i] in ps; Cite(cs, ps[i], question)))
  }

  function Extract(t: Task, f: Finding): Result<Batch> {
    var cs := UniqueById(f.chunks);
    if cs == [] then Failure("EVIDENCE_NOT_FOUND")
    else if !Allowed(f.proposals, |cs|) then Failure("EVIDENCE_GENERATION")
    else Success(Batch(t.index, cs, CiteAll(cs, f.proposals, t.index)))
  }

  // ---- reconcile ----

  /** Insertion behind equal keys, so sorting is stable. */
  function Insert(bs: seq<Batch>, b: Batch): seq<Batch> {
    if bs != [] && bs[|bs| - 1].question > b.question
    then Insert(bs[..|bs| - 1], b) + [bs[|bs| - 1]]
    else bs + [b]
  }

  /** `sorted(batches, key=question_index)` */
  function SortBatches(bs: seq<Batch>): seq<Batch> {
    if bs == [] then [] else Insert(SortBatches(bs[..|bs| - 1]), bs[|bs| - 1])
  }

  function ClaimsOf(bs: seq<Batch>): seq<Claim> {
    if bs == [] then [] else ClaimsOf(bs[..|bs| - 1]) + bs[|bs| - 1].claims
  }

  const MAX_RELATIONS := 200
  const MAX_RATIONALE := 800

  /** An edge as the provider may not repeat it. */
  function Edge(r: Relation): (int, int, Kind) {
    (r.source, r.target, r.kind)
  }

  /** The relations a provider may return over `n` claims. */
  predicate RelationsAllowed(rs: seq<Relation>, n: nat) {
    && |rs| <= MAX_RELATIONS
    && (forall r :: r in rs ==>
          && 1 <= r.source <= n && 1 <= r.target <= n && r.source != r.target
          && 0.0 <= r.confidence <= 1.0 && 1 <= |r.rationale| <= MAX_RATIONALE)
    && forall i, j :: 0 <= i < j < |rs| ==> Edge(rs[i]) != Edge(rs[j])
  }

  datatype Reconciled = Reconciled(claims: seq<Claim>, relations: seq<Relation>)

  /** Fan-in: claims in question order, and the provider's relations over them. */
  function Reconcile(bs: seq<Batch>, proposed: seq<Relation>): Result<Reconciled> {
    var claims := ClaimsOf(SortBatches(bs));
    if |claims| < 2 then Success(Reconciled(claims, []))
    else if !RelationsAllowed(proposed, |claims|) then Failure("EVIDENCE_GENERATION")
    else Success(Reconciled(claims, proposed))
  }

  // ---- review ----

  predicate Suspicious(c: Chunk) {
    c.web || c.marked
  }

  function SuspiciousIn(cs: seq<Chunk>): seq<Id> {
    if cs == [] then []
    else SuspiciousIn(cs[..|cs| - 1]) + (if Suspicious(cs[|cs| - 1]) then [cs[|cs| - 1].id] else [])
  }

  function SuspiciousIds(bs: seq<Batch>): seq<Id> {
    if bs == [] then [] else SuspiciousIds(bs[..|bs| - 1]) + SuspiciousIn(bs[|bs| - 1].chunks)
  }

  const TRUSTED_CONFIDENCE := 0.75

  /** One-based positions of claims of low confidence. */
  function FlaggedIn(claims: seq<Claim>): seq<nat> {
    if claims == [] then []
    else
      FlaggedIn(claims[..|claims| - 1])
      + (if claims[|claims| - 1].confidence < TRUSTED_CONFIDENCE then [|claims|] else [])
  }

  datatype Payload = Payload(flagged: seq<nat>, suspicious: seq<Id>)

  function ReviewPayload(strict: bool, claims: seq<Claim>, bs: seq<Batch>): Option<Payload> {
    var flagged, suspicious := FlaggedIn(claims), SuspiciousIds(bs);
    if !strict && suspicious == [] then None
    else if flagged == [] && suspicious == [] then None
    else Some(Payload(flagged, suspicious))
  }

  /** One entry of `claim_text_edits`; `None` stands for an index or text of the wrong type. */
  datatype TextEdit = TextEdit(index: Option<int>, text: Option<string>)

  /** The human's answer; `Edit(None)` is an edit without a well-formed payload. */
  datatype Decision = Approve | Edit(edits: Option<seq<TextEdit>>) | Reject | Unknown

  /** A claim survives a rejection unless it is flagged or cites a suspicious chunk. */
  predicate Survives(p: Payload, claims: seq<Claim>, i: nat)
    requires i < |claims|
  {
    i + 1 !in p.flagged && forall c :: c in claims[i].chunks ==> c !in p.suspicious
  }

  /** Zero-based positions among the first `n` claims that survive. */
  function Survivors(p: Payload, claims: seq<Claim>, n: nat): (r: seq<nat>)
    requires n <= |claims|
    ensures forall i :: i in r ==> i < n
  {
    if n == 0 then []
    else Survivors(p, claims, n - 1) + (if Survives(p, claims, n - 1) then [n - 1] else [])
  }

  function At(claims: seq<Claim>, positions: seq<nat>): seq<Claim>
    requires forall i :: i in positions ==> i < |claims|
  {
    seq(|positions|, k requires 0 <= k < |positions| => (assert positions[k] in positions; claims[positions[k]]))
  }

  predicate ValidEdit(e: TextEdit, n: nat) {
    e.index.Some? && 1 <= e.index.value <= n && e.text.Some? && Strip(e.text.value) != ""
  }

  function EditOne(claims: seq<Claim>, e: TextEdit): seq<Claim>
    requires ValidEdit(e, |claims|)
  {
    claims[e.index.value - 1 := claims[e.index.value - 1].(text := Strip(e.text.value), edited := true)]
  }

  function EditAll(claims: seq<Claim>, es: seq<TextEdit>): Result<seq<Claim>>
    decreases |es|
  {
    if es == [] then Success(claims)
    else if !ValidEdit(es[0], |claims|) then Failure("EDIT_SCHEMA_INVALID")
    else EditAll(EditOne(claims, es[0]), es[1..])
  }

  function ApplyDecision(claims: seq<Claim>, p: Payload, d: Decision): Result<seq<Claim>> {
    var decided: Result<seq<Claim>> :=
      match d
      case Unknown => Failure("DECISION_SCHEMA_INVALID")
      case Approve => Success(claims)
      case Reject => Success(At(claims, Survivors(p, claims, |claims|)))
      case Edit(edits) => if edits.None? then Failure("EDIT_SCHEMA_INVALID") else EditAll(claims, edits.value);
    if decided.Success? && decided.value == [] then Failure("ALL_CLAIMS_REJECTED") else decided
  }

  /** The review node: without a payload the claims pass unreviewed. */
  function Review(strict: bool, claims: seq<Claim>, bs: seq<Batch>, d: Decision): Result<seq<Claim>> {
    var p := ReviewPayload(strict, claims, bs);
    if p.None? then Success(claims) else ApplyDecision(claims, p.value, d)
  }
}
