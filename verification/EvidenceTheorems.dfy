/** What the evidence workflow guarantees from fan-out to commit. */
module EvidenceTheorems {
  import opened Common
  import opened EvidenceWorkflow
  import opened EvidenceCommit
  import opened SentenceSplit
  import opened TextLaws

  // ---- planned questions ----

  /**
   * A planned question can be inserted exactly when the provider's has a character other than
   * whitespace and, stripped, holds no NUL.  Uniqueness leaves at most one blank question.
   */
  lemma {:induction false} PlannedQuestions(proposed: seq<string>)
    requires Plan(proposed).Success?
    ensures Plan(proposed).value == seq(|proposed|, i requires 0 <= i < |proposed| => Strip(proposed[i]))
    ensures var qs := Plan(proposed).value;
      && |qs| == |proposed| && 2 <= |qs| <= 4 && Distinct(qs)
      && forall i :: 0 <= i < |qs| ==>
           (NonBlankText(qs[i]) <==> (exists c :: c in proposed[i] && !IsSpace(c)) && Text(Strip(proposed[i])))
  {
    var qs := Plan(proposed).value;
    forall i | 0 <= i < |qs|
      ensures NonBlankText(qs[i]) <==> (exists c :: c in proposed[i] && !IsSpace(c)) && Text(Strip(proposed[i]))
    {
      StripVisible(proposed[i]);
      StripNothing(proposed[i]);
      if qs[i] != "" {
        assert qs[i][0] in qs[i] && qs[i][0] != ' ';
      }
    }
  }

  /** A plan is accepted exactly when it has two to four questions that differ once stripped. */
  lemma {:induction false} PlannedExactly(proposed: seq<string>)
    ensures Plan(proposed).Success? <==>
      2 <= |proposed| <= 4 && forall i, j :: 0 <= i < j < |proposed| ==> Strip(proposed[i]) != Strip(proposed[j])
  {
    var stripped := StripAll(proposed);
    assert forall i :: 0 <= i < |proposed| ==> stripped[i] == Strip(proposed[i]);
  }

  /** `ordered` are the batches the branches produce, listed by question. */
  ghost predicate Produced(questions: seq<string>, findings: seq<Finding>, ordered: seq<Batch>) {
    && |findings| == |ordered| == |questions|
    && forall i :: 0 <= i < |ordered| ==> Extract(FanOut(questions)[i], findings[i]) == Success(ordered[i])
  }

  // ---- order independence ----

  ghost predicate SortedByQuestion(bs: seq<Batch>) {
    forall i, j :: 0 <= i < j < |bs| ==> bs[i].question < bs[j].question
  }

  lemma {:induction false} InsertMultiset(bs: seq<Batch>, b: Batch)
    ensures multiset(Insert(bs, b)) == multiset(bs) + multiset{b}
  {
    if bs != [] && bs[|bs| - 1].question > b.question {
      InsertMultiset(bs[..|bs| - 1], b);
      assert bs == bs[..|bs| - 1] + [bs[|bs| - 1]];
    }
  }

  lemma {:induction false} InsertSorted(bs: seq<Batch>, b: Batch)
    requires SortedByQuestion(bs) && forall x :: x in bs ==> x.question != b.question
    ensures SortedByQuestion(Insert(bs, b))
  {
    if bs != [] && bs[|bs| - 1].question > b.question {
      var init, last := bs[..|bs| - 1], bs[|bs| - 1];
      InsertSorted(init, b);
      InsertMultiset(init, b);
      forall x | x in Insert(init, b)
        ensures x.question < last.question
      {
        assert x in multiset(Insert(init, b));
        assert x == b || x in init;
      }
    } else {
      forall i | 0 <= i < |bs|
        ensures bs[i].question < b.question
      {
        assert bs[i] in bs && bs[i].question <= bs[|bs| - 1].question;
      }
    }
  }

  ghost predicate DistinctQuestions(bs: seq<Batch>) {
    forall i, j :: 0 <= i < j < |bs| ==> bs[i].question != bs[j].question
  }

  lemma {:induction false} SortSorts(bs: seq<Batch>)
    requires DistinctQuestions(bs)
    ensures SortedByQuestion(SortBatches(bs))
    ensures multiset(SortBatches(bs)) == multiset(bs)
  {
    if bs != [] {
      var init, last := bs[..|bs| - 1], bs[|bs| - 1];
      assert bs == init + [last];
      SortSorts(init);
      forall x | x in SortBatches(init)
        ensures x.question != last.question
      {
        assert x in multiset(init);
      }
      InsertSorted(SortBatches(init), last);
      InsertMultiset(SortBatches(init), last);
    }
  }

  lemma LastIsGreatest(a: seq<Batch>, x: Batch)
    requires SortedByQuestion(a) && x in multiset(a)
    ensures a != [] && x.question <= a[|a| - 1].question
    ensures x.question == a[|a| - 1].question ==> x == a[|a| - 1]
  {
    var k :| 0 <= k < |a| && a[k] == x;
  }

  lemma InitMultiset(a: seq<Batch>)
    requires a != []
    ensures multiset(a[..|a| - 1]) == multiset(a) - multiset{a[|a| - 1]}
  {
    assert a == a[..|a| - 1] + [a[|a| - 1]];
  }

  lemma SameLast(a: seq<Batch>, b: seq<Batch>)
    requires SortedByQuestion(a) && SortedByQuestion(b) && multiset(a) == multiset(b) && a != []
    ensures b != [] && a[|a| - 1] == b[|b| - 1]
  {
    var x := a[|a| - 1];
    assert x in multiset(a);
    LastIsGreatest(b, x);
    assert b[|b| - 1] in multiset(b);
    LastIsGreatest(a, b[|b| - 1]);
  }

  lemma {:induction false} SortedUnique(a: seq<Batch>, b: seq<Batch>)
    requires SortedByQuestion(a) && SortedByQuestion(b) && multiset(a) == multiset(b)
    ensures a == b
  {
    if a == [] {
      assert |multiset(b)| == 0;
    } else {
      SameLast(a, b);
      InitMultiset(a);
      InitMultiset(b);
      SortedUnique(a[..|a| - 1], b[..|b| - 1]);
      assert a == a[..|a| - 1] + [a[|a| - 1]] && b == b[..|b| - 1] + [b[|b| - 1]];
    }
  }

  lemma DeliveredDistinct(ordered: seq<Batch>, delivered: seq<Batch>)
    requires SortedByQuestion(ordered) && multiset(delivered) == multiset(ordered)
    ensures DistinctQuestions(delivered)
  {
    forall i, j | 0 <= i < j < |delivered|
      ensures delivered[i].question != delivered[j].question
    {
      var x, y := delivered[i], delivered[j];
      assert x in multiset(ordered) && y in multiset(ordered);
      if x.question == y.question {
        var k :| 0 <= k < |ordered| && ordered[k] == x;
        var l :| 0 <= l < |ordered| && ordered[l] == y;
        assert k == l && x == y;
        TwiceIn(delivered, i, j);
        OnceIn(ordered, k);
      }
    }
  }

  lemma TwiceIn(bs: seq<Batch>, i: nat, j: nat)
    requires i < j < |bs| && bs[i] == bs[j]
    ensures multiset(bs)[bs[i]] >= 2
  {
    assert bs == bs[..j] + [bs[j]] + bs[j + 1..];
    assert multiset(bs) == multiset(bs[..j]) + multiset{bs[j]} + multiset(bs[j + 1..]);
    assert bs[i] in bs[..j];
  }

  lemma OnceIn(bs: seq<Batch>, k: nat)
    requires SortedByQuestion(bs) && k < |bs|
    ensures multiset(bs)[bs[k]] == 1
  {
    assert bs == bs[..k] + [bs[k]] + bs[k + 1..];
    assert multiset(bs) == multiset(bs[..k]) + multiset{bs[k]} + multiset(bs[k + 1..]);
    assert bs[k] !in bs[..k] && bs[k] !in bs[k + 1..];
  }

  /**
   * Whatever order the parallel branches deliver their batches in, fan-in restores the order
   * of the questions, so every claim gets the same number.
   */
  lemma {:induction false} ClaimNumbersAreDeliveryOrderFree(questions: seq<string>, findings: seq<Finding>, ordered: seq<Batch>,
                                         delivered: seq<Batch>)
    requires Produced(questions, findings, ordered) && multiset(delivered) == multiset(ordered)
    ensures SortBatches(delivered) == ordered
    ensures forall rs :: Reconcile(delivered, rs) == Reconcile(ordered, rs)
  {
    assert SortedByQuestion(ordered) by {
      forall i | 0 <= i < |ordered|
        ensures ordered[i].question == i
      {
        assert Extract(FanOut(questions)[i], findings[i]) == Success(ordered[i]);
      }
    }
    DeliveredDistinct(ordered, delivered);
    SortSorts(delivered);
    SortedUnique(SortBatches(delivered), ordered);
    DeliveredDistinct(ordered, ordered);
    SortSorts(ordered);
    SortedUnique(SortBatches(ordered), ordered);
  }

  // ---- provenance ----

  /** A claim cites at least one chunk, only chunks of the batches, under a question of the plan. */
  ghost predicate Grounded(c: Claim, questions: nat, bs: seq<Batch>) {
    && c.chunks != [] && 0 <= c.question < questions && 0.0 <= c.confidence <= 1.0
    && forall id :: id in c.chunks ==> id in BatchIds(bs)
  }

  ghost predicate AllGrounded(claims: seq<Claim>, questions: nat, bs: seq<Batch>) {
    forall c :: c in claims ==> Grounded(c, questions, bs)
  }

  /** The claims of one branch cite only that branch's own chunks, under its own question. */
  ghost predicate OwnClaims(b: Batch) {
    forall c :: c in b.claims ==>
      && c.chunks != [] && c.question == b.question && !c.edited && 0.0 <= c.confidence <= 1.0
      && forall id :: id in c.chunks ==> id in IdsOf(b.chunks)
  }

  lemma ExtractOwns(t: Task, f: Finding)
    requires Extract(t, f).Success?
    ensures var b := Extract(t, f).value; b.question == t.index && OwnClaims(b) && b.claims != []
  {
    var b := Extract(t, f).value;
    forall c | c in b.claims
      ensures c.chunks != [] && c.question == b.question && !c.edited && 0.0 <= c.confidence <= 1.0
      ensures forall id :: id in c.chunks ==> id in IdsOf(b.chunks)
    {
      var k :| 0 <= k < |b.claims| && b.claims[k] == c;
      var p := f.proposals[k];
      assert p in f.proposals && c == Cite(b.chunks, p, t.index);
      forall id | id in c.chunks
        ensures id in IdsOf(b.chunks)
      {
        var i :| 0 <= i < |c.chunks| && c.chunks[i] == id;
        assert p.evidence[i] in p.evidence;
        assert id == IdsOf(b.chunks)[p.evidence[i] - 1];
      }
    }
  }

  /** Position `k` is the last one that holds a chunk with the id. */
  ghost predicate LastFound(cs: seq<Chunk>, k: nat, id: Id) {
    k < |cs| && cs[k].id == id && forall j :: k < j < |cs| ==> cs[j].id != id
  }

  lemma {:induction false} LastByIdIs(cs: seq<Chunk>, id: Id) returns (k: nat)
    requires id in IdsOf(cs)
    ensures LastFound(cs, k, id) && cs[k] == LastById(cs, id)
    decreases |cs|
  {
    var n := |cs| - 1;
    if cs[n].id == id {
      k := n;
    } else {
      assert exists i :: 0 <= i < n && IdsOf(cs)[i] == id && IdsOf(cs[..n])[i] == id;
      k := LastByIdIs(cs[..n], id);
    }
  }

  /** Every chunk found is kept once, under its last value; a claim cites the chunks at its evidence positions. */
  lemma ExtractCites(t: Task, f: Finding)
    requires Extract(t, f).Success?
    ensures var b := Extract(t, f).value;
      && IdsOf(b.chunks) == Dedup(IdsOf(f.chunks))
      && (forall i :: 0 <= i < |b.chunks| ==> exists k: nat :: LastFound(f.chunks, k, b.chunks[i].id) && f.chunks[k] == b.chunks[i])
      && |b.claims| == |f.proposals|
      && forall k :: 0 <= k < |b.claims| ==>
           && b.claims[k].text == f.proposals[k].text && b.claims[k].confidence == f.proposals[k].confidence
           && |b.claims[k].chunks| == |f.proposals[k].evidence|
           && forall i :: 0 <= i < |b.claims[k].chunks| ==>
                && 1 <= f.proposals[k].evidence[i] <= |b.chunks|
                && b.claims[k].chunks[i] == b.chunks[f.proposals[k].evidence[i] - 1].id
  {
    var b := Extract(t, f).value;
    var ids := Dedup(IdsOf(f.chunks));
    forall i | 0 <= i < |b.chunks|
      ensures b.chunks[i].id == ids[i]
      ensures exists k: nat :: LastFound(f.chunks, k, b.chunks[i].id) && f.chunks[k] == b.chunks[i]
    {
      assert ids[i] in ids;
      var k := LastByIdIs(f.chunks, ids[i]);
    }
    forall k | 0 <= k < |b.claims|
      ensures b.claims[k] == Cite(b.chunks, f.proposals[k], t.index)
      ensures forall i :: 0 <= i < |f.proposals[k].evidence| ==> 1 <= f.proposals[k].evidence[i] <= |b.chunks|
    {
      assert f.proposals[k] in f.proposals;
      forall i | 0 <= i < |f.proposals[k].evidence|
        ensures 1 <= f.proposals[k].evidence[i] <= |b.chunks|
      {
        assert f.proposals[k].evidence[i] in f.proposals[k].evidence;
      }
    }
  }

  lemma {:induction false} InClaimsOf(bs: seq<Batch>, c: Claim)
    ensures c in ClaimsOf(bs) <==> exists b :: b in bs && c in b.claims
  {
    if bs != [] {
      InClaimsOf(bs[..|bs| - 1], c);
      assert bs == bs[..|bs| - 1] + [bs[|bs| - 1]];
    }
  }

  /** Every claim that reaches review is grounded in the batches of its own run. */
  lemma {:induction false} ReconciledClaimsAreGrounded(questions: seq<string>, findings: seq<Finding>, ordered: seq<Batch>,
                                    delivered: seq<Batch>)
    requires Produced(questions, findings, ordered) && multiset(delivered) == multiset(ordered)
    ensures AllGrounded(ClaimsOf(SortBatches(delivered)), |questions|, delivered)
  {
    ClaimNumbersAreDeliveryOrderFree(questions, findings, ordered, delivered);
    forall c | c in ClaimsOf(ordered)
      ensures Grounded(c, |questions|, delivered)
    {
      InClaimsOf(ordered, c);
      var b :| b in ordered && c in b.claims;
      var i :| 0 <= i < |ordered| && ordered[i] == b;
      ExtractOwns(FanOut(questions)[i], findings[i]);
      assert b in multiset(delivered);
      forall id | id in c.chunks
        ensures id in BatchIds(delivered)
      {
        var k :| 0 <= k < |b.chunks| && IdsOf(b.chunks)[k] == id;
        assert b.chunks[k] in b.chunks;
      }
    }
  }

  // ---- the review decision ----

  /** The claim without what an edit may change. */
  function Core(c: Claim): Claim {
    c.(text := "", edited := false)
  }

  /** Edits change texts only; an edit that is not valid fails the whole decision. */
  lemma {:induction false} EditsKeepCore(claims: seq<Claim>, es: seq<TextEdit>)
    ensures EditAll(claims, es).Success? <==> forall e :: e in es ==> ValidEdit(e, |claims|)
    ensures EditAll(claims, es).Success? ==>
      var r := EditAll(claims, es).value;
      |r| == |claims| && forall i :: 0 <= i < |claims| ==> Core(r[i]) == Core(claims[i])
    decreases |es|
  {
    if es != [] && ValidEdit(es[0], |claims|) {
      EditsKeepCore(EditOne(claims, es[0]), es[1..]);
      assert forall e :: e in es <==> e == es[0] || e in es[1..];
    }
  }

  /** Entry `k` is the last one for the claim at position `i`: entries count claims from one. */
  ghost predicate LastEdit(es: seq<TextEdit>, k: nat, i: nat) {
    k < |es| && es[k].index == Some(i + 1) && forall l :: k < l < |es| ==> es[l].index != Some(i + 1)
  }

  /**
   * After a successful edit every claim has the stripped text of the last entry for its number
   * and is marked edited; a claim without an entry is as it was.
   */
  lemma {:induction false} EditsWriteTexts(claims: seq<Claim>, es: seq<TextEdit>, i: nat)
    requires i < |claims| && EditAll(claims, es).Success?
    ensures |EditAll(claims, es).value| == |claims|
    ensures forall k: nat :: LastEdit(es, k, i) ==> es[k].text.Some?
    ensures forall k: nat :: LastEdit(es, k, i) ==>
      EditAll(claims, es).value[i] == claims[i].(text := Strip(es[k].text.value), edited := true)
    ensures (forall k :: 0 <= k < |es| ==> es[k].index != Some(i + 1)) ==> EditAll(claims, es).value[i] == claims[i]
    decreases |es|
  {
    EditsKeepCore(claims, es);
    if es != [] {
      var rest, next := es[1..], EditOne(claims, es[0]);
      EditsWriteTexts(next, rest, i);
      OneEdit(claims, es[0], i);
      forall k: nat | LastEdit(es, k, i)
        ensures es[k].text.Some?
        ensures EditAll(claims, es).value[i] == claims[i].(text := Strip(es[k].text.value), edited := true)
      {
        LaterEdits(es, k, i);
        if k > 0 {
          assert LastEdit(rest, k - 1, i);
        }
      }
      assert forall k :: 0 <= k < |rest| ==> rest[k] == es[k + 1];
    }
  }

  lemma OneEdit(claims: seq<Claim>, e: TextEdit, i: nat)
    requires i < |claims| && ValidEdit(e, |claims|)
    ensures EditOne(claims, e)[i]
         == if e.index == Some(i + 1) then claims[i].(text := Strip(e.text.value), edited := true) else claims[i]
  {
  }

  lemma LaterEdits(es: seq<TextEdit>, k: nat, i: nat)
    requires LastEdit(es, k, i)
    ensures k == 0 ==> forall l :: 0 <= l < |es[1..]| ==> es[1..][l].index != Some(i + 1)
    ensures k > 0 ==> LastEdit(es[1..], k - 1, i) && es[1..][k - 1] == es[k]
  {
    assert forall l :: 0 <= l < |es[1..]| ==> es[1..][l] == es[l + 1];
  }

  /** A claim that no review rule objects to. */
  ghost predicate Trusted(c: Claim, bs: seq<Batch>) {
    && c.confidence >= 0.75
    && forall b, k :: b in bs && k in b.chunks && (k.web || k.marked) ==> k.id !in c.chunks
  }

  lemma {:induction false} FlaggedMeans(claims: seq<Claim>, n: nat)
    ensures n in FlaggedIn(claims) <==> 1 <= n <= |claims| && claims[n - 1].confidence < TRUSTED_CONFIDENCE
  {
    if claims != [] {
      FlaggedMeans(claims[..|claims| - 1], n);
    }
  }

  lemma {:induction false} SuspiciousInMeans(cs: seq<Chunk>, id: Id)
    ensures id in SuspiciousIn(cs) <==> exists k :: k in cs && Suspicious(k) && k.id == id
  {
    if cs != [] {
      SuspiciousInMeans(cs[..|cs| - 1], id);
      assert cs == cs[..|cs| - 1] + [cs[|cs| - 1]];
    }
  }

  lemma {:induction false} SuspiciousMeans(bs: seq<Batch>, id: Id)
    ensures id in SuspiciousIds(bs) <==> exists b, k :: b in bs && k in b.chunks && Suspicious(k) && k.id == id
  {
    if bs != [] {
      SuspiciousMeans(bs[..|bs| - 1], id);
      SuspiciousInMeans(bs[|bs| - 1].chunks, id);
      assert bs == bs[..|bs| - 1] + [bs[|bs| - 1]];
    }
  }

  lemma {:induction false} SurvivesMeansTrusted(claims: seq<Claim>, bs: seq<Batch>, i: nat)
    requires i < |claims|
    ensures Survives(Payload(FlaggedIn(claims), SuspiciousIds(bs)), claims, i) <==> Trusted(claims[i], bs)
  {
    FlaggedMeans(claims, i + 1);
    forall id: Id
      ensures id in SuspiciousIds(bs) <==> exists b, k :: b in bs && k in b.chunks && Suspicious(k) && k.id == id
    {
      SuspiciousMeans(bs, id);
    }
  }

  /**
   * A human is asked exactly when some chunk found comes from the Web or carries a marker, or,
   * under the strict policy, some claim is of low confidence.
   */
  lemma {:induction false} ReviewAskedExactly(strict: bool, claims: seq<Claim>, bs: seq<Batch>)
    ensures ReviewPayload(strict, claims, bs).Some? <==> SomeDoubtful(bs) || (strict && SomeWeak(claims))
  {
    DoubtfulMeans(bs);
    WeakMeans(claims);
  }

  /** Some chunk found comes from the Web or carries a marker. */
  ghost predicate SomeDoubtful(bs: seq<Batch>) {
    exists b, k :: b in bs && k in b.chunks && (k.web || k.marked)
  }

  /** Some claim is of low confidence. */
  ghost predicate SomeWeak(claims: seq<Claim>) {
    exists c :: c in claims && c.confidence < 0.75
  }

  lemma DoubtfulMeans(bs: seq<Batch>)
    ensures SomeDoubtful(bs) <==> SuspiciousIds(bs) != []
  {
    var suspicious := SuspiciousIds(bs);
    if suspicious != [] {
      SuspiciousMeans(bs, suspicious[0]);
    }
    if b, k :| b in bs && k in b.chunks && (k.web || k.marked) {
      SuspiciousMeans(bs, k.id);
    }
  }

  lemma WeakMeans(claims: seq<Claim>)
    ensures SomeWeak(claims) <==> FlaggedIn(claims) != []
  {
    var flagged := FlaggedIn(claims);
    if flagged != [] {
      FlaggedMeans(claims, flagged[0]);
      assert claims[flagged[0] - 1] in claims;
    }
    if c :| c in claims && c.confidence < 0.75 {
      var i :| 0 <= i < |claims| && claims[i] == c;
      FlaggedMeans(claims, i + 1);
    }
  }

  /** The claims of `claims` that are trusted, in order. */
  ghost function TrustedOf(claims: seq<Claim>, bs: seq<Batch>): seq<Claim> {
    if claims == [] then []
    else
      TrustedOf(claims[..|claims| - 1], bs)
      + (if Trusted(claims[|claims| - 1], bs) then [claims[|claims| - 1]] else [])
  }

  lemma {:induction false} SurvivorsAreTrusted(claims: seq<Claim>, bs: seq<Batch>, n: nat)
    requires n <= |claims|
    ensures var p := Payload(FlaggedIn(claims), SuspiciousIds(bs));
      At(claims, Survivors(p, claims, n)) == TrustedOf(claims[..n], bs)
  {
    var p := Payload(FlaggedIn(claims), SuspiciousIds(bs));
    if n > 0 {
      SurvivorsAreTrusted(claims, bs, n - 1);
      SurvivesMeansTrusted(claims, bs, n - 1);
      assert claims[..n][..n - 1] == claims[..n - 1];
      var before := Survivors(p, claims, n - 1);
      assert At(claims, before + [n - 1]) == At(claims, before) + [claims[n - 1]];
    }
  }

  /** A rejection keeps exactly the trusted claims, in order, and fails when there is none. */
  lemma {:induction false} RejectKeepsExactlyTheTrusted(strict: bool, claims: seq<Claim>, bs: seq<Batch>)
    requires ReviewPayload(strict, claims, bs).Some?
    ensures Review(strict, claims, bs, Reject) ==
      if TrustedOf(claims, bs) == [] then Failure("ALL_CLAIMS_REJECTED") else Success(TrustedOf(claims, bs))
  {
    SurvivorsAreTrusted(claims, bs, |claims|);
    assert claims[..|claims|] == claims;
  }

  lemma {:induction false} TrustedOfIn(claims: seq<Claim>, bs: seq<Batch>)
    ensures forall c :: c in TrustedOf(claims, bs) <==> c in claims && Trusted(c, bs)
  {
    if claims != [] {
      TrustedOfIn(claims[..|claims| - 1], bs);
      assert claims == claims[..|claims| - 1] + [claims[|claims| - 1]];
    }
  }

  /** Whatever the human decides, every claim that goes on is one of the claims reviewed, up to its text. */
  lemma {:induction false} ReviewKeepsClaims(strict: bool, claims: seq<Claim>, bs: seq<Batch>, d: Decision)
    requires Review(strict, claims, bs, d).Success?
    ensures forall c :: c in Review(strict, claims, bs, d).value ==> exists o :: o in claims && Core(o) == Core(c)
    ensures claims != [] ==> Review(strict, claims, bs, d).value != []
  {
    var r := Review(strict, claims, bs, d).value;
    if ReviewPayload(strict, claims, bs).None? || d.Approve? {
      assert r == claims;
    } else if d.Reject? {
      RejectKeepsExactlyTheTrusted(strict, claims, bs);
      TrustedOfIn(claims, bs);
    } else {
      EditsKeepCore(claims, d.edits.value);
      forall c | c in r
        ensures exists o :: o in claims && Core(o) == Core(c)
      {
        var i :| 0 <= i < |r| && r[i] == c;
        assert claims[i] in claims && Core(claims[i]) == Core(c);
      }
    }
  }

  lemma ReviewKeepsGrounding(strict: bool, claims: seq<Claim>, questions: nat, bs: seq<Batch>, d: Decision)
    requires AllGrounded(claims, questions, bs) && Review(strict, claims, bs, d).Success?
    ensures AllGrounded(Review(strict, claims, bs, d).value, questions, bs)
  {
    ReviewKeepsClaims(strict, claims, bs, d);
    forall c | c in Review(strict, claims, bs, d).value
      ensures Grounded(c, questions, bs)
    {
      var o :| o in claims && Core(o) == Core(c);
      assert c.chunks == Core(c).chunks == o.chunks && c.question == Core(c).question == o.question;
      assert c.confidence == Core(c).confidence == o.confidence;
    }
  }

  // ---- commit ----

  /** The text has a character that is not a space, and no NUL. */
  ghost predicate MoreThanSpaces(s: string) {
    '\0' !in s && exists c :: c in s && c != ' '
  }

  /** The rows a citation of the chunk refers to are there; its first 1000 characters and its address hold no NUL. */
  ghost predicate Backed(c: Chunk, store: Store) {
    && (!c.web ==> c.id in store.chunks)
    && (c.document.Some? ==> c.document.value in store.documents)
    && (forall i :: 0 <= i < |c.text| && i < 1000 ==> c.text[i] != '\0')
    && (c.url.Some? ==> '\0' !in c.url.value)
  }

  lemma BackedIs(c: Chunk, store: Store)
    ensures Backed(c, store) <==> Citable(c, store)
  {
    if Text(Quote(c)) {
      forall i | 0 <= i < |c.text| && i < 1000
        ensures c.text[i] != '\0'
      {
        assert Quote(c)[i] in Quote(c);
      }
    }
  }

  /**
   * The question and citation lookups never fail for a run's claims, and their confidence fits
   * its column.  The commit goes through exactly when every question and every claim has a
   * character other than a space and no NUL, the rows behind every chunk found are still there
   * and its texts hold no NUL, no claim cites one chunk twice, and no relation points past the
   * claims left or holds a NUL.
   */
  lemma {:induction false} CommitOfARun(questions: seq<string>, findings: seq<Finding>, ordered: seq<Batch>, delivered: seq<Batch>,
                     proposed: seq<Relation>, strict: bool, d: Decision, store: Store)
    requires Produced(questions, findings, ordered) && multiset(delivered) == multiset(ordered)
    requires Reconcile(delivered, proposed).Success?
    requires Review(strict, Reconcile(delivered, proposed).value.claims, delivered, d).Success?
    ensures var rec := Reconcile(delivered, proposed).value;
      var claims := Review(strict, rec.claims, delivered, d).value;
      && AllGrounded(claims, |questions|, delivered)
      && (Committable(questions, delivered, claims, rec.relations, store) <==>
            && (forall q :: q in questions ==> MoreThanSpaces(q))
            && (forall c :: c in Cited(delivered) ==> Backed(c, store))
            && (forall c :: c in claims ==> MoreThanSpaces(c.text) && Distinct(c.chunks))
            && (forall r :: r in rec.relations ==> r.source <= |claims| && r.target <= |claims| && '\0' !in r.rationale))
  {
    var rec := Reconcile(delivered, proposed).value;
    ReconciledClaimsAreGrounded(questions, findings, ordered, delivered);
    ReviewKeepsGrounding(strict, rec.claims, |questions|, delivered, d);
    ProposedRelationsAre(delivered, proposed);
    CommittableIs(questions, delivered, Review(strict, rec.claims, delivered, d).value, rec.relations, store);
  }

  ghost predicate BetweenTwo(r: Relation) {
    1 <= r.source && 1 <= r.target && r.source != r.target && 0.0 <= r.confidence <= 1.0
  }

  lemma ProposedRelationsAre(delivered: seq<Batch>, proposed: seq<Relation>)
    requires Reconcile(delivered, proposed).Success?
    ensures forall r :: r in Reconcile(delivered, proposed).value.relations ==> BetweenTwo(r)
  {
  }

  /** For grounded claims and sound relations, the guards that are left. */
  lemma CommittableIs(questions: seq<string>, bs: seq<Batch>, claims: seq<Claim>, rs: seq<Relation>, store: Store)
    requires AllGrounded(claims, |questions|, bs) && forall r :: r in rs ==> BetweenTwo(r)
    ensures Committable(questions, bs, claims, rs, store) <==>
      && (forall q :: q in questions ==> MoreThanSpaces(q))
      && (forall c :: c in Cited(bs) ==> Backed(c, store))
      && (forall c :: c in claims ==> MoreThanSpaces(c.text) && Distinct(c.chunks))
      && (forall r :: r in rs ==> r.source <= |claims| && r.target <= |claims| && '\0' !in r.rationale)
  {
    forall c
      ensures Backed(c, store) <==> Citable(c, store)
    {
      BackedIs(c, store);
    }
    forall q
      ensures MoreThanSpaces(q) <==> NonBlankText(q)
    {
    }
    forall c | c in claims
      ensures c.chunks != [] && (Insertable(c, |questions|, BatchIds(bs)) <==> MoreThanSpaces(c.text) && Distinct(c.chunks))
    {
      assert Grounded(c, |questions|, bs);
    }
  }

  /**
   * What a commit that goes through has written: the questions, one citation per chunk found, one
   * row per claim with its text under its question, one evidence row for every chunk a claim
   * cites, and one row for every relation.
   */
  lemma {:induction false} CommittedRowsAre(questions: seq<string>, bs: seq<Batch>, claims: seq<Claim>, rs: seq<Relation>, store: Store)
    requires Committable(questions, bs, claims, rs, store)
    ensures var rows := RowsOf(questions, bs, claims, rs, store);
      && rows.questions == questions
      && |rows.citations| == |Cited(bs)| && (forall k :: 0 <= k < |rows.citations| ==> Cites(rows.citations[k], Cited(bs)[k]))
      && |rows.claims| == |claims|
      && (forall k :: 0 <= k < |claims| ==> rows.claims[k].text == claims[k].text && rows.claims[k].question == claims[k].question)
      && (forall row :: row in rows.evidence <==> row.claim < |claims| && row.chunk in claims[row.claim].chunks)
      && (forall row :: row in rows.relations <==>
            exists r :: r in rs && Relates(r, row))
  {
    forall row: EvidenceRow
      ensures row in AllEvidence(claims) <==> row.claim < |claims| && row.chunk in claims[row.claim].chunks
    {
      EvidenceRows(claims, row);
    }
    var rows := RowsOf(questions, bs, claims, rs, store);
    forall row: RelationRow | exists r :: r in rs && Relates(r, row)
      ensures row in rows.relations
    {
      var r :| r in rs && Relates(r, row);
      assert Relatable(r, |claims|);
    }
    forall row: RelationRow | row in rows.relations
      ensures exists r :: r in rs && Relates(r, row)
    {
      var r :| r in rs && RelationInRange(r, |claims|) && row == RelationRow((r.source - 1) as nat, (r.target - 1) as nat, r.kind);
      assert Relates(r, row);
    }
  }

  /** Relations count claims from one, rows from zero. */
  ghost predicate Relates(r: Relation, row: RelationRow) {
    r.source == row.source + 1 && r.target == row.target + 1 && r.kind == row.kind
  }

  /** The citation names the chunk's own row unless it comes from the Web, and quotes its beginning. */
  ghost predicate Cites(row: CitationRow, c: Chunk) {
    && row.id == c.id && row.chunk == (if c.web then None else Some(c.id)) && row.document == c.document && row.url == c.url
    && row.quote <= c.text && (|row.quote| == 1000 || (|row.quote| < 1000 && row.quote == c.text))
  }

  lemma {:induction false} EvidenceRows(claims: seq<Claim>, row: EvidenceRow)
    ensures row in AllEvidence(claims) <==> row.claim < |claims| && row.chunk in claims[row.claim].chunks
  {
    if claims != [] {
      var n := |claims| - 1;
      EvidenceRows(claims[..n], row);
      assert AllEvidence(claims) == AllEvidence(claims[..n]) + EvidenceOf(n, claims[n].chunks);
      EvidenceRowsOf(n, claims[n].chunks, row);
    }
  }

  lemma EvidenceRowsOf(claim: nat, chunks: seq<Id>, row: EvidenceRow)
    ensures row in EvidenceOf(claim, chunks) <==> row.claim == claim && row.chunk in chunks
  {
    if row.claim == claim && row.chunk in chunks {
      var i :| 0 <= i < |chunks| && chunks[i] == row.chunk;
      assert EvidenceOf(claim, chunks)[i] == row;
    }
  }

  /** No two relations have the same ends and kind. */
  ghost predicate NoEdgeTwice(rs: seq<Relation>) {
    forall i, j :: 0 <= i < j < |rs| ==> (rs[i].source, rs[i].target, rs[i].kind) != (rs[j].source, rs[j].target, rs[j].kind)
  }

  /** No relation is lost to the primary key, because a provider may not repeat an edge. */
  lemma {:induction false} RelationsAreKept(rs: seq<Relation>, n: nat)
    requires (forall r :: r in rs ==> RelationInRange(r, n)) && NoEdgeTwice(rs)
    ensures |RelationRows(rs, n)| == |rs|
  {
    if rs == [] {
      assert RelationRows(rs, n) == {};
    } else {
      var m := |rs| - 1;
      assert forall r :: r in rs[..m] ==> r in rs;
      RelationsAreKept(rs[..m], n);
      assert rs[m] in rs;
      RelationRowsStep(rs, m, n);
      assert rs[..m + 1] == rs;
      LastEdgeIsNew(rs, n);
    }
  }

  lemma LastEdgeIsNew(rs: seq<Relation>, n: nat)
    requires rs != [] && NoEdgeTwice(rs) && RelationInRange(rs[|rs| - 1], n)
    ensures var r := rs[|rs| - 1];
      RelationRow((r.source - 1) as nat, (r.target - 1) as nat, r.kind) !in RelationRows(rs[..|rs| - 1], n)
  {
    var m := |rs| - 1;
    var last := rs[m];
    forall r | r in rs[..m]
      ensures (r.source, r.target, r.kind) != (last.source, last.target, last.kind)
    {
      var i :| 0 <= i < m && rs[..m][i] == r;
      assert rs[i] == r;
    }
  }

  // ---- what the branches and the fan-in accept ----

  /** A branch goes through exactly when it found a chunk and the provider kept to the schema and the allowlist. */
  lemma {:induction false} ExtractedExactly(t: Task, f: Finding)
    ensures Extract(t, f).Success? <==>
      && f.chunks != [] && 1 <= |f.proposals| <= 30
      && forall p :: p in f.proposals ==>
           && 1 <= |p.text| <= 1600 && 0.0 <= p.confidence <= 1.0 && 1 <= |p.evidence| <= 12
           && forall e :: e in p.evidence ==> 1 <= e <= |Dedup(IdsOf(f.chunks))|
  {
    if f.chunks != [] {
      assert IdsOf(f.chunks)[0] in Dedup(IdsOf(f.chunks));
    }
  }

  /** The claims of every branch, in the order of the questions, one branch after the other. */
  lemma {:induction false} ClaimsAreConsecutive(ordered: seq<Batch>, i: nat)
    requires i < |ordered|
    ensures var n := |ClaimsOf(ordered[..i])|;
      n + |ordered[i].claims| <= |ClaimsOf(ordered)| && ClaimsOf(ordered)[n..n + |ordered[i].claims|] == ordered[i].claims
    ensures i + 1 == |ordered| ==> |ClaimsOf(ordered)| == |ClaimsOf(ordered[..i])| + |ordered[i].claims|
  {
    var m := |ordered| - 1;
    if i < m {
      ClaimsAreConsecutive(ordered[..m], i);
      assert ordered[..m][..i] == ordered[..i];
      var n := |ClaimsOf(ordered[..i])|;
      assert ClaimsOf(ordered)[n..n + |ordered[i].claims|] == ClaimsOf(ordered[..m])[n..n + |ordered[i].claims|];
    }
  }

  /** Fan-in goes through exactly when there is nothing to relate or the provider's relations are sound. */
  lemma {:induction false} ReconciledExactly(questions: seq<string>, findings: seq<Finding>, ordered: seq<Batch>, delivered: seq<Batch>,
                                             proposed: seq<Relation>)
    requires Produced(questions, findings, ordered) && multiset(delivered) == multiset(ordered)
    ensures var n := |ClaimsOf(ordered)|;
      && (Reconcile(delivered, proposed).Success? <==> n < 2 || SoundRelations(proposed, n))
      && (Reconcile(delivered, proposed).Success? ==>
            Reconcile(delivered, proposed).value == Reconciled(ClaimsOf(ordered), if n < 2 then [] else proposed))
  {
    ClaimNumbersAreDeliveryOrderFree(questions, findings, ordered, delivered);
    SoundMeansAllowed(proposed, |ClaimsOf(ordered)|);
  }

  /** Relations over `n` claims that keep to the schema: in range, between two claims, no edge twice. */
  ghost predicate SoundRelations(rs: seq<Relation>, n: nat) {
    && |rs| <= 200 && NoEdgeTwice(rs)
    && forall r :: r in rs ==>
         && 1 <= r.source <= n && 1 <= r.target <= n && r.source != r.target
         && 0.0 <= r.confidence <= 1.0 && 1 <= |r.rationale| <= 800
  }

  lemma SoundMeansAllowed(rs: seq<Relation>, n: nat)
    ensures SoundRelations(rs, n) <==> RelationsAllowed(rs, n)
  {
  }

  /** Unless claims were rejected, relations stay in range and keep naming the claims they were proposed for. */
  lemma RelationsSurviveApprovalAndEdits(strict: bool, claims: seq<Claim>, bs: seq<Batch>, d: Decision)
    requires Review(strict, claims, bs, d).Success? && !(d.Reject? && ReviewPayload(strict, claims, bs).Some?)
    ensures var r := Review(strict, claims, bs, d).value;
      |r| == |claims| && forall i :: 0 <= i < |r| ==> Core(r[i]) == Core(claims[i])
  {
    if d.Edit? && d.edits.Some? {
      EditsKeepCore(claims, d.edits.value);
    }
  }

  // ---- relations after a rejection ----

  lemma {:induction false} SurvivorsCount(p: Payload, claims: seq<Claim>, n: nat)
    requires n <= |claims|
    ensures |Survivors(p, claims, n)| <= n
    ensures |Survivors(p, claims, n)| == n <==> forall i :: 0 <= i < n ==> Survives(p, claims, i)
    ensures forall k :: 0 <= k < |Survivors(p, claims, n)| ==> Survivors(p, claims, n)[k] >= k
  {
    if n > 0 {
      SurvivorsCount(p, claims, n - 1);
    }
  }

  lemma {:induction false} SurvivorsPrefix(p: Payload, claims: seq<Claim>, n: nat, m: nat)
    requires n <= m <= |claims|
    ensures Survivors(p, claims, n) <= Survivors(p, claims, m)
    ensures forall k :: |Survivors(p, claims, n)| <= k < |Survivors(p, claims, m)| ==> Survivors(p, claims, m)[k] >= n
  {
    if n < m {
      SurvivorsPrefix(p, claims, n, m - 1);
    }
  }

  /**
   * After a rejection, number `k` still means the claim it meant before exactly when none of
   * the first `k` claims was rejected: relation indices are not renumbered.
   */
  lemma RelationTargetsMove(p: Payload, claims: seq<Claim>, k: nat)
    requires 1 <= k <= |claims|
    ensures var kept := Survivors(p, claims, |claims|);
      (k <= |kept| && kept[k - 1] == k - 1) <==> forall i :: 0 <= i < k ==> Survives(p, claims, i)
  {
    var kept, first := Survivors(p, claims, |claims|), Survivors(p, claims, k);
    SurvivorsPrefix(p, claims, k, |claims|);
    SurvivorsCount(p, claims, k);
    if |first| == k {
      assert kept[k - 1] == first[k - 1] && first[k - 1] in first;
    }
  }

  // ---- runs that pass review and cannot be committed ----

  const LOCAL := Chunk(7, false, Some(3), false, "t", None)
  const BOTH := Store({7}, {3})
  const SOUND := Proposal("c", 0.9, [1])

  /** Both branches find the one local chunk; the provider proposes `ps` and `qs`. */
  function Findings(ps: seq<Proposal>, qs: seq<Proposal>): seq<Finding> {
    [Finding([LOCAL], ps), Finding([LOCAL], qs)]
  }

  function Batches(ps: seq<Proposal>, qs: seq<Proposal>): seq<Batch>
    requires Allowed(ps, 1) && Allowed(qs, 1)
  {
    [Batch(0, [LOCAL], CiteAll([LOCAL], ps, 0)), Batch(1, [LOCAL], CiteAll([LOCAL], qs, 1))]
  }

  function Claims(ps: seq<Proposal>, qs: seq<Proposal>): seq<Claim>
    requires Allowed(ps, 1) && Allowed(qs, 1)
  {
    CiteAll([LOCAL], ps, 0) + CiteAll([LOCAL], qs, 1)
  }

  lemma LocalIsUnique()
    ensures UniqueById([LOCAL]) == [LOCAL] && UniqueById([LOCAL, LOCAL]) == [LOCAL]
  {
    var one: seq<Id> := [7];
    var two: seq<Id> := [7, 7];
    assert one[..0] == [] && two[..1] == one;
    assert IdsOf([LOCAL]) == one && IdsOf([LOCAL, LOCAL]) == two;
    assert Dedup(one) == one && Dedup(two) == one;
  }

  lemma ExampleExtracts(questions: seq<string>, ps: seq<Proposal>, qs: seq<Proposal>)
    requires |questions| == 2 && Allowed(ps, 1) && Allowed(qs, 1)
    ensures Produced(questions, Findings(ps, qs), Batches(ps, qs))
    ensures Cited(Batches(ps, qs)) == [LOCAL] && BatchIds(Batches(ps, qs)) == {7}
  {
    LocalIsUnique();
    assert FanOut(questions)[0].index == 0 && FanOut(questions)[1].index == 1;
    var bs := Batches(ps, qs);
    assert bs[..1][..0] == [] && bs[..2][..1] == bs[..1] && bs[..2] == bs;
    AllChunksStep(bs, 0);
    AllChunksStep(bs, 1);
    assert AllChunks(bs) == [LOCAL, LOCAL];
    CitedIds(bs);
    assert IdsOf([LOCAL])[0] == 7;
  }

  lemma ExampleReconciles(ps: seq<Proposal>, qs: seq<Proposal>, rs: seq<Relation>)
    requires Allowed(ps, 1) && Allowed(qs, 1) && RelationsAllowed(rs, |ps| + |qs|)
    ensures Reconcile(Batches(ps, qs), rs) == Success(Reconciled(Claims(ps, qs), rs))
  {
    var bs := Batches(ps, qs);
    assert bs[..1] == [bs[0]] && bs[..1][..0] == [];
    assert SortBatches([bs[0]]) == Insert([], bs[0]) == [bs[0]];
    assert SortBatches(bs) == Insert([bs[0]], bs[1]) == bs;
    assert ClaimsOf([bs[0]]) == bs[0].claims;
    assert ClaimsOf(bs) == ClaimsOf([bs[0]]) + bs[1].claims;
  }

  /** The run over these questions and proposals reaches its commit with claims approved as proposed. */
  ghost predicate Approved(questions: seq<string>, ps: seq<Proposal>, qs: seq<Proposal>, strict: bool)
    requires Allowed(ps, 1) && Allowed(qs, 1)
  {
    var bs, cs := Batches(ps, qs), Claims(ps, qs);
    && Produced(questions, Findings(ps, qs), bs)
    && Reconcile(bs, []) == Success(Reconciled(cs, []))
    && Review(strict, cs, bs, Approve) == Success(cs)
  }

  /** Its commit goes through. */
  ghost predicate Accepted(questions: seq<string>, ps: seq<Proposal>, qs: seq<Proposal>, store: Store)
    requires Allowed(ps, 1) && Allowed(qs, 1)
  {
    Committable(questions, Batches(ps, qs), Claims(ps, qs), [], store)
  }

  /** Its commit fails, and only for the reason `code` names. */
  ghost predicate RefusedFor(code: string, questions: seq<string>, ps: seq<Proposal>, qs: seq<Proposal>, store: Store)
    requires Allowed(ps, 1) && Allowed(qs, 1)
  {
    && !Committable(questions, Batches(ps, qs), Claims(ps, qs), [], store)
    && forall other :: Explains(other, questions, Batches(ps, qs), Claims(ps, qs), [], store) <==> other == code
  }

  lemma ApprovedExample(questions: seq<string>, ps: seq<Proposal>, qs: seq<Proposal>, strict: bool)
    requires |questions| == 2 && Allowed(ps, 1) && Allowed(qs, 1)
    ensures Approved(questions, ps, qs, strict)
  {
    ExampleExtracts(questions, ps, qs);
    ExampleReconciles(ps, qs, []);
  }

  const QUESTIONS := ["p", "q"]

  /** The claim of a proposal with one evidence id, or with the same one twice. */
  lemma ExampleClaims(p: Proposal)
    requires Allowed([p], 1)
    ensures |Claims([p], [SOUND])| == 2
    ensures var c := Claims([p], [SOUND])[0];
      c.text == p.text && c.confidence == p.confidence && c.question == 0 && |c.chunks| == |p.evidence|
      && forall i :: 0 <= i < |c.chunks| ==> c.chunks[i] == 7
    ensures Claims([p], [SOUND])[1] == Claim("c", 0.9, [7], 1, false)
    ensures NonBlankText("c")
  {
    var c := Claims([p], [SOUND])[0];
    assert p in [p];
    forall i | 0 <= i < |c.chunks|
      ensures c.chunks[i] == 7
    {
      assert p.evidence[i] in p.evidence;
    }
    assert 'c' in "c";
    assert Claims([p], [SOUND])[1].chunks == [7];
  }

  lemma QuestionsAccepted()
    ensures forall q :: q in QUESTIONS ==> NonBlankText(q)
  {
    assert 'p' in "p" && 'q' in "q";
  }

  /** Why the commit of two approved claims over one local chunk may fail. */
  ghost predicate Reason(code: string, questions: seq<string>, p: Proposal, store: Store) {
    || (code == "QUESTION_REFUSED" && exists q :: q in questions && !NonBlankText(q))
    || (code == "CHUNK_NOT_FOUND" && 7 !in store.chunks)
    || (code == "DOCUMENT_NOT_FOUND" && 3 !in store.documents)
    || (code == "CLAIM_TEXT_REFUSED" && !NonBlankText(p.text))
    || (code == "CLAIM_EVIDENCE_DUPLICATE" && |p.evidence| > 1)
  }

  lemma ExampleDistinct(p: Proposal)
    requires Allowed([p], 1) && Allowed([SOUND], 1)
    ensures Distinct(Claims([p], [SOUND])[0].chunks) <==> |p.evidence| == 1
    ensures Distinct(Claims([p], [SOUND])[1].chunks)
  {
    ExampleClaims(p);
    assert p in [p] && WellFormed(p);
    if |p.evidence| > 1 {
      var c := Claims([p], [SOUND])[0];
      assert c.chunks[0] == c.chunks[1];
    }
  }

  lemma ExampleCommits(questions: seq<string>, p: Proposal, store: Store)
    requires |questions| == 2 && Allowed([p], 1) && Allowed([SOUND], 1)
    ensures Committable(questions, Batches([p], [SOUND]), Claims([p], [SOUND]), [], store) <==>
      && (forall q :: q in questions ==> NonBlankText(q)) && 7 in store.chunks && 3 in store.documents
      && NonBlankText(p.text) && |p.evidence| == 1
  {
    var bs, cs := Batches([p], [SOUND]), Claims([p], [SOUND]);
    ExampleExtracts(questions, [p], [SOUND]);
    ExampleClaims(p);
    ExampleDistinct(p);
    assert p in [p] && WellFormed(p);
    assert Cited(bs)[0] == LOCAL;
    assert Citable(LOCAL, store) <==> 7 in store.chunks && 3 in store.documents;
    assert forall c :: c in cs <==> c == cs[0] || c == cs[1];
    assert cs[0] in cs;
  }

  lemma ExampleClaimExplained(p: Proposal, code: string)
    requires Allowed([p], 1) && Allowed([SOUND], 1)
    ensures var cs := Claims([p], [SOUND]);
      (exists c :: c in cs && ExplainsClaim(code, c, 2, {7})) <==>
        || (code == "CLAIM_TEXT_REFUSED" && !NonBlankText(p.text)) || (code == "CLAIM_EVIDENCE_DUPLICATE" && |p.evidence| > 1)
  {
    var cs := Claims([p], [SOUND]);
    ExampleClaims(p);
    ExampleDistinct(p);
    assert p in [p] && WellFormed(p);
    assert forall c :: c in cs <==> c == cs[0] || c == cs[1];
    assert cs[0] in cs;
    assert !ExplainsClaim(code, cs[1], 2, {7});
    assert forall id :: id in cs[0].chunks ==> id == 7;
  }

  lemma ExampleExplained(questions: seq<string>, p: Proposal, store: Store, code: string)
    requires |questions| == 2 && Allowed([p], 1) && Allowed([SOUND], 1)
    ensures Explains(code, questions, Batches([p], [SOUND]), Claims([p], [SOUND]), [], store) <==> Reason(code, questions, p, store)
  {
    var bs, cs := Batches([p], [SOUND]), Claims([p], [SOUND]);
    ExampleExtracts(questions, [p], [SOUND]);
    ExampleClaims(p);
    ExampleClaimExplained(p, code);
    assert p in [p] && WellFormed(p);
    assert cs == [cs[0], cs[1]] && cs[0].chunks != [] && cs[1].chunks != [];
    assert Cited(bs)[0] == LOCAL;
    assert ExplainsCitation(code, LOCAL, store) <==>
      || (code == "CHUNK_NOT_FOUND" && 7 !in store.chunks) || (code == "DOCUMENT_NOT_FOUND" && 3 !in store.documents);
  }

  lemma OnlyReason(questions: seq<string>, p: Proposal, store: Store, code: string)
    requires |questions| == 2 && Allowed([p], 1) && Allowed([SOUND], 1)
    requires forall other :: Reason(other, questions, p, store) <==> other == code
    ensures RefusedFor(code, questions, [p], [SOUND], store)
  {
    ExampleCommits(questions, p, store);
    assert Reason(code, questions, p, store);
    assert p in [p] && WellFormed(p);
    forall other
      ensures Explains(other, questions, Batches([p], [SOUND]), Claims([p], [SOUND]), [], store) <==> other == code
    {
      ExampleExplained(questions, p, store, other);
    }
  }

  lemma ClaimRefused(p: Proposal, code: string, strict: bool)
    requires Allowed([p], 1) && Allowed([SOUND], 1)
    requires || (code == "CLAIM_TEXT_REFUSED" && !NonBlankText(p.text) && |p.evidence| == 1)
             || (code == "CLAIM_EVIDENCE_DUPLICATE" && NonBlankText(p.text) && |p.evidence| > 1)
    ensures Approved(QUESTIONS, [p], [SOUND], strict)
    ensures RefusedFor(code, QUESTIONS, [p], [SOUND], BOTH)
  {
    ApprovedExample(QUESTIONS, [p], [SOUND], strict);
    QuestionsAccepted();
    OnlyReason(QUESTIONS, p, BOTH, code);
  }

  /** Sound claims: the questions and the rows behind the chunk decide. */
  lemma SoundCommits(questions: seq<string>, p: Proposal, store: Store)
    requires |questions| == 2 && Allowed([p], 1) && Allowed([SOUND], 1) && NonBlankText(p.text) && |p.evidence| == 1
    ensures (forall q :: q in questions ==> NonBlankText(q)) && store == BOTH ==>
      Committable(questions, Batches([p], [SOUND]), Claims([p], [SOUND]), [], store)
    ensures (exists q :: q in questions && !NonBlankText(q)) && store == BOTH ==>
      RefusedFor("QUESTION_REFUSED", questions, [p], [SOUND], store)
    ensures (forall q :: q in questions ==> NonBlankText(q)) && store == DELETED ==>
      RefusedFor("CHUNK_NOT_FOUND", questions, [p], [SOUND], store)
  {
    ExampleCommits(questions, p, store);
    if store == BOTH && exists q :: q in questions && !NonBlankText(q) {
      OnlyReason(questions, p, store, "QUESTION_REFUSED");
    }
    if store == DELETED && forall q :: q in questions ==> NonBlankText(q) {
      OnlyReason(questions, p, store, "CHUNK_NOT_FOUND");
    }
  }

  const TWICE := Proposal("b", 0.9, [1, 1])

  /**
   * A provider that lists one evidence id twice: extraction, reconciliation and approval go
   * through, and the commit cannot; the only error it explains is the duplicate evidence row.
   */
  lemma DuplicateCitationExample(strict: bool)
    ensures Allowed([TWICE], 1) && Allowed([SOUND], 1)
    ensures Approved(QUESTIONS, [TWICE], [SOUND], strict)
    ensures RefusedFor("CLAIM_EVIDENCE_DUPLICATE", QUESTIONS, [TWICE], [SOUND], BOTH)
  {
    assert 'b' in "b";
    ClaimRefused(TWICE, "CLAIM_EVIDENCE_DUPLICATE", strict);
  }

  const BLANK := Proposal(" ", 0.9, [1])

  /** A claim that is a single space passes every check up to approval; the check of its column refuses it. */
  lemma BlankClaimExample(strict: bool)
    ensures Allowed([BLANK], 1) && Allowed([SOUND], 1)
    ensures Approved(QUESTIONS, [BLANK], [SOUND], strict)
    ensures RefusedFor("CLAIM_TEXT_REFUSED", QUESTIONS, [BLANK], [SOUND], BOTH)
  {
    assert !NonBlankText(" ");
    ClaimRefused(BLANK, "CLAIM_TEXT_REFUSED", strict);
  }

  lemma BlankPlan()
    ensures Plan([" ", "q"]) == Success(["", "q"])
  {
    StripNothing(" ");
    StripVisible("q");
    assert StripAll([" ", "q"]) == ["", "q"];
  }

  lemma BlankQuestion(questions: seq<string>)
    requires |questions| == 2 && "" in questions && Allowed([SOUND], 1)
    ensures RefusedFor("QUESTION_REFUSED", questions, [SOUND], [SOUND], BOTH)
  {
    assert !NonBlankText("") && 'c' in "c";
    SoundCommits(questions, SOUND, BOTH);
  }

  /** A plan may hold one blank question: it is stripped and unique, and its column refuses it. */
  lemma BlankQuestionExample(strict: bool)
    ensures Plan([" ", "q"]) == Success(["", "q"]) && Allowed([SOUND], 1)
    ensures Approved(["", "q"], [SOUND], [SOUND], strict)
    ensures RefusedFor("QUESTION_REFUSED", ["", "q"], [SOUND], [SOUND], BOTH)
  {
    BlankPlan();
    var questions := ["", "q"];
    ApprovedExample(questions, [SOUND], [SOUND], strict);
    BlankQuestion(questions);
  }

  const DELETED := Store({}, {3})

  lemma VanishedChunk(p: Proposal, strict: bool)
    requires Allowed([p], 1) && Allowed([SOUND], 1) && NonBlankText(p.text) && |p.evidence| == 1
    ensures Approved(QUESTIONS, [p], [SOUND], strict)
    ensures Accepted(QUESTIONS, [p], [SOUND], BOTH)
    ensures RefusedFor("CHUNK_NOT_FOUND", QUESTIONS, [p], [SOUND], DELETED)
  {
    ApprovedExample(QUESTIONS, [p], [SOUND], strict);
    QuestionsAccepted();
    SoundCommits(QUESTIONS, p, BOTH);
    SoundCommits(QUESTIONS, p, DELETED);
  }

  /**
   * The same run goes through while the chunk's row is there.  When the row is deleted before
   * the commit (by a document deletion or a new ingestion while a human decides), the
   * foreign key of the citation fails.
   */
  lemma VanishedChunkExample(strict: bool)
    ensures Allowed([SOUND], 1)
    ensures Approved(QUESTIONS, [SOUND], [SOUND], strict)
    ensures Accepted(QUESTIONS, [SOUND], [SOUND], BOTH)
    ensures RefusedFor("CHUNK_NOT_FOUND", QUESTIONS, [SOUND], [SOUND], DELETED)
  {
    assert 'c' in "c";
    VanishedChunk(SOUND, strict);
  }

  /** Committing the first of these runs ends with the primary key violation. */
  method CommitDuplicateCitation() returns (rows: Result<Rows>)
    ensures rows == Failure("CLAIM_EVIDENCE_DUPLICATE")
  {
    DuplicateCitationExample(true);
    rows := Commit(QUESTIONS, Batches([TWICE], [SOUND]), Claims([TWICE], [SOUND]), [], BOTH);
  }

  // ---- a rejection in front of related claims ----

  const WEAK := Proposal("a", 0.5, [1])
  const PROPOSED := [Relation(2, 3, Supports, 0.9, "r")]

  /** The claims of the two branches, and the two that a rejection leaves. */
  lemma RelatedClaims()
    ensures Allowed([WEAK, SOUND], 1) && Allowed([SOUND], 1)
    ensures Claims([WEAK, SOUND], [SOUND])
         == [Claim("a", 0.5, [7], 0, false), Claim("c", 0.9, [7], 0, false), Claim("c", 0.9, [7], 1, false)]
  {
    var cs := Claims([WEAK, SOUND], [SOUND]);
    assert cs[0].chunks == [7] && cs[1].chunks == [7] && cs[2].chunks == [7];
  }

  lemma RelatedTrusted()
    ensures Allowed([WEAK, SOUND], 1) && Allowed([SOUND], 1)
    ensures TrustedOf(Claims([WEAK, SOUND], [SOUND]), Batches([WEAK, SOUND], [SOUND]))
         == Claims([WEAK, SOUND], [SOUND])[1..]
  {
    RelatedClaims();
    var bs, cs := Batches([WEAK, SOUND], [SOUND]), Claims([WEAK, SOUND], [SOUND]);
    assert cs[..2][..1] == cs[..1] && cs[..1][..0] == [];
    assert !Trusted(cs[0], bs) && Trusted(cs[1], bs) && Trusted(cs[2], bs);
    assert TrustedOf(cs[..1], bs) == [];
    assert TrustedOf(cs[..2], bs) == [cs[1]];
    assert cs == cs[..2] + [cs[2]];
    assert TrustedOf(cs, bs) == [cs[1], cs[2]];
  }

  lemma RelatedReview()
    ensures Allowed([WEAK, SOUND], 1) && Allowed([SOUND], 1)
    ensures var bs, cs := Batches([WEAK, SOUND], [SOUND]), Claims([WEAK, SOUND], [SOUND]);
      Review(true, cs, bs, Reject) == Success(cs[1..])
  {
    RelatedClaims();
    var bs, cs := Batches([WEAK, SOUND], [SOUND]), Claims([WEAK, SOUND], [SOUND]);
    FlaggedMeans(cs, 1);
    assert ReviewPayload(true, cs, bs).Some?;
    RejectKeepsExactlyTheTrusted(true, cs, bs);
    RelatedTrusted();
  }

  lemma PastTheClaims(questions: seq<string>, bs: seq<Batch>, cs: seq<Claim>, rs: seq<Relation>, store: Store)
    requires rs != [] && rs[0].target > |cs|
    ensures !Committable(questions, bs, cs, rs, store) && Explains("RELATION_INDEX_OUT_OF_RANGE", questions, bs, cs, rs, store)
  {
    assert rs[0] in rs && ExplainsRelation("RELATION_INDEX_OUT_OF_RANGE", rs[0], |cs|);
  }

  /**
   * Two reliable claims behind a weak one, with a relation between them: rejecting the weak
   * claim leaves the relation pointing past the claims, and the commit fails.
   */
  lemma RejectedRelationExample()
    ensures Allowed([WEAK, SOUND], 1) && Allowed([SOUND], 1)
    ensures var bs, cs := Batches([WEAK, SOUND], [SOUND]), Claims([WEAK, SOUND], [SOUND]);
      && Produced(QUESTIONS, Findings([WEAK, SOUND], [SOUND]), bs)
      && Reconcile(bs, PROPOSED) == Success(Reconciled(cs, PROPOSED))
      && Review(true, cs, bs, Reject) == Success(cs[1..])
      && !Committable(QUESTIONS, bs, cs[1..], PROPOSED, BOTH)
      && Explains("RELATION_INDEX_OUT_OF_RANGE", QUESTIONS, bs, cs[1..], PROPOSED, BOTH)
  {
    RelatedReview();
    var ps: seq<Proposal>, qs: seq<Proposal> := [WEAK, SOUND], [SOUND];
    ExampleExtracts(QUESTIONS, ps, qs);
    ExampleReconciles(ps, qs, PROPOSED);
    PastTheClaims(QUESTIONS, Batches(ps, qs), Claims(ps, qs)[1..], PROPOSED, BOTH);
  }
}
