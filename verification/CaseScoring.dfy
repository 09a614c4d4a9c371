/** The scores of one executed case (evaluation_scoring.py, evaluation_runner.py:126-131). */
module CaseScoring {
  import opened Common
  import opened EvaluationStore
  import RankMetrics
  import SentenceSplit
  import TextLaws

  /** What a pipeline returned for a case: its answer, and the chunks retrieved and cited. */
  datatype PipelineResult = PipelineResult(response: string, retrieved: seq<Id>, cited: seq<Id>)

  /** Deterministic metrics carry version "1.0", the model-judged one its own. */
  const DETERMINISTIC := 1
  const RAGAS := 2

  function IdSet(ids: seq<Id>): set<Id> {
    set x | x in ids
  }

  /** `len(part & whole) / len(whole)`, or a default for an empty whole. */
  function Share(part: set<Id>, whole: set<Id>, otherwise: real): real {
    if whole == {} then otherwise else |part * whole| as real / |whole| as real
  }

  function Judged(name: Metric, version: nat, value: real, passed: bool): Score {
    Score(name, version, Some(value), Some(passed))
  }

  /** `_unjudged_rank_score`: a rank metric without expected evidence. */
  function Unjudged(name: Metric): Score {
    Score(name, DETERMINISTIC, None, None)
  }

  function SchemaScore(r: PipelineResult): Score {
    var valid := SentenceSplit.Strip(r.response) != "" && r.cited != [];
    Judged(SCHEMA_VALID, DETERMINISTIC, if valid then 1.0 else 0.0, valid)
  }

  function PrecisionScore(r: PipelineResult): Score {
    var value := Share(IdSet(r.retrieved), IdSet(r.cited), 0.0);
    Judged(CITATION_PRECISION, DETERMINISTIC, value, value == 1.0)
  }

  function RecallScore(expected: set<Id>, r: PipelineResult): Score {
    var value := Share(IdSet(r.retrieved), expected, 1.0);
    Judged(EVIDENCE_RECALL, DETERMINISTIC, value, value >= 0.8)
  }

  function MrrScore(expected: set<Id>, r: PipelineResult): Score {
    if expected == {} then Unjudged(RETRIEVAL_MRR)
    else
      var value := RankMetrics.Reciprocal(RankMetrics.RankOfFirst(expected, r.retrieved));
      Judged(RETRIEVAL_MRR, DETERMINISTIC, value, value >= 0.5)
  }

  function NdcgScore(discount: nat -> real, expected: set<Id>, r: PipelineResult): Score {
    if expected == {} then Unjudged(RETRIEVAL_NDCG)
    else
      var value := RankMetrics.Ndcg(discount, expected, r.retrieved);
      Judged(RETRIEVAL_NDCG, DETERMINISTIC, value, value >= 0.8)
  }

  function FaithfulnessScore(value: real): Score {
    Judged(FAITHFULNESS, RAGAS, value, value >= 0.8)
  }

  /** Every score a case can have, in the order they are appended. */
  function Candidates(discount: nat -> real, expected: set<Id>, r: PipelineResult, faithfulness: real): seq<Score> {
    [SchemaScore(r), PrecisionScore(r), RecallScore(expected, r), MrrScore(expected, r),
     NdcgScore(discount, expected, r), FaithfulnessScore(faithfulness)]
  }

  /** The scores whose metric is asked for. */
  function Wanted(metrics: seq<Metric>, ss: seq<Score>): seq<Score> {
    if ss == [] then []
    else
      Wanted(metrics, ss[..|ss| - 1]) + (if ss[|ss| - 1].name in metrics then [ss[|ss| - 1]] else [])
  }

  /** All scores of an executed case; `faithfulness` is the judge's value. */
  function CaseScores(discount: nat -> real, metrics: seq<Metric>, expected: set<Id>, r: PipelineResult,
                      faithfulness: real): seq<Score> {
    Wanted(metrics, Candidates(discount, expected, r, faithfulness))
  }

  lemma {:induction false} WantedIs(metrics: seq<Metric>, ss: seq<Score>, s: Score)
    ensures s in Wanted(metrics, ss) <==> s in ss && s.name in metrics
  {
    if ss != [] {
      var init := ss[..|ss| - 1];
      WantedIs(metrics, init, s);
      assert ss == init + [ss[|ss| - 1]];
    }
  }

  lemma CandidateNames(discount: nat -> real, expected: set<Id>, r: PipelineResult, faithfulness: real)
    ensures var cs := Candidates(discount, expected, r, faithfulness);
      && |cs| == 6 && (forall i :: 0 <= i < 6 ==> cs[i].name == i + 1)
      && (forall i :: 0 <= i < 6 && i != 3 && i != 4 ==> cs[i].passed.Some?)
      && (if expected == {} then cs[3] == Unjudged(RETRIEVAL_MRR) && cs[4] == Unjudged(RETRIEVAL_NDCG)
          else cs[3].passed.Some? && cs[4].passed.Some?)
  {
  }

  /** A case can be scored under a request: no rank metric is asked for, or it has expected evidence. */
  predicate Scorable(metrics: seq<Metric>, expected: set<Id>) {
    expected != {} || (RETRIEVAL_MRR !in metrics && RETRIEVAL_NDCG !in metrics)
  }

  ghost predicate Named(ss: seq<Score>, m: Metric) {
    exists s :: s in ss && s.name == m
  }

  /** Exactly the requested metrics are scored. */
  lemma {:induction false} ScoresNameTheRequest(discount: nat -> real, metrics: seq<Metric>, expected: set<Id>, r: PipelineResult,
                             faithfulness: real, m: Metric)
    ensures Named(CaseScores(discount, metrics, expected, r, faithfulness), m) <==> m in metrics && m in SUPPORTED
  {
    var cs := Candidates(discount, expected, r, faithfulness);
    CandidateNames(discount, expected, r, faithfulness);
    WantedNames(metrics, cs, m);
    if m in SUPPORTED {
      assert cs[m - 1] in cs && cs[m - 1].name == m;
    }
  }

  lemma WantedNames(metrics: seq<Metric>, ss: seq<Score>, m: Metric)
    ensures Named(Wanted(metrics, ss), m) <==> Named(ss, m) && m in metrics
  {
    forall s
      ensures s in Wanted(metrics, ss) <==> s in ss && s.name in metrics
    {
      WantedIs(metrics, ss, s);
    }
  }

  /** The scores of a case pass the table's check exactly when the case can be scored, and then all carry a verdict. */
  lemma {:induction false} StorableExactly(discount: nat -> real, metrics: seq<Metric>, expected: set<Id>, r: PipelineResult,
                        faithfulness: real)
    ensures var ss := CaseScores(discount, metrics, expected, r, faithfulness);
      && ((forall s :: s in ss ==> Storable(s)) <==> Scorable(metrics, expected))
      && (Scorable(metrics, expected) ==> forall s :: s in ss ==> s.passed.Some?)
  {
    var cs := Candidates(discount, expected, r, faithfulness);
    CandidateNames(discount, expected, r, faithfulness);
    StorableAmong(metrics, cs, expected == {});
  }

  lemma StorableAmong(metrics: seq<Metric>, cs: seq<Score>, unjudged: bool)
    requires |cs| == 6 && forall i :: 0 <= i < 6 ==> cs[i].name == i + 1
    requires forall i :: 0 <= i < 6 && i != 3 && i != 4 ==> cs[i].passed.Some?
    requires if unjudged then cs[3] == Unjudged(RETRIEVAL_MRR) && cs[4] == Unjudged(RETRIEVAL_NDCG)
             else cs[3].passed.Some? && cs[4].passed.Some?
    ensures (forall s :: s in Wanted(metrics, cs) ==> Storable(s))
       <==> !unjudged || (RETRIEVAL_MRR !in metrics && RETRIEVAL_NDCG !in metrics)
    ensures !unjudged || (RETRIEVAL_MRR !in metrics && RETRIEVAL_NDCG !in metrics) ==>
      forall s :: s in Wanted(metrics, cs) ==> s.passed.Some?
  {
    forall s
      ensures s in Wanted(metrics, cs) <==> s in cs && s.name in metrics
    {
      WantedIs(metrics, cs, s);
    }
    assert cs[3] in cs && cs[4] in cs;
    forall s | s in Wanted(metrics, cs)
      ensures s.passed.Some? || (unjudged && !Storable(s) && s.name in {RETRIEVAL_MRR, RETRIEVAL_NDCG})
    {
      var i :| 0 <= i < 6 && cs[i] == s;
    }
  }

  /** The MRR verdict is positive exactly when one of the first two retrieved chunks is expected. */
  lemma {:induction false} MrrPassesExactly(expected: set<Id>, r: PipelineResult)
    requires expected != {}
    ensures MrrScore(expected, r).passed == Some(true)
       <==> exists i :: 0 <= i < |r.retrieved| && i < 2 && r.retrieved[i] in expected
  {
    RankMetrics.HalfMeansFirstTwo(expected, r.retrieved);
  }

  lemma ShareIs(part: set<Id>, whole: set<Id>, otherwise: real)
    requires whole != {}
    ensures var v := Share(part, whole, otherwise);
      && 0.0 <= v <= 1.0 && v * (|whole| as real) == |part * whole| as real
      && (v == 1.0 <==> whole <= part)
  {
    var hits, all := |part * whole| as real, |whole| as real;
    SubsetCount(part * whole, whole);
    assert all > 0.0;
    QuotientIs(hits, all);
    if whole <= part {
      assert part * whole == whole;
    }
  }

  lemma QuotientIs(a: real, b: real)
    requires 0.0 <= a <= b && b > 0.0
    ensures 0.0 <= a / b <= 1.0 && a / b * b == a && (a / b == 1.0 <==> a == b)
  {
  }

  lemma SubsetCount(a: set<Id>, b: set<Id>)
    requires a <= b
    ensures |a| <= |b| && (|a| == |b| ==> a == b)
  {
    assert b == a + (b - a);
    assert |b| == |a| + |b - a|;
  }

  /**
   * Recall is the share of the expected chunks that were retrieved; it passes exactly when at
   * least four in five were, and always when nothing is expected.
   */
  lemma {:induction false} RecallPassesExactly(expected: set<Id>, r: PipelineResult)
    ensures RecallScore(expected, r).passed == Some(true)
       <==> 4 * |expected| <= 5 * |set x | x in r.retrieved && x in expected|
    ensures RecallScore(expected, r).value == Some(1.0) <==> forall x :: x in expected ==> x in r.retrieved
    ensures RecallScore(expected, r).value.Some? && RecallScore(expected, r).passed.Some?
    ensures expected != {} ==>
      RecallScore(expected, r).value.value * (|expected| as real) == |set x | x in r.retrieved && x in expected| as real
  {
    var hit := set x | x in r.retrieved && x in expected;
    assert IdSet(r.retrieved) * expected == hit;
    if expected == {} {
      assert hit == {};
    } else {
      ShareIs(IdSet(r.retrieved), expected, 1.0);
      AtLeastFourFifths(Share(IdSet(r.retrieved), expected, 1.0), |hit| as real, |expected| as real);
    }
  }

  lemma AtLeastFourFifths(v: real, hits: real, all: real)
    requires all > 0.0 && v * all == hits
    ensures v >= 0.8 <==> 4.0 * all <= 5.0 * hits
  {
    if v >= 0.8 {
      assert v * all >= 0.8 * all;
    } else {
      assert v * all < 0.8 * all;
    }
  }

  /**
   * Precision is the share of the cited chunks that were retrieved; it passes exactly when
   * something is cited and all of it was retrieved.
   */
  lemma {:induction false} PrecisionPassesExactly(r: PipelineResult)
    ensures PrecisionScore(r).passed == Some(true) <==> r.cited != [] && forall x :: x in r.cited ==> x in r.retrieved
    ensures PrecisionScore(r).value.Some? && PrecisionScore(r).passed.Some?
    ensures r.cited == [] ==> PrecisionScore(r).value == Some(0.0)
    ensures r.cited != [] ==>
      PrecisionScore(r).value.value * (|IdSet(r.cited)| as real) == |set x | x in r.cited && x in r.retrieved| as real
  {
    var cited := IdSet(r.cited);
    if r.cited != [] {
      assert r.cited[0] in cited;
      assert IdSet(r.retrieved) * cited == set x | x in r.cited && x in r.retrieved;
      ShareIs(IdSet(r.retrieved), cited, 0.0);
      assert cited <= IdSet(r.retrieved) <==> forall x :: x in r.cited ==> x in r.retrieved by {
        assert forall x :: x in cited <==> x in r.cited;
        assert forall x :: x in IdSet(r.retrieved) <==> x in r.retrieved;
      }
    } else {
      assert cited == {};
    }
  }

  /** An answer is well formed exactly when it shows something and cites something. */
  lemma {:induction false} SchemaPassesExactly(r: PipelineResult)
    ensures SchemaScore(r).passed == Some(true) <==> (exists c :: c in r.response && !SentenceSplit.IsSpace(c)) && r.cited != []
    ensures SchemaScore(r).passed.Some?
    ensures SchemaScore(r).value == Some(if SchemaScore(r).passed == Some(true) then 1.0 else 0.0)
  {
    TextLaws.StripNothing(r.response);
  }

  /** The verdicts on NDCG and faithfulness turn at 0.8. */
  lemma {:induction false} ThresholdsAre(discount: nat -> real, expected: set<Id>, r: PipelineResult, faithfulness: real)
    ensures expected != {} ==>
      && NdcgScore(discount, expected, r).value == Some(RankMetrics.Ndcg(discount, expected, r.retrieved))
      && (NdcgScore(discount, expected, r).passed == Some(true) <==> RankMetrics.Ndcg(discount, expected, r.retrieved) >= 0.8)
    ensures FaithfulnessScore(faithfulness).value == Some(faithfulness)
    ensures FaithfulnessScore(faithfulness).passed == Some(true) <==> faithfulness >= 0.8
  {
  }

  /** A request for a single metric picks that metric's score. */
  lemma {:induction false} WantedSingle(cs: seq<Score>, m: Metric)
    requires forall i :: 0 <= i < |cs| ==> cs[i].name == i + 1
    ensures Wanted([m], cs) == if 1 <= m <= |cs| then [cs[m - 1]] else []
  {
    if cs != [] {
      WantedSingle(cs[..|cs| - 1], m);
    }
  }

  lemma WantedStep(metrics: seq<Metric>, ss: seq<Score>, n: nat)
    requires n < |ss|
    ensures Wanted(metrics, ss[..n + 1]) == Wanted(metrics, ss[..n]) + (if ss[n].name in metrics then [ss[n]] else [])
  {
    assert ss[..n + 1][..n] == ss[..n];
  }

  /** `_execute_case` behind the pipeline: the scores are appended metric by metric, the judge's last. */
  method ScoreCase(discount: nat -> real, metrics: seq<Metric>, expected: set<Id>, r: PipelineResult, faithfulness: real)
    returns (scores: seq<Score>)
    ensures scores == CaseScores(discount, metrics, expected, r, faithfulness)
  {
    ghost var cs := Candidates(discount, expected, r, faithfulness);
    CandidateNames(discount, expected, r, faithfulness);
    scores := DeterministicScores(discount, metrics, expected, r, faithfulness);
    WantedStep(metrics, cs, 5);
    if FAITHFULNESS in metrics {
      scores := scores + [FaithfulnessScore(faithfulness)];
    }
    assert cs[..6] == cs;
  }

  method RankScore(expected: set<Id>, r: PipelineResult) returns (score: Score)
    ensures score == MrrScore(expected, r)
  {
    if expected == {} {
      return Unjudged(RETRIEVAL_MRR);
    }
    var value, rank := RankMetrics.ReciprocalRank(expected, r.retrieved);
    return Judged(RETRIEVAL_MRR, DETERMINISTIC, value, value >= 0.5);
  }

  method DeterministicScores(discount: nat -> real, metrics: seq<Metric>, expected: set<Id>, r: PipelineResult,
                             ghost faithfulness: real)
    returns (scores: seq<Score>)
    ensures scores == Wanted(metrics, Candidates(discount, expected, r, faithfulness)[..5])
  {
    ghost var cs := Candidates(discount, expected, r, faithfulness);
    CandidateNames(discount, expected, r, faithfulness);
    forall n | 0 <= n < 5
      ensures Wanted(metrics, cs[..n + 1]) == Wanted(metrics, cs[..n]) + (if cs[n].name in metrics then [cs[n]] else [])
    {
      WantedStep(metrics, cs, n);
    }
    scores := [];
    assert scores == Wanted(metrics, cs[..0]);
    if SCHEMA_VALID in metrics {
      scores := scores + [SchemaScore(r)];
    }
    assert scores == Wanted(metrics, cs[..1]);
    if CITATION_PRECISION in metrics {
      scores := scores + [PrecisionScore(r)];
    }
    assert scores == Wanted(metrics, cs[..2]);
    if EVIDENCE_RECALL in metrics {
      scores := scores + [RecallScore(expected, r)];
    }
    assert scores == Wanted(metrics, cs[..3]);
    if RETRIEVAL_MRR in metrics {
      var score := RankScore(expected, r);
      scores := scores + [score];
    }
    assert scores == Wanted(metrics, cs[..4]);
    if RETRIEVAL_NDCG in metrics {
      scores := scores + [NdcgScore(discount, expected, r)];
    }
  }
}
