/** Which evaluation runs can succeed: a run that executes every case, built for any dataset. */
module EvaluationReach {
  import opened CaseScoring
  import opened Common
  import opened EvaluationOutcome
  import opened EvaluationRuns
  import opened EvaluationStore
  import SentenceSplit
  import TextLaws

  /** The one delivery of the run, and what its pipeline returns. */
  const WORKER: Id := 0
  const PLAIN := Ran(PipelineResult("an answer", [1], [1]), 0.0)

  /** The run may be started, its lease lasts, and its budget covers every case. */
  ghost predicate Startable(p: Policy, s: Sys) {
    && Created(p, s) && Supported(s.run) && s.run.accepted && p.cases != [] && p.maxAttempts >= 1 && p.lease >= 1
    && (s.run.limit.Some? ==> Spent(p.amount, |p.cases|) <= s.run.limit.value)
  }

  /** The case has a question, the pipeline the configured model and prompt, and no rank metric lacks expected evidence. */
  ghost predicate CanBeJudged(p: Policy, r: Run, c: Id) {
    && c in p.questions && (exists ch :: ch in p.questions[c] && !SentenceSplit.IsSpace(ch))
    && r.pipeline == Some(Pipeline(p.model, "grounded-answer-v1"))
    && (RETRIEVAL_MRR in r.metrics || RETRIEVAL_NDCG in r.metrics ==> c in p.evidence && p.evidence[c] != {})
  }

  lemma FeasibleIs(p: Policy, r: Run, c: Id)
    ensures Feasible(p, r, c) <==> CanBeJudged(p, r, c)
  {
    if c in p.questions {
      TextLaws.StripNothing(p.questions[c]);
    }
  }

  ghost predicate AllFeasible(p: Policy, s: Sys) {
    forall c :: c in p.cases ==> CanBeJudged(p, s.run, c)
  }

  /** Some continuation ends the run succeeded. */
  ghost predicate CanSucceed(p: Policy, s: Sys) {
    exists steps :: Steps(p, s, steps).run.status == Succeeded
  }

  lemma {:induction false} SpentGrows(amount: real, m: nat, n: nat)
    requires amount > 0.0 && m <= n
    ensures Spent(amount, m) <= Spent(amount, n)
  {
    if m < n {
      SpentGrows(amount, m, n - 1);
    }
  }

  ghost predicate SameRequest(a: Run, b: Run) {
    a.metrics == b.metrics && a.pipeline == b.pipeline
  }

  /** The delivery has submitted the first `k` cases. */
  ghost predicate Submitted(p: Policy, s: Sys, t: Sys, k: nat)
    requires k <= |p.cases|
  {
    && Holds(t.run, WORKER, t.now) && SameRequest(s.run, t.run) && t.run.limit == s.run.limit
    && t.run.reserved == Spent(p.amount, k)
    && WORKER in t.deliveries
    && t.deliveries[WORKER] == Delivery(Active, p.cases[k..], None, IdSet(p.cases[..k]), 0, 0)
  }

  lemma NothingJudgedYet(metrics: seq<Metric>, c: Id)
    requires metrics != []
    ensures !Completed(map[], metrics, c)
  {
    var none: Scores := map[];
    assert NamesJudged(none, metrics, c) == {};
  }

  lemma {:induction false} AllIncomplete(cases: seq<Id>, metrics: seq<Metric>)
    requires metrics != []
    ensures Incomplete(cases, map[], metrics) == cases
  {
    if cases != [] {
      var init, last := cases[..|cases| - 1], cases[|cases| - 1];
      AllIncomplete(init, metrics);
      assert !Completed(map[], metrics, last) by {
        NothingJudgedYet(metrics, last);
      }
      assert cases == init + [last];
    }
  }

  lemma TwoSteps(p: Policy, s: Sys, before: seq<Step>, a: Step, b: Step) returns (steps: seq<Step>)
    ensures Steps(p, s, steps) == Apply(p, Apply(p, Steps(p, s, before), a), b)
  {
    StepsAppend(p, s, before, a);
    StepsAppend(p, s, before + [a], b);
    steps := before + [a] + [b];
  }

  lemma ClaimedAndLoaded(p: Policy, s: Sys)
    requires Startable(p, s)
    ensures Submitted(p, s, DoLoad(p, DoClaim(p, s, WORKER), WORKER), 0)
  {
    AllIncomplete(p.cases, s.run.metrics);
    assert p.cases[0..] == p.cases && IdSet(p.cases[..0]) == {};
  }

  lemma SubmitNext(p: Policy, s: Sys, t: Sys, k: nat)
    requires Startable(p, s) && k < |p.cases| && Submitted(p, s, t, k)
    ensures Submitted(p, s, Apply(p, Apply(p, t, Reserve(WORKER)), Submit(WORKER)), k + 1)
  {
    SpentGrows(p.amount, k + 1, |p.cases|);
    assert p.cases[k..][0] == p.cases[k] && p.cases[k..][1..] == p.cases[k + 1..];
    assert p.cases[..k + 1] == p.cases[..k] + [p.cases[k]];
    assert IdSet(p.cases[..k + 1]) == IdSet(p.cases[..k]) + {p.cases[k]};
  }

  lemma {:induction false} AllSubmitted(p: Policy, s: Sys, k: nat) returns (steps: seq<Step>)
    requires Startable(p, s) && k <= |p.cases|
    ensures Submitted(p, s, Steps(p, s, steps), k)
  {
    if k == 0 {
      steps := TwoSteps(p, s, [], Claim(WORKER), Load(WORKER));
      ClaimedAndLoaded(p, s);
    } else {
      var init := AllSubmitted(p, s, k - 1);
      steps := TwoSteps(p, s, init, Reserve(WORKER), Submit(WORKER));
      SubmitNext(p, s, Steps(p, s, init), k - 1);
    }
  }

  /** Every case is submitted and the futures left are `futures`. */
  ghost predicate Collecting(s: Sys, t: Sys, futures: set<Id>) {
    && Holds(t.run, WORKER, t.now) && SameRequest(s.run, t.run)
    && WORKER in t.deliveries && t.deliveries[WORKER] == Delivery(Active, [], None, futures, 0, 0)
  }

  /** An answer that lets the case finish: the pipeline ran and retrieved something. */
  ghost predicate Answers(o: Outcome) {
    o.Ran? && o.result.retrieved != []
  }

  lemma FinishOne(p: Policy, s: Sys, t: Sys, futures: set<Id>, c: Id, o: Outcome)
    requires Collecting(s, t, futures) && c in futures && Feasible(p, s.run, c) && o.Ran?
    ensures Collecting(s, DoFinish(p, t, WORKER, c, o), futures - {c})
  {
    SavableExactly(p, t.run, WORKER, t.now, c, o);
  }

  lemma CollectOne(p: Policy, s: Sys, t: Sys, futures: set<Id>, c: Id, o: Outcome)
    requires Collecting(s, t, futures) && c in futures && Feasible(p, s.run, c) && Answers(o)
    ensures Collecting(s, Apply(p, t, Finish(WORKER, c, o)), futures - {c})
  {
    assert Executable(p, t.run, c);
    assert Execution(p, t.run, c, o) == o;
    FinishOne(p, s, t, futures, c, o);
  }

  lemma {:induction false} AllCollected(p: Policy, s: Sys, steps: seq<Step>, futures: set<Id>, o: Outcome) returns (more: seq<Step>)
    requires Collecting(s, Steps(p, s, steps), futures) && Answers(o)
    requires forall c :: c in futures ==> Feasible(p, s.run, c)
    ensures Collecting(s, Steps(p, s, more), {})
    decreases |futures|
  {
    if futures == {} {
      more := steps;
    } else {
      var c :| c in futures;
      StepsAppend(p, s, steps, Finish(WORKER, c, o));
      CollectOne(p, s, Steps(p, s, steps), futures, c, o);
      more := AllCollected(p, s, steps + [Finish(WORKER, c, o)], futures - {c}, o);
    }
  }

  /**
   * A run that may be started and can pay for its cases can succeed if and only if every case
   * of its dataset can be scored (no rank metric is requested, or the case has expected
   * evidence) and executed (it has a question, and the pipeline is the configured one).
   */
  lemma CanSucceedExactly(p: Policy, s: Sys)
    requires Startable(p, s)
    ensures CanSucceed(p, s) <==> AllFeasible(p, s)
  {
    forall c
      ensures Feasible(p, s.run, c) <==> CanBeJudged(p, s.run, c)
    {
      FeasibleIs(p, s.run, c);
    }
    if AllFeasible(p, s) {
      var n := |p.cases|;
      var steps := AllSubmitted(p, s, n);
      assert p.cases[n..] == [] && p.cases[..n] == p.cases;
      assert PLAIN.result.retrieved[0] == 1;
      var more := AllCollected(p, s, steps, IdSet(p.cases), PLAIN);
      StepsAppend(p, s, more, Conclude(WORKER));
      assert Steps(p, s, more + [Conclude(WORKER)]).run.status == Succeeded;
    } else {
      var c :| c in p.cases && !Feasible(p, s.run, c);
      forall steps
        ensures Steps(p, s, steps).run.status != Succeeded
      {
        InfeasibleCaseNeverSucceeds(p, s, steps, c);
      }
    }
  }
}
