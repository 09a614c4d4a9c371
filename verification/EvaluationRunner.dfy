/** The runner's own loops (evaluation_runner.py:55-124), against the store. */
module EvaluationRunner {
  import opened CaseScoring
  import opened Common
  import opened EvaluationStore
  import opened EvaluationRuns
  import SentenceSplit

  datatype Verdict = NotClaimed | Ended(status: Status) | Retry | Error(code: string)

  /** What the model says about the store after the steps taken so far. */
  ghost predicate Mirrors(p: Policy, s0: Sys, steps: seq<Step>, t: Sys, run: Run, scores: Scores, now: int) {
    t == Steps(p, s0, steps) && t.run == run && t.scores == scores && t.now == now
  }

  /** The delivery of `w` in the model has the runner's local variables. */
  ghost predicate Locals(t: Sys, w: Id, pending: seq<Id>, futures: set<Id>, retryable: nat, failures: nat) {
    w in t.deliveries && t.deliveries[w] == Delivery(Active, pending, None, futures, retryable, failures)
  }

  ghost function Extend(p: Policy, t: Sys, a: Step, b: Step): Sys {
    Apply(p, Apply(p, t, a), b)
  }

  lemma ExtendMirrors(p: Policy, s0: Sys, steps: seq<Step>, a: Step, b: Step)
    ensures Steps(p, s0, steps + [a] + [b]) == Extend(p, Steps(p, s0, steps), a, b)
  {
    StepsAppend(p, s0, steps, a);
    StepsAppend(p, s0, steps + [a], b);
  }

  /** The submission loop: reserve and submit, or record an exhausted budget. */
  method SubmitCases(store: SqlEvaluationStore, w: Id, pending: seq<Id>, start: int, ticks: nat -> nat,
                     ghost s0: Sys, ghost before: seq<Step>)
    returns (futures: set<Id>, failures: nat, now: int, lost: bool, ghost steps: seq<Step>)
    requires Mirrors(store.policy, s0, before, Steps(store.policy, s0, before), store.run, store.scores, start)
    requires Locals(Steps(store.policy, s0, before), w, pending, {}, 0, 0)
    modifies store
    ensures var t := Steps(store.policy, s0, steps);
      && Mirrors(store.policy, s0, steps, t, store.run, store.scores, now)
      && (!lost ==> Locals(t, w, [], futures, 0, failures))
  {
    futures, failures, now, lost, steps := {}, 0, start, false, before;
    ghost var t := Steps(store.policy, s0, before);
    var i := 0;
    while i < |pending|
      invariant i <= |pending| && Mirrors(store.policy, s0, steps, t, store.run, store.scores, now)
      invariant Locals(t, w, pending[i..], futures, 0, failures)
    {
      var c := pending[i];
      assert pending[i..][0] == c && pending[i..][1..] == pending[i + 1..];
      ghost var tick := Tick(ticks(i));
      ExtendMirrors(store.policy, s0, steps, tick, Reserve(w));
      now := now + ticks(i);
      steps := steps + [tick] + [Reserve(w)];
      t := Extend(store.policy, t, tick, Reserve(w));
      var granted := store.ReserveCaseBudget(w, now);
      if granted {
        StepsAppend(store.policy, s0, steps, Submit(w));
        steps := steps + [Submit(w)];
        t := Apply(store.policy, t, Submit(w));
        futures := futures + {c};
      } else {
        var saved := store.SaveScores(c, NOT_EXECUTED, w, now);
        if saved.Failure? {
          lost := true;
          return;
        }
        failures := failures + 1;
      }
      i := i + 1;
    }
  }

  /** `QdrantCaseExecutor.execute` and the judge behind it: the executor's checks in their order. */
  method ExecuteCase(p: Policy, r: Run, c: Id, answer: Outcome) returns (outcome: Outcome)
    ensures outcome == Execution(p, r, c, answer)
  {
    if c !in p.questions || SentenceSplit.Strip(p.questions[c]) == "" {
      return Raised(false);
    }
    if r.pipeline.None? || r.pipeline.value.model != p.model {
      return Raised(false);
    }
    if r.pipeline.value.prompt != PROMPT {
      return Raised(false);
    }
    if answer.Ran? && answer.result.retrieved == [] {
      return Raised(false);
    }
    return answer;
  }

  /** The scores of an executed case, or the row of one that could not be executed. */
  method OutcomeScores(p: Policy, metrics: seq<Metric>, c: Id, outcome: Outcome) returns (scores: seq<Score>)
    ensures scores == ScoresOf(p, metrics, c, outcome)
  {
    if outcome.Ran? {
      scores := ScoreCase(p.discount, metrics, p.Expected(c), outcome.result, outcome.faithfulness);
    } else {
      scores := NOT_EXECUTED;
    }
  }

  /** The collection loop, in the order the futures complete. */
  method CollectResults(store: SqlEvaluationStore, w: Id, submitted: set<Id>, failures0: nat, start: int,
                        ticks: nat -> nat, outcome: Id -> Outcome, ghost s0: Sys, ghost before: seq<Step>)
    returns (retryable: nat, failures: nat, now: int, lost: bool, ghost steps: seq<Step>)
    requires Mirrors(store.policy, s0, before, Steps(store.policy, s0, before), store.run, store.scores, start)
    requires Locals(Steps(store.policy, s0, before), w, [], submitted, 0, failures0)
    modifies store
    ensures var t := Steps(store.policy, s0, steps);
      && Mirrors(store.policy, s0, steps, t, store.run, store.scores, now)
      && (!lost ==> Locals(t, w, [], {}, retryable, failures))
  {
    retryable, failures, now, lost, steps := 0, failures0, start, false, before;
    var futures, i := submitted, 0;
    ghost var t := Steps(store.policy, s0, before);
    while futures != {}
      invariant Mirrors(store.policy, s0, steps, t, store.run, store.scores, now)
      invariant Locals(t, w, [], futures, retryable, failures)
      decreases |futures|
    {
      var c :| c in futures;
      var result := ExecuteCase(store.policy, store.run, c, outcome(c));
      ghost var tick := Tick(ticks(i));
      ExtendMirrors(store.policy, s0, steps, tick, Finish(w, c, outcome(c)));
      now := now + ticks(i);
      steps := steps + [tick] + [Finish(w, c, outcome(c))];
      t := Extend(store.policy, t, tick, Finish(w, c, outcome(c)));
      if result == Raised(true) {
        retryable := retryable + 1;
      } else if result == Raised(false) {
        failures := failures + 1;
      }
      var scores := OutcomeScores(store.policy, store.run.metrics, c, result);
      var saved := store.SaveScores(c, scores, w, now);
      if saved.Failure? {
        lost := true;
        return;
      }
      futures := futures - {c};
      i := i + 1;
    }
  }

  /** One delivery from claim to verdict; every transaction it makes is a step of the model. */
  method RunEvaluation(store: SqlEvaluationStore, w: Id, start: int, ticks: nat -> nat, outcome: Id -> Outcome, ghost s0: Sys)
    returns (verdict: Verdict, now: int, ghost steps: seq<Step>)
    requires s0.run == store.run && s0.scores == store.scores && s0.now == start && w !in s0.deliveries
    modifies store
    ensures Mirrors(store.policy, s0, steps, Steps(store.policy, s0, steps), store.run, store.scores, now)
    ensures verdict.Ended? ==> store.run.status == verdict.status && store.run.owner == None
    ensures verdict == Retry ==> store.run.attempts < store.policy.maxAttempts
  {
    now, steps := start, [];
    StepsAppend(store.policy, s0, [], Claim(w));
    var claimed := store.Claim(w, now);
    steps := [] + [Claim(w)];
    if claimed.Failure? {
      StepsAppend(store.policy, s0, steps, Reject(w));
      store.TerminalFailure(w);
      steps := steps + [Reject(w)];
      return Error(claimed.code), now, steps;
    }
    if !claimed.value {
      return NotClaimed, now, steps;
    }
    StepsAppend(store.policy, s0, steps, Load(w));
    steps := steps + [Load(w)];
    if store.policy.cases == [] {
      store.TerminalFailure(w);
      return Ended(Failed), now, steps;
    }
    var pending := Incomplete(store.policy.cases, store.scores, store.run.metrics);
    var futures, failures, time, lost, more := SubmitCases(store, w, pending, now, ticks, s0, steps);
    now, steps := time, more;
    if lost {
      return Error("EVALUATION_LEASE_LOST"), now, steps;
    }
    var retryable, failed, time', lost', more' := CollectResults(store, w, futures, failures, now, ticks, outcome, s0, steps);
    now, steps := time', more';
    if lost' {
      return Error("SAVE_FAILED"), now, steps;
    }
    StepsAppend(store.policy, s0, steps, Conclude(w));
    steps := steps + [Conclude(w)];
    if retryable > 0 && store.run.attempts < store.policy.maxAttempts {
      store.ReleaseForRetry(w);
      return Retry, now, steps;
    }
    var status := store.Complete(w, failed + retryable, now);
    verdict := if status.Success? then Ended(status.value) else Error(status.code);
  }
}
