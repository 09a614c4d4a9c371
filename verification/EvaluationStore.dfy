/** Rows and transactions of one evaluation run (evaluation_persistence.py). */
module EvaluationStore {
  import opened Common
  import SentenceSplit

  type Metric = nat

  /** The row name the runner uses for a case that could not be executed; no request may ask for it. */
  const CASE_EXECUTION: Metric := 0
  const SCHEMA_VALID: Metric := 1
  const CITATION_PRECISION: Metric := 2
  const EVIDENCE_RECALL: Metric := 3
  const RETRIEVAL_MRR: Metric := 4
  const RETRIEVAL_NDCG: Metric := 5
  const FAITHFULNESS: Metric := 6
  const SUPPORTED: set<Metric> :=
    {SCHEMA_VALID, CITATION_PRECISION, EVIDENCE_RECALL, RETRIEVAL_MRR, RETRIEVAL_NDCG, FAITHFULNESS}

  datatype Status = Pending | Running | Succeeded | Failed

  /** What the executor reads of a pipeline's configuration. */
  datatype Pipeline = Pipeline(model: string, prompt: string)

  const PROMPT := "grounded-answer-v1"

  /** The run row; `owner` and `expires` are its lease, `pipeline` its configuration when that is valid. */
  datatype Run = Run(status: Status, attempts: nat, owner: Option<Id>, expires: int,
                     reserved: real, limit: Option<real>, accepted: bool, project: bool, metrics: seq<Metric>,
                     pipeline: Option<Pipeline>)

  /** A score as a scorer returns it: value and verdict may both be missing. */
  datatype Score = Score(name: Metric, version: nat, value: Option<real>, passed: Option<bool>)

  datatype Key = Key(case_id: Id, name: Metric, version: nat)

  datatype Stored = Stored(value: Option<real>, passed: Option<bool>)

  type Scores = map<Key, Stored>

  /**
   * Settings, the frozen dataset with the evidence each case expects and the questions its
   * inputs hold, the model the worker is configured for, and the rank discount.
   */
  datatype Policy = Policy(maxAttempts: nat, lease: nat, amount: real, cases: seq<Id>,
                           evidence: map<Id, set<Id>>, questions: map<Id, string>, model: string,
                           discount: nat -> real) {
    function Expected(c: Id): set<Id> {
      if c in evidence then evidence[c] else {}
    }
  }

  predicate Holds(r: Run, w: Id, now: int) {
    r.status == Running && r.owner == Some(w) && r.expires > now
  }

  predicate CanClaim(p: Policy, r: Run, now: int) {
    && r.accepted && (r.status == Pending || (r.status == Running && r.expires < now))
    && r.attempts < p.maxAttempts
  }

  function Claimed(p: Policy, r: Run, w: Id, now: int): Run {
    r.(status := Running, attempts := r.attempts + 1, owner := Some(w), expires := now + p.lease)
  }

  /** The checks `_claim` makes after its transaction. */
  predicate Supported(r: Run) {
    r.project && r.metrics != [] && forall m :: m in r.metrics ==> m in SUPPORTED
  }

  /** What the executor asks of a case and the pipeline before it retrieves anything. */
  predicate Executable(p: Policy, r: Run, c: Id) {
    && c in p.questions && SentenceSplit.Strip(p.questions[c]) != ""
    && r.pipeline.Some? && r.pipeline.value.model == p.model && r.pipeline.value.prompt == PROMPT
  }

  // ---- completed cases ----

  function NamesJudged(scores: Scores, metrics: seq<Metric>, c: Id): set<Metric> {
    set k | k in scores && k.case_id == c && k.name in metrics :: k.name
  }

  /** `count(distinct metric_name) = len(metrics) and bool_and(passed is not null)` */
  predicate Completed(scores: Scores, metrics: seq<Metric>, c: Id) {
    && |NamesJudged(scores, metrics, c)| == |metrics|
    && forall k :: k in scores && k.case_id == c && k.name in metrics ==> scores[k].passed.Some?
  }

  /** Every requested metric of the case has a score and none of them is open. */
  ghost predicate EveryMetricJudged(scores: Scores, metrics: seq<Metric>, c: Id) {
    && (forall m :: m in metrics ==> m in NamesJudged(scores, metrics, c))
    && forall k :: k in scores && k.case_id == c && k.name in metrics ==> scores[k].passed.Some?
  }

  function SetOf(metrics: seq<Metric>): set<Metric> {
    set m | m in metrics
  }

  lemma {:induction false} DistinctSize(metrics: seq<Metric>)
    ensures |SetOf(metrics)| <= |metrics|
    ensures |SetOf(metrics)| == |metrics| <==> Distinct(metrics)
  {
    if metrics != [] {
      var init, last := metrics[..|metrics| - 1], metrics[|metrics| - 1];
      DistinctSize(init);
      assert metrics == init + [last];
      assert SetOf(metrics) == SetOf(init) + {last};
      if last in init {
        var i :| 0 <= i < |init| && init[i] == last;
        assert metrics[i] == metrics[|metrics| - 1];
        assert SetOf(metrics) == SetOf(init);
      }
    }
  }

  lemma SubsetSize(a: set<Metric>, b: set<Metric>)
    requires a <= b
    ensures |a| <= |b| && (|a| == |b| ==> a == b)
  {
    assert b == a + (b - a);
    assert |b| == |a| + |b - a|;
  }

  /** The query recognises a fully judged case exactly when the request names no metric twice. */
  lemma CompletedExactly(scores: Scores, metrics: seq<Metric>, c: Id)
    ensures Completed(scores, metrics, c) <==> EveryMetricJudged(scores, metrics, c) && Distinct(metrics)
  {
    DistinctSize(metrics);
    SubsetSize(NamesJudged(scores, metrics, c), SetOf(metrics));
    if EveryMetricJudged(scores, metrics, c) {
      assert NamesJudged(scores, metrics, c) == SetOf(metrics);
    }
    if Completed(scores, metrics, c) {
      assert NamesJudged(scores, metrics, c) == SetOf(metrics);
      forall m | m in metrics
        ensures m in NamesJudged(scores, metrics, c)
      {
        assert m in SetOf(metrics);
      }
    }
  }

  function Incomplete(cases: seq<Id>, scores: Scores, metrics: seq<Metric>): (r: seq<Id>)
    ensures forall c :: c in r <==> c in cases && !Completed(scores, metrics, c)
    ensures Distinct(cases) ==> Distinct(r)
  {
    if cases == [] then []
    else
      var init := Incomplete(cases[..|cases| - 1], scores, metrics);
      var last := cases[|cases| - 1];
      assert cases == cases[..|cases| - 1] + [last];
      if Completed(scores, metrics, last) then init else init + [last]
  }

  // ---- budget ----

  predicate CanReserve(p: Policy, r: Run, w: Id, now: int) {
    Holds(r, w, now) && (r.limit.None? || r.reserved + p.amount <= r.limit.value)
  }

  function Reserved(p: Policy, r: Run): Run {
    r.(reserved := r.reserved + p.amount)
  }

  // ---- scores ----

  /** The table's check: a score row needs a value or a verdict. */
  predicate Storable(s: Score) {
    s.value.Some? || s.passed.Some?
  }

  function Upsert(scores: Scores, c: Id, s: Score): Scores {
    scores[Key(c, s.name, s.version) := Stored(s.value, s.passed)]
  }

  function UpsertAll(scores: Scores, c: Id, ss: seq<Score>): Scores {
    if ss == [] then scores else Upsert(UpsertAll(scores, c, ss[..|ss| - 1]), c, ss[|ss| - 1])
  }

  predicate Executed(ss: seq<Score>) {
    forall s :: s in ss ==> s.name != CASE_EXECUTION
  }

  function DropExecution(scores: Scores, c: Id): Scores {
    map k | k in scores && !(k.case_id == c && k.name == CASE_EXECUTION) :: scores[k]
  }

  function Saved(scores: Scores, c: Id, ss: seq<Score>): Scores {
    UpsertAll(if Executed(ss) then DropExecution(scores, c) else scores, c, ss)
  }

  /** The transaction goes through when the lease is held and every row passes the table's check. */
  predicate CanSave(r: Run, w: Id, now: int, ss: seq<Score>) {
    Holds(r, w, now) && forall s :: s in ss ==> Storable(s)
  }

  // ---- ends of a delivery ----

  function Finished(r: Run, status: Status): Run {
    r.(status := status, owner := None)
  }

  function Released(r: Run, w: Id): Run {
    if r.status == Running && r.owner == Some(w) then Finished(r, Pending) else r
  }

  function TerminallyFailed(r: Run, w: Id): Run {
    if r.status == Running && r.owner == Some(w) then Finished(r, Failed) else r
  }

  function CompletedRun(r: Run, w: Id, now: int, failures: nat): Run {
    if Holds(r, w, now) then Finished(r, if failures > 0 then Failed else Succeeded) else r
  }

  /** `_mark_evaluation_run_failed`: no lease is asked for. */
  function ForceFailed(r: Run): Run {
    if r.status == Pending || r.status == Running then Finished(r, Failed) else r
  }

  class SqlEvaluationStore {
    const policy: Policy
    var run: Run
    var scores: Scores

    constructor (p: Policy, r: Run, s: Scores)
      ensures policy == p && run == r && scores == s
    {
      policy, run, scores := p, r, s;
    }

    method Claim(w: Id, now: int) returns (claimed: Result<bool>)
      modifies this`run
      ensures run == if CanClaim(policy, old(run), now) then Claimed(policy, old(run), w, now) else old(run)
      ensures claimed == if !CanClaim(policy, old(run), now) then Success(false)
                         else if Supported(run) then Success(true)
                         else if !run.project then Failure("EVALUATION_PROJECT_REQUIRED")
                         else Failure("METRIC_UNSUPPORTED")
    {
      if !CanClaim(policy, run, now) {
        return Success(false);
      }
      run := Claimed(policy, run, w, now);
      if !run.project {
        return Failure("EVALUATION_PROJECT_REQUIRED");
      }
      if run.metrics == [] || exists m :: m in run.metrics && m !in SUPPORTED {
        return Failure("METRIC_UNSUPPORTED");
      }
      return Success(true);
    }

    method CompletedCaseIds() returns (completed: set<Id>)
      ensures completed == set c | c in policy.cases && Completed(scores, run.metrics, c)
    {
      completed := {};
      for i := 0 to |policy.cases|
        invariant completed == set c | c in policy.cases[..i] && Completed(scores, run.metrics, c)
      {
        assert policy.cases[..i + 1] == policy.cases[..i] + [policy.cases[i]];
        if Completed(scores, run.metrics, policy.cases[i]) {
          completed := completed + {policy.cases[i]};
        }
      }
      assert policy.cases[..|policy.cases|] == policy.cases;
    }

    /** A grant adds the case's amount within the cap; a refusal means no lease or no budget, and changes nothing. */
    method ReserveCaseBudget(w: Id, now: int) returns (granted: bool)
      modifies this`run
      ensures run == old(run).(reserved := run.reserved)
      ensures granted ==> Holds(run, w, now) && run.reserved == old(run).reserved + policy.amount
                          && (run.limit.Some? ==> run.reserved <= run.limit.value)
      ensures !granted ==> run == old(run)
                           && (!Holds(run, w, now) || (run.limit.Some? && run.reserved + policy.amount > run.limit.value))
    {
      granted := CanReserve(policy, run, w, now);
      if granted {
        run := run.(reserved := run.reserved + policy.amount);
      }
    }

    method SaveScores(c: Id, ss: seq<Score>, w: Id, now: int) returns (outcome: Result<()>)
      modifies this`scores
      ensures outcome.Success? == CanSave(run, w, now, ss)
      ensures scores == if outcome.Success? then Saved(old(scores), c, ss) else old(scores)
    {
      if !Holds(run, w, now) {
        return Failure("EVALUATION_LEASE_LOST");
      }
      var written := scores;
      if Executed(ss) {
        written := DropExecution(written, c);
      }
      ghost var start := written;
      for i := 0 to |ss|
        invariant written == UpsertAll(start, c, ss[..i])
        invariant scores == old(scores) && forall k :: 0 <= k < i ==> Storable(ss[k])
      {
        assert ss[..i + 1][..i] == ss[..i];
        if !Storable(ss[i]) {
          assert ss[i] in ss;
          return Failure("CHECK_VIOLATION");
        }
        written := Upsert(written, c, ss[i]);
      }
      assert ss[..|ss|] == ss;
      scores := written;
      return Success(());
    }

    method Complete(w: Id, failures: nat, now: int) returns (status: Result<Status>)
      modifies this`run
      ensures run == CompletedRun(old(run), w, now, failures)
      ensures status == if Holds(old(run), w, now) then Success(run.status) else Failure("EVALUATION_LEASE_LOST")
    {
      if !Holds(run, w, now) {
        return Failure("EVALUATION_LEASE_LOST");
      }
      run := run.(status := if failures > 0 then Failed else Succeeded, owner := None);
      return Success(run.status);
    }

    method ReleaseForRetry(w: Id)
      modifies this`run
      ensures run == Released(old(run), w)
    {
      if run.status == Running && run.owner == Some(w) {
        run := run.(status := Pending, owner := None);
      }
    }

    method TerminalFailure(w: Id)
      modifies this`run
      ensures run == TerminallyFailed(old(run), w)
    {
      if run.status == Running && run.owner == Some(w) {
        run := run.(status := Failed, owner := None);
      }
    }
  }
}
