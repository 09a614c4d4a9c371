/** What a succeeded evaluation run means, and which runs can succeed at all. */
module EvaluationOutcome {
  import opened CaseScoring
  import opened Common
  import opened EvaluationRuns
  import opened EvaluationStore

  /** No failed execution is recorded for the case. */
  ghost predicate Clean(scores: Scores, c: Id) {
    forall k :: k in scores && k.case_id == c ==> k.name != CASE_EXECUTION
  }

  /** Every requested metric of the case is judged, and no execution of it is recorded as failed. */
  ghost predicate Settled(scores: Scores, metrics: seq<Metric>, c: Id) {
    EveryMetricJudged(scores, metrics, c) && Clean(scores, c)
  }

  ghost predicate AllSettled(p: Policy, r: Run, scores: Scores) {
    forall c :: c in p.cases ==> Settled(scores, r.metrics, c)
  }

  /** While a delivery has recorded no failure, every case is settled or still in its hands. */
  ghost predicate Accounted(p: Policy, s: Sys, d: Delivery) {
    d.stage == Active && d.failures == 0 && d.retryable == 0 ==>
      forall c :: c in p.cases ==> InHand(d, c) || Settled(s.scores, s.run.metrics, c)
  }

  /** A case that can be executed and scored under the request. */
  predicate Feasible(p: Policy, r: Run, c: Id) {
    Executable(p, r, c) && Scorable(r.metrics, p.Expected(c))
  }

  /** Rows carry a verdict, and a metric row belongs to a feasible case. */
  ghost predicate RowOfCase(p: Policy, r: Run, scores: Scores, k: Key)
    requires k in scores
  {
    scores[k].passed.Some? && (k.name != CASE_EXECUTION ==> Feasible(p, r, k.case_id))
  }

  ghost predicate TableOk(p: Policy, r: Run, scores: Scores) {
    && (forall k :: k in scores ==> RowOfCase(p, r, scores, k))
    && (forall c :: Completed(scores, r.metrics, c) ==> Clean(scores, c))
  }

  ghost predicate OutcomeOk(p: Policy, s: Sys) {
    && Supported(s.run)
    && TableOk(p, s.run, s.scores)
    && (s.run.owner.Some? ==> s.run.owner.value in s.deliveries && Accounted(p, s, s.deliveries[s.run.owner.value]))
    && (s.run.status == Succeeded ==> AllSettled(p, s.run, s.scores))
  }

  // ---- what a save does to the rows ----

  lemma {:induction false} UpsertOtherKey(scores: Scores, c: Id, ss: seq<Score>, k: Key)
    requires k.case_id != c
    ensures var t := UpsertAll(scores, c, ss); (k in t <==> k in scores) && (k in t ==> t[k] == scores[k])
  {
    if ss != [] {
      UpsertOtherKey(scores, c, ss[..|ss| - 1], k);
    }
  }

  /** Saving a case leaves the rows of every other case alone. */
  lemma SavedOtherRows(scores: Scores, c: Id, ss: seq<Score>, metrics: seq<Metric>, other: Id)
    requires other != c
    ensures var t := Saved(scores, c, ss);
      && (forall k: Key :: k.case_id == other ==> (k in t <==> k in scores) && (k in t ==> t[k] == scores[k]))
      && (Completed(t, metrics, other) <==> Completed(scores, metrics, other))
      && (Settled(scores, metrics, other) ==> Settled(t, metrics, other))
  {
    var t := Saved(scores, c, ss);
    forall k: Key | k.case_id == other
      ensures (k in t <==> k in scores) && (k in t ==> t[k] == scores[k])
    {
      UpsertOtherKey(if Executed(ss) then DropExecution(scores, c) else scores, c, ss, k);
    }
    SavedOther(scores, c, ss, metrics, other);
    assert NamesJudged(t, metrics, other) == NamesJudged(scores, metrics, other);
  }

  /** A row of the saved case is a row it had, or one of the scores. */
  lemma {:induction false} UpsertOwnKey(scores: Scores, c: Id, ss: seq<Score>, k: Key)
    requires k in UpsertAll(scores, c, ss)
    ensures var t := UpsertAll(scores, c, ss);
      || (k in scores && t[k] == scores[k])
      || (k.case_id == c && exists s :: s in ss && s.name == k.name && t[k].passed == s.passed)
  {
    if ss != [] {
      var init, last := ss[..|ss| - 1], ss[|ss| - 1];
      assert last in ss && forall s :: s in init ==> s in ss;
      if k in UpsertAll(scores, c, init) {
        UpsertOwnKey(scores, c, init, k);
      }
    }
  }

  lemma {:induction false} UpsertHasKey(scores: Scores, c: Id, ss: seq<Score>, s: Score)
    requires s in ss
    ensures Key(c, s.name, s.version) in UpsertAll(scores, c, ss)
  {
    var init := ss[..|ss| - 1];
    if s in init {
      UpsertHasKey(scores, c, init, s);
    } else {
      assert s == ss[|ss| - 1];
    }
  }

  lemma FailureAddsOneRow(scores: Scores, c: Id)
    ensures Saved(scores, c, NOT_EXECUTED) == Upsert(scores, c, NOT_EXECUTED[0])
  {
    var ss := NOT_EXECUTED;
    assert ss[0] in ss && ss[0].name == CASE_EXECUTION;
    assert !Executed(ss);
    var init := ss[..|ss| - 1];
    assert init == [];
    assert UpsertAll(scores, c, init) == scores;
    assert UpsertAll(scores, c, ss) == Upsert(UpsertAll(scores, c, init), c, ss[|ss| - 1]);
  }

  /** Recording a failed execution of an open case keeps the table in order. */
  lemma FailureKeepsTable(p: Policy, r: Run, scores: Scores, c: Id)
    requires Supported(r) && TableOk(p, r, scores) && !Completed(scores, r.metrics, c)
    ensures TableOk(p, r, Saved(scores, c, NOT_EXECUTED))
  {
    var t := Saved(scores, c, NOT_EXECUTED);
    FailureAddsOneRow(scores, c);
    assert NOT_EXECUTED[0].name !in r.metrics;
    forall k | k in t
      ensures RowOfCase(p, r, t, k)
    {
      assert k in scores ==> RowOfCase(p, r, scores, k);
    }
    assert NamesJudged(t, r.metrics, c) == NamesJudged(scores, r.metrics, c);
    forall x | Completed(t, r.metrics, x) && x != c
      ensures Clean(t, x)
    {
      SavedOtherRows(scores, c, NOT_EXECUTED, r.metrics, x);
    }
  }

  /** What the scores of a case that can be scored look like. */
  ghost predicate Verdicts(metrics: seq<Metric>, ss: seq<Score>) {
    && Executed(ss)
    && (forall s :: s in ss ==> s.passed.Some?)
    && forall m :: m in metrics ==> Named(ss, m)
  }

  lemma CaseVerdicts(p: Policy, r: Run, c: Id, o: Outcome)
    requires Supported(r) && o.Ran? && Scorable(r.metrics, p.Expected(c))
    ensures Verdicts(r.metrics, ScoresOf(p, r.metrics, c, o))
  {
    var ss := ScoresOf(p, r.metrics, c, o);
    StorableExactly(p.discount, r.metrics, p.Expected(c), o.result, o.faithfulness);
    forall s | s in ss
      ensures s.name != CASE_EXECUTION
    {
      assert Named(ss, s.name);
      ScoresNameTheRequest(p.discount, r.metrics, p.Expected(c), o.result, o.faithfulness, s.name);
    }
    forall m | m in r.metrics
      ensures Named(ss, m)
    {
      ScoresNameTheRequest(p.discount, r.metrics, p.Expected(c), o.result, o.faithfulness, m);
    }
  }

  /** Saving the scores of an executed case settles it. */
  lemma VerdictsSettle(p: Policy, r: Run, scores: Scores, c: Id, ss: seq<Score>)
    requires TableOk(p, r, scores) && Verdicts(r.metrics, ss)
    ensures Settled(Saved(scores, c, ss), r.metrics, c)
    ensures forall k :: k in Saved(scores, c, ss) ==> Saved(scores, c, ss)[k].passed.Some?
  {
    var t, start := Saved(scores, c, ss), DropExecution(scores, c);
    forall k | k in t
      ensures t[k].passed.Some? && (k.case_id == c ==> k.name != CASE_EXECUTION)
    {
      UpsertOwnKey(start, c, ss, k);
      assert k in start ==> RowOfCase(p, r, scores, k);
    }
    forall m | m in r.metrics
      ensures m in NamesJudged(t, r.metrics, c)
    {
      var s :| s in ss && s.name == m;
      UpsertHasKey(start, c, ss, s);
    }
  }

  lemma VerdictsKeepTable(p: Policy, r: Run, scores: Scores, c: Id, ss: seq<Score>)
    requires TableOk(p, r, scores) && Verdicts(r.metrics, ss) && Feasible(p, r, c)
    ensures TableOk(p, r, Saved(scores, c, ss))
  {
    var t := Saved(scores, c, ss);
    VerdictsSettle(p, r, scores, c, ss);
    forall k | k in t
      ensures RowOfCase(p, r, t, k)
    {
      if k.case_id != c {
        SavedOtherRows(scores, c, ss, r.metrics, k.case_id);
        assert RowOfCase(p, r, scores, k);
      }
    }
    forall x | Completed(t, r.metrics, x)
      ensures Clean(t, x)
    {
      if x != c {
        SavedOtherRows(scores, c, ss, r.metrics, x);
        assert Clean(scores, x);
      }
    }
  }

  /** Under the lease, the scores of an executed case can be saved exactly when the case can be scored. */
  lemma SavableExactly(p: Policy, r: Run, w: Id, now: int, c: Id, o: Outcome)
    requires o.Ran? && Holds(r, w, now)
    ensures CanSave(r, w, now, ScoresOf(p, r.metrics, c, o)) <==> Scorable(r.metrics, p.Expected(c))
  {
    StorableExactly(p.discount, r.metrics, p.Expected(c), o.result, o.faithfulness);
  }

  /** A rank metric and no expected evidence: whatever the pipeline returned, nothing can be saved. */
  lemma UnsavableExample(p: Policy, r: Run, w: Id, now: int, result: PipelineResult)
    requires Holds(r, w, now) && r.metrics == [RETRIEVAL_MRR] && p.evidence == map[7 := {}]
    ensures ScoresOf(p, r.metrics, 7, Ran(result, 0.0)) == [Score(RETRIEVAL_MRR, DETERMINISTIC, None, None)]
    ensures !CanSave(r, w, now, ScoresOf(p, r.metrics, 7, Ran(result, 0.0)))
  {
    var cs := Candidates(p.discount, {}, result, 0.0);
    CandidateNames(p.discount, {}, result, 0.0);
    WantedSingle(cs, RETRIEVAL_MRR);
    SavableExactly(p, r, w, now, 7, Ran(result, 0.0));
  }

  // ---- the steps ----

  lemma ReserveOutcomeOk(p: Policy, s: Sys, w: Id)
    requires OutcomeOk(p, s) && HolderOk(p, s) && w in s.deliveries
    ensures OutcomeOk(p, DoReserve(p, s, w))
  {
    var d, s' := s.deliveries[w], DoReserve(p, s, w);
    if s' != s && Holds(s.run, w, s.now) {
      assert d.pending == [d.pending[0]] + d.pending[1..];
      if !CanReserve(p, s.run, w, s.now) {
        assert InHand(d, d.pending[0]);
        FailureKeepsTable(p, s.run, s.scores, d.pending[0]);
      }
    }
  }

  lemma FinishOutcomeOk(p: Policy, s: Sys, w: Id, c: Id, o: Outcome)
    requires OutcomeOk(p, s) && HolderOk(p, s) && w in s.deliveries
    requires o.Ran? ==> Executable(p, s.run, c)
    ensures OutcomeOk(p, DoFinish(p, s, w, c, o))
  {
    var d, s' := s.deliveries[w], DoFinish(p, s, w, c, o);
    var ss := ScoresOf(p, s.run.metrics, c, o);
    if s' != s && CanSave(s.run, w, s.now, ss) {
      assert InHand(d, c);
      if o.Raised? {
        FailureKeepsTable(p, s.run, s.scores, c);
      } else {
        SavableExactly(p, s.run, w, s.now, c, o);
        CaseVerdicts(p, s.run, c, o);
        VerdictsKeepTable(p, s.run, s.scores, c, ss);
        VerdictsSettle(p, s.run, s.scores, c, ss);
        forall x | x in p.cases && x != c
          ensures Settled(s.scores, s.run.metrics, x) ==> Settled(s'.scores, s.run.metrics, x)
        {
          SavedOtherRows(s.scores, c, ss, s.run.metrics, x);
        }
      }
    }
  }

  lemma LoadOutcomeOk(p: Policy, s: Sys, w: Id)
    requires OutcomeOk(p, s) && w in s.deliveries
    ensures OutcomeOk(p, DoLoad(p, s, w))
  {
    forall c | Completed(s.scores, s.run.metrics, c)
      ensures Settled(s.scores, s.run.metrics, c)
    {
      CompletedExactly(s.scores, s.run.metrics, c);
    }
  }

  lemma SubmitOutcomeOk(p: Policy, s: Sys, w: Id)
    requires OutcomeOk(p, s) && w in s.deliveries
    ensures OutcomeOk(p, DoSubmit(s, w))
  {
  }

  /** A run ends succeeded only when its holder has nothing left in hand and nothing to report. */
  lemma ConcludeOutcomeOk(p: Policy, s: Sys, w: Id)
    requires OutcomeOk(p, s) && w in s.deliveries
    ensures OutcomeOk(p, DoConclude(p, s, w))
  {
  }

  lemma StepOutcomeOk(p: Policy, s: Sys, step: Step)
    requires OutcomeOk(p, s) && HolderOk(p, s)
    ensures OutcomeOk(p, Apply(p, s, step))
  {
    match step
    case Load(w) =>
      if w in s.deliveries { LoadOutcomeOk(p, s, w); }
    case Reserve(w) =>
      if w in s.deliveries { ReserveOutcomeOk(p, s, w); }
    case Submit(w) =>
      if w in s.deliveries { SubmitOutcomeOk(p, s, w); }
    case Finish(w, c, o) =>
      if w in s.deliveries { FinishOutcomeOk(p, s, w, c, Execution(p, s.run, c, o)); }
    case Conclude(w) =>
      if w in s.deliveries { ConcludeOutcomeOk(p, s, w); }
    case _ =>
  }

  lemma {:induction false} StepsOutcomeOk(p: Policy, s: Sys, steps: seq<Step>)
    requires OutcomeOk(p, s) && HolderOk(p, s) && FreshOk(s)
    ensures OutcomeOk(p, Steps(p, s, steps))
  {
    if steps != [] {
      var init, last := steps[..|steps| - 1], steps[|steps| - 1];
      StepsOutcomeOk(p, s, init);
      StepsHolderOk(p, s, init);
      StepOutcomeOk(p, Steps(p, s, init), last);
    }
  }

  // ---- a run that cannot be executed ----

  ghost predicate NeverStarted(s: Sys) {
    && !Supported(s.run) && s.run.status != Succeeded
    && forall w :: w in s.deliveries ==> s.deliveries[w].stage == Rejected || s.deliveries[w].stage == Closed
  }

  lemma {:induction false} UnsupportedNeverStarts(p: Policy, s: Sys, steps: seq<Step>)
    requires NeverStarted(s)
    ensures NeverStarted(Steps(p, s, steps))
  {
    if steps != [] {
      UnsupportedNeverStarts(p, s, steps[..|steps| - 1]);
      StepNeverStarts(p, Steps(p, s, steps[..|steps| - 1]), steps[|steps| - 1]);
    }
  }

  lemma StepNeverStarts(p: Policy, s: Sys, step: Step)
    requires NeverStarted(s)
    ensures NeverStarted(Apply(p, s, step))
  {
    match step
    case Finish(w, c, o) => FinishNeverStarts(p, s, w, c, Execution(p, s.run, c, o));
    case _ =>
  }

  lemma FinishNeverStarts(p: Policy, s: Sys, w: Id, c: Id, o: Outcome)
    requires NeverStarted(s)
    ensures NeverStarted(DoFinish(p, s, w, c, o))
  {
  }

  lemma {:induction false} RequestIsFixed(p: Policy, s: Sys, steps: seq<Step>)
    ensures var t := Steps(p, s, steps); t.run.metrics == s.run.metrics && t.run.pipeline == s.run.pipeline
  {
    if steps != [] {
      RequestIsFixed(p, s, steps[..|steps| - 1]);
      StepKeepsRequest(p, Steps(p, s, steps[..|steps| - 1]), steps[|steps| - 1]);
    }
  }

  lemma StepKeepsRequest(p: Policy, s: Sys, step: Step)
    ensures var t := Apply(p, s, step); t.run.metrics == s.run.metrics && t.run.pipeline == s.run.pipeline
  {
    match step
    case Finish(w, c, o) => FinishKeepsRun(p, s, w, c, Execution(p, s.run, c, o));
    case _ =>
  }

  lemma FinishKeepsRun(p: Policy, s: Sys, w: Id, c: Id, o: Outcome)
    ensures DoFinish(p, s, w, c, o).run == s.run
  {
  }

  lemma CreatedTableOk(p: Policy, s: Sys)
    requires Created(p, s) && Supported(s.run)
    ensures OutcomeOk(p, s)
  {
    assert s.run.metrics[0] in s.run.metrics;
    forall c
      ensures !Completed(s.scores, s.run.metrics, c)
    {
      assert NamesJudged(s.scores, s.run.metrics, c) == {};
    }
  }

  /**
   * Over all attempts and interleavings: when a run has succeeded, its request was supported,
   * every requested metric of every case is stored with a verdict, and no case is recorded as
   * not executed.
   */
  lemma {:induction false} SuccessMeansEveryCaseJudged(p: Policy, s: Sys, steps: seq<Step>)
    requires Created(p, s) && Steps(p, s, steps).run.status == Succeeded
    ensures Supported(s.run)
    ensures forall c :: c in p.cases ==>
      && EveryMetricJudged(Steps(p, s, steps).scores, s.run.metrics, c)
      && Clean(Steps(p, s, steps).scores, c)
  {
    RequestIsFixed(p, s, steps);
    if Supported(s.run) {
      CreatedTableOk(p, s);
      StepsOutcomeOk(p, s, steps);
    } else {
      UnsupportedNeverStarts(p, s, steps);
    }
  }

  lemma InfeasibleIsNotSettled(p: Policy, r: Run, scores: Scores, c: Id)
    requires Supported(r) && TableOk(p, r, scores) && !Feasible(p, r, c)
    ensures !Settled(scores, r.metrics, c)
  {
    forall k | k in scores && k.case_id == c
      ensures k.name !in r.metrics
    {
      assert RowOfCase(p, r, scores, k);
    }
    assert NamesJudged(scores, r.metrics, c) == {};
    assert r.metrics[0] in r.metrics && r.metrics[0] !in NamesJudged(scores, r.metrics, c);
  }

  /**
   * A run with a case that cannot be scored (a rank metric without expected evidence) or that the
   * executor refuses (no question, another model or prompt) can never succeed.
   */
  lemma {:induction false} InfeasibleCaseNeverSucceeds(p: Policy, s: Sys, steps: seq<Step>, c: Id)
    requires Created(p, s) && c in p.cases && !Feasible(p, s.run, c)
    ensures Steps(p, s, steps).run.status != Succeeded
  {
    var t := Steps(p, s, steps);
    RequestIsFixed(p, s, steps);
    if Supported(s.run) {
      CreatedTableOk(p, s);
      StepsOutcomeOk(p, s, steps);
      InfeasibleIsNotSettled(p, t.run, t.scores, c);
    } else {
      UnsupportedNeverStarts(p, s, steps);
    }
  }
}
