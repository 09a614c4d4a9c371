/**
 * What one transaction of an evaluation delivery does to the run, its rows and the delivery's own
 * books, in the caller's terms.
 */
module EvaluationLaws {
  import opened CaseScoring
  import opened Common
  import opened EvaluationRuns
  import opened EvaluationStore
  import SentenceSplit
  import TextLaws

  /** The run holds a request the runner supports: a project, and metrics it knows. */
  ghost predicate Runnable(r: Run) {
    r.project && r.metrics != [] && forall m :: m in r.metrics ==> 1 <= m <= 6
  }

  /** An accepted pipeline, attempts left, and nobody at work on the run. */
  ghost predicate Open(p: Policy, r: Run, now: int) {
    && r.accepted && r.attempts < p.maxAttempts
    && (r.status == Pending || (r.status == Running && r.expires < now))
  }

  /**
   * A claim by a new worker is granted exactly when the run is open: it owns the run for the
   * length of a lease, one attempt is used up, and it goes on to load the cases exactly when the
   * request is supported.
   */
  lemma {:induction false} ClaimedExactly(p: Policy, s: Sys, w: Id)
    requires w !in s.deliveries
    ensures var t := Apply(p, s, Claim(w));
      if Open(p, s.run, s.now) then
        && t.run == s.run.(status := Running, attempts := s.run.attempts + 1, owner := Some(w), expires := s.now + p.lease)
        && w in t.deliveries && t.deliveries[w].stage == (if Runnable(s.run) then Loading else Rejected)
        && t.deliveries[w].failures == 0 && t.deliveries[w].retryable == 0 && t.scores == s.scores
      else t == s
  {
  }

  /** A delivery whose request is not supported ends the run it owns as failed. */
  lemma {:induction false} RejectionFails(p: Policy, s: Sys, w: Id)
    requires RowOk(p, s) && w in s.deliveries && s.deliveries[w].stage == Rejected
    ensures Apply(p, s, Reject(w)).run == if s.run.owner == Some(w) then s.run.(status := Failed, owner := None) else s.run
    ensures Apply(p, s, Reject(w)).scores == s.scores
  {
  }

  /**
   * Loading takes on exactly the cases that are not judged on every metric yet (all of them when
   * a metric is requested twice), in dataset order; a run over an empty dataset fails.
   */
  lemma {:induction false} LoadedExactly(p: Policy, s: Sys, w: Id)
    requires RowOk(p, s) && w in s.deliveries && s.deliveries[w].stage == Loading
    ensures var t := Apply(p, s, Load(w));
      if p.cases == [] then
        t.run == (if s.run.owner == Some(w) then s.run.(status := Failed, owner := None) else s.run) && t.deliveries[w].stage == Closed
      else
        && t.run == s.run && t.deliveries[w].stage == Active
        && forall c :: c in t.deliveries[w].pending <==>
             c in p.cases && !(EveryMetricJudged(s.scores, s.run.metrics, c) && Distinct(s.run.metrics))
  {
    forall c
      ensures Completed(s.scores, s.run.metrics, c) <==> EveryMetricJudged(s.scores, s.run.metrics, c) && Distinct(s.run.metrics)
    {
      CompletedExactly(s.scores, s.run.metrics, c);
    }
  }

  /** Cases are taken on in the order of the dataset. */
  lemma {:induction false} IncompleteInOrder(cases: seq<Id>, scores: Scores, metrics: seq<Metric>) returns (at: seq<nat>)
    ensures |at| == |Incomplete(cases, scores, metrics)|
    ensures forall k :: 0 <= k < |at| ==> at[k] < |cases| && Incomplete(cases, scores, metrics)[k] == cases[at[k]]
    ensures forall k, l :: 0 <= k < l < |at| ==> at[k] < at[l]
  {
    if cases == [] {
      at := [];
    } else {
      var n: nat := |cases| - 1;
      at := IncompleteInOrder(cases[..n], scores, metrics);
      at := if Completed(scores, metrics, cases[n]) then at else at + [n];
    }
  }

  // ---- rows ----

  /** Score `i` is the last one stored under the key. */
  ghost predicate LastUnder(ss: seq<Score>, i: nat, k: Key) {
    i < |ss| && ss[i].name == k.name && ss[i].version == k.version
    && forall j :: i < j < |ss| ==> !(ss[j].name == k.name && ss[j].version == k.version)
  }

  /**
   * A save upserts each score under its name and version; the scores of an executed case also
   * remove the row that said it had not been executed.  Nothing else changes.
   */
  lemma {:induction false} SavedRowsAre(scores: Scores, c: Id, ss: seq<Score>, k: Key)
    ensures var t := Saved(scores, c, ss);
      && (k.case_id != c ==> (k in t <==> k in scores) && (k in t ==> t[k] == scores[k]))
      && (forall i: nat :: k.case_id == c && LastUnder(ss, i, k) ==> k in t && t[k] == Stored(ss[i].value, ss[i].passed))
      && (k.case_id == c && (forall s :: s in ss ==> !(s.name == k.name && s.version == k.version)) ==>
            && (k in t <==> k in scores && !(k.name == 0 && forall s :: s in ss ==> s.name != 0))
            && (k in t ==> t[k] == scores[k]))
  {
    UpsertedRowsAre(if Executed(ss) then DropExecution(scores, c) else scores, c, ss, k);
  }

  lemma {:induction false} UpsertedRowsAre(scores: Scores, c: Id, ss: seq<Score>, k: Key)
    ensures var t := UpsertAll(scores, c, ss);
      && (k.case_id != c ==> (k in t <==> k in scores) && (k in t ==> t[k] == scores[k]))
      && (forall i: nat :: k.case_id == c && LastUnder(ss, i, k) ==> k in t && t[k] == Stored(ss[i].value, ss[i].passed))
      && (k.case_id == c && (forall s :: s in ss ==> !(s.name == k.name && s.version == k.version)) ==>
            (k in t <==> k in scores) && (k in t ==> t[k] == scores[k]))
  {
    if ss != [] {
      var n := |ss| - 1;
      var init, last := ss[..n], ss[n];
      UpsertedRowsAre(scores, c, init, k);
      forall i: nat | k.case_id == c && LastUnder(ss, i, k)
        ensures k in UpsertAll(scores, c, ss) && UpsertAll(scores, c, ss)[k] == Stored(ss[i].value, ss[i].passed)
      {
        if i < n {
          assert ss[n] == last && !(last.name == k.name && last.version == k.version);
          assert forall j :: 0 <= j < n ==> init[j] == ss[j];
          assert LastUnder(init, i, k);
        }
      }
      assert forall s :: s in init ==> s in ss;
      assert last in ss;
    }
  }

  /** The one row of a case that could not be executed. */
  function FailureRow(c: Id): Key {
    Key(c, 0, 1)
  }

  /**
   * A reservation is granted under the lease while the budget lasts and takes the case at hand; when
   * the budget is exhausted, the case is recorded as not executed and counted as a failure;
   * without the lease the delivery ends and changes nothing.
   */
  lemma {:induction false} ReservationIs(p: Policy, s: Sys, w: Id)
    requires w in s.deliveries && s.deliveries[w].stage == Active && s.deliveries[w].pending != [] && s.deliveries[w].granted == None
    ensures var t, d := Apply(p, s, Reserve(w)), s.deliveries[w];
      var c := d.pending[0];
      if !(s.run.status == Running && s.run.owner == Some(w) && s.run.expires > s.now) then
        t == s.(deliveries := s.deliveries[w := d.(stage := Closed)])
      else if s.run.limit.None? || s.run.reserved + p.amount <= s.run.limit.value then
        && t.run == s.run.(reserved := s.run.reserved + p.amount) && t.scores == s.scores
        && t.reservations == s.reservations + [Reservation(w, c, false)]
        && t.deliveries[w] == d.(pending := d.pending[1..], granted := Some(Grant(|s.reservations|, c)))
      else
        && t.run == s.run && t.reservations == s.reservations
        && t.scores == s.scores[FailureRow(c) := Stored(None, Some(false))]
        && t.deliveries[w] == d.(pending := d.pending[1..], failures := d.failures + 1)
  {
    FailureIsOneRow(s.scores, s.deliveries[w].pending[0]);
  }

  lemma FailureIsOneRow(scores: Scores, c: Id)
    ensures Saved(scores, c, NOT_EXECUTED) == scores[FailureRow(c) := Stored(None, Some(false))]
    ensures forall s :: s in NOT_EXECUTED ==> Storable(s)
  {
    var ss := NOT_EXECUTED;
    assert ss[0] in ss && ss[0].name == CASE_EXECUTION;
    assert !Executed(ss);
    var init := ss[..|ss| - 1];
    assert init == [] && UpsertAll(scores, c, init) == scores;
    assert UpsertAll(scores, c, ss) == Upsert(UpsertAll(scores, c, init), c, ss[|ss| - 1]);
  }

  /**
   * A case that could not be executed is recorded as such under the lease and counted as retryable
   * or as a failure; one that was executed is scored and not counted.  A save that fails ends the delivery.
   */
  lemma {:induction false} FinishedExactly(p: Policy, s: Sys, w: Id, c: Id, o: Outcome)
    requires w in s.deliveries && s.deliveries[w].stage == Active && s.deliveries[w].pending == []
    requires s.deliveries[w].granted == None && c in s.deliveries[w].futures
    ensures FinishedAs(p, s, Apply(p, s, Finish(w, c, o)), w, c, Execution(p, s.run, c, o))
  {
    FinishIs(p, s, w, c, Execution(p, s.run, c, o));
  }

  /** The effect of a finished case whose execution came to `e`. */
  ghost predicate FinishedAs(p: Policy, s: Sys, t: Sys, w: Id, c: Id, e: Outcome)
    requires w in s.deliveries
  {
    var d := s.deliveries[w];
    && t.run == s.run
    && (if !(s.run.status == Running && s.run.owner == Some(w) && s.run.expires > s.now)
           || (e.Ran? && !Scorable(s.run.metrics, p.Expected(c)))
        then t == s.(deliveries := s.deliveries[w := d.(stage := Closed)])
        else
          && t.scores == (if e.Raised? then s.scores[FailureRow(c) := Stored(None, Some(false))]
                          else Saved(s.scores, c, CaseScores(p.discount, s.run.metrics, p.Expected(c), e.result, e.faithfulness)))
          && t.deliveries == s.deliveries[w := d.(futures := d.futures - {c},
                                                  retryable := d.retryable + (if e == Raised(true) then 1 else 0),
                                                  failures := d.failures + (if e == Raised(false) then 1 else 0))])
  }

  lemma FinishIs(p: Policy, s: Sys, w: Id, c: Id, e: Outcome)
    requires w in s.deliveries && s.deliveries[w].stage == Active && s.deliveries[w].pending == []
    requires s.deliveries[w].granted == None && c in s.deliveries[w].futures
    ensures FinishedAs(p, s, DoFinish(p, s, w, c, e), w, c, e)
  {
    FailureIsOneRow(s.scores, c);
    if e.Ran? {
      StorableExactly(p.discount, s.run.metrics, p.Expected(c), e.result, e.faithfulness);
      assert ScoresOf(p, s.run.metrics, c, e) == CaseScores(p.discount, s.run.metrics, p.Expected(c), e.result, e.faithfulness);
    }
  }

  /**
   * What the outside answers counts only for a case with a question, run through the configured model
   * and prompt, and an answer only when something was retrieved; everything else is a failure
   * that is not retried.
   */
  lemma {:induction false} ExecutionIs(p: Policy, r: Run, c: Id, o: Outcome)
    ensures var asked := c in p.questions && (exists ch :: ch in p.questions[c] && !SentenceSplit.IsSpace(ch))
                         && r.pipeline == Some(Pipeline(p.model, PROMPT));
      Execution(p, r, c, o) == if asked && (o.Ran? ==> o.result.retrieved != []) then o else Raised(false)
  {
    if c in p.questions {
      TextLaws.StripNothing(p.questions[c]);
    }
  }

  // ---- the end of a delivery ----

  /**
   * A delivery that is through gives a run with a retryable failure and attempts left back: it is
   * pending, keeps its attempts and its budget, and the next worker can claim it at once.
   * Otherwise it ends the run, if it still holds the lease: succeeded without any failure,
   * failed with one.
   */
  lemma {:induction false} ConcludedExactly(p: Policy, s0: Sys, steps: seq<Step>, w: Id)
    requires Created(p, s0)
    requires var s := Steps(p, s0, steps);
      && w in s.deliveries && s.deliveries[w].stage == Active && s.deliveries[w].pending == []
      && s.deliveries[w].granted == None && s.deliveries[w].futures == {}
    ensures var s, t := Steps(p, s0, steps), Steps(p, s0, steps + [Conclude(w)]);
      var d := s.deliveries[w];
      && t.scores == s.scores && t.reservations == s.reservations
      && (if d.retryable > 0 && s.run.attempts < p.maxAttempts then
            if s.run.owner == Some(w) then HandedBack(p, s, t) else t.run == s.run
          else if s.run.owner == Some(w) && s.run.expires > s.now then
            t.run == s.run.(status := if d.retryable + d.failures > 0 then Failed else Succeeded, owner := None)
          else t.run == s.run)
  {
    CreatedRowOk(p, s0);
    StepsRowOk(p, s0, steps);
    StepsAppend(p, s0, steps, Conclude(w));
  }

  /** The run is pending with its attempts and budget, and the next worker may claim it. */
  ghost predicate HandedBack(p: Policy, s: Sys, t: Sys) {
    && t.run == s.run.(status := Pending, owner := None)
    && forall v :: v !in t.deliveries && s.run.accepted ==>
         Apply(p, t, Claim(v)).run.owner == Some(v) && Apply(p, t, Claim(v)).run.attempts == s.run.attempts + 1
  }
}
