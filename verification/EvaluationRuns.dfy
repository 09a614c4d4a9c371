/**
 * Every delivery of one evaluation run (evaluation_runner.py:55-124): claims, budget
 * reservations, submissions, results, retries and crashes in every interleaving.
 */
module EvaluationRuns {
  import opened CaseScoring
  import opened Common
  import opened EvaluationStore

  datatype Stage = Rejected | Loading | Active | Closed

  /** One call of `run`: the cases left, the reservation not yet submitted, and the running futures. */
  datatype Delivery = Delivery(stage: Stage, pending: seq<Id>, granted: Option<Grant>, futures: set<Id>,
                               retryable: nat, failures: nat)

  /** A reservation just made: its place in the list of all reservations, and its case. */
  datatype Grant = Grant(slot: nat, case_id: Id)

  datatype Reservation = Reservation(worker: Id, case_id: Id, submitted: bool)

  datatype Sys = Sys(run: Run, scores: Scores, deliveries: map<Id, Delivery>, reservations: seq<Reservation>,
                     claims: nat, now: int)

  /** What executing a case came to. */
  datatype Outcome = Ran(result: PipelineResult, faithfulness: real) | Raised(retryable: bool)

  datatype Step =
    | Tick(seconds: nat)
    | Claim(w: Id)
    | Reject(w: Id)
    | Load(w: Id)
    | Reserve(w: Id)
    | Submit(w: Id)
    | Finish(w: Id, c: Id, outcome: Outcome)
    | Conclude(w: Id)
    | Crash(w: Id)
    | ForceFail

  /** The row saved for a case that could not be executed. */
  const NOT_EXECUTED := [Score(CASE_EXECUTION, DETERMINISTIC, None, Some(false))]

  function ScoresOf(p: Policy, metrics: seq<Metric>, c: Id, o: Outcome): seq<Score> {
    if o.Ran? then CaseScores(p.discount, metrics, p.Expected(c), o.result, o.faithfulness) else NOT_EXECUTED
  }

  /**
   * What executing a case comes to when the outside answers `o`: the executor's own checks raise
   * before anything is asked, and again when retrieval finds no chunk.
   */
  function Execution(p: Policy, r: Run, c: Id, o: Outcome): Outcome {
    if !Executable(p, r, c) || (o.Ran? && o.result.retrieved == []) then Raised(false) else o
  }

  function Put(s: Sys, w: Id, d: Delivery): Sys {
    s.(deliveries := s.deliveries[w := d])
  }

  function DoClaim(p: Policy, s: Sys, w: Id): Sys {
    if w in s.deliveries || !CanClaim(p, s.run, s.now) then s
    else
      var stage := if Supported(s.run) then Loading else Rejected;
      Put(s.(run := Claimed(p, s.run, w, s.now), claims := s.claims + 1), w, Delivery(stage, [], None, {}, 0, 0))
  }

  function DoReject(s: Sys, w: Id): Sys {
    if w in s.deliveries && s.deliveries[w].stage == Rejected
    then Put(s.(run := TerminallyFailed(s.run, w)), w, s.deliveries[w].(stage := Closed))
    else s
  }

  /** Load the cases; an empty dataset is a terminal failure, completed cases are skipped. */
  function DoLoad(p: Policy, s: Sys, w: Id): Sys {
    if w !in s.deliveries || s.deliveries[w].stage != Loading then s
    else if p.cases == [] then Put(s.(run := TerminallyFailed(s.run, w)), w, s.deliveries[w].(stage := Closed))
    else Put(s, w, s.deliveries[w].(stage := Active, pending := Incomplete(p.cases, s.scores, s.run.metrics)))
  }

  /** Reserve for the next case, or record that the budget is exhausted; without a lease the delivery ends. */
  function DoReserve(p: Policy, s: Sys, w: Id): Sys {
    if w !in s.deliveries then s
    else
      var d := s.deliveries[w];
      if d.stage != Active || d.pending == [] || d.granted.Some? then s
      else if CanReserve(p, s.run, w, s.now) then
        Put(s.(run := Reserved(p, s.run), reservations := s.reservations + [Reservation(w, d.pending[0], false)]),
            w, d.(pending := d.pending[1..], granted := Some(Grant(|s.reservations|, d.pending[0]))))
      else if CanSave(s.run, w, s.now, NOT_EXECUTED) then
        Put(s.(scores := Saved(s.scores, d.pending[0], NOT_EXECUTED)),
            w, d.(pending := d.pending[1..], failures := d.failures + 1))
      else Put(s, w, d.(stage := Closed))
  }

  function DoSubmit(s: Sys, w: Id): Sys {
    if w !in s.deliveries then s
    else
      var d := s.deliveries[w];
      if d.stage != Active || d.granted.None? || d.granted.value.slot >= |s.reservations| then s
      else
        var g := d.granted.value;
        Put(s.(reservations := s.reservations[g.slot := s.reservations[g.slot].(submitted := true)]),
            w, d.(granted := None, futures := d.futures + {g.case_id}))
  }

  /** One future completes; a save that fails ends the delivery. */
  function DoFinish(p: Policy, s: Sys, w: Id, c: Id, o: Outcome): Sys {
    if w !in s.deliveries then s
    else
      var d := s.deliveries[w];
      if d.stage != Active || d.pending != [] || d.granted.Some? || c !in d.futures then s
      else if CanSave(s.run, w, s.now, ScoresOf(p, s.run.metrics, c, o)) then
        Put(s.(scores := Saved(s.scores, c, ScoresOf(p, s.run.metrics, c, o))),
            w, d.(futures := d.futures - {c},
                  retryable := if o == Raised(true) then d.retryable + 1 else d.retryable,
                  failures := if o == Raised(false) then d.failures + 1 else d.failures))
      else Put(s, w, d.(stage := Closed))
  }

  function DoConclude(p: Policy, s: Sys, w: Id): Sys {
    if w !in s.deliveries then s
    else
      var d := s.deliveries[w];
      if d.stage != Active || d.pending != [] || d.granted.Some? || d.futures != {} then s
      else
        Put(s.(run := if d.retryable > 0 && s.run.attempts < p.maxAttempts then Released(s.run, w)
                      else CompletedRun(s.run, w, s.now, d.failures + d.retryable)),
            w, d.(stage := Closed))
  }

  function DoCrash(s: Sys, w: Id): Sys {
    if w in s.deliveries then Put(s, w, s.deliveries[w].(stage := Closed)) else s
  }

  function Apply(p: Policy, s: Sys, step: Step): Sys {
    match step
    case Tick(seconds) => s.(now := s.now + seconds)
    case Claim(w) => DoClaim(p, s, w)
    case Reject(w) => DoReject(s, w)
    case Load(w) => DoLoad(p, s, w)
    case Reserve(w) => DoReserve(p, s, w)
    case Submit(w) => DoSubmit(s, w)
    case Finish(w, c, outcome) => DoFinish(p, s, w, c, Execution(p, s.run, c, outcome))
    case Conclude(w) => DoConclude(p, s, w)
    case Crash(w) => DoCrash(s, w)
    case ForceFail => s.(run := ForceFailed(s.run))
  }

  function Steps(p: Policy, s: Sys, steps: seq<Step>): Sys {
    if steps == [] then s else Apply(p, Steps(p, s, steps[..|steps| - 1]), steps[|steps| - 1])
  }

  /** A run as the API creates it. */
  ghost predicate Created(p: Policy, s: Sys) {
    && s.run.status == Pending && s.run.attempts == 0 && s.run.owner == None && s.run.reserved == 0.0
    && (s.run.limit.Some? ==> s.run.limit.value >= 0.0)
    && s.scores == map[] && s.deliveries == map[] && s.reservations == [] && s.claims == 0
    && p.amount > 0.0 && Distinct(p.cases)
  }

  // ---- budget and attempts ----

  /** `n` reservations of `amount`, one after the other. */
  function Spent(amount: real, n: nat): real {
    if n == 0 then 0.0 else Spent(amount, n - 1) + amount
  }

  lemma {:induction false} SpentIsProduct(amount: real, n: nat)
    ensures Spent(amount, n) == amount * (n as real)
  {
    if n > 0 {
      SpentIsProduct(amount, n - 1);
      Distribute(amount, (n - 1) as real);
    }
  }

  lemma Distribute(a: real, x: real)
    ensures a * (x + 1.0) == a * x + a
  {
  }

  ghost predicate RowOk(p: Policy, s: Sys) {
    && s.run.attempts == s.claims <= p.maxAttempts
    && s.run.reserved == Spent(p.amount, |s.reservations|)
    && (s.run.limit.Some? ==> s.run.reserved <= s.run.limit.value)
    && (s.run.status == Running <==> s.run.owner.Some?)
    && (s.run.owner.Some? ==> s.run.owner.value in s.deliveries)
  }

  lemma StepRowOk(p: Policy, s: Sys, step: Step)
    requires RowOk(p, s)
    ensures RowOk(p, Apply(p, s, step))
  {
  }

  /** How many reservations led to a submission. */
  function Submissions(rs: seq<Reservation>): nat {
    if rs == [] then 0 else Submissions(rs[..|rs| - 1]) + (if rs[|rs| - 1].submitted then 1 else 0)
  }

  lemma {:induction false} SubmissionsWithinReservations(rs: seq<Reservation>)
    ensures Submissions(rs) <= |rs|
  {
    if rs != [] {
      SubmissionsWithinReservations(rs[..|rs| - 1]);
    }
  }

  lemma {:induction false} StepsRowOk(p: Policy, s: Sys, steps: seq<Step>)
    requires RowOk(p, s)
    ensures RowOk(p, Steps(p, s, steps))
  {
    if steps != [] {
      StepsRowOk(p, s, steps[..|steps| - 1]);
      StepRowOk(p, Steps(p, s, steps[..|steps| - 1]), steps[|steps| - 1]);
    }
  }

  lemma CreatedRowOk(p: Policy, s: Sys)
    requires Created(p, s)
    ensures RowOk(p, s)
  {
    assert Spent(p.amount, 0) == 0.0;
  }

  /**
   * Over all attempts: claims stay within the limit, the reserved budget is the per-case
   * amount times the reservations and within its cap, and submissions never outnumber them.
   */
  lemma BudgetIsKept(p: Policy, s: Sys, steps: seq<Step>, t: Sys)
    requires Created(p, s) && t == Steps(p, s, steps)
    ensures t.claims == t.run.attempts <= p.maxAttempts
    ensures t.run.reserved == p.amount * (|t.reservations| as real)
    ensures t.run.limit.Some? ==> t.run.reserved <= t.run.limit.value
    ensures Submissions(t.reservations) <= |t.reservations|
  {
    CreatedRowOk(p, s);
    StepsRowOk(p, s, steps);
    RowKeepsBudget(p, t);
  }

  lemma RowKeepsBudget(p: Policy, t: Sys)
    requires RowOk(p, t)
    ensures t.run.reserved == p.amount * (|t.reservations| as real)
    ensures Submissions(t.reservations) <= |t.reservations|
  {
    SpentIsProduct(p.amount, |t.reservations|);
    SubmissionsWithinReservations(t.reservations);
  }

  // ---- judged cases are left alone ----

  predicate Done(s: Sys, c: Id) {
    Completed(s.scores, s.run.metrics, c)
  }

  /** The cases a delivery may still write scores for. */
  predicate InHand(d: Delivery, c: Id) {
    c in d.pending || c in d.futures || (d.granted.Some? && d.granted.value.case_id == c)
  }

  /** A delivery works on distinct cases, none of which is completed. */
  ghost predicate WorkOk(scores: Scores, metrics: seq<Metric>, d: Delivery) {
    && Distinct(d.pending)
    && (forall c :: c in d.pending ==> c !in d.futures)
    && (d.granted.Some? ==> d.granted.value.case_id !in d.pending && d.granted.value.case_id !in d.futures)
    && forall c :: InHand(d, c) ==> !Completed(scores, metrics, c)
  }

  /** The lease holder's work is in order. */
  ghost predicate HolderOk(p: Policy, s: Sys) {
    && Distinct(p.cases)
    && (s.run.owner.Some? ==>
          && s.run.owner.value in s.deliveries
          && var d := s.deliveries[s.run.owner.value];
             (d.stage == Active ==> WorkOk(s.scores, s.run.metrics, d)))
  }

  /** Scores of other cases do not decide about a case. */
  lemma {:induction false} UpsertOther(scores: Scores, c: Id, ss: seq<Score>, metrics: seq<Metric>, other: Id)
    requires other != c
    ensures Completed(UpsertAll(scores, c, ss), metrics, other) <==> Completed(scores, metrics, other)
  {
    if ss != [] {
      var init := UpsertAll(scores, c, ss[..|ss| - 1]);
      UpsertOther(scores, c, ss[..|ss| - 1], metrics, other);
      var after := Upsert(init, c, ss[|ss| - 1]);
      SameJudged(init, after, metrics, other);
    }
  }

  lemma SameJudged(a: Scores, b: Scores, metrics: seq<Metric>, c: Id)
    requires forall k: Key :: k.case_id == c ==> (k in a <==> k in b) && (k in a ==> a[k] == b[k])
    ensures Completed(a, metrics, c) <==> Completed(b, metrics, c)
  {
    assert NamesJudged(a, metrics, c) == NamesJudged(b, metrics, c);
  }

  lemma SavedOther(scores: Scores, c: Id, ss: seq<Score>, metrics: seq<Metric>, other: Id)
    requires other != c
    ensures Completed(Saved(scores, c, ss), metrics, other) <==> Completed(scores, metrics, other)
  {
    var start := if Executed(ss) then DropExecution(scores, c) else scores;
    SameJudged(scores, start, metrics, other);
    UpsertOther(start, c, ss, metrics, other);
  }

  lemma TakeFirst(pending: seq<Id>)
    requires pending != [] && Distinct(pending)
    ensures Distinct(pending[1..]) && pending[0] !in pending[1..]
    ensures forall c :: c in pending[1..] ==> c in pending
  {
  }

  /** Saving one case in hand and dropping it keeps the rest in order. */
  lemma SavedWorkOk(scores: Scores, metrics: seq<Metric>, d: Delivery, d': Delivery, c: Id, ss: seq<Score>)
    requires WorkOk(scores, metrics, d) && Distinct(d'.pending)
    requires forall x :: InHand(d', x) ==> InHand(d, x) && x != c
    requires d'.granted == d.granted && d'.futures <= d.futures && forall x :: x in d'.pending ==> x in d.pending
    ensures WorkOk(Saved(scores, c, ss), metrics, d')
  {
    forall x | InHand(d', x)
      ensures !Completed(Saved(scores, c, ss), metrics, x)
    {
      SavedOther(scores, c, ss, metrics, x);
    }
  }

  lemma ReserveHolderOk(p: Policy, s: Sys, w: Id)
    requires HolderOk(p, s) && w in s.deliveries
    ensures HolderOk(p, DoReserve(p, s, w))
  {
    var d := s.deliveries[w];
    var s' := DoReserve(p, s, w);
    if s' != s && Holds(s.run, w, s.now) {
      TakeFirst(d.pending);
      if !CanReserve(p, s.run, w, s.now) {
        SavedWorkOk(s.scores, s.run.metrics, d, s'.deliveries[w], d.pending[0], NOT_EXECUTED);
      } else {
        assert InHand(d, d.pending[0]);
      }
    }
  }

  lemma SubmitHolderOk(p: Policy, s: Sys, w: Id)
    requires HolderOk(p, s) && w in s.deliveries
    ensures HolderOk(p, DoSubmit(s, w))
  {
  }

  lemma FinishHolderOk(p: Policy, s: Sys, w: Id, c: Id, o: Outcome)
    requires HolderOk(p, s) && w in s.deliveries
    ensures HolderOk(p, DoFinish(p, s, w, c, o))
  {
    var d := s.deliveries[w];
    var s' := DoFinish(p, s, w, c, o);
    if s' != s && CanSave(s.run, w, s.now, ScoresOf(p, s.run.metrics, c, o)) {
      SavedWorkOk(s.scores, s.run.metrics, d, s'.deliveries[w], c, ScoresOf(p, s.run.metrics, c, o));
    }
  }

  lemma LoadHolderOk(p: Policy, s: Sys, w: Id)
    requires HolderOk(p, s) && FreshOk(s) && w in s.deliveries
    ensures HolderOk(p, DoLoad(p, s, w))
  {
  }

  /** A delivery that has not loaded yet has nothing in hand. */
  ghost predicate FreshOk(s: Sys) {
    forall w :: w in s.deliveries && s.deliveries[w].stage == Loading ==>
      s.deliveries[w].pending == [] && s.deliveries[w].granted == None && s.deliveries[w].futures == {}
  }

  lemma StepFreshOk(p: Policy, s: Sys, step: Step)
    requires FreshOk(s)
    ensures FreshOk(Apply(p, s, step))
  {
  }

  lemma StepHolderOk(p: Policy, s: Sys, step: Step)
    requires HolderOk(p, s) && FreshOk(s)
    ensures HolderOk(p, Apply(p, s, step))
  {
    match step
    case Load(w) =>
      if w in s.deliveries {
        LoadHolderOk(p, s, w);
      }
    case Reserve(w) =>
      if w in s.deliveries {
        ReserveHolderOk(p, s, w);
      }
    case Submit(w) =>
      if w in s.deliveries {
        SubmitHolderOk(p, s, w);
      }
    case Finish(w, c, o) =>
      if w in s.deliveries {
        FinishHolderOk(p, s, w, c, Execution(p, s.run, c, o));
      }
    case Claim(w) => OtherHolderOk(p, s, step);
    case Reject(w) => OtherHolderOk(p, s, step);
    case Conclude(w) => OtherHolderOk(p, s, step);
    case Crash(w) => OtherHolderOk(p, s, step);
    case Tick(_) => OtherHolderOk(p, s, step);
    case ForceFail => OtherHolderOk(p, s, step);
  }

  lemma OtherHolderOk(p: Policy, s: Sys, step: Step)
    requires HolderOk(p, s)
    requires step.Claim? || step.Reject? || step.Conclude? || step.Crash? || step.Tick? || step.ForceFail?
    ensures HolderOk(p, Apply(p, s, step))
  {
  }

  /** What a step may do to a case that is already judged: nothing, and no budget for it. */
  ghost predicate LeavesAlone(s: Sys, t: Sys, c: Id) {
    && Done(t, c) && |s.reservations| <= |t.reservations|
    && forall i :: |s.reservations| <= i < |t.reservations| ==> t.reservations[i].case_id != c
  }

  lemma ReserveLeavesAlone(p: Policy, s: Sys, w: Id, c: Id)
    requires HolderOk(p, s) && Done(s, c)
    ensures LeavesAlone(s, DoReserve(p, s, w), c)
  {
    if w in s.deliveries && DoReserve(p, s, w) != s && Holds(s.run, w, s.now) {
      var d := s.deliveries[w];
      assert InHand(d, d.pending[0]);
      SavedOther(s.scores, d.pending[0], NOT_EXECUTED, s.run.metrics, c);
    }
  }

  lemma FinishLeavesAlone(p: Policy, s: Sys, w: Id, x: Id, o: Outcome, c: Id)
    requires HolderOk(p, s) && Done(s, c)
    ensures LeavesAlone(s, DoFinish(p, s, w, x, o), c)
  {
    if w in s.deliveries && x in s.deliveries[w].futures && DoFinish(p, s, w, x, o) != s && Holds(s.run, w, s.now) {
      assert InHand(s.deliveries[w], x);
      SavedOther(s.scores, x, ScoresOf(p, s.run.metrics, x, o), s.run.metrics, c);
    }
  }

  lemma StepLeavesAlone(p: Policy, s: Sys, step: Step, c: Id)
    requires HolderOk(p, s) && Done(s, c)
    ensures LeavesAlone(s, Apply(p, s, step), c)
  {
    if step.Reserve? {
      ReserveLeavesAlone(p, s, step.w, c);
    } else if step.Finish? {
      FinishLeavesAlone(p, s, step.w, step.c, Execution(p, s.run, step.c, step.outcome), c);
    }
  }

  lemma {:induction false} StepsHolderOk(p: Policy, s: Sys, steps: seq<Step>)
    requires HolderOk(p, s) && FreshOk(s)
    ensures HolderOk(p, Steps(p, s, steps)) && FreshOk(Steps(p, s, steps))
  {
    if steps != [] {
      StepsHolderOk(p, s, steps[..|steps| - 1]);
      StepHolderOk(p, Steps(p, s, steps[..|steps| - 1]), steps[|steps| - 1]);
      StepFreshOk(p, Steps(p, s, steps[..|steps| - 1]), steps[|steps| - 1]);
    }
  }

  lemma StepKeepsCases(p: Policy, s: Sys, step: Step, i: nat)
    requires i < |s.reservations|
    ensures i < |Apply(p, s, step).reservations| && Apply(p, s, step).reservations[i].case_id == s.reservations[i].case_id
  {
  }

  /**
   * Once the query recognises a case as judged it stays judged, and no delivery of any later
   * attempt reserves budget for it again.
   */
  lemma {:induction false} JudgedCasesAreLeftAlone(p: Policy, s0: Sys, steps: seq<Step>, more: seq<Step>, c: Id)
    requires Created(p, s0) && Done(Steps(p, s0, steps), c)
    ensures LeavesAlone(Steps(p, s0, steps), Steps(p, s0, steps + more), c)
  {
    if more == [] {
      assert steps + more == steps;
    } else {
      var init, last := more[..|more| - 1], more[|more| - 1];
      JudgedCasesAreLeftAlone(p, s0, steps, init, c);
      StepsHolderOk(p, s0, steps + init);
      OneMoreLeftAlone(p, Steps(p, s0, steps), Steps(p, s0, steps + init), last, c);
      StepsLast(p, s0, steps, more);
    }
  }

  lemma StepsLast(p: Policy, s0: Sys, steps: seq<Step>, more: seq<Step>)
    requires more != []
    ensures Steps(p, s0, steps + more) == Apply(p, Steps(p, s0, steps + more[..|more| - 1]), more[|more| - 1])
  {
    assert (steps + more)[..|steps + more| - 1] == steps + more[..|more| - 1];
  }

  lemma OneMoreLeftAlone(p: Policy, s: Sys, t: Sys, step: Step, c: Id)
    requires LeavesAlone(s, t, c) && HolderOk(p, t)
    ensures LeavesAlone(s, Apply(p, t, step), c)
  {
    StepLeavesAlone(p, t, step, c);
    CasesStay(p, t, step);
    StillLeftAlone(s, t, Apply(p, t, step), c);
  }

  lemma StillLeftAlone(s: Sys, t: Sys, u: Sys, c: Id)
    requires LeavesAlone(s, t, c) && LeavesAlone(t, u, c)
    requires forall i :: 0 <= i < |t.reservations| ==> u.reservations[i].case_id == t.reservations[i].case_id
    ensures LeavesAlone(s, u, c)
  {
  }

  lemma StepsAppend(p: Policy, s: Sys, steps: seq<Step>, step: Step)
    ensures Steps(p, s, steps + [step]) == Apply(p, Steps(p, s, steps), step)
  {
    assert (steps + [step])[..|steps|] == steps;
  }

  /** A run that has succeeded or failed never changes again. */
  lemma {:induction false} FinishedRunsAreFinal(p: Policy, s: Sys, steps: seq<Step>)
    requires s.run.status == Succeeded || s.run.status == Failed
    ensures Steps(p, s, steps).run == s.run
  {
    if steps != [] {
      FinishedRunsAreFinal(p, s, steps[..|steps| - 1]);
    }
  }

  /**
   * A reserved case can be judged by the time it is submitted only if the delivery has lost
   * the run to another claim or to its end in between.
   */
  lemma {:induction false} JudgedSubmissionsAreLate(p: Policy, s0: Sys, steps: seq<Step>, w: Id)
    requires Created(p, s0)
    requires var s := Steps(p, s0, steps);
      && w in s.deliveries && s.deliveries[w].stage == Active && s.deliveries[w].granted.Some?
      && Done(s, s.deliveries[w].granted.value.case_id)
    ensures Steps(p, s0, steps).run.owner != Some(w)
  {
    StepsHolderOk(p, s0, steps);
    var d := Steps(p, s0, steps).deliveries[w];
    assert InHand(d, d.granted.value.case_id);
  }

  // ---- submissions ----

  /** A delivery between a reservation and its submission owns the run. */
  ghost predicate GrantsOwn(s: Sys) {
    forall w :: w in s.deliveries && s.deliveries[w].stage == Active && s.deliveries[w].granted.Some? ==>
      s.run.owner == Some(w)
  }

  /** No delivery loses the run between reserving for a case and submitting it. */
  ghost predicate KeepsLease(p: Policy, s: Sys, steps: seq<Step>) {
    GrantsOwn(Steps(p, s, steps)) && (steps != [] ==> KeepsLease(p, s, steps[..|steps| - 1]))
  }

  /** A grant names the reservation it came from. */
  ghost predicate SlotsOk(s: Sys) {
    forall w :: w in s.deliveries && s.deliveries[w].granted.Some? ==>
      && s.deliveries[w].granted.value.slot < |s.reservations|
      && s.reservations[s.deliveries[w].granted.value.slot].case_id == s.deliveries[w].granted.value.case_id
  }

  lemma {:induction false} StepsSlotsOk(p: Policy, s: Sys, steps: seq<Step>)
    requires SlotsOk(s)
    ensures SlotsOk(Steps(p, s, steps))
  {
    if steps != [] {
      StepsSlotsOk(p, s, steps[..|steps| - 1]);
      StepSlotsOk(p, Steps(p, s, steps[..|steps| - 1]), steps[|steps| - 1]);
    }
  }

  lemma StepSlotsOk(p: Policy, s: Sys, step: Step)
    requires SlotsOk(s)
    ensures SlotsOk(Apply(p, s, step))
  {
  }

  /** No reservation for the case was submitted that was not submitted before. */
  ghost predicate NotSubmittedAgain(s: Sys, t: Sys, c: Id) {
    forall i :: 0 <= i < |t.reservations| && t.reservations[i].case_id == c && t.reservations[i].submitted ==>
      i < |s.reservations| && s.reservations[i].submitted
  }

  /** The owner's grant is for a case that is still open. */
  lemma GrantIsOpen(p: Policy, s: Sys, w: Id)
    requires HolderOk(p, s) && s.run.owner == Some(w)
    requires w in s.deliveries && s.deliveries[w].stage == Active && s.deliveries[w].granted.Some?
    ensures !Done(s, s.deliveries[w].granted.value.case_id)
  {
    assert InHand(s.deliveries[w], s.deliveries[w].granted.value.case_id);
  }

  lemma StepNotSubmittedAgain(p: Policy, s: Sys, step: Step, c: Id)
    requires HolderOk(p, s) && SlotsOk(s) && GrantsOwn(s) && Done(s, c)
    ensures NotSubmittedAgain(s, Apply(p, s, step), c)
  {
    if step.Submit? && step.w in s.deliveries && s.deliveries[step.w].stage == Active
       && s.deliveries[step.w].granted.Some? {
      GrantIsOpen(p, s, step.w);
    }
  }

  /**
   * As long as no delivery loses the run between reserving and submitting, a case that is
   * recognised as judged is never submitted again, by any delivery of any attempt.
   */
  lemma {:induction false} JudgedCasesAreNotSubmittedAgain(p: Policy, s0: Sys, steps: seq<Step>, more: seq<Step>, c: Id)
    requires Created(p, s0) && Done(Steps(p, s0, steps), c) && KeepsLease(p, s0, steps + more)
    ensures NotSubmittedAgain(Steps(p, s0, steps), Steps(p, s0, steps + more), c)
  {
    if more == [] {
      assert steps + more == steps;
    } else {
      var init, last := more[..|more| - 1], more[|more| - 1];
      assert (steps + more)[..|steps + more| - 1] == steps + init;
      assert KeepsLease(p, s0, steps + init);
      JudgedCasesAreNotSubmittedAgain(p, s0, steps, init, c);
      JudgedCasesAreLeftAlone(p, s0, steps, init, c);
      OwnsAt(p, s0, steps + init);
      StepsHolderOk(p, s0, steps + init);
      StepsSlotsOk(p, s0, steps + init);
      OneMoreStep(p, Steps(p, s0, steps), Steps(p, s0, steps + init), last, c);
    }
  }

  lemma OneMoreStep(p: Policy, s: Sys, t: Sys, step: Step, c: Id)
    requires NotSubmittedAgain(s, t, c) && HolderOk(p, t) && SlotsOk(t) && GrantsOwn(t) && Done(t, c)
    ensures NotSubmittedAgain(s, Apply(p, t, step), c)
  {
    StepNotSubmittedAgain(p, t, step, c);
    CasesStay(p, t, step);
  }

  lemma OwnsAt(p: Policy, s: Sys, steps: seq<Step>)
    requires KeepsLease(p, s, steps)
    ensures GrantsOwn(Steps(p, s, steps))
  {
  }

  lemma CasesStay(p: Policy, s: Sys, step: Step)
    ensures var t := Apply(p, s, step);
      |s.reservations| <= |t.reservations| && forall i :: 0 <= i < |s.reservations| ==>
        t.reservations[i].case_id == s.reservations[i].case_id
  {
    forall i | 0 <= i < |s.reservations|
      ensures i < |Apply(p, s, step).reservations| && Apply(p, s, step).reservations[i].case_id == s.reservations[i].case_id
    {
      StepKeepsCases(p, s, step, i);
    }
  }

  /** Under the lease, a reservation is refused exactly when the next amount would pass the cap. */
  lemma {:induction false} ReservationRefusedExactly(p: Policy, s0: Sys, steps: seq<Step>, w: Id, s: Sys)
    requires Created(p, s0) && s == Steps(p, s0, steps) && Holds(s.run, w, s.now)
    ensures !CanReserve(p, s.run, w, s.now) <==>
      s.run.limit.Some? && Spent(p.amount, |s.reservations| + 1) > s.run.limit.value
  {
    CreatedRowOk(p, s0);
    StepsRowOk(p, s0, steps);
  }

  // ---- a metric named twice ----

  /** With a metric named twice no case ever counts as judged: every attempt takes on every case again. */
  lemma {:induction false} DuplicateMetricsRepeatEverything(cases: seq<Id>, scores: Scores, metrics: seq<Metric>)
    requires !Distinct(metrics)
    ensures Incomplete(cases, scores, metrics) == cases
  {
    if cases != [] {
      var init, last := cases[..|cases| - 1], cases[|cases| - 1];
      DuplicateMetricsRepeatEverything(init, scores, metrics);
      assert !Completed(scores, metrics, last) by {
        CompletedExactly(scores, metrics, last);
      }
      assert cases == init + [last];
    }
  }
}
