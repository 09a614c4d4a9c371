/** A judged case submitted again: the run that shows why the lease between reserving and submitting matters. */
module EvaluationExamples {
  import opened CaseScoring
  import opened Common
  import opened EvaluationRuns
  import opened EvaluationStore
  import SentenceSplit

  /** One case and the runner's default settings. */
  function Small(discount: nat -> real): Policy {
    Policy(3, LEASE, AMOUNT, [7], map[], map[7 := "?"], MODEL, discount)
  }

  const LEASE := 1800
  const AMOUNT := 0.05
  const MODEL := "m"
  const PIPELINE := Some(Pipeline(MODEL, PROMPT))

  const REQUEST: seq<Metric> := [SCHEMA_VALID]
  const CREATED := Sys(Run(Pending, 0, None, 0, 0.0, Some(1.0), true, true, REQUEST, PIPELINE), map[], map[], [], 0, 0)
  const PLAIN := Ran(PipelineResult("an answer", [1], [1]), 0.0)

  function Reserving(w: Id): seq<Step> {
    [Claim(w), Load(w), Reserve(w)]
  }

  /** Delivery 1 reserves and stalls; delivery 2 takes over, executes the case and saves it. */
  function Overtaken(): seq<Step> {
    Reserving(1) + [Tick(LEASE + 1)] + Reserving(2) + [Submit(2)] + [Finish(2, 7, PLAIN)]
  }

  lemma ThreeSteps(p: Policy, s: Sys, before: seq<Step>, w: Id)
    ensures Steps(p, s, before + Reserving(w))
         == DoReserve(p, DoLoad(p, DoClaim(p, Steps(p, s, before), w), w), w)
  {
    StepsAppend(p, s, before, Claim(w));
    StepsAppend(p, s, before + [Claim(w)], Load(w));
    StepsAppend(p, s, before + [Claim(w)] + [Load(w)], Reserve(w));
    assert before + [Claim(w)] + [Load(w)] + [Reserve(w)] == before + Reserving(w);
  }

  lemma OpenCase(p: Policy)
    requires p.cases == [7]
    ensures Incomplete(p.cases, map[], REQUEST) == [7]
  {
    var none: Scores := map[];
    assert NamesJudged(none, REQUEST, 7) == {};
    assert p.cases[..0] == [];
    assert !Completed(none, REQUEST, 7);
  }

  const GRANTED := Delivery(Active, [], Some(Grant(0, 7)), {}, 0, 0)

  lemma FirstReserves(discount: nat -> real)
    ensures Steps(Small(discount), CREATED, Reserving(1))
         == Sys(Run(Running, 1, Some(1), LEASE, AMOUNT, Some(1.0), true, true, REQUEST, PIPELINE), map[], map[1 := GRANTED],
                [Reservation(1, 7, false)], 1, 0)
  {
    var p := Small(discount);
    ThreeSteps(p, CREATED, [], 1);
    assert [] + Reserving(1) == Reserving(1);
    OpenCase(p);
    assert [7][1..] == [];
  }

  /** Delivery 2 has submitted the case; delivery 1 still holds its grant. */
  ghost predicate TakenOver(s: Sys) {
    && s.run == Run(Running, 2, Some(2), 2 * LEASE + 1, 2.0 * AMOUNT, Some(1.0), true, true, REQUEST, PIPELINE)
    && s.scores == map[] && s.now == LEASE + 1
    && s.deliveries.Keys == {1, 2} && s.deliveries[1] == GRANTED
    && s.deliveries[2] == Delivery(Active, [], None, {7}, 0, 0)
    && s.reservations == [Reservation(1, 7, false), Reservation(2, 7, true)]
  }

  lemma SecondTakesOver(discount: nat -> real)
    ensures TakenOver(Steps(Small(discount), CREATED, Reserving(1) + [Tick(LEASE + 1)] + Reserving(2) + [Submit(2)]))
  {
    var p := Small(discount);
    FirstReserves(discount);
    StepsAppend(p, CREATED, Reserving(1), Tick(LEASE + 1));
    ThreeSteps(p, CREATED, Reserving(1) + [Tick(LEASE + 1)], 2);
    OpenCase(p);
    assert [7][1..] == [];
    StepsAppend(p, CREATED, Reserving(1) + [Tick(LEASE + 1)] + Reserving(2), Submit(2));
  }

  lemma CaseIsExecutable(discount: nat -> real)
    ensures forall r: Run :: r.pipeline == PIPELINE ==> Executable(Small(discount), r, 7)
  {
    SentenceSplit.StripVisible("?");
    assert SentenceSplit.Trimmed("?");
  }

  lemma SchemaScored(p: Policy)
    ensures ScoresOf(p, REQUEST, 7, PLAIN) == [SchemaScore(PLAIN.result)]
  {
    var cs := Candidates(p.discount, p.Expected(7), PLAIN.result, PLAIN.faithfulness);
    CandidateNames(p.discount, p.Expected(7), PLAIN.result, PLAIN.faithfulness);
    WantedSingle(cs, SCHEMA_VALID);
    assert cs[0] == SchemaScore(PLAIN.result);
  }

  lemma SavingJudges(score: Score)
    requires score.name == SCHEMA_VALID && score.passed.Some?
    ensures Completed(Saved(map[], 7, [score]), REQUEST, 7)
  {
    var none: Scores := map[];
    var ss := [score];
    var init := ss[..|ss| - 1];
    assert init == [] && DropExecution(none, 7) == none;
    assert UpsertAll(none, 7, ss) == Upsert(UpsertAll(none, 7, init), 7, ss[|ss| - 1]);
    var t := Saved(none, 7, ss);
    assert t == Upsert(none, 7, score);
    var k := Key(7, score.name, score.version);
    assert k in t;
    assert NamesJudged(t, REQUEST, 7) == {SCHEMA_VALID};
  }

  lemma FinishedByTwo(p: Policy, s: Sys, o: Outcome, score: Score)
    requires TakenOver(s) && o.Ran? && ScoresOf(p, REQUEST, 7, o) == [score]
    requires score.name == SCHEMA_VALID && score.passed.Some?
    ensures var t := DoFinish(p, s, 2, 7, o);
      && Done(t, 7) && t.deliveries.Keys == {1, 2} && t.deliveries[1] == GRANTED
      && t.reservations == [Reservation(1, 7, false), Reservation(2, 7, true)] && t.run.owner == Some(2)
  {
    SavingJudges(score);
    assert CanSave(s.run, 2, s.now, [score]);
  }

  lemma FinishRuns(p: Policy, s: Sys, o: Outcome)
    requires Executable(p, s.run, 7) && o.Ran? && o.result.retrieved != []
    ensures Apply(p, s, Finish(2, 7, o)) == DoFinish(p, s, 2, 7, o)
  {
    assert Execution(p, s.run, 7, o) == o;
  }

  lemma SecondJudges(discount: nat -> real)
    ensures var s := Steps(Small(discount), CREATED, Overtaken());
      && Done(s, 7) && s.deliveries.Keys == {1, 2} && s.deliveries[1] == GRANTED
      && s.reservations == [Reservation(1, 7, false), Reservation(2, 7, true)] && s.run.owner == Some(2)
  {
    var p := Small(discount);
    SecondTakesOver(discount);
    var before := Reserving(1) + [Tick(LEASE + 1)] + Reserving(2) + [Submit(2)];
    StepsAppend(p, CREATED, before, Finish(2, 7, PLAIN));
    SchemaScored(p);
    CaseIsExecutable(discount);
    var s := Steps(p, CREATED, before);
    assert PLAIN.result.retrieved[0] == 1;
    FinishRuns(p, s, PLAIN);
    FinishedByTwo(p, s, PLAIN, SchemaScore(PLAIN.result));
  }

  /** The stalled delivery wakes up and submits the judged case: the law fails without the lease condition. */
  lemma JudgedCaseSubmittedAgain(discount: nat -> real)
    ensures Created(Small(discount), CREATED)
    ensures Done(Steps(Small(discount), CREATED, Overtaken()), 7)
    ensures !NotSubmittedAgain(Steps(Small(discount), CREATED, Overtaken()),
                               Steps(Small(discount), CREATED, Overtaken() + [Submit(1)]), 7)
    ensures !KeepsLease(Small(discount), CREATED, Overtaken())
  {
    var p := Small(discount);
    SecondJudges(discount);
    StepsAppend(p, CREATED, Overtaken(), Submit(1));
    var t := Steps(p, CREATED, Overtaken() + [Submit(1)]);
    assert t.reservations[0] == Reservation(1, 7, true);
    var s := Steps(p, CREATED, Overtaken());
    assert 1 in s.deliveries && !GrantsOwn(s);
  }
}
