/** What every run of the Research Graph keeps, and how long it can take. */
module ResearchGraphTheorems {
  import opened Common
  import opened ResearchGraph
  import opened ResearchGraphCandidates

  function Times(m: Machine, n: Node): nat {
    multiset(m.trace)[n]
  }

  /** The most node executions a run may need. */
  function Bound(r: Request): nat {
    6 * r.maxRounds + 5
  }

  /** The next judgement may ask for another round on evidence not seen before. */
  predicate Progress(m: Machine) {
    m.node in {JudgeEvidence, ExpandLightweight, RefineQuery} && m.state.newEvidence && m.state.plan.Some?
  }

  /** Every run keeps: the rank bound, the node counts, and which way a run without a plan came. */
  ghost predicate Kept(r: Request, m: Machine) {
    && Reach(r, m.node, m.state)
    && |m.trace| + Rank(r, m.node, m.state) <= Bound(r)
    && Times(m, PlanEvidence) == m.state.round
    && Times(m, ExpandLightweight) == (if m.state.lightUsed then 1 else 0)
  }

  /** A run that expanded Wiki provenance never plans, and only such a run is judged without a plan. */
  ghost predicate PathKept(m: Machine) {
    && (m.node in {PrepareContext, SelectWiki, JudgeWiki, ExpandWikiSources} ==>
          ExpandWikiSources !in m.trace && RefineQuery !in m.trace && PlanEvidence !in m.trace)
    && (m.node in {PlanEvidence, SearchSources, MergeEvidence, RerankEvidence} ==> ExpandWikiSources !in m.trace)
    && (m.node in {JudgeEvidence, ExpandLightweight, RefineQuery} ==>
          (m.state.plan.None? <==> ExpandWikiSources in m.trace))
    && (m.node == AssertionFailed <==> RefineQuery in m.trace && ExpandWikiSources in m.trace)
  }

  ghost predicate RefinementsKept(m: Machine) {
    Times(m, RefineQuery) + (if Progress(m) then 1 else 0) <= |m.state.seen| + (if m.node == AssertionFailed then 1 else 0)
  }

  /** The Wiki gate opens only for a fresh Wiki over a non-empty raw corpus when the Web is off. */
  ghost predicate GateKept(r: Request, m: Machine) {
    m.node == SelectWiki || SelectWiki in m.trace ==>
      !r.webAllowed && HasWiki(r) && r.wikiFresh && TokenSum(Raw(r.chunks)) > 0
  }

  lemma StartKept(r: Request)
    ensures Kept(r, Start(r)) && PathKept(Start(r)) && RefinementsKept(Start(r)) && GateKept(r, Start(r))
  {
  }

  lemma StepKept(r: Request, m: Machine, a: Answer)
    requires r.maxRounds >= 1 && Kept(r, m)
    ensures Kept(r, Step(r, m, a))
  {
    if !Halted(m.node) {
      ExecuteReaches(r, m.node, m.state, a);
      ExecuteDescends(r, m.node, m.state, a);
      StepCounts(r, m, a);
    }
  }

  lemma StepCounts(r: Request, m: Machine, a: Answer)
    requires r.maxRounds >= 1 && Kept(r, m) && !Halted(m.node)
    ensures var m' := Step(r, m, a);
      Times(m', PlanEvidence) == m'.state.round && Times(m', ExpandLightweight) == (if m'.state.lightUsed then 1 else 0)
  {
    assert multiset(m.trace + [m.node]) == multiset(m.trace) + multiset{m.node};
  }

  lemma StepPath(r: Request, m: Machine, a: Answer)
    requires r.maxRounds >= 1 && Kept(r, m) && PathKept(m)
    ensures PathKept(Step(r, m, a))
  {
  }

  lemma Grows(seen: set<Id>, more: set<Id>)
    ensures |seen + more| >= |seen|
    ensures more - seen != {} ==> |seen + more| > |seen|
  {
    assert seen + more == seen + (more - seen);
    assert |seen + (more - seen)| == |seen| + |more - seen|;
  }

  lemma StepRefinements(r: Request, m: Machine, a: Answer)
    requires r.maxRounds >= 1 && Kept(r, m) && RefinementsKept(m)
    ensures RefinementsKept(Step(r, m, a))
  {
    if m.node == RerankEvidence {
      RerankSeen(r, m, a);
    } else if !Halted(m.node) {
      StepTimes(r, m, a, RefineQuery);
    }
  }

  lemma RerankSeen(r: Request, m: Machine, a: Answer)
    requires m.node == RerankEvidence && RefinementsKept(m)
    ensures RefinementsKept(Step(r, m, a))
  {
    StepTimes(r, m, a, RefineQuery);
    Grows(m.state.seen, Ids(LimitCandidates(m.state.merged, r.candidateLimit)));
  }

  lemma StepTimes(r: Request, m: Machine, a: Answer, n: Node)
    requires !Halted(m.node)
    ensures Times(Step(r, m, a), n) == Times(m, n) + (if m.node == n then 1 else 0)
  {
    assert multiset(m.trace + [m.node]) == multiset(m.trace) + multiset{m.node};
  }

  lemma StepGate(r: Request, m: Machine, a: Answer)
    requires GateKept(r, m)
    ensures GateKept(r, Step(r, m, a))
  {
  }

  lemma {:induction false} RunKept(r: Request, answers: seq<Answer>)
    requires r.maxRounds >= 1
    ensures var m := Run(r, answers); Kept(r, m) && PathKept(m) && RefinementsKept(m) && GateKept(r, m)
  {
    if answers == [] {
      StartKept(r);
    } else {
      var init, a := answers[..|answers| - 1], answers[|answers| - 1];
      RunKept(r, init);
      StepKept(r, Run(r, init), a);
      StepPath(r, Run(r, init), a);
      StepRefinements(r, Run(r, init), a);
      StepGate(r, Run(r, init), a);
    }
  }

  lemma {:induction false} RunLength(r: Request, answers: seq<Answer>)
    ensures Halted(Run(r, answers).node) || |Run(r, answers).trace| == |answers|
  {
    if answers != [] {
      RunLength(r, answers[..|answers| - 1]);
    }
  }

  // ---- main results ----

  /** Whatever the judges, planner and searches answer, a run halts within 6 R + 5 node executions. */
  lemma {:induction false} EveryRunHalts(r: Request, answers: seq<Answer>)
    requires r.maxRounds >= 1
    ensures |Run(r, answers).trace| <= Bound(r)
    ensures |answers| >= Bound(r) ==> Halted(Run(r, answers).node)
  {
    RunKept(r, answers);
    RunLength(r, answers);
  }

  /** Evidence is planned at most R times, the lightweight fallback taken at most once. */
  lemma {:induction false} LoopsAreBounded(r: Request, answers: seq<Answer>)
    requires r.maxRounds >= 1
    ensures var m := Run(r, answers); Times(m, PlanEvidence) == m.state.round <= r.maxRounds && Times(m, ExpandLightweight) <= 1
  {
    RunKept(r, answers);
  }

  /** Each refinement that went through was paid for by at least one candidate never seen before. */
  lemma {:induction false} RefinementsNeedNewEvidence(r: Request, answers: seq<Answer>)
    requires r.maxRounds >= 1
    ensures var m := Run(r, answers); m.node != AssertionFailed ==> Times(m, RefineQuery) <= |m.state.seen|
  {
    RunKept(r, answers);
  }

  /**
   * The assertion that a plan exists fails exactly when a query is refined in a run that
   * came through the Wiki's provenance; no other node ever lacks its plan.
   */
  lemma {:induction false} AssertionFailsExactly(r: Request, answers: seq<Answer>)
    requires r.maxRounds >= 1
    ensures var m := Run(r, answers);
      m.node == AssertionFailed <==> RefineQuery in m.trace && ExpandWikiSources in m.trace
  {
    RunKept(r, answers);
  }

  /** Continuing a run on five answers. */
  function Five(r: Request, m: Machine, a: seq<Answer>): Machine
    requires |a| == 5
  {
    Step(r, Step(r, Step(r, Step(r, Step(r, m, a[0]), a[1]), a[2]), a[3]), a[4])
  }

  /** What the judge has to say for a query to be refined. */
  predicate AsksForMore(a: Assessment) {
    !a.sufficient && !a.degraded && a.missing != []
  }

  /** What the lightweight fallback makes of `evidence` in a run without a plan. */
  function WithLight(r: Request, evidence: seq<Entry>): seq<Entry> {
    Pack(DedupById(evidence + OnlyLight(ScopedRaw(r, None))), r.contextLimit)
  }

  /** The assessment that decides: the one after the lightweight fallback when that is still to be tried. */
  function Deciding(r: Request, evidence: seq<Entry>, first: Judgement, second: Judgement): Assessment {
    var a := Assess(r, evidence, first);
    if !a.sufficient && OnlyLight(evidence) != [] then Assess(r, WithLight(r, evidence), second) else a
  }

  /** About to expand Wiki provenance. */
  ghost predicate AtProvenance(m: Machine) {
    m.node == ExpandWikiSources && m.state.plan.None? && m.state.round == 0 && !m.state.lightUsed
  }

  /** Judged without a plan: the next node, from the judgement alone. */
  lemma JudgedWithoutPlan(r: Request, m: Machine, a: Answer)
    requires r.maxRounds >= 1 && m.node == JudgeEvidence && m.state.plan.None? && m.state.round == 0
    ensures var t, assessed := Step(r, m, a), Assess(r, m.state.reranked, a.judgement);
      && t.state == m.state.(assessment := assessed)
      && t.node == (if !assessed.sufficient && m.state.hasLight && !m.state.lightUsed then ExpandLightweight
                    else if m.state.newEvidence && AsksForMore(assessed) then RefineQuery
                    else Generate)
  {
  }

  lemma RefinedWithoutPlan(r: Request, m: Machine, a: Answer)
    requires m.state.plan.None?
    ensures m.node == RefineQuery ==> Step(r, m, a).node == AssertionFailed
    ensures m.node == Generate ==> Step(r, m, a).node == End
  {
  }

  lemma ProvenanceExpanded(r: Request, m: Machine, a: Answer)
    requires AtProvenance(m)
    ensures var t, evidence := Step(r, m, a), Pack(m.state.sources, r.evidenceBudget);
      && t.node == JudgeEvidence && t.state.plan.None? && t.state.round == 0 && !t.state.lightUsed
      && t.state.newEvidence == (evidence != []) && t.state.hasLight == (OnlyLight(evidence) != [])
      && t.state.reranked == evidence
  {
  }

  lemma FallbackTaken(r: Request, m: Machine, a: Answer)
    requires m.node == ExpandLightweight
    ensures var t := Step(r, m, a);
      && t.node == JudgeEvidence && t.state.lightUsed && t.state.plan == m.state.plan && t.state.round == m.state.round
      && t.state.newEvidence == m.state.newEvidence
      && (m.state.plan.None? ==> t.state.reranked == WithLight(r, m.state.reranked))
  {
  }

  /**
   * In terms of the answers: once provenance is expanded, the run stops on the missing plan if and
   * only if the packed sources are not empty and the deciding assessment is insufficient, not
   * degraded and names missing facets; it is the second one exactly when the first was
   * insufficient and the packed sources include lightweight evidence.
   */
  lemma {:induction false} ProvenanceStopsExactly(r: Request, m: Machine, a: seq<Answer>)
    requires r.maxRounds >= 1 && AtProvenance(m) && |a| == 5
    ensures var evidence := Pack(m.state.sources, r.evidenceBudget);
      && Halted(Five(r, m, a).node)
      && (Five(r, m, a).node == AssertionFailed <==>
            evidence != [] && AsksForMore(Deciding(r, evidence, a[1].judgement, a[3].judgement)))
  {
    var m1 := Step(r, m, a[0]);
    var m2 := Step(r, m1, a[1]);
    var m3 := Step(r, m2, a[2]);
    ProvenanceExpanded(r, m, a[0]);
    JudgedWithoutPlan(r, m1, a[1]);
    if m2.node == ExpandLightweight {
      FallbackTaken(r, m2, a[2]);
      JudgedWithoutPlan(r, m3, a[3]);
      RefinedWithoutPlan(r, Step(r, m3, a[3]), a[4]);
    } else {
      RefinedWithoutPlan(r, m2, a[2]);
    }
  }

  lemma RunFive(r: Request, before: seq<Answer>, a: seq<Answer>)
    requires |a| == 5
    ensures Run(r, before + a) == Five(r, Run(r, before), a)
  {
    var b1 := before + [a[0]];
    var b2 := b1 + [a[1]];
    var b3 := b2 + [a[2]];
    var b4 := b3 + [a[3]];
    RunStep(r, before, a[0]);
    RunStep(r, b1, a[1]);
    RunStep(r, b2, a[2]);
    RunStep(r, b3, a[3]);
    RunStep(r, b4, a[4]);
    OneByOne(before, a);
  }

  lemma OneByOne(before: seq<Answer>, a: seq<Answer>)
    requires |a| == 5
    ensures before + [a[0]] + [a[1]] + [a[2]] + [a[3]] + [a[4]] == before + a
  {
  }

  /** The same over whole runs: what the answers after reaching the provenance node decide. */
  lemma {:induction false} AssertionFailsOnAnswers(r: Request, before: seq<Answer>, a: seq<Answer>)
    requires r.maxRounds >= 1 && Run(r, before).node == ExpandWikiSources && |a| == 5
    ensures var evidence := Pack(Run(r, before).state.sources, r.evidenceBudget);
      Run(r, before + a).node == AssertionFailed <==>
        evidence != [] && AsksForMore(Deciding(r, evidence, a[1].judgement, a[3].judgement))
  {
    RunKept(r, before);
    RunFive(r, before, a);
    ProvenanceStopsExactly(r, Run(r, before), a);
  }

  /** The Wiki is consulted only when it is fresh and raw evidence exists. */
  lemma {:induction false} WikiOnlyWhenFresh(r: Request, answers: seq<Answer>)
    requires r.maxRounds >= 1 && SelectWiki in Run(r, answers).trace
    ensures !r.webAllowed && HasWiki(r) && r.wikiFresh && TokenSum(Raw(r.chunks)) > 0
  {
    RunKept(r, answers);
  }

  // ---- Wiki pages as final evidence ----

  ghost predicate NoWiki(es: seq<Entry>) {
    forall e :: e in es ==> !e.wiki
  }

  /** Searches hand back raw or Web entries only. */
  ghost predicate RawAnswer(a: Answer) {
    NoWiki(a.local) && NoWiki(a.web)
  }

  lemma {:induction false} RawHasNoWiki(es: seq<Entry>)
    ensures NoWiki(Raw(es))
    ensures forall e :: e in Raw(es) ==> e in es
  {
    if es != [] {
      RawHasNoWiki(es[..|es| - 1]);
    }
  }

  lemma {:induction false} FiltersKeep(es: seq<Entry>, scope: set<Id>)
    ensures forall e :: e in OnlyLight(es) ==> e in es
    ensures forall e :: e in OnlyVector(es) ==> e in es
    ensures forall e :: e in InScope(es, scope) ==> e in es
  {
    if es != [] {
      FiltersKeep(es[..|es| - 1], scope);
    }
  }

  lemma {:induction false} ResolveKeeps(raw: seq<Entry>, ids: seq<Id>)
    ensures forall e :: e in Resolve(raw, ids) ==> e in raw
  {
    if ids != [] {
      ResolveKeeps(raw, ids[..|ids| - 1]);
    }
  }

  lemma ScopedRawHasNoWiki(r: Request, plan: Option<Plan>)
    ensures NoWiki(ScopedRaw(r, plan)) && NoWiki(OnlyLight(ScopedRaw(r, plan)))
  {
    RawHasNoWiki(r.chunks);
    FiltersKeep(Raw(r.chunks), if plan.Some? then plan.value.scope else {});
    FiltersKeep(ScopedRaw(r, plan), {});
  }

  ghost predicate FinalKept(r: Request, m: Machine) {
    && NoWiki(m.state.sources) && NoWiki(m.state.reranked)
    && NoWiki(m.state.local) && NoWiki(m.state.web) && NoWiki(m.state.merged)
    && (m.node in {JudgeEvidence, ExpandLightweight, RefineQuery} ==> NoWiki(m.state.final))
    && (m.node == Generate || m.node == End ==>
          NoWiki(m.state.final) || (WikiSuffices(r, m.state.assessment) && JudgeWiki in m.trace))
    && (JudgeEvidence in m.trace && m.node in {Generate, End} ==> NoWiki(m.state.final))
    && (m.node in {PrepareContext, SelectWiki, JudgeWiki} ==> m.state.final == [] && JudgeEvidence !in m.trace)
  }

  lemma RerankKeepsRaw(r: Request, s: State, a: Answer)
    requires NoWiki(s.merged)
    ensures NoWiki(RerankUpdate(r, s, a).final)
  {
    var candidates := LimitCandidates(s.merged, r.candidateLimit);
    CandidatesAreMerged(s.merged, r.candidateLimit);
    FiltersKeep(candidates, {});
    ResolveKeeps(OnlyVector(candidates), a.ranking);
  }

  lemma StepFinal(r: Request, m: Machine, a: Answer)
    requires RawAnswer(a) && FinalKept(r, m)
    ensures FinalKept(r, Step(r, m, a))
  {
    if m.node == JudgeWiki {
      JudgedWikiFinal(r, m, a);
    } else if m.node == RerankEvidence {
      RerankKeepsRaw(r, m.state, a);
    } else if m.node == ExpandLightweight {
      LightFinal(r, m, a);
    }
  }

  lemma JudgedWikiFinal(r: Request, m: Machine, a: Answer)
    requires FinalKept(r, m) && m.node == JudgeWiki
    ensures FinalKept(r, Step(r, m, a))
  {
    ResolveKeeps(ScopedRaw(r, m.state.plan), Dedup(SourcesOf(m.state.wiki)));
    ScopedRawHasNoWiki(r, m.state.plan);
  }

  lemma LightFinal(r: Request, m: Machine, a: Answer)
    requires FinalKept(r, m) && m.node == ExpandLightweight
    ensures FinalKept(r, Step(r, m, a))
  {
    ScopedRawHasNoWiki(r, m.state.plan);
  }

  lemma {:induction false} RunFinal(r: Request, answers: seq<Answer>)
    requires forall a :: a in answers ==> RawAnswer(a)
    ensures FinalKept(r, Run(r, answers))
  {
    if answers != [] {
      var init, a := answers[..|answers| - 1], answers[|answers| - 1];
      assert a in answers && forall x :: x in init ==> x in answers;
      RunFinal(r, init);
      StepFinal(r, Run(r, init), a);
    }
  }

  /** The judge's word is enough to answer a question from the Wiki alone. */
  predicate Suits(r: Request, j: Judgement) {
    j.Judged? && j.sufficient && j.confidence >= r.threshold && !j.needsRaw
  }

  /** The question needs no raw evidence, and the judgement given at the Wiki node suits it. */
  ghost predicate JudgedFit(r: Request, answers: seq<Answer>, trace: seq<Node>) {
    && !r.exact && |trace| <= |answers|
    && exists i :: 0 <= i < |trace| && trace[i] == JudgeWiki && Suits(r, answers[i].judgement)
  }

  ghost predicate FinalFit(r: Request, answers: seq<Answer>, m: Machine) {
    && (m.node in {Generate, End} && !NoWiki(m.state.final) ==> JudgedFit(r, answers, m.trace))
    && (m.node in {PrepareContext, SelectWiki, JudgeWiki} ==> m.state.final == [])
  }

  lemma FitStays(r: Request, answers: seq<Answer>, trace: seq<Node>, a: Answer, n: Node)
    requires JudgedFit(r, answers, trace) && |trace| == |answers|
    ensures JudgedFit(r, answers + [a], trace + [n])
  {
    var i :| 0 <= i < |trace| && trace[i] == JudgeWiki && Suits(r, answers[i].judgement);
    assert (trace + [n])[i] == JudgeWiki && (answers + [a])[i] == answers[i];
  }

  lemma JudgeWikiFits(r: Request, answers: seq<Answer>, m: Machine, a: Answer)
    requires m.node == JudgeWiki && |m.trace| == |answers| && Step(r, m, a).node == Generate
    ensures JudgedFit(r, answers + [a], Step(r, m, a).trace)
  {
    var n := |answers|;
    assert Step(r, m, a).trace[n] == JudgeWiki && (answers + [a])[n] == a;
    assert WikiSuffices(r, Assess(r, m.state.wiki, a.judgement));
  }

  lemma StepFit(r: Request, answers: seq<Answer>, m: Machine, a: Answer)
    requires RawAnswer(a) && FinalKept(r, m) && FinalFit(r, answers, m)
    requires !Halted(m.node) && |m.trace| == |answers|
    ensures FinalFit(r, answers + [a], Step(r, m, a))
  {
    StepFinal(r, m, a);
    if m.node == JudgeWiki && Step(r, m, a).node == Generate {
      JudgeWikiFits(r, answers, m, a);
    } else if m.node == Generate && !NoWiki(m.state.final) {
      FitStays(r, answers, m.trace, a, Generate);
    }
  }

  lemma HaltedFit(r: Request, answers: seq<Answer>, m: Machine, a: Answer)
    requires FinalFit(r, answers, m) && Halted(m.node)
    ensures FinalFit(r, answers + [a], Step(r, m, a))
  {
    if m.node == End && !NoWiki(m.state.final) {
      var i :| 0 <= i < |m.trace| && m.trace[i] == JudgeWiki && Suits(r, answers[i].judgement);
      assert (answers + [a])[i] == answers[i];
    }
  }

  lemma {:induction false} RunFit(r: Request, answers: seq<Answer>)
    requires forall a :: a in answers ==> RawAnswer(a)
    ensures FinalFit(r, answers, Run(r, answers))
  {
    if answers != [] {
      var init, a := answers[..|answers| - 1], answers[|answers| - 1];
      assert a in answers && forall x :: x in init ==> x in answers;
      assert answers == init + [a];
      RunFit(r, init);
      RunFinal(r, init);
      RunLength(r, init);
      if Halted(Run(r, init).node) {
        HaltedFit(r, init, Run(r, init), a);
      } else {
        StepFit(r, init, Run(r, init), a);
      }
    }
  }

  /**
   * A finished run answers from a Wiki page only if the gate was open, the question itself does
   * not call for raw evidence, and the judgement given at the Wiki node was sufficient, confident
   * enough and not in need of raw evidence.
   */
  lemma {:induction false} WikiAnswersOnlyThroughTheGate(r: Request, answers: seq<Answer>)
    requires r.maxRounds >= 1 && forall a :: a in answers ==> RawAnswer(a)
    ensures var m := Run(r, answers);
      m.node == End && !NoWiki(m.state.final) ==>
        && JudgedFit(r, answers, m.trace) && JudgeEvidence !in m.trace
        && HasWiki(r) && r.wikiFresh && !r.webAllowed
  {
    RunFinal(r, answers);
    RunFit(r, answers);
    RunKept(r, answers);
    JudgedAfterSelect(r, answers);
  }

  /** A question that calls for raw evidence is never answered from a Wiki page. */
  lemma {:induction false} ExactQuestionsGetRawEvidence(r: Request, answers: seq<Answer>)
    requires r.maxRounds >= 1 && r.exact && forall a :: a in answers ==> RawAnswer(a)
    ensures Run(r, answers).node == End ==> NoWiki(Run(r, answers).state.final)
  {
    WikiAnswersOnlyThroughTheGate(r, answers);
  }

  lemma StepAfterSelect(r: Request, m: Machine, a: Answer)
    requires m.node == JudgeWiki || JudgeWiki in m.trace ==> SelectWiki in m.trace
    ensures var t := Step(r, m, a); t.node == JudgeWiki || JudgeWiki in t.trace ==> SelectWiki in t.trace
  {
  }

  lemma {:induction false} JudgedAfterSelect(r: Request, answers: seq<Answer>)
    ensures var m := Run(r, answers); m.node == JudgeWiki || JudgeWiki in m.trace ==> SelectWiki in m.trace
  {
    if answers != [] {
      var init, last := answers[..|answers| - 1], answers[|answers| - 1];
      JudgedAfterSelect(r, init);
      StepAfterSelect(r, Run(r, init), last);
    }
  }
}
