/** Runs of the Research Graph that reach its limits. */
module ResearchGraphExamples {
  import opened Common
  import opened ResearchGraph
  import opened ResearchGraphTheorems

  const SHORT := Entry(0, Some(100), false, false, false, 1, [])
  const UNSURE := Judged(false, 0.0, false, [0])

  /** A Wiki page over the given raw chunks. */
  function Page(sources: seq<Id>): Entry {
    Entry(1, None, true, false, false, 1, sources)
  }

  /** The `i`-th chunk of a long document. */
  function Vector(i: nat): Entry {
    Entry(i + 2, Some(101), false, false, true, 1, [])
  }

  function Vectors(n: nat): seq<Entry> {
    seq(n, i requires 0 <= i < n => Vector(i))
  }

  /** A fresh Wiki without provenance over a short and a long document. */
  function Stubborn(rounds: nat): Request {
    Request([Page([]), SHORT] + Vectors(6 * rounds + 5), false, true, false, 0.8, rounds, 8000, 12000, 30)
  }

  /**
   * The answers to node number `i`: the judge is never satisfied, a search finds the next chunk
   * of the long document, and the reranker returns the one candidate.
   */
  function Novelty(i: nat): Answer {
    Answer(UNSURE, {}, false, [1], [Vector(i)], [], [i])
  }

  function Novelties(n: nat): seq<Answer> {
    seq(n, i requires 0 <= i < n => Novelty(i))
  }

  /** Every chunk a search of the run finds is in the corpus. */
  lemma FoundInCorpus(rounds: nat, i: nat)
    requires i < 6 * rounds + 5
    ensures Vector(i) in Stubborn(rounds).chunks
  {
    assert Stubborn(rounds).chunks[i + 2] == Vector(i);
  }

  lemma HitsAreInCorpus(rounds: nat, n: nat)
    requires n <= 6 * rounds + 5
    ensures forall i, e :: 0 <= i < n && e in Novelties(n)[i].local ==> e in Stubborn(rounds).chunks
  {
    forall i, e | 0 <= i < n && e in Novelties(n)[i].local
      ensures e in Stubborn(rounds).chunks
    {
      FoundInCorpus(rounds, i);
      assert Novelties(n)[i] == Novelty(i);
    }
  }

  lemma NoveltiesStep(r: Request, n: nat)
    ensures Run(r, Novelties(n + 1)) == Step(r, Run(r, Novelties(n)), Novelty(n))
  {
    assert Novelties(n + 1) == Novelties(n) + [Novelty(n)];
    RunStep(r, Novelties(n), Novelty(n));
  }

  lemma {:induction false} Members(es: seq<Entry>, e: Entry)
    ensures e in Raw(es) <==> e in es && !e.wiki
    ensures e in OnlyLight(es) <==> e in es && !e.vector
    ensures e in es ==> TokenSum(es) > 0
  {
    if es != [] {
      Members(es[..|es| - 1], e);
      assert es == es[..|es| - 1] + [es[|es| - 1]];
    }
  }

  lemma ShortIsRaw(rounds: nat)
    ensures SHORT in Raw(Stubborn(rounds).chunks) && TokenSum(Raw(Stubborn(rounds).chunks)) > 0
    ensures HasWiki(Stubborn(rounds))
  {
    var es := Stubborn(rounds).chunks;
    assert es[0] == Page([]) && es[1] == SHORT;
    assert Page([]) in es && SHORT in es;
    Members(es, SHORT);
    Members(Raw(es), SHORT);
  }

  lemma {:induction false} NoScope(es: seq<Entry>)
    ensures InScope(es, {}) == []
  {
    if es != [] {
      NoScope(es[..|es| - 1]);
    }
  }

  lemma ShortInScope(rounds: nat)
    ensures SHORT in OnlyLight(ScopedRaw(Stubborn(rounds), Some(Plan({}, false))))
  {
    ShortIsRaw(rounds);
    NoScope(Raw(Stubborn(rounds).chunks));
    Members(Raw(Stubborn(rounds).chunks), SHORT);
  }

  /** The page is selected, names no raw chunk, and is judged. */
  lemma {:induction false} SelectedPage(es: seq<Entry>, page: Entry)
    requires |es| >= 1 && es[0] == page && page.wiki && page.id == 1
    requires forall i :: 1 <= i < |es| ==> !es[i].wiki
    ensures OnlyWiki(es) == [page] && Resolve(OnlyWiki(es), Dedup([1])) == [page]
  {
    if |es| == 1 {
      assert es[..0] == [];
    } else {
      SelectedPage(es[..|es| - 1], page);
    }
    var one: seq<Id> := [1];
    assert one[..0] == [] && Dedup(one) == one;
    assert page in [page] && 1 in Ids([page]);
    assert Resolve([page], []) == [];
  }

  /** A search that finds one chunk with a vector, and a ranking that names it. */
  lemma OneCandidate(e: Entry, id: Id)
    requires e.vector && !e.web && e.id == id && e.tokens == 1
    ensures DedupById([e] + []) == [e]
    ensures LimitCandidates([e], 30) == [e]
    ensures Resolve(OnlyVector([e]), [id]) == [e] && OnlyLight([e]) == [] && Pack([e] + [], 8000) == [e]
  {
    var es, ids: seq<Id> := [e], [id];
    assert es[..0] == [] && ids[..0] == [] && es + [] == es;
    assert DedupById([]) == [] && OnlyLocal([]) == [] && OnlyWeb([]) == [] && OnlyVector([]) == [] && OnlyLight([]) == [];
    assert OnlyLocal(es) == es && OnlyWeb(es) == [] && OnlyVector(es) == es;
    assert LocalLimit(es, 30) == 30 && Diversified([], 30) == [] && Diversified(es, 30) == es;
    assert e in es && id in Ids(es);
    assert Others([], Ids(es)) == [] && Others(es, Ids(es)) == [];
    assert Resolve(es, []) == [] && Resolve(es, ids) == es;
    assert Pack([], 8000) == [];
  }

  lemma MergeOne(r: Request, m: Machine, a: Answer, e: Entry, id: Id)
    requires m.node == MergeEvidence && m.state.local == [e] && m.state.web == []
    requires e.vector && !e.web && e.id == id && e.tokens == 1
    ensures Step(r, m, a) == Machine(RerankEvidence, m.state.(merged := [e]), m.trace + [MergeEvidence])
  {
    OneEntry(e);
  }

  lemma OneEntry(e: Entry)
    ensures DedupById([e] + []) == [e]
  {
    var es := [e];
    assert es[..0] == [] && es + [] == es && DedupById([]) == [];
  }

  lemma IdsOne(e: Entry, seen: set<Id>)
    ensures Ids([e]) == {e.id}
    ensures (Ids([e]) - seen != {}) == (e.id !in seen)
  {
    assert e in [e];
    if e.id !in seen {
      assert e.id in Ids([e]) - seen;
    } else {
      assert Ids([e]) - seen == {};
    }
  }

  /** What reranking one merged entry with a vector leaves. */
  function Reranked(s: State, e: Entry): State {
    s.(candidates := [e], newEvidence := e.id !in s.seen, seen := s.seen + {e.id}, reranked := [e], final := [e])
  }

  lemma RerankOne(r: Request, s: State, a: Answer, e: Entry)
    requires s.merged == [e] && a.ranking == [e.id] && r.candidateLimit == 30 && r.evidenceBudget == 8000
    requires e.vector && !e.web && e.tokens == 1
    ensures RerankUpdate(r, s, a) == Reranked(s, e)
  {
    OneCandidate(e, e.id);
    IdsOne(e, s.seen);
    var candidates := LimitCandidates(s.merged, r.candidateLimit);
    assert candidates == [e];
    assert Pack(Resolve(OnlyVector(candidates), a.ranking) + OnlyLight(candidates), r.evidenceBudget) == [e];
  }

  lemma {:induction false} PacksSomething(es: seq<Entry>, budget: nat)
    requires es != [] && es[0].tokens <= budget
    ensures Pack(es, budget) != []
  {
    if |es| > 1 {
      PacksSomething(es[..|es| - 1], budget);
    } else {
      assert es[..0] == [];
    }
  }

  lemma {:induction false} FirstStays(es: seq<Entry>)
    requires es != []
    ensures DedupById(es) != [] && DedupById(es)[0] == es[0]
  {
    if |es| > 1 {
      FirstStays(es[..|es| - 1]);
    } else {
      assert es[..0] == [];
    }
  }

  /** The lightweight fallback leaves something to judge. */
  lemma LightKeepsSomething(r: Request, s: State)
    requires s.reranked != [] && s.reranked[0].tokens <= r.contextLimit
    ensures LightUpdate(r, s).reranked != []
  {
    var es := s.reranked + OnlyLight(ScopedRaw(r, s.plan));
    FirstStays(es);
    PacksSomething(DedupById(es), r.contextLimit);
  }

  /** `m` is about to execute `node` as its node number `i`, in the given round. */
  ghost predicate At(m: Machine, node: Node, i: nat, round: nat, used: bool) {
    && m.node == node && |m.trace| == i && m.state.round == round && m.state.lightUsed == used
    && (node in {SearchSources, MergeEvidence, RerankEvidence, JudgeEvidence, ExpandLightweight, RefineQuery} ==>
          m.state.hasLight && m.state.plan == Some(Plan({}, false)))
    && (node in {JudgeEvidence, ExpandLightweight, RefineQuery} ==> m.state.newEvidence && m.state.reranked != [])
    && (node in {JudgeEvidence, ExpandLightweight} && !used ==> m.state.reranked[0].tokens == 1)
    && (node == MergeEvidence ==> i > 0 && m.state.local == [Vector(i - 1)] && m.state.web == [])
    && (node == RerankEvidence ==> i > 1 && m.state.merged == [Vector(i - 2)])
    && forall x :: x in m.state.seen ==> x < i
  }

  function Reached(rounds: nat, i: nat): Machine {
    Run(Stubborn(rounds), Novelties(i))
  }

  lemma OnPlan(rounds: nat, i: nat, round: nat, used: bool)
    requires At(Reached(rounds, i), PlanEvidence, i, round, used)
    ensures At(Reached(rounds, i + 1), SearchSources, i + 1, round + 1, used)
  {
    ShortInScope(rounds);
    NoveltiesStep(Stubborn(rounds), i);
  }

  lemma OnSearch(rounds: nat, i: nat, round: nat, used: bool)
    requires At(Reached(rounds, i), SearchSources, i, round, used)
    ensures At(Reached(rounds, i + 1), MergeEvidence, i + 1, round, used)
  {
    NoveltiesStep(Stubborn(rounds), i);
  }

  lemma OnMerge(rounds: nat, i: nat, round: nat, used: bool)
    requires At(Reached(rounds, i), MergeEvidence, i, round, used)
    ensures At(Reached(rounds, i + 1), RerankEvidence, i + 1, round, used)
  {
    NoveltiesStep(Stubborn(rounds), i);
    MergeOne(Stubborn(rounds), Reached(rounds, i), Novelty(i), Vector(i - 1), i + 1);
  }

  lemma AfterRerank(m: Machine, i: nat, round: nat, used: bool)
    requires At(m, RerankEvidence, i, round, used)
    ensures At(Machine(JudgeEvidence, Reranked(m.state, Vector(i - 2)), m.trace + [RerankEvidence]), JudgeEvidence, i + 1, round, used)
  {
  }

  lemma StepRerank(r: Request, m: Machine, a: Answer, e: Entry)
    requires m.node == RerankEvidence && m.state.merged == [e] && a.ranking == [e.id]
    requires r.candidateLimit == 30 && r.evidenceBudget == 8000 && e.vector && !e.web && e.tokens == 1
    ensures Step(r, m, a) == Machine(JudgeEvidence, Reranked(m.state, e), m.trace + [RerankEvidence])
  {
    RerankOne(r, m.state, a, e);
  }

  lemma OnRerank(rounds: nat, i: nat, round: nat, used: bool)
    requires At(Reached(rounds, i), RerankEvidence, i, round, used)
    ensures At(Reached(rounds, i + 1), JudgeEvidence, i + 1, round, used)
  {
    NoveltiesStep(Stubborn(rounds), i);
    StepRerank(Stubborn(rounds), Reached(rounds, i), Novelty(i), Vector(i - 2));
    AfterRerank(Reached(rounds, i), i, round, used);
  }

  /** Four nodes lead from planning to a judgement on new evidence. */
  lemma PlanToJudge(rounds: nat, i: nat, round: nat, used: bool)
    requires At(Reached(rounds, i), PlanEvidence, i, round, used)
    ensures At(Reached(rounds, i + 4), JudgeEvidence, i + 4, round + 1, used)
  {
    OnPlan(rounds, i, round, used);
    OnSearch(rounds, i + 1, round + 1, used);
    OnMerge(rounds, i + 2, round + 1, used);
    OnRerank(rounds, i + 3, round + 1, used);
  }

  lemma OnJudge(rounds: nat, i: nat, round: nat, used: bool)
    requires At(Reached(rounds, i), JudgeEvidence, i, round, used)
    ensures var next := if !used then ExpandLightweight else if round < rounds then RefineQuery else Generate;
      At(Reached(rounds, i + 1), next, i + 1, round, used)
  {
    NoveltiesStep(Stubborn(rounds), i);
  }

  lemma StepLight(r: Request, m: Machine, a: Answer)
    requires m.node == ExpandLightweight
    ensures Step(r, m, a) == Machine(JudgeEvidence, LightUpdate(r, m.state), m.trace + [ExpandLightweight])
  {
  }

  lemma AfterLight(r: Request, m: Machine, i: nat, round: nat)
    requires At(m, ExpandLightweight, i, round, false) && r.contextLimit >= 1
    ensures At(Machine(JudgeEvidence, LightUpdate(r, m.state), m.trace + [ExpandLightweight]), JudgeEvidence, i + 1, round, true)
  {
    LightKeepsSomething(r, m.state);
  }

  lemma OnLight(rounds: nat, i: nat, round: nat)
    requires At(Reached(rounds, i), ExpandLightweight, i, round, false)
    ensures At(Reached(rounds, i + 1), JudgeEvidence, i + 1, round, true)
  {
    NoveltiesStep(Stubborn(rounds), i);
    StepLight(Stubborn(rounds), Reached(rounds, i), Novelty(i));
    AfterLight(Stubborn(rounds), Reached(rounds, i), i, round);
  }

  lemma OnRefine(rounds: nat, i: nat, round: nat)
    requires At(Reached(rounds, i), RefineQuery, i, round, true)
    ensures At(Reached(rounds, i + 1), PlanEvidence, i + 1, round, true)
  {
    NoveltiesStep(Stubborn(rounds), i);
  }

  lemma OnGenerate(rounds: nat, i: nat, round: nat)
    requires At(Reached(rounds, i), Generate, i, round, true)
    ensures At(Reached(rounds, i + 1), End, i + 1, round, true)
  {
    NoveltiesStep(Stubborn(rounds), i);
  }

  lemma PageSelected(rounds: nat)
    ensures Resolve(OnlyWiki(Stubborn(rounds).chunks), Dedup([1])) == [Page([])]
    ensures SourcesOf([Page([])]) == [] && Dedup(SourcesOf([Page([])])) == []
  {
    var es := Stubborn(rounds).chunks;
    assert es[0] == Page([]) && forall i :: 1 <= i < |es| ==> !es[i].wiki;
    SelectedPage(es, Page([]));
    assert [Page([])][..0] == [] && SourcesOf([]) == [];
  }

  lemma Opening(rounds: nat)
    requires rounds >= 1
    ensures At(Reached(rounds, 3), PlanEvidence, 3, 0, false)
  {
    var r := Stubborn(rounds);
    ShortIsRaw(rounds);
    PageSelected(rounds);
    assert Novelties(0) == [];
    NoveltiesStep(r, 0);
    assert At(Reached(rounds, 1), SelectWiki, 1, 0, false) && Reached(rounds, 1).state.plan == None;
    NoveltiesStep(r, 1);
    StepSelect(r, Reached(rounds, 1), Novelty(1), Page([]));
    assert At(Reached(rounds, 2), JudgeWiki, 2, 0, false) && Reached(rounds, 2).state.wiki == [Page([])];
    NoveltiesStep(r, 2);
    StepJudge(r, Reached(rounds, 2), Novelty(2), Page([]));
  }

  lemma StepSelect(r: Request, m: Machine, a: Answer, page: Entry)
    requires m.node == SelectWiki && Resolve(OnlyWiki(r.chunks), Dedup(a.wiki)) == [page]
    ensures Step(r, m, a) == Machine(JudgeWiki, m.state.(wiki := [page]), m.trace + [SelectWiki])
  {
  }

  /** An insufficient page without provenance leads to a plan. */
  lemma StepJudge(r: Request, m: Machine, a: Answer, page: Entry)
    requires m.node == JudgeWiki && m.state.wiki == [page] && a.judgement == UNSURE
    requires Dedup(SourcesOf([page])) == []
    ensures Step(r, m, a) == Machine(PlanEvidence,
      m.state.(assessment := Assess(r, [page], UNSURE), sources := [], final := [page]), m.trace + [JudgeWiki])
  {
    assert Resolve(ScopedRaw(r, m.state.plan), []) == [];
  }

  ghost predicate JudgedAt(rounds: nat, i: nat, round: nat) {
    At(Reached(rounds, i), JudgeEvidence, i, round, true)
  }

  lemma FirstRound(rounds: nat, i: nat)
    requires rounds >= 1 && i == 3
    ensures JudgedAt(rounds, i + 6, 1)
  {
    Opening(rounds);
    PlanToJudge(rounds, i, 0, false);
    OnJudge(rounds, i + 4, 1, false);
    OnLight(rounds, i + 5, 1);
  }

  lemma NextRound(rounds: nat, i: nat, round: nat)
    requires JudgedAt(rounds, i, round) && round < rounds
    ensures JudgedAt(rounds, i + 6, round + 1)
  {
    OnJudge(rounds, i, round, true);
    OnRefine(rounds, i + 1, round);
    PlanToJudge(rounds, i + 2, round, true);
  }

  /** Counting up from one, six nodes a round. */
  lemma {:induction false} RoundsJudged(rounds: nat, round: nat) returns (i: nat)
    requires 1 <= round <= rounds
    ensures i == 6 * round + 3 && JudgedAt(rounds, i, round)
  {
    if round == 1 {
      i := 3;
      FirstRound(rounds, i);
      i := i + 6;
    } else {
      var j := RoundsJudged(rounds, round - 1);
      NextRound(rounds, j, round - 1);
      i := j + 6;
    }
  }

  ghost predicate EndsAt(rounds: nat, n: nat) {
    Reached(rounds, n).node == End && |Reached(rounds, n).trace| == n
  }

  lemma LastRound(rounds: nat, i: nat)
    requires JudgedAt(rounds, i, rounds)
    ensures EndsAt(rounds, i + 2)
  {
    OnJudge(rounds, i, rounds, true);
    OnGenerate(rounds, i + 1, rounds);
  }

  lemma FullLength(rounds: nat) returns (n: nat)
    requires rounds >= 1
    ensures n == 6 * rounds + 5 && EndsAt(rounds, n)
  {
    var i := RoundsJudged(rounds, rounds);
    LastRound(rounds, i);
    n := i + 2;
  }

  /**
   * For every number of rounds some run needs all 6 R + 5 node executions; its searches find
   * chunks of the corpus only.
   */
  lemma {:induction false} BoundIsTight(rounds: nat, bound: nat)
    requires rounds >= 1 && bound == Bound(Stubborn(rounds))
    ensures Reached(rounds, bound).node == End && |Reached(rounds, bound).trace| == bound
    ensures forall i, e :: 0 <= i < bound && e in Novelties(bound)[i].local ==> e in Stubborn(rounds).chunks
  {
    assert bound == 6 * rounds + 5;
    HitsAreInCorpus(rounds, bound);
    var n := FullLength(rounds);
    assert n == bound;
  }

  // ---- the missing plan ----

  /** A fresh Wiki whose page names a raw chunk that the judge then finds insufficient. */
  function Provenance(rounds: nat): Request {
    Request([Page([2]), Vector(0)], false, true, false, 0.8, rounds, 8000, 12000, 30)
  }

  const SAME := Answer(UNSURE, {}, false, [1], [], [], [])

  /** The same answer to every node. */
  function Always(n: nat): seq<Answer> {
    seq(n, i => SAME)
  }

  lemma AlwaysStep(r: Request, n: nat)
    ensures Run(r, Always(n + 1)) == Step(r, Run(r, Always(n)), SAME)
  {
    assert Always(n + 1) == Always(n) + [SAME];
    RunStep(r, Always(n), SAME);
  }

  /** The failed assertion is reachable for every number of rounds, behind the three nodes of the Wiki gate. */
  lemma {:induction false} AssertionFailureIsReachable(rounds: nat)
    requires rounds >= 1
    ensures Run(Provenance(rounds), Always(3) + Always(5)).node == AssertionFailed
  {
    ThroughTheGate(rounds);
    PacksVector();
    AssertionFailsOnAnswers(Provenance(rounds), Always(3), Always(5));
  }

  lemma PacksVector()
    ensures Pack([Vector(0)], 8000) == [Vector(0)] && OnlyLight([Vector(0)]) == []
  {
    OneCandidate(Vector(0), 2);
    assert [Vector(0)] + [] == [Vector(0)];
  }

  lemma ThroughTheGate(rounds: nat)
    requires rounds >= 1
    ensures var m := Run(Provenance(rounds), Always(3)); m.node == ExpandWikiSources && m.state.sources == [Vector(0)]
  {
    var r := Provenance(rounds);
    ProvenanceResolves(rounds);
    assert Always(0) == [];
    AlwaysStep(r, 0);
    assert Run(r, Always(1)).node == SelectWiki && Run(r, Always(1)).state.plan == None;
    AlwaysStep(r, 1);
    AtTheJudge(r, Run(r, Always(1)));
    AlwaysStep(r, 2);
    FromTheJudge(r, Run(r, Always(2)), rounds);
  }

  lemma AtTheJudge(r: Request, m: Machine)
    requires m.node == SelectWiki && m.state.plan == None
    requires r.chunks == [Page([2]), Vector(0)]
    ensures var t := Step(r, m, SAME); t.node == JudgeWiki && t.state.plan == None && t.state.wiki == [Page([2])]
  {
    SelectedPage(r.chunks, Page([2]));
    StepSelect(r, m, SAME, Page([2]));
  }

  lemma FromTheJudge(r: Request, m: Machine, rounds: nat)
    requires r == Provenance(rounds) && m.node == JudgeWiki && m.state.plan == None && m.state.wiki == [Page([2])]
    ensures var t := Step(r, m, SAME); t.node == ExpandWikiSources && t.state.sources == [Vector(0)]
  {
    ProvenanceResolves(rounds);
  }

  lemma ResolveOne(chunk: Entry, id: Id)
    requires chunk.id == id
    ensures Resolve([chunk], Dedup([id])) == [chunk]
  {
    var ids: seq<Id> := [id];
    assert ids[..0] == [] && Dedup(ids) == ids;
    assert chunk in [chunk] && id in Ids([chunk]);
    assert Resolve([chunk], []) == [];
  }

  lemma OneRaw(page: Entry, chunk: Entry)
    requires page.wiki && !chunk.wiki
    ensures Raw([page, chunk]) == [chunk] && TokenSum([chunk]) == chunk.tokens && SourcesOf([page]) == page.sources
  {
    var es := [page, chunk];
    assert es[..1] == [page] && [page][..0] == [] && [chunk][..0] == [];
    assert Raw([page]) == [] && SourcesOf([]) == [];
  }

  lemma ProvenanceResolves(rounds: nat)
    ensures HasWiki(Provenance(rounds)) && Raw(Provenance(rounds).chunks) == [Vector(0)] && TokenSum([Vector(0)]) == 1
    ensures Resolve([Vector(0)], Dedup(SourcesOf([Page([2])]))) == [Vector(0)]
  {
    OneRaw(Page([2]), Vector(0));
    ResolveOne(Vector(0), 2);
    assert Page([2]) in Provenance(rounds).chunks;
  }
}
