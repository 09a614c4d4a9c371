/**
 * The bounded Research Graph (graph.py, routing.py): nodes update a control state and three
 * runtime fields, conditional edges route on the control state, and a refinement loop and a
 * lightweight fallback lead back.  What judge, planner, searches and reranker answer is arbitrary.
 */
module ResearchGraph {
  import opened Common

  /** The nodes of the graph, the end of a run, and the stop of a failed assertion. */
  datatype Node =
    | PrepareContext | SelectWiki | JudgeWiki | ExpandWikiSources | PlanEvidence | SearchSources
    | MergeEvidence | RerankEvidence | JudgeEvidence | ExpandLightweight | RefineQuery | Generate
    | End | AssertionFailed

  /** Token estimates are at least one. */
  type Tokens = n: nat | n > 0 witness 1

  /** A chunk; a Wiki page names the raw chunks it was compiled from in `sources`. */
  datatype Entry = Entry(id: Id, document: Option<Id>, wiki: bool, web: bool, vector: bool, tokens: Tokens, sources: seq<Id>)

  datatype Plan = Plan(scope: set<Id>, useWeb: bool)

  datatype Assessment = Assessment(sufficient: bool, confidence: real, needsRaw: bool,
                                   missing: seq<nat>, degraded: bool)

  /** What the model behind the judge says, if it can be reached and understood. */
  datatype Judgement = Judged(sufficient: bool, confidence: real, needsRaw: bool, missing: seq<nat>) | Unavailable

  /**
   * Everything the outside may answer during one node; each node reads what it asks for:
   * a judgement, a document scope, whether missing facets want the Web, Wiki pages selected
   * by id, local and Web hits, and a ranking by id.
   */
  datatype Answer = Answer(judgement: Judgement, scope: set<Id>, wantsWeb: bool, wiki: seq<Id>,
                           local: seq<Entry>, web: seq<Entry>, ranking: seq<Id>)

  /** One request: its corpus, its question's need for raw evidence, and the settings the graph reads. */
  datatype Request = Request(chunks: seq<Entry>, exact: bool, wikiFresh: bool, webAllowed: bool, threshold: real,
                             maxRounds: nat, evidenceBudget: nat, contextLimit: nat, candidateLimit: nat)

  /** The graph state (`ResearchState`) together with the runtime's plan and seen candidates. */
  datatype State = State(
    corpusTokens: nat, round: nat, assessment: Assessment, newEvidence: bool, hasLight: bool, lightUsed: bool,
    wiki: seq<Entry>, sources: seq<Entry>, local: seq<Entry>, web: seq<Entry>, merged: seq<Entry>,
    reranked: seq<Entry>, final: seq<Entry>, plan: Option<Plan>, candidates: seq<Entry>, seen: set<Id>)

  /** A run: the next node, the state, and the nodes executed so far. */
  datatype Machine = Machine(node: Node, state: State, trace: seq<Node>)

  // ---- values the nodes compute ----

  function Raw(es: seq<Entry>): seq<Entry> {
    if es == [] then [] else Raw(es[..|es| - 1]) + (if es[|es| - 1].wiki then [] else [es[|es| - 1]])
  }

  function TokenSum(es: seq<Entry>): nat {
    if es == [] then 0 else TokenSum(es[..|es| - 1]) + es[|es| - 1].tokens
  }

  function Ids(es: seq<Entry>): set<Id> {
    set e | e in es :: e.id
  }

  lemma IdsAppend(es: seq<Entry>, e: Entry)
    ensures Ids(es + [e]) == Ids(es) + {e.id}
  {
    forall x | x in Ids(es) + {e.id}
      ensures x in Ids(es + [e])
    {
      if x == e.id {
        assert e in es + [e];
      } else {
        var y :| y in es && y.id == x;
        assert y in es + [e];
      }
    }
  }

  /** The first entry with every id, in order. */
  function DedupById(es: seq<Entry>): (r: seq<Entry>)
    ensures Ids(r) == Ids(es)
    ensures forall e :: e in r ==> e in es
    ensures forall i, j :: 0 <= i < j < |r| ==> r[i].id != r[j].id
  {
    if es == [] then []
    else
      var init := DedupById(es[..|es| - 1]);
      assert es == es[..|es| - 1] + [es[|es| - 1]];
      IdsAppend(es[..|es| - 1], es[|es| - 1]);
      IdsAppend(init, es[|es| - 1]);
      if es[|es| - 1].id in Ids(init) then init else init + [es[|es| - 1]]
  }

  /** `pack_chunks`: whole entries while they fit; an entry that does not fit is skipped. */
  function Pack(es: seq<Entry>, budget: nat): (r: seq<Entry>)
    ensures TokenSum(r) <= budget
    ensures forall e :: e in r ==> e in es
  {
    if es == [] then []
    else
      var init := Pack(es[..|es| - 1], budget);
      if TokenSum(init) + es[|es| - 1].tokens > budget then init else init + [es[|es| - 1]]
  }

  function OnlyVector(es: seq<Entry>): seq<Entry> {
    if es == [] then [] else OnlyVector(es[..|es| - 1]) + (if es[|es| - 1].vector then [es[|es| - 1]] else [])
  }

  function OnlyLight(es: seq<Entry>): seq<Entry> {
    if es == [] then [] else OnlyLight(es[..|es| - 1]) + (if es[|es| - 1].vector then [] else [es[|es| - 1]])
  }

  function InScope(es: seq<Entry>, scope: set<Id>): seq<Entry> {
    if es == [] then []
    else
      var e := es[|es| - 1];
      InScope(es[..|es| - 1], scope) + (if e.document.Some? && e.document.value in scope then [e] else [])
  }

  /** Raw chunks within the plan's document scope; the whole raw corpus when the scope selects nothing. */
  function ScopedRaw(r: Request, plan: Option<Plan>): seq<Entry> {
    var raw := Raw(r.chunks);
    if plan.None? || InScope(raw, plan.value.scope) == [] then raw else InScope(raw, plan.value.scope)
  }

  /** The entries of `es` with the given ids, in the order of the ids. */
  function Resolve(es: seq<Entry>, ids: seq<Id>): seq<Entry> {
    if ids == [] then []
    else
      Resolve(es, ids[..|ids| - 1])
      + (if ids[|ids| - 1] in Ids(es) then [LastWith(es, ids[|ids| - 1])] else [])
  }

  function OnlyWiki(es: seq<Entry>): seq<Entry> {
    if es == [] then [] else OnlyWiki(es[..|es| - 1]) + (if es[|es| - 1].wiki then [es[|es| - 1]] else [])
  }

  /** The provenance of the pages, one after the other. */
  function SourcesOf(es: seq<Entry>): seq<Id> {
    if es == [] then [] else SourcesOf(es[..|es| - 1]) + es[|es| - 1].sources
  }

  function LastWith(es: seq<Entry>, id: Id): (e: Entry)
    requires id in Ids(es)
    ensures e in es && e.id == id
  {
    if es[|es| - 1].id == id then es[|es| - 1] else LastWith(es[..|es| - 1], id)
  }

  predicate HasWiki(r: Request) {
    exists e :: e in r.chunks && e.wiki
  }

  // ---- limit_rerank_candidates (query_execution.py:63-86) ----

  function OnlyWeb(es: seq<Entry>): seq<Entry> {
    if es == [] then [] else OnlyWeb(es[..|es| - 1]) + (if es[|es| - 1].web then [es[|es| - 1]] else [])
  }

  function OnlyLocal(es: seq<Entry>): seq<Entry> {
    if es == [] then [] else OnlyLocal(es[..|es| - 1]) + (if es[|es| - 1].web then [] else [es[|es| - 1]])
  }

  /** What local entries are diversified by: their document, or themselves. */
  function KeyOf(e: Entry): Id {
    if e.document.Some? then e.document.value else e.id
  }

  function Keys(es: seq<Entry>): set<Id> {
    set e | e in es :: KeyOf(e)
  }

  /** The first entry of every document until `n` are found; the test comes after the first. */
  function Diversified(es: seq<Entry>, n: nat): seq<Entry> {
    if es == [] then []
    else
      var init, e := Diversified(es[..|es| - 1], n), es[|es| - 1];
      if (|init| >= n && init != []) || KeyOf(e) in Keys(init) then init else init + [e]
  }

  /** The entries whose ids are not in `ids`. */
  function Others(es: seq<Entry>, ids: set<Id>): seq<Entry> {
    if es == [] then [] else Others(es[..|es| - 1], ids) + (if es[|es| - 1].id in ids then [] else [es[|es| - 1]])
  }

  function Take(es: seq<Entry>, n: nat): seq<Entry> {
    if |es| <= n then es else es[..n]
  }

  function LocalLimit(es: seq<Entry>, limit: nat): nat {
    if |OnlyWeb(es)| <= limit then limit - |OnlyWeb(es)| else 0
  }

  function LimitCandidates(es: seq<Entry>, limit: nat): seq<Entry> {
    var first := Diversified(OnlyLocal(es), LocalLimit(es, limit));
    Take(Take(first + Others(OnlyLocal(es), Ids(first)), LocalLimit(es, limit)) + Take(OnlyWeb(es), limit), limit)
  }

  // ---- the judge (evidence_sufficiency.py) ----

  /** Nothing to judge is never sufficient; without the model the assessment is a degraded one. */
  function Assess(r: Request, evidence: seq<Entry>, j: Judgement): Assessment {
    if evidence == [] then Assessment(false, 0.0, r.exact, [], false)
    else if j.Unavailable? then Assessment(false, 0.0, r.exact, [0], true)
    else Assessment(j.sufficient, j.confidence, j.needsRaw || r.exact, j.missing, false)
  }

  // ---- routing.py ----

  function AfterPrepare(r: Request, s: State): Node {
    if r.webAllowed then PlanEvidence
    else if s.corpusTokens == 0 then Generate
    else if HasWiki(r) && r.wikiFresh then SelectWiki
    else PlanEvidence
  }

  /** The Wiki alone answers only when it is judged sufficient, confident, and needs no raw evidence. */
  predicate WikiSuffices(r: Request, a: Assessment) {
    a.sufficient && a.confidence >= r.threshold && !a.needsRaw
  }

  function AfterWiki(r: Request, s: State): Node {
    if !(HasWiki(r) && r.wikiFresh) then PlanEvidence
    else if WikiSuffices(r, s.assessment) then Generate
    else if s.sources != [] then ExpandWikiSources
    else PlanEvidence
  }

  function AfterEvidence(r: Request, s: State): Node {
    if s.assessment.sufficient then Generate
    else if s.hasLight && !s.lightUsed then ExpandLightweight
    else if s.assessment.degraded || !s.newEvidence then Generate
    else if s.assessment.missing == [] then Generate
    else if s.round >= r.maxRounds then Generate
    else RefineQuery
  }

  // ---- nodes ----

  const UNJUDGED := Assessment(false, 0.0, false, [], false)

  function Initial(r: Request): State {
    State(0, 0, UNJUDGED, true, false, false, [], [], [], [], [], [], [], None, [], {})
  }

  function SelectWikiUpdate(r: Request, s: State, a: Answer): State {
    s.(wiki := Resolve(OnlyWiki(r.chunks), Dedup(a.wiki)))
  }

  function JudgeWikiUpdate(r: Request, s: State, a: Answer): State {
    s.(assessment := Assess(r, s.wiki, a.judgement),
       sources := Resolve(ScopedRaw(r, s.plan), Dedup(SourcesOf(s.wiki))), final := s.wiki)
  }

  function ExpandWikiUpdate(r: Request, s: State): State {
    var evidence := Pack(s.sources, r.evidenceBudget);
    s.(reranked := evidence, final := evidence, hasLight := OnlyLight(evidence) != [], newEvidence := evidence != [])
  }

  function PlanUpdate(r: Request, s: State, a: Answer): State {
    var plan := Some(Plan(a.scope, r.webAllowed));
    s.(plan := plan, round := s.round + 1, hasLight := OnlyLight(ScopedRaw(r, plan)) != [])
  }

  function SearchUpdate(s: State, a: Answer): State
    requires s.plan.Some?
  {
    s.(local := a.local, web := if s.plan.value.useWeb then a.web else [])
  }

  /** The reranker orders the candidates that have vectors; the others follow as they are. */
  function RerankUpdate(r: Request, s: State, a: Answer): State {
    var candidates := LimitCandidates(s.merged, r.candidateLimit);
    var evidence := Pack(Resolve(OnlyVector(candidates), a.ranking) + OnlyLight(candidates), r.evidenceBudget);
    s.(candidates := candidates, newEvidence := Ids(candidates) - s.seen != {},
       seen := s.seen + Ids(candidates), reranked := evidence, final := evidence)
  }

  function JudgeUpdate(r: Request, s: State, a: Answer): State {
    s.(assessment := Assess(r, s.reranked, a.judgement))
  }

  /** A refined plan keeps its scope; new queries change nothing the state shows. */
  function RefineUpdate(r: Request, s: State, a: Answer): State
    requires s.plan.Some?
  {
    s.(plan := Some(s.plan.value.(useWeb := s.plan.value.useWeb || (r.webAllowed && a.wantsWeb))))
  }

  function LightUpdate(r: Request, s: State): State {
    var evidence := Pack(DedupById(s.reranked + OnlyLight(ScopedRaw(r, s.plan))), r.contextLimit);
    s.(reranked := evidence, final := evidence, lightUsed := true)
  }

  predicate Halted(n: Node) {
    n == End || n == AssertionFailed
  }

  /** Execute one node on the outside's answer and follow its edge. */
  function Execute(r: Request, n: Node, s: State, a: Answer): (Node, State)
    requires !Halted(n)
  {
    match n
    case PrepareContext =>
      var s' := s.(corpusTokens := TokenSum(Raw(r.chunks)));
      (AfterPrepare(r, s'), s')
    case SelectWiki => (JudgeWiki, SelectWikiUpdate(r, s, a))
    case JudgeWiki =>
      var s' := JudgeWikiUpdate(r, s, a);
      (AfterWiki(r, s'), s')
    case ExpandWikiSources => (JudgeEvidence, ExpandWikiUpdate(r, s))
    case PlanEvidence => (SearchSources, PlanUpdate(r, s, a))
    case SearchSources => if s.plan.None? then (AssertionFailed, s) else (MergeEvidence, SearchUpdate(s, a))
    case MergeEvidence => (RerankEvidence, s.(merged := DedupById(s.local + s.web)))
    case RerankEvidence => (JudgeEvidence, RerankUpdate(r, s, a))
    case JudgeEvidence =>
      var s' := JudgeUpdate(r, s, a);
      (AfterEvidence(r, s'), s')
    case ExpandLightweight => (JudgeEvidence, LightUpdate(r, s))
    case RefineQuery => if s.plan.None? then (AssertionFailed, s) else (PlanEvidence, RefineUpdate(r, s, a))
    case Generate => (End, s)
  }

  function Step(r: Request, m: Machine, a: Answer): Machine {
    if Halted(m.node) then m
    else
      var (n, s) := Execute(r, m.node, m.state, a);
      Machine(n, s, m.trace + [m.node])
  }

  function Start(r: Request): Machine {
    Machine(PrepareContext, Initial(r), [])
  }

  /** The run on a sequence of answers, one per executed node. */
  function Run(r: Request, answers: seq<Answer>): Machine {
    if answers == [] then Start(r) else Step(r, Run(r, answers[..|answers| - 1]), answers[|answers| - 1])
  }

  lemma RunStep(r: Request, answers: seq<Answer>, a: Answer)
    ensures Run(r, answers + [a]) == Step(r, Run(r, answers), a)
  {
    assert (answers + [a])[..|answers|] == answers;
  }

  // ---- the bound on a run ----

  function RoundsLeft(r: Request, s: State): nat {
    if s.round < r.maxRounds then r.maxRounds - s.round else 0
  }

  function LightLeft(s: State): nat {
    if s.lightUsed then 0 else 2
  }

  /** Nodes a run can still execute. */
  function Rank(r: Request, n: Node, s: State): nat {
    var k, l := RoundsLeft(r, s), LightLeft(s);
    match n
    case PrepareContext => 6 * k + l + 3
    case SelectWiki => 6 * k + l + 2
    case JudgeWiki => 6 * k + l + 1
    case ExpandWikiSources => l + 3
    case PlanEvidence => 6 * k + l
    case SearchSources => 6 * k + l + 5
    case MergeEvidence => 6 * k + l + 4
    case RerankEvidence => 6 * k + l + 3
    case JudgeEvidence => if s.plan.None? then l + 2 else 6 * k + l + 2
    case ExpandLightweight => if s.plan.None? then 3 else 6 * k + 3
    case RefineQuery => if s.plan.None? then 1 else 6 * k + l + 1
    case Generate => 1
    case End => 0
    case AssertionFailed => 0
  }

  /** What holds at each node of every run with at least one round. */
  ghost predicate Reach(r: Request, n: Node, s: State) {
    && (n in {PrepareContext, SelectWiki, JudgeWiki, ExpandWikiSources} ==> s.round == 0 && s.plan.None? && !s.lightUsed)
    && (n == PlanEvidence ==> s.round < r.maxRounds)
    && (n == RefineQuery ==> s.round < r.maxRounds && s.newEvidence)
    && (n in {SearchSources, MergeEvidence, RerankEvidence} ==> s.plan.Some?)
    && (n == ExpandLightweight ==> !s.lightUsed)
    && (s.plan.None? <==> s.round == 0)
    && s.round <= r.maxRounds
  }

  lemma ExecuteReaches(r: Request, n: Node, s: State, a: Answer)
    requires r.maxRounds >= 1 && !Halted(n) && Reach(r, n, s)
    ensures var (n', s') := Execute(r, n, s, a); Reach(r, n', s')
  {
  }

  lemma ExecuteDescends(r: Request, n: Node, s: State, a: Answer)
    requires r.maxRounds >= 1 && !Halted(n) && Reach(r, n, s)
    ensures var (n', s') := Execute(r, n, s, a); Rank(r, n', s') < Rank(r, n, s)
  {
    match n
    case JudgeWiki => assert Execute(r, n, s, a).0 in {Generate, ExpandWikiSources, PlanEvidence};
    case JudgeEvidence => JudgeDescends(r, s, a);
    case _ =>
  }

  lemma JudgeDescends(r: Request, s: State, a: Answer)
    requires r.maxRounds >= 1 && Reach(r, JudgeEvidence, s)
    ensures var (n', s') := Execute(r, JudgeEvidence, s, a); Rank(r, n', s') < Rank(r, JudgeEvidence, s)
  {
    assert Execute(r, JudgeEvidence, s, a).0 in {Generate, ExpandLightweight, RefineQuery};
  }
}
