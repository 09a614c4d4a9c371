/** The runtime object of one request: nodes that update its fields, and the loop that runs them. */
module ResearchGraphRuntime {
  import opened Common
  import opened ResearchGraph
  import opened ResearchGraphCandidates
  import opened ResearchGraphTheorems

  /** The loop of `merge_evidence` and `_deduplicate_chunks`. */
  method Deduplicate(entries: seq<Entry>) returns (unique: seq<Entry>)
    ensures unique == DedupById(entries)
  {
    unique := [];
    var seen: set<Id> := {};
    for i := 0 to |entries|
      invariant unique == DedupById(entries[..i]) && seen == Ids(unique)
    {
      assert entries[..i + 1][..i] == entries[..i];
      if entries[i].id !in seen {
        IdsAppend(unique, entries[i]);
        unique := unique + [entries[i]];
        seen := seen + {entries[i].id};
      }
    }
    assert entries[..|entries|] == entries;
  }

  lemma {:induction false} FullBudgetPacksNothing(es: seq<Entry>, n: nat, budget: nat)
    requires n <= |es| && TokenSum(Pack(es[..n], budget)) == budget
    ensures Pack(es, budget) == Pack(es[..n], budget)
  {
    if n < |es| {
      var init := es[..|es| - 1];
      assert init[..n] == es[..n];
      FullBudgetPacksNothing(init, n, budget);
    } else {
      assert es[..n] == es;
    }
  }

  lemma TokenSumAppend(es: seq<Entry>, e: Entry)
    ensures TokenSum(es + [e]) == TokenSum(es) + e.tokens
  {
    assert (es + [e])[..|es|] == es;
  }

  lemma PackStep(es: seq<Entry>, i: nat, budget: nat)
    requires i < |es|
    ensures var before := Pack(es[..i], budget);
      Pack(es[..i + 1], budget) == if TokenSum(before) + es[i].tokens > budget then before else before + [es[i]]
  {
    assert es[..i + 1][..i] == es[..i];
  }

  /** The loop of `pack_chunks`, with its two early exits. */
  method PackChunks(entries: seq<Entry>, budget: nat) returns (packed: seq<Entry>)
    ensures packed == Pack(entries, budget)
  {
    packed := [];
    var used := 0;
    if budget == 0 {
      FullBudgetPacksNothing(entries, 0, budget);
      return;
    }
    var i := 0;
    while i < |entries|
      invariant i <= |entries| && packed == Pack(entries[..i], budget) && used == TokenSum(packed)
    {
      PackStep(entries, i, budget);
      var size := entries[i].tokens;
      if used + size <= budget {
        TokenSumAppend(packed, entries[i]);
        packed := packed + [entries[i]];
        used := used + size;
        if used >= budget {
          FullBudgetPacksNothing(entries, i + 1, budget);
          return;
        }
      }
      i := i + 1;
    }
    assert entries[..i] == entries;
  }

  class GraphRuntime {
    const request: Request
    var plan: Option<Plan>
    var candidates: seq<Entry>
    var seen: set<Id>

    constructor (r: Request)
      ensures request == r && plan == None && candidates == [] && seen == {}
    {
      request, plan, candidates, seen := r, None, [], {};
    }

    /** The control state together with this object's fields. */
    ghost function Whole(s: State): State
      reads this
    {
      s.(plan := plan, candidates := candidates, seen := seen)
    }

    method PlanNode(s: State, a: Answer) returns (s': State)
      modifies `plan
      ensures Whole(s') == PlanUpdate(request, old(Whole(s)), a)
    {
      plan := Some(Plan(a.scope, request.webAllowed));
      s' := s.(round := s.round + 1, hasLight := OnlyLight(ScopedRaw(request, plan)) != []);
    }

    method MergeNode(s: State) returns (s': State)
      ensures s' == s.(merged := DedupById(s.local + s.web))
    {
      var unique := Deduplicate(s.local + s.web);
      s' := s.(merged := unique);
    }

    method RerankNode(s: State, a: Answer) returns (s': State)
      modifies `candidates, `seen
      ensures Whole(s') == RerankUpdate(request, old(Whole(s)), a)
    {
      candidates := LimitRerankCandidates(s.merged, request.candidateLimit);
      var ids := Ids(candidates);
      var newEvidence := ids - seen != {};
      seen := seen + ids;
      var evidence := PackChunks(Resolve(OnlyVector(candidates), a.ranking) + OnlyLight(candidates), request.evidenceBudget);
      s' := s.(newEvidence := newEvidence, reranked := evidence, final := evidence);
    }

    method LightNode(s: State) returns (s': State)
      ensures Whole(s') == LightUpdate(request, old(Whole(s)))
    {
      var unique := Deduplicate(s.reranked + OnlyLight(ScopedRaw(request, plan)));
      var evidence := PackChunks(unique, request.contextLimit);
      s' := s.(reranked := evidence, final := evidence, lightUsed := true);
    }

    method RefineNode(s: State, a: Answer) returns (ok: bool)
      modifies `plan
      ensures ok == old(plan).Some?
      ensures Whole(s) == if ok then RefineUpdate(request, old(Whole(s)), a) else old(Whole(s))
    {
      ok := plan.Some?;
      if ok {
        var wantsWeb := request.webAllowed && a.wantsWeb;
        plan := Some(plan.value.(useWeb := plan.value.useWeb || wantsWeb));
      }
    }

    method ExpandNode(s: State) returns (s': State)
      ensures Whole(s') == ExpandWikiUpdate(request, old(Whole(s)))
    {
      var evidence := PackChunks(s.sources, request.evidenceBudget);
      s' := s.(reranked := evidence, final := evidence, hasLight := OnlyLight(evidence) != [],
               newEvidence := evidence != []);
    }

    /** Execute one node and follow its edge. */
    method ExecuteNode(node: Node, s: State, a: Answer) returns (next: Node, s': State)
      requires !Halted(node)
      modifies this
      ensures (next, Whole(s')) == Execute(request, node, old(Whole(s)), a)
    {
      next, s' := node, s;
      match node
      case PrepareContext =>
        s' := s.(corpusTokens := TokenSum(Raw(request.chunks)));
        next := AfterPrepare(request, s');
      case SelectWiki =>
        next, s' := JudgeWiki, s.(wiki := Resolve(OnlyWiki(request.chunks), Dedup(a.wiki)));
      case JudgeWiki =>
        s' := s.(assessment := Assess(request, s.wiki, a.judgement),
                 sources := Resolve(ScopedRaw(request, plan), Dedup(SourcesOf(s.wiki))), final := s.wiki);
        next := AfterWiki(request, s');
      case ExpandWikiSources =>
        s' := ExpandNode(s);
        next := JudgeEvidence;
      case PlanEvidence =>
        s' := PlanNode(s, a);
        next := SearchSources;
      case SearchSources =>
        if plan.None? {
          next := AssertionFailed;
        } else {
          next, s' := MergeEvidence, s.(local := a.local, web := if plan.value.useWeb then a.web else []);
        }
      case MergeEvidence =>
        s' := MergeNode(s);
        next := RerankEvidence;
      case RerankEvidence =>
        s' := RerankNode(s, a);
        next := JudgeEvidence;
      case JudgeEvidence =>
        s' := s.(assessment := Assess(request, s.reranked, a.judgement));
        next := AfterEvidence(request, s');
      case ExpandLightweight =>
        s' := LightNode(s);
        next := JudgeEvidence;
      case RefineQuery =>
        var ok := RefineNode(s, a);
        next := if ok then PlanEvidence else AssertionFailed;
      case Generate =>
        next := End;
    }

    /** Run to the end; `oracle` answers for the outside, and the loop needs no step limit to stop. */
    method Invoke(oracle: nat -> Answer) returns (final: State, node: Node, ghost answers: seq<Answer>)
      requires request.maxRounds >= 1 && plan == None && candidates == [] && seen == {}
      modifies this
      ensures |answers| <= Bound(request) && forall k :: 0 <= k < |answers| ==> answers[k] == oracle(k)
      ensures Halted(node) && Run(request, answers).node == node && Run(request, answers).state == Whole(final)
    {
      final, node := Initial(request), PrepareContext;
      var i := 0;
      answers := [];
      while !Halted(node)
        invariant |answers| == i && forall k :: 0 <= k < i ==> answers[k] == oracle(k)
        invariant Run(request, answers).node == node && Run(request, answers).state == Whole(final)
        invariant |Run(request, answers).trace| == i <= Bound(request)
        decreases Bound(request) - i
      {
        var a := oracle(i);
        RunStep(request, answers, a);
        EveryRunHalts(request, answers + [a]);
        node, final := ExecuteNode(node, final, a);
        answers := answers + [a];
        i := i + 1;
      }
    }
  }
}
