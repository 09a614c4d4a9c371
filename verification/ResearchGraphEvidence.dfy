/**
 * Which evidence a run of the Research Graph gathers: what a search round makes of its hits,
 * what the lightweight fallback adds, and where every entry of the final evidence comes from.
 */
module ResearchGraphEvidence {
  import opened Common
  import opened ResearchGraph
  import opened ResearchGraphCandidates
  import opened ResearchGraphTheorems

  // ---- filters ----

  lemma {:induction false} Members(es: seq<Entry>, e: Entry, scope: set<Id>)
    ensures e in Raw(es) <==> e in es && !e.wiki
    ensures e in OnlyWiki(es) <==> e in es && e.wiki
    ensures e in OnlyLight(es) <==> e in es && !e.vector
    ensures e in OnlyVector(es) <==> e in es && e.vector
    ensures e in InScope(es, scope) <==> e in es && e.document.Some? && e.document.value in scope
  {
    if es != [] {
      Members(es[..|es| - 1], e, scope);
      assert es == es[..|es| - 1] + [es[|es| - 1]];
    }
  }

  /** A raw chunk of the corpus, of a document in the scope. */
  ghost predicate RawIn(r: Request, scope: set<Id>, e: Entry) {
    e in r.chunks && !e.wiki && e.document.Some? && e.document.value in scope
  }

  /**
   * The raw chunks a plan looks at: those of the documents in its scope, or all of them when the
   * scope names no document of the corpus.
   */
  lemma {:induction false} ScopedRawIs(r: Request, plan: Plan, e: Entry)
    ensures e in ScopedRaw(r, None) <==> e in r.chunks && !e.wiki
    ensures e in ScopedRaw(r, Some(plan)) <==>
      e in r.chunks && !e.wiki && (RawIn(r, plan.scope, e) || forall f :: !RawIn(r, plan.scope, f))
  {
    Members(r.chunks, e, plan.scope);
    Members(Raw(r.chunks), e, plan.scope);
    var scoped := InScope(Raw(r.chunks), plan.scope);
    if scoped == [] {
      forall f
        ensures !RawIn(r, plan.scope, f)
      {
        Members(r.chunks, f, plan.scope);
        Members(Raw(r.chunks), f, plan.scope);
      }
    } else {
      var f := scoped[0];
      Members(r.chunks, f, plan.scope);
      Members(Raw(r.chunks), f, plan.scope);
      assert f in scoped && RawIn(r, plan.scope, f);
    }
  }

  // ---- packing ----

  lemma {:induction false} PackGrows(es: seq<Entry>, n: nat, budget: nat)
    requires n <= |es|
    ensures Pack(es[..n], budget) <= Pack(es, budget) && TokenSum(Pack(es[..n], budget)) <= TokenSum(Pack(es, budget))
  {
    if n < |es| {
      var init := es[..|es| - 1];
      PackGrows(init, n, budget);
      assert init[..n] == es[..n];
      SumAppend(Pack(init, budget), es[|es| - 1]);
    } else {
      assert es[..n] == es;
    }
  }

  lemma SumAppend(es: seq<Entry>, e: Entry)
    ensures TokenSum(es + [e]) == TokenSum(es) + e.tokens
  {
    assert (es + [e])[..|es|] == es;
  }

  /** Packed evidence is within the budget, and an entry left out does not fit beside it. */
  lemma {:induction false} PackIsGreedy(es: seq<Entry>, budget: nat, e: Entry)
    requires e in es
    ensures e in Pack(es, budget) || TokenSum(Pack(es, budget)) + e.tokens > budget
  {
    var i :| 0 <= i < |es| && es[i] == e;
    assert es[..i + 1][..i] == es[..i];
    PackGrows(es, i, budget);
    PackGrows(es, i + 1, budget);
    if e in Pack(es[..i + 1], budget) {
      assert e in Pack(es, budget);
    }
  }

  /** When everything fits, everything is kept, in order. */
  lemma {:induction false} PackKeepsAll(es: seq<Entry>, budget: nat)
    requires TokenSum(es) <= budget
    ensures Pack(es, budget) == es
  {
    if es != [] {
      PackKeepsAll(es[..|es| - 1], budget);
      assert es == es[..|es| - 1] + [es[|es| - 1]];
    }
  }

  /** `r` lists the entries of `es` at the increasing positions `at`. */
  ghost predicate Picks(at: seq<nat>, es: seq<Entry>, r: seq<Entry>) {
    && |at| == |r|
    && (forall k :: 0 <= k < |at| ==> at[k] < |es| && r[k] == es[at[k]])
    && (forall k, l :: 0 <= k < l < |at| ==> at[k] < at[l])
  }

  lemma PicksMore(at: seq<nat>, es: seq<Entry>, r: seq<Entry>, e: Entry)
    requires Picks(at, es, r)
    ensures Picks(at, es + [e], r) && Picks(at + [|es|], es + [e], r + [e])
  {
  }

  /** Packing never reorders. */
  lemma {:induction false} PackInOrder(es: seq<Entry>, budget: nat) returns (at: seq<nat>)
    ensures Picks(at, es, Pack(es, budget))
  {
    if es == [] {
      at := [];
    } else {
      var init, last := es[..|es| - 1], es[|es| - 1];
      var before := PackInOrder(init, budget);
      assert es == init + [last];
      PicksMore(before, init, Pack(init, budget), last);
      at := if TokenSum(Pack(init, budget)) + last.tokens > budget then before else before + [|init|];
    }
  }

  // ---- deduplication ----

  /** No entry before position `i` has its id. */
  ghost predicate IsFirst(es: seq<Entry>, i: nat)
    requires i < |es|
  {
    forall j :: 0 <= j < i ==> es[j].id != es[i].id
  }

  /** Deduplication keeps exactly the first entry of every id, in order. */
  lemma {:induction false} DedupKeepsFirst(es: seq<Entry>) returns (at: seq<nat>)
    ensures Picks(at, es, DedupById(es))
    ensures forall i: nat :: i < |es| ==> (i in at <==> IsFirst(es, i))
  {
    if es == [] {
      at := [];
    } else {
      var n: nat := |es| - 1;
      var init, last := es[..n], es[n];
      var before := DedupKeepsFirst(init);
      assert es == init + [last];
      PicksMore(before, init, DedupById(init), last);
      FirstMeans(es);
      at := if last.id in Ids(init) then before else before + [n];
      FirstsOf(es, before, at);
    }
  }

  lemma FirstsOf(es: seq<Entry>, before: seq<nat>, at: seq<nat>)
    requires es != [] && (forall k :: 0 <= k < |before| ==> before[k] < |es| - 1)
    requires forall i: nat :: i < |es| - 1 ==> (i in before <==> IsFirst(es[..|es| - 1], i))
    requires at == if IsFirst(es, |es| - 1) then before + [|es| - 1] else before
    ensures forall i: nat :: i < |es| ==> (i in at <==> IsFirst(es, i))
  {
    var n := |es| - 1;
    forall i: nat | i < n
      ensures IsFirst(es, i) <==> IsFirst(es[..n], i)
    {
      assert forall j :: 0 <= j <= i ==> es[..n][j] == es[j];
    }
  }

  lemma FirstMeans(es: seq<Entry>)
    requires es != []
    ensures IsFirst(es, |es| - 1) <==> es[|es| - 1].id !in Ids(es[..|es| - 1])
  {
    var n := |es| - 1;
    if es[n].id in Ids(es[..n]) {
      var e :| e in es[..n] && e.id == es[n].id;
      var j :| 0 <= j < n && es[..n][j] == e;
      assert es[j].id == es[n].id;
    }
    if j :| 0 <= j < n && es[j].id == es[n].id {
      assert es[..n][j] in es[..n];
    }
  }

  // ---- what ids resolve to ----

  /** `r` are entries of `es` with the ids at the increasing positions `at`. */
  ghost predicate Names(at: seq<nat>, ids: seq<Id>, es: seq<Entry>, r: seq<Entry>) {
    && |at| == |r|
    && (forall k :: 0 <= k < |at| ==> at[k] < |ids| && r[k].id == ids[at[k]] && r[k] in es)
    && (forall k, l :: 0 <= k < l < |at| ==> at[k] < at[l])
  }

  lemma NamesMore(at: seq<nat>, ids: seq<Id>, es: seq<Entry>, r: seq<Entry>, e: Entry, id: Id)
    requires Names(at, ids, es, r)
    ensures Names(at, ids + [id], es, r)
    ensures e in es && e.id == id ==> Names(at + [|ids|], ids + [id], es, r + [e])
  {
  }

  /** Ids resolve to entries with those ids, in the order of the ids; an id that no entry has is passed over. */
  lemma {:induction false} ResolveIs(es: seq<Entry>, ids: seq<Id>) returns (at: seq<nat>)
    ensures Names(at, ids, es, Resolve(es, ids))
    ensures forall i: nat :: i < |ids| ==> (i in at <==> ids[i] in Ids(es))
  {
    if ids == [] {
      at := [];
    } else {
      var n: nat := |ids| - 1;
      var init, id := ids[..n], ids[n];
      var before := ResolveIs(es, init);
      assert ids == init + [id];
      if id in Ids(es) {
        NamesMore(before, init, es, Resolve(es, init), LastWith(es, id), id);
        at := before + [n];
      } else {
        if es == [] {
          assert Ids(es) == {};
        }
        at := before;
        NamesStay(before, init, es, Resolve(es, init), id);
      }
      assert forall k :: 0 <= k < |before| ==> before[k] < n;
      assert forall i: nat :: i < n ==> ids[i] == init[i];
    }
  }

  lemma NamesStay(at: seq<nat>, ids: seq<Id>, es: seq<Entry>, r: seq<Entry>, id: Id)
    requires Names(at, ids, es, r)
    ensures Names(at, ids + [id], es, r)
  {
  }

  lemma ResolvesTo(es: seq<Entry>, ids: seq<Id>, e: Entry)
    requires DistinctIds(es)
    ensures e in Resolve(es, ids) <==> e in es && e.id in ids
  {
    var at := ResolveIs(es, ids);
    if e in Resolve(es, ids) {
      var k :| 0 <= k < |at| && Resolve(es, ids)[k] == e;
      assert ids[at[k]] in ids;
    }
    if e in es && e.id in ids {
      var i: nat :| i < |ids| && ids[i] == e.id;
      assert e.id in Ids(es);
      var k :| 0 <= k < |at| && at[k] == i;
      SameEntry(es, Resolve(es, ids)[k], e);
    }
  }

  lemma SameEntry(es: seq<Entry>, a: Entry, b: Entry)
    requires DistinctIds(es) && a in es && b in es && a.id == b.id
    ensures a == b
  {
    var i :| 0 <= i < |es| && es[i] == a;
    var j :| 0 <= j < |es| && es[j] == b;
  }

  lemma {:induction false} NamedSources(pages: seq<Entry>, id: Id)
    ensures id in SourcesOf(pages) <==> exists p :: p in pages && id in p.sources
  {
    if pages != [] {
      NamedSources(pages[..|pages| - 1], id);
      assert pages == pages[..|pages| - 1] + [pages[|pages| - 1]];
    }
  }

  lemma PagesSelected(r: Request, wanted: seq<Id>)
    ensures var selected := Resolve(OnlyWiki(r.chunks), Dedup(wanted));
      && (forall p :: p in selected ==> p in r.chunks && p.wiki && p.id in wanted)
      && (forall p :: p in r.chunks && p.wiki && p.id in wanted ==> p.id in Ids(selected))
  {
    var pages, ids := OnlyWiki(r.chunks), Dedup(wanted);
    var at := ResolveIs(pages, ids);
    forall p | p in Resolve(pages, ids)
      ensures p in r.chunks && p.wiki && p.id in wanted
    {
      var k :| 0 <= k < |at| && Resolve(pages, ids)[k] == p;
      assert ids[at[k]] in ids;
      Members(r.chunks, p, {});
    }
    forall p | p in r.chunks && p.wiki && p.id in wanted
      ensures p.id in Ids(Resolve(pages, ids))
    {
      Members(r.chunks, p, {});
      var i: nat :| i < |ids| && ids[i] == p.id;
      assert p.id in Ids(pages);
      var k :| 0 <= k < |at| && at[k] == i;
      assert Resolve(pages, ids)[k] in Resolve(pages, ids);
    }
  }

  /**
   * The Wiki node selects pages of the corpus, and the judgement looks up the raw chunks they
   * were compiled from: each is a raw chunk that a selected page names, and every raw chunk named is found.
   */
  lemma {:induction false} ProvenanceIs(r: Request, s: State, a: Answer)
    ensures forall p :: p in SelectWikiUpdate(r, s, a).wiki ==> p in r.chunks && p.wiki && p.id in a.wiki
    ensures forall p :: p in r.chunks && p.wiki && p.id in a.wiki ==> p.id in Ids(SelectWikiUpdate(r, s, a).wiki)
    ensures forall e :: e in JudgeWikiUpdate(r, s, a).sources ==>
      e in ScopedRaw(r, s.plan) && exists p :: p in s.wiki && e.id in p.sources
    ensures forall p, id :: p in s.wiki && id in p.sources && id in Ids(ScopedRaw(r, s.plan)) ==>
      id in Ids(JudgeWikiUpdate(r, s, a).sources)
  {
    PagesSelected(r, a.wiki);
    var raw, named := ScopedRaw(r, s.plan), Dedup(SourcesOf(s.wiki));
    var from := ResolveIs(raw, named);
    forall e | e in Resolve(raw, named)
      ensures e in raw && exists p :: p in s.wiki && e.id in p.sources
    {
      var k :| 0 <= k < |from| && Resolve(raw, named)[k] == e;
      assert named[from[k]] in named;
      NamedSources(s.wiki, e.id);
    }
    forall p, id | p in s.wiki && id in p.sources && id in Ids(raw)
      ensures id in Ids(Resolve(raw, named))
    {
      NamedSources(s.wiki, id);
      var i: nat :| i < |named| && named[i] == id;
      var k :| 0 <= k < |from| && from[k] == i;
      assert Resolve(raw, named)[k] in Resolve(raw, named);
    }
  }

  // ---- one round of search ----

  /** Every hit of the round: local ones, and Web ones when the request allows the Web. */
  function Found(r: Request, a: Answer): seq<Entry> {
    a.local + (if r.webAllowed then a.web else [])
  }

  /** Planning, searching, merging and reranking on four answers. */
  function Round(r: Request, m: Machine, a: seq<Answer>): Machine
    requires |a| == 4
  {
    Step(r, Step(r, Step(r, Step(r, m, a[0]), a[1]), a[2]), a[3])
  }

  /** The candidates of a round that found `hits`. */
  ghost predicate Considered(r: Request, s: State, hits: seq<Entry>, t: State) {
    && Ids(t.candidates) <= Ids(hits) && |t.candidates| <= r.candidateLimit
    && (|Ids(hits)| <= r.candidateLimit ==> Ids(t.candidates) == Ids(hits))
    && (t.newEvidence <==> exists e :: e in t.candidates && e.id !in s.seen)
    && t.seen == s.seen + Ids(t.candidates)
  }

  /** The evidence made of them with a ranking. */
  ghost predicate Evidence(r: Request, ranking: seq<Id>, t: State) {
    && t.final == t.reranked && TokenSum(t.reranked) <= r.evidenceBudget
    && (forall e :: e in t.reranked ==> e in t.candidates && (e.vector ==> e.id in ranking))
    && (forall e :: e in t.candidates && (!e.vector || e.id in ranking) ==>
          e in t.reranked || TokenSum(t.reranked) + e.tokens > r.evidenceBudget)
  }

  lemma RerankConsiders(r: Request, s: State, hits: seq<Entry>, a: Answer)
    requires s.merged == DedupById(hits)
    ensures Considered(r, s, hits, RerankUpdate(r, s, a))
  {
    var candidates := LimitCandidates(s.merged, r.candidateLimit);
    CandidatesAreMany(s.merged, r.candidateLimit);
    CandidateIds(s.merged, r.candidateLimit);
    DistinctCount(s.merged);
    if Ids(candidates) - s.seen != {} {
      var id :| id in Ids(candidates) - s.seen;
      var e :| e in candidates && e.id == id;
    }
    if e :| e in candidates && e.id !in s.seen {
      assert e.id in Ids(candidates) - s.seen;
    }
  }

  lemma RerankEvidenceIs(r: Request, s: State, hits: seq<Entry>, a: Answer)
    requires s.merged == DedupById(hits)
    ensures Evidence(r, a.ranking, RerankUpdate(r, s, a))
  {
    CandidatesAreMany(s.merged, r.candidateLimit);
    RankedEvidence(LimitCandidates(s.merged, r.candidateLimit), a.ranking, r.evidenceBudget);
  }

  lemma CandidateIds(es: seq<Entry>, limit: nat)
    requires DistinctIds(es)
    ensures Ids(LimitCandidates(es, limit)) <= Ids(es)
    ensures |es| <= limit ==> Ids(LimitCandidates(es, limit)) == Ids(es)
  {
    var c := LimitCandidates(es, limit);
    CandidatesAreMerged(es, limit);
    CandidatesAreMany(es, limit);
    if |es| <= limit {
      DistinctCount(c);
      DistinctCount(es);
      SubsetIsAll(Ids(c), Ids(es));
    }
  }

  lemma SubsetIsAll(a: set<Id>, b: set<Id>)
    requires a <= b && |a| == |b|
    ensures a == b
  {
    assert b == a + (b - a);
    assert |b| == |a| + |b - a|;
  }

  lemma RankedEvidence(candidates: seq<Entry>, ranking: seq<Id>, budget: nat)
    requires DistinctIds(candidates)
    ensures var all := Resolve(OnlyVector(candidates), ranking) + OnlyLight(candidates);
      && (forall e :: e in Pack(all, budget) ==> e in candidates && (e.vector ==> e.id in ranking))
      && (forall e :: e in candidates && (!e.vector || e.id in ranking) ==>
            e in Pack(all, budget) || TokenSum(Pack(all, budget)) + e.tokens > budget)
  {
    var ranked, light := Resolve(OnlyVector(candidates), ranking), OnlyLight(candidates);
    VectorsDistinct(candidates);
    forall e
      ensures e in ranked <==> e in candidates && e.vector && e.id in ranking
      ensures e in light <==> e in candidates && !e.vector
    {
      ResolvesTo(OnlyVector(candidates), ranking, e);
      Members(candidates, e, {});
    }
    forall e | e in candidates && (!e.vector || e.id in ranking)
      ensures e in Pack(ranked + light, budget) || TokenSum(Pack(ranked + light, budget)) + e.tokens > budget
    {
      assert e in ranked + light;
      PackIsGreedy(ranked + light, budget, e);
    }
  }

  lemma {:induction false} VectorsDistinct(es: seq<Entry>)
    requires DistinctIds(es)
    ensures DistinctIds(OnlyVector(es))
  {
    if es != [] {
      var init, last := es[..|es| - 1], es[|es| - 1];
      assert es == init + [last];
      VectorsDistinct(init);
      forall e | e in OnlyVector(init)
        ensures e in init
      {
        Members(init, e, {});
      }
      DistinctAppend(OnlyVector(init), init, last);
    }
  }

  lemma PlanStep(r: Request, m: Machine, a: Answer)
    requires m.node == PlanEvidence
    ensures var t := Step(r, m, a);
      t.node == SearchSources && t.state.plan == Some(Plan(a.scope, r.webAllowed)) && t.state.round == m.state.round + 1
      && t.state.seen == m.state.seen
  {
  }

  lemma SearchStep(r: Request, m: Machine, a: Answer)
    requires m.node == SearchSources && m.state.plan.Some? && m.state.plan.value.useWeb == r.webAllowed
    ensures var t := Step(r, m, a);
      t.node == MergeEvidence && t.state.local + t.state.web == Found(r, a)
      && t.state.plan == m.state.plan && t.state.round == m.state.round && t.state.seen == m.state.seen
  {
  }

  lemma MergeStep(r: Request, m: Machine, a: Answer, hits: seq<Entry>)
    requires m.node == MergeEvidence && m.state.local + m.state.web == hits
    ensures Step(r, m, a) == Machine(RerankEvidence, m.state.(merged := DedupById(hits)), m.trace + [MergeEvidence])
  {
  }

  lemma RerankStep(r: Request, m: Machine, a: Answer)
    requires m.node == RerankEvidence
    ensures var t := Step(r, m, a);
      t.node == JudgeEvidence && t.state == RerankUpdate(r, m.state, a)
      && t.state.plan == m.state.plan && t.state.round == m.state.round
  {
  }

  /**
   * A round of search leads from planning to judging.  Its candidates are hits of the round, one
   * for every hit when they are within the limit; new evidence means an id no earlier round
   * had; and every candidate the reranker names, like every lightweight one, is evidence unless
   * it does not fit the budget any more.
   */
  lemma {:induction false} RoundGathers(r: Request, m: Machine, a: seq<Answer>)
    requires m.node == PlanEvidence && |a| == 4
    ensures var t := Round(r, m, a);
      && t.node == JudgeEvidence && t.state.round == m.state.round + 1
      && t.state.plan == Some(Plan(a[0].scope, r.webAllowed))
      && Considered(r, m.state, Found(r, a[1]), t.state) && Evidence(r, a[3].ranking, t.state)
  {
    var m1 := Step(r, m, a[0]);
    var m2 := Step(r, m1, a[1]);
    var m3 := Step(r, m2, a[2]);
    PlanStep(r, m, a[0]);
    SearchStep(r, m1, a[1]);
    MergeStep(r, m2, a[2], Found(r, a[1]));
    RerankConsiders(r, m3.state, Found(r, a[1]), a[3]);
    RerankEvidenceIs(r, m3.state, Found(r, a[1]), a[3]);
    RerankStep(r, m3, a[3]);
  }

  // ---- the lightweight fallback ----

  /**
   * The fallback keeps what was judged in front and adds every lightweight raw chunk in the plan's
   * scope: an id of either is in the new evidence unless its entry does not fit any more.
   */
  lemma {:induction false} FallbackAdds(r: Request, s: State, e: Entry)
    requires e in s.reranked || (e in ScopedRaw(r, s.plan) && !e.vector)
    ensures var t := LightUpdate(r, s);
      && t.final == t.reranked && t.lightUsed && TokenSum(t.reranked) <= r.contextLimit
      && exists f: Entry :: f.id == e.id && (f in s.reranked || (f in ScopedRaw(r, s.plan) && !f.vector))
           && (f in t.reranked || TokenSum(t.reranked) + f.tokens > r.contextLimit)
  {
    var light := OnlyLight(ScopedRaw(r, s.plan));
    var all := s.reranked + light;
    Members(ScopedRaw(r, s.plan), e, {});
    assert e in all && e.id in Ids(all);
    var f :| f in DedupById(all) && f.id == e.id;
    Members(ScopedRaw(r, s.plan), f, {});
    PackIsGreedy(DedupById(all), r.contextLimit, f);
  }

  /** What was judged stays in front, whole, when it fits the context. */
  lemma {:induction false} FallbackKeepsFront(r: Request, s: State)
    requires DistinctIds(s.reranked) && TokenSum(s.reranked) <= r.contextLimit
    ensures s.reranked <= LightUpdate(r, s).reranked
  {
    var all := s.reranked + OnlyLight(ScopedRaw(r, s.plan));
    var n := |s.reranked|;
    KeepsFront(s.reranked, OnlyLight(ScopedRaw(r, s.plan)));
    PackGrows(DedupById(all), n, r.contextLimit);
    assert DedupById(all)[..n] == s.reranked;
    PackKeepsAll(s.reranked, r.contextLimit);
  }

  lemma {:induction false} KeepsFront(a: seq<Entry>, b: seq<Entry>)
    requires DistinctIds(a)
    ensures a <= DedupById(a + b)
  {
    if b == [] {
      assert a + b == a;
      DedupOfDistinct(a);
    } else {
      var init := b[..|b| - 1];
      KeepsFront(a, init);
      assert (a + b)[..|a + b| - 1] == a + init;
    }
  }

  lemma {:induction false} DedupOfDistinct(es: seq<Entry>)
    requires DistinctIds(es)
    ensures DedupById(es) == es
  {
    if es != [] {
      DedupOfDistinct(es[..|es| - 1]);
      assert IsFirst(es, |es| - 1);
      FirstMeans(es);
      assert es == es[..|es| - 1] + [es[|es| - 1]];
    }
  }

  // ---- where the final evidence comes from ----

  /** An entry of the corpus, a local hit, or a Web hit of a request that allows the Web. */
  ghost predicate Sourced(r: Request, answers: seq<Answer>, e: Entry) {
    || e in r.chunks
    || (exists a :: a in answers && e in a.local)
    || (r.webAllowed && exists a :: a in answers && e in a.web)
  }

  ghost predicate AllSourced(r: Request, answers: seq<Answer>, es: seq<Entry>) {
    forall e :: e in es ==> Sourced(r, answers, e)
  }

  ghost predicate StateSourced(r: Request, answers: seq<Answer>, s: State) {
    && AllSourced(r, answers, s.wiki) && AllSourced(r, answers, s.sources) && AllSourced(r, answers, s.local)
    && AllSourced(r, answers, s.web) && AllSourced(r, answers, s.merged) && AllSourced(r, answers, s.reranked)
    && AllSourced(r, answers, s.final)
    && (s.plan.Some? ==> s.plan.value.useWeb == r.webAllowed)
  }

  lemma SourcedMore(r: Request, answers: seq<Answer>, a: Answer, es: seq<Entry>)
    requires AllSourced(r, answers, es)
    ensures AllSourced(r, answers + [a], es)
  {
    forall e | e in es
      ensures Sourced(r, answers + [a], e)
    {
      assert Sourced(r, answers, e);
      if b :| b in answers && e in b.local {
        assert b in answers + [a];
      }
      if b :| b in answers && e in b.web {
        assert b in answers + [a];
      }
    }
  }

  lemma HitsSourced(r: Request, answers: seq<Answer>, a: Answer)
    requires a in answers
    ensures AllSourced(r, answers, a.local) && (r.webAllowed ==> AllSourced(r, answers, a.web))
  {
  }

  lemma CorpusSourced(r: Request, answers: seq<Answer>, s: State, a: Answer)
    ensures AllSourced(r, answers, SelectWikiUpdate(r, s, a).wiki)
    ensures AllSourced(r, answers, JudgeWikiUpdate(r, s, a).sources)
    ensures AllSourced(r, answers, OnlyLight(ScopedRaw(r, s.plan)))
  {
    ProvenanceIs(r, s, a);
    forall e | e in ScopedRaw(r, s.plan)
      ensures e in r.chunks
    {
      ScopedRawIs(r, if s.plan.Some? then s.plan.value else Plan({}, false), e);
    }
    forall e | e in OnlyLight(ScopedRaw(r, s.plan))
      ensures e in r.chunks
    {
      Members(ScopedRaw(r, s.plan), e, {});
    }
  }

  lemma RerankSourced(r: Request, answers: seq<Answer>, s: State, a: Answer)
    requires AllSourced(r, answers, s.merged)
    ensures AllSourced(r, answers, RerankUpdate(r, s, a).reranked)
  {
    var candidates := LimitCandidates(s.merged, r.candidateLimit);
    CandidatesAreMerged(s.merged, r.candidateLimit);
    ResolveKeeps(OnlyVector(candidates), a.ranking);
    FiltersKeep(candidates, {});
  }

  lemma SubSourced(r: Request, answers: seq<Answer>, es: seq<Entry>, fs: seq<Entry>)
    requires AllSourced(r, answers, es) && forall e :: e in fs ==> e in es
    ensures AllSourced(r, answers, fs)
  {
  }

  lemma WikiStepSourced(r: Request, answers: seq<Answer>, m: Machine, a: Answer)
    requires StateSourced(r, answers, m.state) && m.node in {SelectWiki, JudgeWiki, ExpandWikiSources}
    ensures StateSourced(r, answers, Step(r, m, a).state)
  {
    CorpusSourced(r, answers, m.state, a);
    SubSourced(r, answers, m.state.sources, Pack(m.state.sources, r.evidenceBudget));
  }

  lemma SearchStepSourced(r: Request, answers: seq<Answer>, m: Machine, a: Answer)
    requires StateSourced(r, answers, m.state) && a in answers && m.node == SearchSources
    ensures StateSourced(r, answers, Step(r, m, a).state)
  {
    HitsSourced(r, answers, a);
  }

  lemma MergeStepSourced(r: Request, answers: seq<Answer>, m: Machine, a: Answer)
    requires StateSourced(r, answers, m.state) && m.node == MergeEvidence
    ensures StateSourced(r, answers, Step(r, m, a).state)
  {
    var all := m.state.local + m.state.web;
    assert AllSourced(r, answers, all);
    SubSourced(r, answers, all, DedupById(all));
  }

  lemma RerankStepSourced(r: Request, answers: seq<Answer>, m: Machine, a: Answer)
    requires StateSourced(r, answers, m.state) && m.node == RerankEvidence
    ensures StateSourced(r, answers, Step(r, m, a).state)
  {
    RerankSourced(r, answers, m.state, a);
  }

  lemma LightStepSourced(r: Request, answers: seq<Answer>, m: Machine, a: Answer)
    requires StateSourced(r, answers, m.state) && m.node == ExpandLightweight
    ensures StateSourced(r, answers, Step(r, m, a).state)
  {
    CorpusSourced(r, answers, m.state, a);
    var all := m.state.reranked + OnlyLight(ScopedRaw(r, m.state.plan));
    assert AllSourced(r, answers, all);
    SubSourced(r, answers, all, Pack(DedupById(all), r.contextLimit));
  }

  lemma StepSourced(r: Request, answers: seq<Answer>, m: Machine, a: Answer)
    requires StateSourced(r, answers, m.state) && a in answers
    ensures StateSourced(r, answers, Step(r, m, a).state)
  {
    if m.node in {SelectWiki, JudgeWiki, ExpandWikiSources} {
      WikiStepSourced(r, answers, m, a);
    } else if m.node == SearchSources {
      SearchStepSourced(r, answers, m, a);
    } else if m.node == MergeEvidence {
      MergeStepSourced(r, answers, m, a);
    } else if m.node == RerankEvidence {
      RerankStepSourced(r, answers, m, a);
    } else if m.node == ExpandLightweight {
      LightStepSourced(r, answers, m, a);
    }
  }

  lemma {:induction false} RunSourced(r: Request, answers: seq<Answer>)
    ensures StateSourced(r, answers, Run(r, answers).state)
  {
    if answers != [] {
      var init, a := answers[..|answers| - 1], answers[|answers| - 1];
      assert answers == init + [a];
      var s := Run(r, init).state;
      RunSourced(r, init);
      SourcedMore(r, init, a, s.wiki);
      SourcedMore(r, init, a, s.sources);
      SourcedMore(r, init, a, s.local);
      SourcedMore(r, init, a, s.web);
      SourcedMore(r, init, a, s.merged);
      SourcedMore(r, init, a, s.reranked);
      SourcedMore(r, init, a, s.final);
      StepSourced(r, answers, Run(r, init), a);
    }
  }

  /**
   * Every entry of the evidence a run ends with is an entry of the corpus, a local hit of one of
   * its searches, or, only when the request allows the Web, a Web hit of one of them.
   */
  lemma {:induction false} FinalEvidenceIsSourced(r: Request, answers: seq<Answer>)
    ensures forall e :: e in Run(r, answers).state.final ==>
      || e in r.chunks
      || (exists a :: a in answers && e in a.local)
      || (r.webAllowed && exists a :: a in answers && e in a.web)
  {
    RunSourced(r, answers);
    forall e | e in Run(r, answers).state.final
      ensures Sourced(r, answers, e)
    {
    }
  }

  // ---- turns ----

  /** Where a run goes first: the Web calls for a plan, an empty corpus for an answer, a fresh Wiki to its pages. */
  lemma {:induction false} FirstTurn(r: Request, a: Answer)
    ensures var n := Step(r, Start(r), a).node;
      && (n == Generate <==> !r.webAllowed && forall e :: e in r.chunks ==> e.wiki)
      && (n == SelectWiki <==> !r.webAllowed && r.wikiFresh && (exists e :: e in r.chunks && !e.wiki) && exists e :: e in r.chunks && e.wiki)
      && n in {Generate, SelectWiki, PlanEvidence}
  {
    SumIsZero(Raw(r.chunks));
    RawIsEmpty(r.chunks);
  }

  lemma RawIsEmpty(es: seq<Entry>)
    ensures Raw(es) == [] <==> forall e :: e in es ==> e.wiki
  {
    if e :| e in es && !e.wiki {
      Members(es, e, {});
    }
    if Raw(es) != [] {
      Members(es, Raw(es)[0], {});
    }
  }

  lemma SumIsZero(es: seq<Entry>)
    ensures TokenSum(es) == 0 <==> es == []
  {
  }

  /**
   * A query is refined exactly when the judged evidence is insufficient, the judge could be asked and
   * names missing facets, the last round found something new, a round is left, and lightweight
   * evidence has been tried or is not there.
   */
  lemma {:induction false} RefinedExactly(r: Request, m: Machine, a: Answer)
    requires m.node == JudgeEvidence
    ensures Step(r, m, a).node == RefineQuery <==>
      && m.state.reranked != [] && a.judgement.Judged? && !a.judgement.sufficient && a.judgement.missing != []
      && m.state.newEvidence && m.state.round < r.maxRounds && (m.state.hasLight ==> m.state.lightUsed)
    ensures Step(r, m, a).node == ExpandLightweight <==>
      && m.state.hasLight && !m.state.lightUsed
      && !(m.state.reranked != [] && a.judgement.Judged? && a.judgement.sufficient)
  {
  }
}
