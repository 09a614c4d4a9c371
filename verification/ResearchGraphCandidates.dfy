/** The candidates one rerank round may pay for: bounded, with the Web and the documents represented. */
module ResearchGraphCandidates {
  import opened Common
  import opened ResearchGraph

  predicate DistinctIds(es: seq<Entry>) {
    forall i, j :: 0 <= i < j < |es| ==> es[i].id != es[j].id
  }

  lemma {:induction false} WebAndLocal(es: seq<Entry>, e: Entry)
    ensures e in OnlyWeb(es) <==> e in es && e.web
    ensures e in OnlyLocal(es) <==> e in es && !e.web
  {
    if es != [] {
      WebAndLocal(es[..|es| - 1], e);
      assert es == es[..|es| - 1] + [es[|es| - 1]];
    }
  }

  lemma {:induction false} WebOrLocal(es: seq<Entry>)
    ensures |OnlyWeb(es)| + |OnlyLocal(es)| == |es|
  {
    if es != [] {
      WebOrLocal(es[..|es| - 1]);
    }
  }

  lemma {:induction false} InOthers(es: seq<Entry>, ids: set<Id>, e: Entry)
    ensures e in Others(es, ids) <==> e in es && e.id !in ids
  {
    if es != [] {
      InOthers(es[..|es| - 1], ids, e);
      assert es == es[..|es| - 1] + [es[|es| - 1]];
    }
  }

  /** An entry appended behind entries of `es` without it keeps the ids distinct. */
  lemma DistinctAppend(kept: seq<Entry>, es: seq<Entry>, last: Entry)
    requires DistinctIds(es + [last]) && DistinctIds(kept) && forall e :: e in kept ==> e in es
    ensures DistinctIds(kept + [last])
  {
    forall i | 0 <= i < |kept|
      ensures kept[i].id != last.id
    {
      assert kept[i] in es;
      var j :| 0 <= j < |es| && es[j] == kept[i];
      assert (es + [last])[j] == kept[i] && (es + [last])[|es|] == last;
    }
  }

  lemma {:induction false} FilteredDistinct(es: seq<Entry>, ids: set<Id>)
    requires DistinctIds(es)
    ensures DistinctIds(OnlyLocal(es)) && DistinctIds(OnlyWeb(es)) && DistinctIds(Others(es, ids))
  {
    if es != [] {
      var init, last := es[..|es| - 1], es[|es| - 1];
      assert es == init + [last];
      FilteredDistinct(init, ids);
      forall e
        ensures e in OnlyLocal(init) ==> e in init
        ensures e in OnlyWeb(init) ==> e in init
        ensures e in Others(init, ids) ==> e in init
      {
        WebAndLocal(init, e);
        InOthers(init, ids, e);
      }
      DistinctAppend(OnlyLocal(init), init, last);
      DistinctAppend(OnlyWeb(init), init, last);
      DistinctAppend(Others(init, ids), init, last);
    }
  }

  lemma {:induction false} WebConcat(a: seq<Entry>, b: seq<Entry>)
    ensures OnlyWeb(a + b) == OnlyWeb(a) + OnlyWeb(b)
    ensures OnlyLocal(a + b) == OnlyLocal(a) + OnlyLocal(b)
  {
    if b == [] {
      assert a + b == a;
    } else {
      WebConcat(a, b[..|b| - 1]);
      assert (a + b)[..|a + b| - 1] == a + b[..|b| - 1];
    }
  }

  lemma {:induction false} AllWeb(es: seq<Entry>)
    requires forall e :: e in es ==> e.web
    ensures OnlyWeb(es) == es && OnlyLocal(es) == []
  {
    if es != [] {
      var init, last := es[..|es| - 1], es[|es| - 1];
      assert es == init + [last];
      AllWeb(init);
    }
  }

  lemma {:induction false} AllLocal(es: seq<Entry>)
    requires forall e :: e in es ==> !e.web
    ensures OnlyLocal(es) == es && OnlyWeb(es) == []
  {
    if es != [] {
      var init, last := es[..|es| - 1], es[|es| - 1];
      assert es == init + [last];
      AllLocal(init);
    }
  }

  lemma KeysAppend(es: seq<Entry>, e: Entry)
    ensures Keys(es + [e]) == Keys(es) + {KeyOf(e)}
  {
    forall k | k in Keys(es) + {KeyOf(e)}
      ensures k in Keys(es + [e])
    {
      if k == KeyOf(e) {
        assert e in es + [e];
      } else {
        var x :| x in es && KeyOf(x) == k;
        assert x in es + [e];
      }
    }
  }

  /** The first entries have a key each, and stop short only when no key is left. */
  lemma {:induction false} DiversifiedSpreads(es: seq<Entry>, n: nat)
    ensures var d := Diversified(es, n);
      |d| == |Keys(d)| && Keys(d) <= Keys(es) && (n > 0 ==> |d| <= n) && (|d| < n ==> Keys(d) == Keys(es))
  {
    if es != [] {
      var init, last := es[..|es| - 1], es[|es| - 1];
      assert es == init + [last];
      DiversifiedSpreads(init, n);
      KeysAppend(init, last);
      KeysAppend(Diversified(init, n), last);
    }
  }

  lemma {:induction false} DiversifiedKeeps(es: seq<Entry>, n: nat)
    ensures forall e :: e in Diversified(es, n) ==> e in es
    ensures DistinctIds(es) ==> DistinctIds(Diversified(es, n))
  {
    if es != [] {
      var init, last := es[..|es| - 1], es[|es| - 1];
      assert es == init + [last];
      DiversifiedKeeps(init, n);
      if DistinctIds(es) {
        DistinctAppend(Diversified(init, n), init, last);
      }
    }
  }

  /** Local entries in their new order: one of every document in front, then the others. */
  function Reordered(es: seq<Entry>, n: nat): seq<Entry> {
    Diversified(es, n) + Others(es, Ids(Diversified(es, n)))
  }

  lemma ReorderedKeeps(es: seq<Entry>, n: nat)
    ensures forall e :: e in Reordered(es, n) ==> e in es
  {
    DiversifiedKeeps(es, n);
    forall e | e in Reordered(es, n)
      ensures e in es
    {
      InOthers(es, Ids(Diversified(es, n)), e);
    }
  }

  lemma ReorderedIds(es: seq<Entry>, n: nat)
    ensures Ids(Reordered(es, n)) == Ids(es)
  {
    var first := Diversified(es, n);
    ReorderedKeeps(es, n);
    forall id | id in Ids(es)
      ensures id in Ids(Reordered(es, n))
    {
      var e :| e in es && e.id == id;
      InOthers(es, Ids(first), e);
      if id in Ids(first) {
        var f :| f in first && f.id == id;
        assert f in Reordered(es, n);
      } else {
        assert e in Reordered(es, n);
      }
    }
  }

  lemma {:induction false} ReorderedDistinct(es: seq<Entry>, n: nat)
    requires DistinctIds(es)
    ensures DistinctIds(Reordered(es, n)) && |Reordered(es, n)| == |es|
  {
    var first := Diversified(es, n);
    var rest := Others(es, Ids(first));
    DiversifiedKeeps(es, n);
    FilteredDistinct(es, Ids(first));
    forall i, j | 0 <= i < |first| && 0 <= j < |rest|
      ensures first[i].id != rest[j].id
    {
      InOthers(es, Ids(first), rest[j]);
      assert first[i] in first && first[i].id in Ids(first);
    }
    ReorderedIds(es, n);
    DistinctCount(Reordered(es, n));
    DistinctCount(es);
  }

  lemma {:induction false} DistinctCount(es: seq<Entry>)
    requires DistinctIds(es)
    ensures |Ids(es)| == |es|
  {
    if es != [] {
      var init, last := es[..|es| - 1], es[|es| - 1];
      assert es == init + [last];
      DistinctCount(init);
      IdsAppend(init, last);
      assert last.id !in Ids(init);
    }
  }

  function Min(a: nat, b: nat): nat {
    if a <= b then a else b
  }

  /** The local part of the candidates. */
  function LocalPart(es: seq<Entry>, limit: nat): seq<Entry> {
    Take(Reordered(OnlyLocal(es), LocalLimit(es, limit)), LocalLimit(es, limit))
  }

  /** The two parts together never pass the limit. */
  lemma PartsFit(es: seq<Entry>, limit: nat)
    ensures LimitCandidates(es, limit) == LocalPart(es, limit) + Take(OnlyWeb(es), limit)
    ensures |LimitCandidates(es, limit)| <= limit
  {
  }

  lemma LocalPartKeeps(es: seq<Entry>, limit: nat)
    ensures forall e :: e in LocalPart(es, limit) ==> e in es && !e.web
    ensures forall e :: e in Take(OnlyWeb(es), limit) ==> e in es && e.web
  {
    ReorderedKeeps(OnlyLocal(es), LocalLimit(es, limit));
    forall e
      ensures e in OnlyLocal(es) <==> e in es && !e.web
      ensures e in OnlyWeb(es) <==> e in es && e.web
    {
      WebAndLocal(es, e);
    }
  }

  lemma TwoParts(es: seq<Entry>, limit: nat)
    ensures OnlyLocal(LimitCandidates(es, limit)) == LocalPart(es, limit)
    ensures OnlyWeb(LimitCandidates(es, limit)) == Take(OnlyWeb(es), limit)
  {
    PartsFit(es, limit);
    LocalPartKeeps(es, limit);
    AllLocal(LocalPart(es, limit));
    AllWeb(Take(OnlyWeb(es), limit));
    WebConcat(LocalPart(es, limit), Take(OnlyWeb(es), limit));
  }

  lemma CandidatesAreMerged(es: seq<Entry>, limit: nat)
    ensures forall e :: e in LimitCandidates(es, limit) ==> e in es
  {
    PartsFit(es, limit);
    LocalPartKeeps(es, limit);
  }

  /** Merged entries become candidates without repetition, as many as the limit allows. */
  lemma {:induction false} CandidatesAreMany(es: seq<Entry>, limit: nat)
    requires DistinctIds(es)
    ensures DistinctIds(LimitCandidates(es, limit)) && |LimitCandidates(es, limit)| == Min(limit, |es|)
  {
    var locals, n := OnlyLocal(es), LocalLimit(es, limit);
    var a, b := LocalPart(es, limit), Take(OnlyWeb(es), limit);
    FilteredDistinct(es, {});
    ReorderedDistinct(locals, n);
    WebOrLocal(es);
    PartsFit(es, limit);
    LocalPartKeeps(es, limit);
    forall i, j | 0 <= i < |a| && 0 <= j < |b|
      ensures a[i].id != b[j].id
    {
      assert a[i] in a && b[j] in b;
      DistinctMembers(es, a[i], b[j]);
    }
  }

  lemma DistinctMembers(es: seq<Entry>, a: Entry, b: Entry)
    requires DistinctIds(es) && a in es && b in es && a != b
    ensures a.id != b.id
  {
    var i :| 0 <= i < |es| && es[i] == a;
    var j :| 0 <= j < |es| && es[j] == b;
  }

  /** The documents among the first `n` local candidates. */
  lemma LocalKeys(es: seq<Entry>, n: nat)
    ensures |Keys(Take(Reordered(es, n), n))| == Min(n, |Keys(es)|)
  {
    var first, d := Diversified(es, n), Reordered(es, n);
    DiversifiedSpreads(es, n);
    ReorderedKeeps(es, n);
    if n == 0 {
      assert Keys(Take(d, n)) == {};
    } else if |first| == n {
      assert Take(d, n) == first;
      KeysFit(first, es);
    } else {
      assert Keys(Take(d, n)) == Keys(es) by {
        forall k | k in Keys(first)
          ensures k in Keys(Take(d, n))
        {
          var i :| 0 <= i < |first| && KeyOf(first[i]) == k;
          assert Take(d, n)[i] == first[i];
        }
      }
    }
  }

  /** The documents local entries show; an entry without a document stands for itself. */
  function Shown(es: seq<Entry>): set<Id> {
    set e | e in es && !e.web :: if e.document.Some? then e.document.value else e.id
  }

  lemma ShownIs(es: seq<Entry>)
    ensures Shown(es) == Keys(OnlyLocal(es))
  {
    forall e
      ensures e in OnlyLocal(es) <==> e in es && !e.web
    {
      WebAndLocal(es, e);
    }
  }

  /**
   * Web results are kept first of all, in order.  The places left over show as many documents
   * as they can: one for each place, or every document there is.
   */
  lemma {:induction false} CandidatesAreDiverse(es: seq<Entry>, limit: nat)
    ensures var c := LimitCandidates(es, limit);
      && OnlyWeb(c) == Take(OnlyWeb(es), limit)
      && |Shown(c)| == Min(limit - |OnlyWeb(c)|, |Shown(es)|)
  {
    ShownIs(es);
    ShownIs(LimitCandidates(es, limit));
    TwoParts(es, limit);
    LocalKeys(OnlyLocal(es), LocalLimit(es, limit));
  }

  lemma KeysFit(a: seq<Entry>, b: seq<Entry>)
    requires Keys(a) <= Keys(b)
    ensures |Keys(a)| <= |Keys(b)|
  {
    var rest := Keys(b) - Keys(a);
    assert Keys(b) == Keys(a) + rest;
  }

  lemma DiversifiedStopped(es: seq<Entry>, i: nat, n: nat)
    requires i <= |es| && Diversified(es[..i], n) != [] && |Diversified(es[..i], n)| >= n
    ensures Diversified(es, n) == Diversified(es[..i], n)
    decreases |es|
  {
    if i < |es| {
      assert es[..|es| - 1][..i] == es[..i];
      DiversifiedStopped(es[..|es| - 1], i, n);
    } else {
      assert es[..i] == es;
    }
  }

  /** The function as written: the loop over local entries leaves at the limit. */
  method LimitRerankCandidates(entries: seq<Entry>, limit: nat) returns (limited: seq<Entry>)
    ensures limited == LimitCandidates(entries, limit)
  {
    var web, locals := OnlyWeb(entries), OnlyLocal(entries);
    var localLimit := if |web| <= limit then limit - |web| else 0;
    var diversified: seq<Entry> := [];
    var seen: set<Id> := {};
    var i := 0;
    while i < |locals|
      invariant i <= |locals| && diversified == Diversified(locals[..i], localLimit) && seen == Keys(diversified)
      invariant diversified == [] || |diversified| < localLimit
    {
      assert locals[..i + 1][..i] == locals[..i];
      var candidate := locals[i];
      i := i + 1;
      if KeyOf(candidate) !in seen {
        KeysAppend(diversified, candidate);
        seen := seen + {KeyOf(candidate)};
        diversified := diversified + [candidate];
        if |diversified| >= localLimit {
          DiversifiedStopped(locals, i, localLimit);
          break;
        }
      }
    }
    assert diversified == Diversified(locals, localLimit) by {
      assert locals[..|locals|] == locals;
    }
    var rest := Others(locals, Ids(diversified));
    limited := Take(Take(diversified + rest, localLimit) + Take(web, limit), limit);
  }
}
