/**
 * What the merged Wiki and the database hold, told from the list of updates alone: which
 * pages there are, and whose text each of them has.
 */
module WikiTexts {
  import opened Common
  import opened WikiMerge
  import opened WikiOrphans

  /** Update `i` is the last one before number `n` that names page `k`. */
  ghost predicate LastUpdate(cs: seq<Compiled>, n: nat, i: nat, k: Id)
    requires n <= |cs|
  {
    i < n && cs[i].id == k && forall j :: i < j < n ==> cs[j].id != k
  }

  /** The page has the text of its last update, or is the initial page when no update names it. */
  ghost predicate WrittenBy(initial: map<Id, Page>, cs: seq<Compiled>, n: nat, k: Id, page: Page)
    requires n <= |cs|
  {
    && (forall i: nat :: LastUpdate(cs, n, i, k) ==> page.text == cs[i].page.text)
    && ((forall i :: 0 <= i < n ==> cs[i].id != k) ==> k in initial && page == initial[k])
  }

  /** The Wiki after the updates: its pages, and where each text comes from. */
  ghost predicate Reflects(initial: map<Id, Page>, cs: seq<Compiled>, wiki: map<Id, Page>) {
    && (forall k :: k in wiki <==> Known(initial, cs, |cs|, k) && !RemovedForGood(cs, |cs|, k))
    && (forall k :: k in wiki ==> WrittenBy(initial, cs, |cs|, k, wiki[k]))
  }

  lemma WrittenStep(initial: map<Id, Page>, cs: seq<Compiled>, n: nat, k: Id, page: Page)
    requires n < |cs| && k != cs[n].id && WrittenBy(initial, cs, n, k, page)
    ensures WrittenBy(initial, cs, n + 1, k, page)
  {
    forall i: nat | LastUpdate(cs, n + 1, i, k)
      ensures page.text == cs[i].page.text
    {
      assert LastUpdate(cs, n, i, k);
    }
    if forall i :: 0 <= i < n + 1 ==> cs[i].id != k {
      assert forall i :: 0 <= i < n ==> cs[i].id != k;
    }
  }

  lemma WrittenNow(initial: map<Id, Page>, cs: seq<Compiled>, n: nat, page: Page)
    requires n < |cs| && page.text == cs[n].page.text
    ensures WrittenBy(initial, cs, n + 1, cs[n].id, page)
  {
    forall i: nat | LastUpdate(cs, n + 1, i, cs[n].id)
      ensures page.text == cs[i].page.text
    {
      assert i == n;
    }
  }

  lemma PageAfter(w: Work, c: Compiled, k: Id)
    requires k in MergeOne(w, c).existing
    ensures var page := MergeOne(w, c).existing[k];
      if k == c.id then page.text == c.page.text else k in w.existing && page == w.existing[k]
  {
  }

  lemma {:induction false} TextsFollow(initial: map<Id, Page>, cs: seq<Compiled>, n: nat)
    requires n <= |cs|
    ensures var w := MergeAll(Start(initial), cs[..n]);
      forall k :: k in w.existing ==> WrittenBy(initial, cs, n, k, w.existing[k])
  {
    if n > 0 {
      var w, c := MergeAll(Start(initial), cs[..n - 1]), cs[n - 1];
      TextsFollow(initial, cs, n - 1);
      MergeAllPrefix(Start(initial), cs, n - 1);
      assert MergeAll(Start(initial), cs[..n]) == MergeOne(w, c);
      forall k | k in MergeOne(w, c).existing
        ensures WrittenBy(initial, cs, n, k, MergeOne(w, c).existing[k])
      {
        PageAfter(w, c, k);
        if k != c.id {
          WrittenStep(initial, cs, n - 1, k, w.existing[k]);
        } else {
          WrittenNow(initial, cs, n - 1, MergeOne(w, c).existing[k]);
        }
      }
    }
  }

  /**
   * The merged Wiki has exactly the pages that are initial or named by an update and not
   * removed for good; each has the text of the last update with its id, and a page that no
   * update names is the initial one.
   */
  lemma {:induction false} MergedWikiIs(initial: map<Id, Page>, cs: seq<Compiled>)
    ensures Reflects(initial, cs, MergeAll(Start(initial), cs).existing)
  {
    MergeTells(initial, cs, |cs|);
    TextsFollow(initial, cs, |cs|);
    assert cs[..|cs|] == cs;
  }

  /**
   * The table the queue is replayed on holds every page of the merged Wiki under the text of
   * its last update; a page it holds besides those is an orphan and has its initial row.
   */
  lemma {:induction false} ReplayedTextsAre(initial: map<Id, Page>, cs: seq<Compiled>)
    ensures var w := MergeAll(Start(initial), cs);
      && w.affected.Valid()
      && var t := Replay(initial, w.affected.Entries());
      && (forall k :: k in w.existing ==> k in t && WrittenBy(initial, cs, |cs|, k, t[k]))
      && (forall k :: k in t && k !in w.existing ==>
            k in initial && t[k] == initial[k] && RemovedForGood(cs, |cs|, k) && !StillListed(cs, |cs|, k))
  {
    MergedWikiIs(initial, cs);
    ReplayRefinesMerge(initial, cs);
    var w := MergeAll(Start(initial), cs);
    ReplayIsExistingPlusOrphans(initial, w);
    forall k | k in Orphaned(initial, w)
      ensures RemovedForGood(cs, |cs|, k) && !StillListed(cs, |cs|, k)
    {
      OrphanedByUpdates(initial, cs, k);
    }
  }
}
