/**
 * When the database and the in-memory Wiki agree, told from the list of updates alone:
 * which updates still carry their removals, and which pages are removed for good.
 */
module WikiOrphans {
  import opened Common
  import opened WikiMerge

  /** Update `j` removes page `k`: an update of the same page that still carries its removals lists it. */
  ghost predicate Removes(cs: seq<Compiled>, j: nat, k: Id)
    requires j < |cs|
    decreases j, 1
  {
    exists l :: 0 <= l <= j && cs[l].id == cs[j].id && Carried(cs, l, j) && k in cs[l].page.merged
  }

  /** No update of another page before number `n` removes the page of update `i`. */
  ghost predicate Carried(cs: seq<Compiled>, i: nat, n: nat)
    requires i <= n <= |cs| && i < |cs|
    decreases n, 0
  {
    forall j :: i < j < n && cs[j].id != cs[i].id ==> !Removes(cs, j, cs[i].id)
  }

  /** Some update before number `n` removes page `k`, and none after it brings it back. */
  ghost predicate RemovedForGood(cs: seq<Compiled>, n: nat, k: Id)
    requires n <= |cs|
  {
    exists j :: 0 <= j < n && cs[j].id != k && Removes(cs, j, k) && forall l :: j < l < n ==> cs[l].id != k
  }

  /** Some update that lists page `k` still carries its removals. */
  ghost predicate StillListed(cs: seq<Compiled>, n: nat, k: Id)
    requires n <= |cs|
  {
    exists i :: 0 <= i < n && Carried(cs, i, n) && k in cs[i].page.merged
  }

  ghost predicate ListsAt(cs: seq<Compiled>, n: nat, e: Id, k: Id)
    requires n <= |cs|
  {
    exists i :: 0 <= i < n && cs[i].id == e && Carried(cs, i, n) && k in cs[i].page.merged
  }

  ghost predicate QueuedAt(cs: seq<Compiled>, n: nat, e: Id)
    requires n <= |cs|
  {
    exists i :: 0 <= i < n && cs[i].id == e && Carried(cs, i, n)
  }

  /** An initial page, or one that some update before number `n` names. */
  ghost predicate Known(initial: map<Id, Page>, cs: seq<Compiled>, n: nat, k: Id)
    requires n <= |cs|
  {
    k in initial || exists i :: 0 <= i < n && cs[i].id == k
  }

  /** The merge after `n` updates, as the list of updates tells it. */
  ghost predicate Tells(initial: map<Id, Page>, cs: seq<Compiled>, n: nat, w: Work)
    requires n <= |cs|
  {
    && (forall e :: e in w.affected.rows <==> QueuedAt(cs, n, e))
    && (forall e, k :: e in w.affected.rows ==> (k in w.affected.rows[e].merged <==> ListsAt(cs, n, e, k)))
    && (forall k :: k in w.existing <==> Known(initial, cs, n, k) && !RemovedForGood(cs, n, k))
  }

  lemma CarriedStep(cs: seq<Compiled>, i: nat, n: nat)
    requires i <= n < |cs|
    ensures Carried(cs, i, n + 1) <==>
      Carried(cs, i, n) && (i < n && cs[n].id != cs[i].id ==> !Removes(cs, n, cs[i].id))
  {
  }

  lemma MergedIdsAre(initial: map<Id, Page>, cs: seq<Compiled>, n: nat, w: Work, k: Id)
    requires n < |cs| && Tells(initial, cs, n, w)
    ensures k in MergedIds(w, cs[n]) <==> Removes(cs, n, k)
  {
    var c := cs[n];
    assert c.id in w.affected.rows <==> QueuedAt(cs, n, c.id);
    if k in c.page.merged {
      assert Carried(cs, n, n);
    }
    if c.id in w.affected.rows && k in w.affected.rows[c.id].merged {
      assert ListsAt(cs, n, c.id, k);
    }
    if Removes(cs, n, k) && k !in c.page.merged {
      var l :| 0 <= l <= n && cs[l].id == c.id && Carried(cs, l, n) && k in cs[l].page.merged;
      assert QueuedAt(cs, n, c.id) && ListsAt(cs, n, c.id, k);
    }
  }

  lemma QueuedStep(cs: seq<Compiled>, n: nat, e: Id)
    requires n < |cs|
    ensures QueuedAt(cs, n + 1, e) <==> e == cs[n].id || (QueuedAt(cs, n, e) && !Removes(cs, n, e))
  {
    if e == cs[n].id {
      assert Carried(cs, n, n + 1);
    } else {
      forall i | 0 <= i < n && cs[i].id == e
        ensures Carried(cs, i, n + 1) <==> Carried(cs, i, n) && !Removes(cs, n, e)
      {
        CarriedStep(cs, i, n);
      }
    }
  }

  lemma ListsStep(cs: seq<Compiled>, n: nat, e: Id, k: Id)
    requires n < |cs|
    ensures ListsAt(cs, n + 1, e, k) <==>
      if e == cs[n].id then Removes(cs, n, k) else ListsAt(cs, n, e, k) && !Removes(cs, n, e)
  {
    forall i | 0 <= i <= n && cs[i].id == e
      ensures Carried(cs, i, n + 1) <==> Carried(cs, i, n) && (e != cs[n].id ==> !Removes(cs, n, e))
    {
      CarriedStep(cs, i, n);
    }
  }

  lemma RemovedStep(cs: seq<Compiled>, n: nat, k: Id)
    requires n < |cs|
    ensures RemovedForGood(cs, n + 1, k) <==> k != cs[n].id && (RemovedForGood(cs, n, k) || Removes(cs, n, k))
  {
    if k != cs[n].id && RemovedForGood(cs, n, k) {
      var j :| 0 <= j < n && cs[j].id != k && Removes(cs, j, k) && forall l :: j < l < n ==> cs[l].id != k;
      assert forall l :: j < l < n + 1 ==> cs[l].id != k;
    }
    if RemovedForGood(cs, n + 1, k) && k != cs[n].id && !Removes(cs, n, k) {
      var j :| 0 <= j < n + 1 && cs[j].id != k && Removes(cs, j, k) && forall l :: j < l < n + 1 ==> cs[l].id != k;
      assert j < n;
    }
  }

  lemma TellsStep(initial: map<Id, Page>, cs: seq<Compiled>, n: nat, w: Work)
    requires n < |cs| && Tells(initial, cs, n, w)
    ensures Tells(initial, cs, n + 1, MergeOne(w, cs[n]))
  {
    var c, merged := cs[n], MergedIds(w, cs[n]);
    var rows := MergeOne(w, c).affected.rows;
    assert rows == Pop(w.affected.rows, merged)[c.id := Page(c.page.text, merged)];
    forall k
      ensures k in merged <==> Removes(cs, n, k)
    {
      MergedIdsAre(initial, cs, n, w, k);
    }
    forall e
      ensures e in rows <==> QueuedAt(cs, n + 1, e)
    {
      QueuedStep(cs, n, e);
    }
    forall e, k | e in rows
      ensures k in rows[e].merged <==> ListsAt(cs, n + 1, e, k)
    {
      ListsStep(cs, n, e, k);
    }
    forall k
      ensures k in MergeOne(w, c).existing <==> Known(initial, cs, n + 1, k) && !RemovedForGood(cs, n + 1, k)
    {
      RemovedStep(cs, n, k);
      ExistingAfter(w, c, k);
      assert Known(initial, cs, n + 1, k) <==> Known(initial, cs, n, k) || k == c.id;
    }
  }

  lemma {:induction false} MergeTells(initial: map<Id, Page>, cs: seq<Compiled>, n: nat)
    requires n <= |cs|
    ensures Tells(initial, cs, n, MergeAll(Start(initial), cs[..n]))
  {
    if n > 0 {
      MergeTells(initial, cs, n - 1);
      TellsStep(initial, cs, n - 1, MergeAll(Start(initial), cs[..n - 1]));
      MergeAllPrefix(Start(initial), cs, n - 1);
    }
  }

  /** An initial page is orphaned exactly when it is removed for good and no update left to tell still lists it. */
  lemma {:induction false} OrphanedByUpdates(initial: map<Id, Page>, cs: seq<Compiled>, k: Id)
    ensures k in Orphaned(initial, MergeAll(Start(initial), cs)) <==>
      k in initial && RemovedForGood(cs, |cs|, k) && !StillListed(cs, |cs|, k)
  {
    var n, w := |cs|, MergeAll(Start(initial), cs);
    MergeTells(initial, cs, n);
    assert cs[..n] == cs;
    OrphanedMeans(initial, w, k);
    if StillListed(cs, n, k) {
      var i :| 0 <= i < n && Carried(cs, i, n) && k in cs[i].page.merged;
      assert QueuedAt(cs, n, cs[i].id) && ListsAt(cs, n, cs[i].id, k);
      assert cs[i].id in ListedBy(w, k);
    }
    if ListedBy(w, k) != {} {
      var e :| e in ListedBy(w, k);
      assert ListsAt(cs, n, e, k);
    }
  }

  /**
   * Over the whole list of updates: the database ends equal to the in-memory Wiki if and only
   * if every initial page that is removed for good is still listed by an update whose own page
   * no later update of another page removes.
   */
  lemma {:induction false} DatabaseEqualsWikiExactly(initial: map<Id, Page>, cs: seq<Compiled>)
    ensures var w := MergeAll(Start(initial), cs);
      && w.affected.Valid()
      && (Replay(initial, w.affected.Entries()) == w.existing <==>
            forall k :: k in initial && RemovedForGood(cs, |cs|, k) ==> StillListed(cs, |cs|, k))
  {
    ReplayRefinesMerge(initial, cs);
    var w := MergeAll(Start(initial), cs);
    forall k
      ensures k in Orphaned(initial, w) <==>
        k in initial && RemovedForGood(cs, |cs|, k) && !StillListed(cs, |cs|, k)
    {
      OrphanedByUpdates(initial, cs, k);
    }
  }
}
