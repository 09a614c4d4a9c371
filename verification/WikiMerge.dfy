/**
 * Incremental Wiki merge (ingestion_service.py) and its replay against the
 * database (ingestion_store.py).  The merge keeps two dictionaries: `existing`,
 * the whole Wiki as the compiler should see it next, and `affected`, the pages
 * to be written, in dictionary order.  Only `affected` reaches the database.
 */
module WikiMerge {
  import opened Common

  /** A Wiki page: its text and the pages it lists for removal (`wiki_merged_page_ids`). */
  datatype Page = Page(text: string, merged: seq<Id>)

  /** One page as the compiler returns it, or as it is queued for the database. */
  datatype Compiled = Compiled(id: Id, page: Page)

  /** Popping every key of `gone`, whether or not it is there. */
  function Pop(m: map<Id, Page>, gone: seq<Id>): map<Id, Page> {
    m - (set g | g in gone)
  }

  lemma PopStep(m: map<Id, Page>, gone: seq<Id>, k: Id)
    ensures Pop(m, gone) - {k} == Pop(m, gone + [k])
  {
    assert (set g | g in gone + [k]) == (set g | g in gone) + {k};
  }

  /** A Python dictionary: its rows and the insertion order of its keys. */
  datatype Dict = Dict(order: seq<Id>, rows: map<Id, Page>) {
    ghost predicate Valid() {
      && Distinct(order)
      && forall k :: k in order <==> k in rows
    }

    function Set(k: Id, v: Page): Dict {
      Dict(if k in rows then order else order + [k], rows[k := v])
    }

    function PopAll(gone: seq<Id>): Dict {
      Dict(Without(order, gone), Pop(rows, gone))
    }

    /** `list(d.values())` */
    function Entries(): seq<Compiled>
      requires Valid()
    {
      seq(|order|, i requires 0 <= i < |order| => Compiled(order[i], rows[order[i]]))
    }
  }

  const EMPTY := Dict([], map[])

  datatype Work = Work(existing: map<Id, Page>, affected: Dict)

  function MergedIds(w: Work, c: Compiled): seq<Id> {
    Dedup((if c.id in w.affected.rows then w.affected.rows[c.id].merged else []) + c.page.merged)
  }

  function MergeOne(w: Work, c: Compiled): Work {
    var merged := MergedIds(w, c);
    var page := Page(c.page.text, merged);
    Work(Pop(w.existing, merged)[c.id := page],
         w.affected.PopAll(merged).Set(c.id, page))
  }

  function MergeAll(w: Work, cs: seq<Compiled>): Work {
    Fold(MergeOne, w, cs)
  }

  lemma MergeAllPrefix(w: Work, cs: seq<Compiled>, n: nat)
    requires n < |cs|
    ensures MergeAll(w, cs[..n + 1]) == MergeOne(MergeAll(w, cs[..n]), cs[n])
  {
    assert cs[..n + 1] == cs[..n] + [cs[n]];
    FoldStep(MergeOne, w, cs[..n], cs[n]);
  }

  /** One queued page written to the Wiki table: delete the pages it names, then upsert it. */
  function Upsert(t: map<Id, Page>, c: Compiled): map<Id, Page> {
    Pop(t, c.page.merged)[c.id := c.page]
  }

  /** The queued pages written in dictionary order. */
  function Replay(t: map<Id, Page>, es: seq<Compiled>): map<Id, Page> {
    Fold(Upsert, t, es)
  }

  /** What the merge keeps true between its two dictionaries, starting from the table `initial`. */
  ghost predicate Consistent(initial: map<Id, Page>, w: Work) {
    && w.affected.Valid()
    && (forall k :: k in w.affected.rows ==> k in w.existing && w.existing[k] == w.affected.rows[k])
    && (forall k :: k in w.existing && k !in w.affected.rows ==> k in initial && w.existing[k] == initial[k])
    && LaterSparesEarlier(w.affected)
    && (forall e, k :: e in w.affected.rows && k in w.existing && k !in w.affected.rows
          ==> k !in w.affected.rows[e].merged)
  }

  /** No queued page lists a page queued before it. */
  ghost predicate LaterSparesEarlier(d: Dict)
    requires d.Valid()
  {
    forall i, j :: 0 <= i < j < |d.order| ==> d.order[i] !in d.rows[d.order[j]].merged
  }

  lemma PopAllKeepsOrder(d: Dict, gone: seq<Id>)
    requires d.Valid() && LaterSparesEarlier(d)
    ensures d.PopAll(gone).Valid() && LaterSparesEarlier(d.PopAll(gone))
  {
    var d' := d.PopAll(gone);
    forall i, j | 0 <= i < j < |d'.order|
      ensures d'.order[i] !in d'.rows[d'.order[j]].merged
    {
      WithoutOrder(d.order, gone, i, j);
      assert d'.order[j] in d'.order;
    }
  }

  /** Queuing a page keeps the order property when its removals are no longer queued. */
  lemma SetKeepsOrder(d: Dict, k: Id, v: Page)
    requires d.Valid() && LaterSparesEarlier(d)
    requires forall g :: g in v.merged ==> g !in d.rows || g == k
    ensures d.Set(k, v).Valid() && LaterSparesEarlier(d.Set(k, v))
  {
    var d' := d.Set(k, v);
    forall i, j | 0 <= i < j < |d'.order|
      ensures d'.order[i] !in d'.rows[d'.order[j]].merged
    {
      assert i < |d.order| && d'.order[i] in d.rows;
    }
  }

  lemma MergeOneQueueInvariant(w: Work, c: Compiled)
    requires w.affected.Valid() && LaterSparesEarlier(w.affected)
    ensures var d := MergeOne(w, c).affected; d.Valid() && LaterSparesEarlier(d)
  {
    var merged := MergedIds(w, c);
    PopAllKeepsOrder(w.affected, merged);
    SetKeepsOrder(w.affected.PopAll(merged), c.id, Page(c.page.text, merged));
  }

  lemma MergeOneConsistent(initial: map<Id, Page>, w: Work, c: Compiled)
    requires Consistent(initial, w)
    ensures Consistent(initial, MergeOne(w, c))
  {
    MergeOneQueueInvariant(w, c);
    var merged := MergedIds(w, c);
    var w' := MergeOne(w, c);
    var rows := w'.affected.rows;
    assert rows == Pop(w.affected.rows, merged)[c.id := Page(c.page.text, merged)];
    forall e, k | e in rows && k in w'.existing && k !in rows
      ensures k !in rows[e].merged
    {
      assert k != c.id && k !in merged;
      assert k in w.existing && k !in w.affected.rows;
    }
  }

  lemma {:induction false} MergeAllConsistent(initial: map<Id, Page>, w: Work, cs: seq<Compiled>)
    requires Consistent(initial, w)
    ensures Consistent(initial, MergeAll(w, cs))
  {
    if cs != [] {
      MergeAllConsistent(initial, w, cs[..|cs| - 1]);
      MergeOneConsistent(initial, MergeAll(w, cs[..|cs| - 1]), cs[|cs| - 1]);
    }
  }

  /** What a prefix of the replay leaves at key `k`. */
  lemma {:induction false} ReplayPrefix(initial: map<Id, Page>, d: Dict, n: nat, k: Id)
    requires d.Valid() && LaterSparesEarlier(d) && n <= |d.order|
    ensures var t := Replay(initial, d.Entries()[..n]);
            && (k in d.order[..n] ==> k in t && t[k] == d.rows[k])
            && (k !in d.order[..n] ==>
                  (k in t <==> k in initial && forall i :: 0 <= i < n ==> k !in d.rows[d.order[i]].merged)
                  && (k in t ==> t[k] == initial[k]))
  {
    if n > 0 {
      ReplayPrefix(initial, d, n - 1, k);
      var es := d.Entries()[..n];
      assert es[..n - 1] == d.Entries()[..n - 1];
      assert d.order[..n] == d.order[..n - 1] + [d.order[n - 1]];
      if k in d.order[..n - 1] {
        var i :| 0 <= i < n - 1 && d.order[i] == k;
        assert d.order[i] !in d.rows[d.order[n - 1]].merged;
      }
    }
  }

  /** Initial pages dropped from the working Wiki that no queued page lists any more. */
  function Orphaned(initial: map<Id, Page>, w: Work): set<Id> {
    set k | k in initial && k !in w.existing
            && forall e :: e in w.affected.rows ==> k !in w.affected.rows[e].merged
  }

  /** The replayed table is the working Wiki plus exactly the orphaned initial pages. */
  lemma ReplayIsExistingPlusOrphans(initial: map<Id, Page>, w: Work)
    requires Consistent(initial, w)
    ensures Replay(initial, w.affected.Entries())
         == w.existing + (map k | k in Orphaned(initial, w) :: initial[k])
  {
    var d := w.affected;
    var es := d.Entries();
    var t := Replay(initial, es);
    var goal := w.existing + (map k | k in Orphaned(initial, w) :: initial[k]);
    assert es[..|es|] == es && d.order[..|es|] == d.order;
    forall k ensures k in t <==> k in goal
             ensures k in t ==> t[k] == goal[k]
    {
      ReplayPrefix(initial, d, |es|, k);
      if k !in d.order {
        if k in t && k !in w.existing {
          forall e | e in d.rows ensures k !in d.rows[e].merged {
            assert e in d.order;
            var i :| 0 <= i < |d.order| && d.order[i] == e;
          }
        }
        if k in w.existing || k in Orphaned(initial, w) {
          forall i | 0 <= i < |es| ensures k !in d.rows[d.order[i]].merged {
            assert d.order[i] in d.order;
          }
        }
      }
    }
  }

  /** The merge starts from the loaded table with nothing queued. */
  function Start(initial: map<Id, Page>): Work { Work(initial, EMPTY) }

  lemma StartConsistent(initial: map<Id, Page>)
    ensures Consistent(initial, Start(initial)) && Orphaned(initial, Start(initial)) == {}
  {
  }

  /**
   * Replaying what the merge queued always leaves at least the working Wiki, and
   * leaves exactly the working Wiki if and only if no initial page was orphaned.
   */
  lemma ReplayRefinesMerge(initial: map<Id, Page>, cs: seq<Compiled>)
    ensures var w := MergeAll(Start(initial), cs);
            && Consistent(initial, w)
            && (var t := Replay(initial, w.affected.Entries());
                && (forall k :: k in w.existing ==> k in t && t[k] == w.existing[k])
                && (t == w.existing <==> Orphaned(initial, w) == {}))
  {
    StartConsistent(initial);
    MergeAllConsistent(initial, Start(initial), cs);
    var w := MergeAll(Start(initial), cs);
    ReplayIsExistingPlusOrphans(initial, w);
    PlusDisjoint(w.existing, map k | k in Orphaned(initial, w) :: initial[k]);
  }

  lemma PlusDisjoint(a: map<Id, Page>, b: map<Id, Page>)
    requires a.Keys !! b.Keys
    ensures forall k :: k in a ==> k in a + b && (a + b)[k] == a[k]
    ensures a + b == a <==> b.Keys == {}
  {
    if k :| k in b {
      assert k in a + b && k !in a;
    }
  }

  /** A page that absorbs queued pages takes over every removal they still carry. */
  ghost predicate KeepsRemovals(w: Work, c: Compiled) {
    forall e, r :: e in w.affected.rows && e in MergedIds(w, c) && r in w.affected.rows[e].merged
      ==> r in MergedIds(w, c)
  }

  ghost predicate AllKeepRemovals(w: Work, cs: seq<Compiled>) {
    forall n :: 0 <= n < |cs| ==> KeepsRemovals(MergeAll(w, cs[..n]), cs[n])
  }

  /** Queued pages that list `k` for removal. */
  function ListedBy(w: Work, k: Id): set<Id> {
    set e | e in w.affected.rows && k in w.affected.rows[e].merged
  }

  /**
   * The exact step: after one more update an initial page is orphaned if and only if the update
   * neither is that page nor lists it, the page was already gone from the working Wiki, and every
   * queued page that listed it, if any did, is absorbed by the update or replaced by it.
   */
  lemma OrphansExactly(initial: map<Id, Page>, w: Work, c: Compiled, k: Id)
    ensures k in Orphaned(initial, MergeOne(w, c)) <==>
      && k in initial && k !in w.existing && k != c.id && k !in MergedIds(w, c)
      && forall e :: e in ListedBy(w, k) ==> e in MergedIds(w, c) || e == c.id
  {
    ListedAfter(w, c, k);
    ExistingAfter(w, c, k);
    OrphanedMeans(initial, MergeOne(w, c), k);
    NobodyLeft(ListedBy(w, k), MergedIds(w, c), c.id, k);
  }

  lemma NobodyLeft(listed: set<Id>, merged: seq<Id>, own: Id, k: Id)
    ensures (if k in merged then {own} else {}) + (set e | e in listed && e !in merged && e != own) == {}
       <==> k !in merged && forall e :: e in listed ==> e in merged || e == own
  {
    var rest := set e | e in listed && e !in merged && e != own;
    if (if k in merged then {own} else {}) + rest == {} {
      assert own !in (if k in merged then {own} else {}) + rest;
      forall e | e in listed
        ensures e in merged || e == own
      {
        assert e !in rest;
      }
    }
  }

  lemma OrphanedMeans(initial: map<Id, Page>, w: Work, k: Id)
    ensures k in Orphaned(initial, w) <==> k in initial && k !in w.existing && ListedBy(w, k) == {}
  {
    if k in initial && k !in w.existing && ListedBy(w, k) == {} {
      forall e | e in w.affected.rows
        ensures k !in w.affected.rows[e].merged
      {
        assert e !in ListedBy(w, k);
      }
    }
  }

  lemma ExistingAfter(w: Work, c: Compiled, k: Id)
    ensures k in MergeOne(w, c).existing <==> k == c.id || (k in w.existing && k !in MergedIds(w, c))
  {
  }

  /** Who lists a page after an update: the page updated for its merged ids, and the queued pages it did not absorb. */
  lemma ListedAfter(w: Work, c: Compiled, k: Id)
    ensures ListedBy(MergeOne(w, c), k)
         == (if k in MergedIds(w, c) then {c.id} else {})
            + (set e | e in ListedBy(w, k) && e !in MergedIds(w, c) && e != c.id)
  {
    var merged := MergedIds(w, c);
    var rows := MergeOne(w, c).affected.rows;
    assert rows == Pop(w.affected.rows, merged)[c.id := Page(c.page.text, merged)];
  }

  /** An update newly orphans exactly the removed pages whose every record it absorbs without taking it over. */
  lemma NewlyOrphanedExactly(initial: map<Id, Page>, w: Work, c: Compiled, k: Id)
    ensures k in Orphaned(initial, MergeOne(w, c)) && k !in Orphaned(initial, w) <==>
      && k in initial && k !in w.existing && k != c.id && k !in MergedIds(w, c)
      && ListedBy(w, k) != {} && forall e :: e in ListedBy(w, k) ==> e in MergedIds(w, c) && e != c.id
    ensures k in Orphaned(initial, w) && k !in Orphaned(initial, MergeOne(w, c)) <==>
      k in Orphaned(initial, w) && (k == c.id || k in MergedIds(w, c))
  {
    OrphansExactly(initial, w, c, k);
    OrphanedMeans(initial, w, k);
    if c.id in ListedBy(w, k) {
      ListedTakenOver(w, c, k);
    }
  }

  /** Updating a queued page keeps its own removals. */
  lemma ListedTakenOver(w: Work, c: Compiled, k: Id)
    requires c.id in ListedBy(w, k)
    ensures k in MergedIds(w, c)
  {
  }

  lemma KeepPrefix(w: Work, cs: seq<Compiled>, m: nat)
    requires AllKeepRemovals(w, cs) && m <= |cs|
    ensures AllKeepRemovals(w, cs[..m])
  {
    forall n | 0 <= n < m
      ensures KeepsRemovals(MergeAll(w, cs[..m][..n]), cs[..m][n])
    {
      assert cs[..m][..n] == cs[..n];
    }
  }

  /** As long as absorbed pages hand their removals on, no page is orphaned. */
  lemma {:induction false} NoOrphans(initial: map<Id, Page>, cs: seq<Compiled>)
    requires AllKeepRemovals(Start(initial), cs)
    ensures Orphaned(initial, MergeAll(Start(initial), cs)) == {}
  {
    if cs == [] {
      StartConsistent(initial);
    } else {
      var m := |cs| - 1;
      KeepPrefix(Start(initial), cs, m);
      NoOrphans(initial, cs[..m]);
      assert KeepsRemovals(MergeAll(Start(initial), cs[..m]), cs[m]);
      MergeOneOrphansNone(initial, MergeAll(Start(initial), cs[..m]), cs[m]);
      MergeAllPrefix(Start(initial), cs, m);
      assert cs[..m + 1] == cs;
    }
  }

  lemma MergeOneOrphansNone(initial: map<Id, Page>, w: Work, c: Compiled)
    requires Orphaned(initial, w) == {} && KeepsRemovals(w, c)
    ensures Orphaned(initial, MergeOne(w, c)) == {}
  {
    var w', merged := MergeOne(w, c), MergedIds(w, c);
    forall k | k in initial && k !in w'.existing
      ensures exists e :: e in w'.affected.rows && k in w'.affected.rows[e].merged
    {
      if k in merged {
        assert k in w'.affected.rows[c.id].merged;
      } else {
        assert k !in w.existing;
        assert k !in Orphaned(initial, w);
        var e :| e in w.affected.rows && k in w.affected.rows[e].merged;
        assert e !in merged;
        assert e != c.id;
        assert k in w'.affected.rows[e].merged;
      }
    }
  }

  /**
   * Without that hypothesis the replay can bring a page back: page 1 absorbs
   * page 2, then page 3 absorbs page 1, and nothing queued deletes page 2.
   */
  lemma OrphanExample()
    ensures var initial := map[1 := Page("a", []), 2 := Page("b", [])];
            var w := MergeAll(Start(initial), [Compiled(1, Page("a2", [2])), Compiled(3, Page("c", [1]))]);
            && w.affected.Valid()
            && w.existing.Keys == {3}
            && Replay(initial, w.affected.Entries()).Keys == {2, 3}
  {
    var initial := map[1 := Page("a", []), 2 := Page("b", [])];
    var c1, c3 := Compiled(1, Page("a2", [2])), Compiled(3, Page("c", [1]));
    var w0 := Start(initial);
    MergeOfFresh(w0, c1, 2);
    var w1 := MergeOne(w0, c1);
    MergeOfFresh(w1, c3, 1);
    var w2 := MergeOne(w1, c3);
    assert MergeAll(w0, []) == w0;
    FoldStep(MergeOne, w0, [], c1);
    FoldStep(MergeOne, w0, [c1], c3);
    assert [] + [c1] == [c1] && [c1] + [c3] == [c1, c3];
    OrphanExampleReplay(initial, w2, c3);
  }

  lemma MergeOfFresh(w: Work, c: Compiled, gone: Id)
    requires c.page.merged == [gone] && c.id !in w.affected.rows && c.id != gone
    requires w.affected.order == [] || w.affected.order == [gone]
    ensures MergeOne(w, c) == Work((w.existing - {gone})[c.id := c.page],
                                   Dict([c.id], (w.affected.rows - {gone})[c.id := c.page]))
  {
    var none: seq<Id> := [];
    assert none + [gone] == [gone] && [gone][..0] == none;
    assert Dedup(none) == none;
    assert Dedup([gone]) == none + [gone];
    assert Without(none, [gone]) == none;
    assert Without([gone], [gone]) == none;
    assert (set g | g in [gone]) == {gone};
  }

  lemma OrphanExampleReplay(initial: map<Id, Page>, w: Work, c: Compiled)
    requires w == Work(map[3 := c.page], Dict([3], map[3 := c.page])) && c == Compiled(3, Page("c", [1]))
    requires initial.Keys == {1, 2}
    ensures w.affected.Valid() && Replay(initial, w.affected.Entries()).Keys == {2, 3}
  {
    var es := w.affected.Entries();
    assert es == [c];
    assert Replay(initial, es[..0]) == initial;
    assert Replay(initial, es) == Upsert(initial, c);
  }

  /** The two dictionaries as the service mutates them. */
  class WikiWork {
    var existing: map<Id, Page>
    var affected: Dict

    constructor (pages: map<Id, Page>)
      ensures Value() == Start(pages)
    {
      existing := pages;
      affected := EMPTY;
    }

    function Value(): Work
      reads this
    {
      Work(existing, affected)
    }

    /** `_merge_compiled_chunks` */
    method MergeCompiledChunks(compiled: seq<Compiled>)
      modifies this
      ensures Value() == MergeAll(old(Value()), compiled)
    {
      for n := 0 to |compiled|
        invariant Value() == MergeAll(old(Value()), compiled[..n])
      {
        MergeAllPrefix(old(Value()), compiled, n);
        MergeChunk(compiled[n]);
      }
      assert compiled[..|compiled|] == compiled;
    }

    /** The body of its loop, for one compiled chunk. */
    method MergeChunk(chunk: Compiled)
      modifies this
      ensures Value() == MergeOne(old(Value()), chunk)
    {
      var oldRemoved := if chunk.id in affected.rows then affected.rows[chunk.id].merged else [];
      var mergedIds := Dedup(oldRemoved + chunk.page.merged);
      RemovePages(mergedIds);
      var page := Page(chunk.page.text, mergedIds);
      existing := existing[chunk.id := page];
      affected := affected.Set(chunk.id, page);
    }

    method RemovePages(pageIds: seq<Id>)
      modifies this
      ensures existing == Pop(old(existing), pageIds)
      ensures affected == old(affected).PopAll(pageIds)
    {
      PopNothing(affected);
      for i := 0 to |pageIds|
        invariant existing == Pop(old(existing), pageIds[..i])
        invariant affected == old(affected).PopAll(pageIds[..i])
      {
        PopNext(old(existing), old(affected), pageIds, i);
        existing := existing - {pageIds[i]};
        affected := affected.PopAll([pageIds[i]]);
      }
      assert pageIds[..|pageIds|] == pageIds;
    }
  }

  lemma PopNothing(d: Dict)
    ensures d.PopAll([]) == d
  {
    WithoutNothing(d.order);
    assert Pop(d.rows, []) == d.rows;
  }

  lemma PopNext(m: map<Id, Page>, d: Dict, gone: seq<Id>, i: nat)
    requires i < |gone|
    ensures Pop(m, gone[..i]) - {gone[i]} == Pop(m, gone[..i + 1])
    ensures d.PopAll(gone[..i]).PopAll([gone[i]]) == d.PopAll(gone[..i + 1])
  {
    assert gone[..i + 1] == gone[..i] + [gone[i]];
    PopOneMore(d, gone[..i], gone[i]);
    PopStep(m, gone[..i], gone[i]);
  }

  lemma PopOneMore(d: Dict, gone: seq<Id>, k: Id)
    ensures d.PopAll(gone).PopAll([k]) == d.PopAll(gone + [k])
  {
    WithoutStep(d.order, gone, k);
    PopStep(d.rows, gone, k);
    assert Pop(Pop(d.rows, gone), [k]) == Pop(d.rows, gone) - {k};
  }
}
