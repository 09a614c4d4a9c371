/**
 * Sections, locators and anchors of the chunks, told from the parsed blocks: which neighbours
 * share a group, under which path a chunk is filed, and whose anchors it carries.
 */
module ChunkSections {
  import opened SentenceSplit
  import opened TextLaws
  import opened ChunkSpans
  import opened Chunking

  // ---- section paths ----

  /** Some character is not whitespace. */
  predicate Shows(s: string) {
    exists c :: c in s && !IsSpace(c)
  }

  /** `at` lists, in order, exactly the positions of the items that show; `path` are those items. */
  ghost predicate Selects(at: seq<nat>, raw: seq<string>, path: seq<string>) {
    && |at| == |path|
    && (forall k :: 0 <= k < |at| ==> at[k] < |raw| && path[k] == raw[at[k]])
    && (forall k, l :: 0 <= k < l < |at| ==> at[k] < at[l])
    && (forall i: nat :: i < |raw| ==> (i in at <==> Shows(raw[i])))
  }

  /** `path` holds exactly the items of `raw` that are not whitespace, in order. */
  ghost predicate KeepsItems(raw: seq<string>, path: seq<string>) {
    exists at :: Selects(at, raw, path)
  }

  /** The block is filed under `path`: its path without blank items, or else its title alone when it has one. */
  ghost predicate UnderSection(b: Block, path: seq<string>) {
    match b.path
    case Some(raw) => KeepsItems(raw, path)
    case None => path == if b.title.Some? && b.title.value != "" then [b.title.value] else []
  }

  lemma BlankShows(s: string)
    ensures Blank(s) <==> !Shows(s)
  {
    StripNothing(s);
  }

  lemma SelectsMore(at: seq<nat>, raw: seq<string>, path: seq<string>, item: string)
    requires Selects(at, raw, path)
    ensures Shows(item) ==> Selects(at + [|raw|], raw + [item], path + [item])
    ensures !Shows(item) ==> Selects(at, raw + [item], path)
  {
    var more := raw + [item];
    if Shows(item) {
      forall i: nat | i < |more|
        ensures i in at + [|raw|] <==> Shows(more[i])
      {
        assert i < |raw| ==> more[i] == raw[i];
      }
    } else {
      forall i: nat | i < |more|
        ensures i in at <==> Shows(more[i])
      {
        if i < |raw| {
          assert more[i] == raw[i];
        }
        assert forall k :: 0 <= k < |at| ==> at[k] < |raw|;
      }
    }
  }

  lemma {:induction false} NotBlankKeeps(raw: seq<string>) returns (at: seq<nat>)
    ensures Selects(at, raw, NotBlank(raw))
  {
    if raw == [] {
      at := [];
    } else {
      var init, item := raw[..|raw| - 1], raw[|raw| - 1];
      at := NotBlankKeeps(init);
      SelectsMore(at, init, NotBlank(init), item);
      NotBlankLast(init, item);
      assert raw == init + [item];
      at := if Shows(item) then at + [|init|] else at;
    }
  }

  lemma NotBlankLast(init: seq<string>, item: string)
    ensures NotBlank(init + [item]) == if Shows(item) then NotBlank(init) + [item] else NotBlank(init)
  {
    BlankShows(item);
    assert (init + [item])[..|init|] == init;
  }

  /** The last position selected, and the selection without it. */
  lemma SelectsLess(at: seq<nat>, raw: seq<string>, path: seq<string>)
    requires Selects(at, raw, path) && raw != []
    ensures var n := |raw| - 1;
      if Shows(raw[n]) then at != [] && path[|path| - 1] == raw[n] && Selects(at[..|at| - 1], raw[..n], path[..|path| - 1])
      else Selects(at, raw[..n], path)
  {
    var n: nat := |raw| - 1;
    if Shows(raw[n]) {
      assert n in at;
      var k :| 0 <= k < |at| && at[k] == n;
      assert at[|at| - 1] <= n;
      assert k == |at| - 1;
      var less := at[..k];
      forall i: nat | i < n
        ensures i in less <==> Shows(raw[..n][i])
      {
        assert at == less + [n];
      }
    } else {
      forall k | 0 <= k < |at|
        ensures at[k] < n
      {
        assert at[k] in at;
      }
    }
  }

  lemma NotBlankStep(raw: seq<string>)
    requires raw != []
    ensures var n := |raw| - 1; NotBlank(raw) == NotBlank(raw[..n]) + (if Shows(raw[n]) then [raw[n]] else [])
  {
    BlankShows(raw[|raw| - 1]);
  }

  lemma {:induction false} SelectionIsNotBlank(at: seq<nat>, raw: seq<string>, path: seq<string>)
    requires Selects(at, raw, path)
    ensures path == NotBlank(raw)
    decreases |raw|
  {
    if raw == [] {
      assert at == [];
    } else {
      var n := |raw| - 1;
      SelectsLess(at, raw, path);
      NotBlankStep(raw);
      if Shows(raw[n]) {
        SelectionIsNotBlank(at[..|at| - 1], raw[..n], path[..|path| - 1]);
        assert path == path[..|path| - 1] + [raw[n]];
      } else {
        SelectionIsNotBlank(at, raw[..n], path);
      }
    }
  }

  /** A block is filed under exactly one path. */
  lemma {:induction false} SectionPathIs(b: Block, path: seq<string>)
    ensures UnderSection(b, path) <==> path == SectionPath(b)
  {
    if b.path.Some? {
      var at := NotBlankKeeps(b.path.value);
      if KeepsItems(b.path.value, path) {
        var found :| Selects(found, b.path.value, path);
        SelectionIsNotBlank(found, b.path.value, path);
      }
    }
  }

  /** Two blocks share page, slide and section. */
  ghost predicate SameSection(a: Block, b: Block) {
    a.page == b.page && a.slide == b.slide && exists path :: UnderSection(a, path) && UnderSection(b, path)
  }

  lemma SameKey(a: Block, b: Block)
    ensures SameSection(a, b) <==> GroupKey(a) == GroupKey(b)
  {
    SectionPathIs(a, SectionPath(a));
    SectionPathIs(b, SectionPath(a));
    if SameSection(a, b) {
      var path :| UnderSection(a, path) && UnderSection(b, path);
      SectionPathIs(a, path);
      SectionPathIs(b, path);
    }
  }

  // ---- groups ----

  /** A group starts with block number `n` of those that are not blank. */
  ghost predicate GroupStarts(gs: seq<Group>, n: nat) {
    exists j :: 0 <= j < |gs| && |Flatten(gs[..j])| == n
  }

  lemma FlattenUpTo(gs: seq<Group>, j: nat)
    requires j < |gs|
    ensures Flatten(gs[..j + 1]) == Flatten(gs[..j]) + gs[j]
  {
    assert gs[..j + 1] == gs[..j] + [gs[j]];
    FlattenStep(gs[..j], gs[j]);
  }

  lemma {:induction false} FlattenPrefix(gs: seq<Group>, i: nat, j: nat)
    requires i <= j <= |gs|
    ensures Flatten(gs[..i]) <= Flatten(gs[..j])
    ensures i < j ==> |Flatten(gs[..i])| < |Flatten(gs[..j])|
  {
    if i < j {
      FlattenPrefix(gs, i, j - 1);
      FlattenUpTo(gs, j - 1);
    }
  }

  /** The group that holds block number `n`. */
  lemma {:induction false} Locate(gs: seq<Group>, n: nat, m: nat) returns (j: nat)
    requires m <= |gs| && n < |Flatten(gs[..m])|
    ensures j < m && |Flatten(gs[..j])| <= n < |Flatten(gs[..j + 1])|
  {
    FlattenUpTo(gs, m - 1);
    if n < |Flatten(gs[..m - 1])| {
      j := Locate(gs, n, m - 1);
    } else {
      j := m - 1;
    }
  }

  lemma BlockAt(gs: seq<Group>, j: nat, n: nat)
    requires j < |gs| && |Flatten(gs[..j])| <= n < |Flatten(gs[..j + 1])|
    ensures n - |Flatten(gs[..j])| < |gs[j]| && n < |Flatten(gs)|
    ensures Flatten(gs)[n] == gs[j][n - |Flatten(gs[..j])|]
  {
    FlattenUpTo(gs, j);
    FlattenPrefix(gs, j + 1, |gs|);
    assert gs[..|gs|] == gs;
  }

  lemma WithinGroup(gs: seq<Group>, j: nat, n: nat)
    requires CutAtKeys(gs) && j < |gs| && |Flatten(gs[..j])| <= n && n + 1 < |Flatten(gs[..j + 1])|
    ensures n + 1 < |Flatten(gs)| && !GroupStarts(gs, n + 1)
    ensures GroupKey(Flatten(gs)[n]) == GroupKey(Flatten(gs)[n + 1])
  {
    BlockAt(gs, j, n);
    BlockAt(gs, j, n + 1);
    assert OneKey(gs[j]);
    if i :| 0 <= i < |gs| && |Flatten(gs[..i])| == n + 1 {
      if i <= j {
        FlattenPrefix(gs, i, j);
      } else {
        FlattenPrefix(gs, j + 1, i);
      }
    }
  }

  lemma AcrossGroups(gs: seq<Group>, j: nat, n: nat)
    requires CutAtKeys(gs) && j < |gs| && |Flatten(gs[..j])| <= n && n + 1 == |Flatten(gs[..j + 1])| < |Flatten(gs)|
    ensures GroupStarts(gs, n + 1) && GroupKey(Flatten(gs)[n]) != GroupKey(Flatten(gs)[n + 1])
  {
    assert gs[..|gs|] == gs;
    FlattenUpTo(gs, j + 1);
    BlockAt(gs, j, n);
    BlockAt(gs, j + 1, n + 1);
    assert OneKey(gs[j]) && GroupKey(gs[j][0]) != GroupKey(gs[j + 1][0]);
  }

  /**
   * Two consecutive blocks that are not blank share a group if and only if page, slide and
   * section agree: a group starts at the second one exactly when they do not.
   */
  lemma {:induction false} NeighboursShareAGroup(blocks: seq<Block>, n: nat)
    requires n + 1 < |Solid(blocks)|
    ensures GroupStarts(Groups(blocks), n + 1) <==> !SameSection(Solid(blocks)[n], Solid(blocks)[n + 1])
  {
    var gs := Groups(blocks);
    GroupsPartitionBlocks(blocks);
    assert gs[..|gs|] == gs;
    SameKey(Solid(blocks)[n], Solid(blocks)[n + 1]);
    var j := Locate(gs, n, |gs|);
    if n + 1 < |Flatten(gs[..j + 1])| {
      WithinGroup(gs, j, n);
    } else {
      AcrossGroups(gs, j, n);
    }
  }

  /** Every block of the group has the chunk's page, slide and section; the title is the first block's. */
  ghost predicate FiledWith(c: Chunk, group: Group) {
    && (forall b :: b in group ==> c.page == b.page && c.slide == b.slide && UnderSection(b, c.path))
    && c.title == group[0].title
  }

  // ---- anchors ----

  /** Where the text of block `i` begins and ends in the stream of its group. */
  function From(group: seq<Block>, i: nat): nat
    requires i < |group|
  {
    NextOffset(UnitsOf(group[..i]))
  }

  function To(group: seq<Block>, i: nat): nat
    requires i < |group|
  {
    |Paste(UnitsOf(group[..i + 1]))|
  }

  ghost predicate HasAnchor(b: Block, a: Anchor) {
    b.anchors.Some? && a in b.anchors.value
  }

  lemma PartsUpTo(group: seq<Block>, i: nat)
    requires i < |group|
    ensures PartsOf(group[..i + 1])
         == PartsOf(group[..i]) + WithAnchors(SplitOversized(Strip(group[i].text)), SafeAnchors(group[i]))
  {
    assert group[..i + 1][..i] == group[..i];
  }

  lemma {:induction false} PartsPrefix(group: seq<Block>, i: nat, j: nat)
    requires i <= j <= |group|
    ensures PartsOf(group[..i]) <= PartsOf(group[..j])
  {
    var all := seq(|group| + 1, n requires 0 <= n <= |group| => PartsOf(group[..n]));
    forall n | 0 <= n < |group|
      ensures all[n] <= all[n + 1]
    {
      PartsGrow(group, n);
    }
    PrefixChain(all, i, j);
  }

  lemma {:induction false} PrefixChain(all: seq<seq<Part>>, i: nat, j: nat)
    requires i <= j < |all| && forall n :: 0 <= n < |all| - 1 ==> all[n] <= all[n + 1]
    ensures all[i] <= all[j]
  {
    if i < j {
      PrefixChain(all, i, j - 1);
      assert all[j - 1] <= all[j - 1 + 1];
    }
  }

  lemma PartsGrow(group: seq<Block>, i: nat)
    requires i < |group|
    ensures PartsOf(group[..i]) <= PartsOf(group[..i + 1])
  {
    PartsUpTo(group, i);
  }

  lemma {:induction false} LayoutPrefix(parts: seq<Part>, n: nat)
    requires n <= |parts|
    ensures |Layout(parts)| == |parts| && Layout(parts[..n]) == Layout(parts)[..n]
    ensures forall i :: 0 <= i < |parts| ==> Layout(parts)[i].anchors == parts[i].anchors
  {
    if parts != [] {
      var init := parts[..|parts| - 1];
      if n < |parts| {
        LayoutPrefix(init, n);
        assert init[..n] == parts[..n];
      } else {
        LayoutPrefix(init, n - 1);
        assert parts[..n] == parts;
      }
    }
  }

  /** The units of block `i` of a group: the range of their numbers. */
  function FirstUnit(group: seq<Block>, i: nat): nat
    requires i <= |group|
  {
    |PartsOf(group[..i])|
  }

  lemma UnitsPrefix(group: seq<Block>, i: nat)
    requires i <= |group|
    ensures FirstUnit(group, i) <= |UnitsOf(group)|
    ensures UnitsOf(group[..i]) == UnitsOf(group)[..FirstUnit(group, i)]
  {
    PartsPrefix(group, i, |group|);
    assert group[..|group|] == group;
    var n := FirstUnit(group, i);
    assert PartsOf(group)[..n] == PartsOf(group[..i]);
    LayoutPrefix(PartsOf(group), n);
  }

  lemma OwnerOf(group: seq<Block>, u: nat) returns (i: nat)
    requires u < FirstUnit(group, |group|)
    ensures i < |group| && FirstUnit(group, i) <= u < FirstUnit(group, i + 1)
  {
    var firsts := seq(|group| + 1, n requires 0 <= n <= |group| => FirstUnit(group, n));
    assert firsts[0] == 0 by {
      assert group[..0] == [];
    }
    i := StretchOf(firsts, u, |group|);
  }

  lemma {:induction false} StretchOf(firsts: seq<nat>, u: nat, m: nat) returns (i: nat)
    requires m < |firsts| && firsts[0] <= u < firsts[m]
    ensures i < m && firsts[i] <= u < firsts[i + 1]
  {
    if u < firsts[m - 1] {
      i := StretchOf(firsts, u, m - 1);
    } else {
      i := m - 1;
    }
  }

  lemma UnitAnchors(group: seq<Block>, i: nat, u: nat)
    requires i < |group| && FirstUnit(group, i) <= u < FirstUnit(group, i + 1)
    ensures u < |UnitsOf(group)| && UnitsOf(group)[u].anchors == SafeAnchors(group[i])
  {
    PartsUpTo(group, i);
    PartsPrefix(group, i + 1, |group|);
    assert group[..|group|] == group;
    LayoutPrefix(PartsOf(group), |PartsOf(group)|);
    assert PartsOf(group)[u] == PartsOf(group[..i + 1])[u];
  }

  /** The offsets of block `i` are those of its first and last unit. */
  lemma BlockOffsets(group: Group, i: nat)
    requires AllSolid(group) && i < |group|
    ensures FirstUnit(group, i) < FirstUnit(group, i + 1) <= |UnitsOf(group)|
    ensures From(group, i) == UnitsOf(group)[FirstUnit(group, i)].start
    ensures To(group, i) == UnitsOf(group)[FirstUnit(group, i + 1) - 1].end
  {
    BlockHasUnits(group, i);
    OffsetsOf(group, i);
    LayoutLaidOut(PartsOf(group));
    OffsetsIn(UnitsOf(group), FirstUnit(group, i), FirstUnit(group, i + 1));
  }

  lemma BlockHasUnits(group: Group, i: nat)
    requires AllSolid(group) && i < |group|
    ensures FirstUnit(group, i) < FirstUnit(group, i + 1) <= |UnitsOf(group)|
  {
    PartsUpTo(group, i);
    SolidSplits(group[i]);
    UnitsPrefix(group, i + 1);
  }

  lemma OffsetsOf(group: Group, i: nat)
    requires i < |group|
    ensures FirstUnit(group, i) <= |UnitsOf(group)| && FirstUnit(group, i + 1) <= |UnitsOf(group)|
    ensures From(group, i) == NextOffset(UnitsOf(group)[..FirstUnit(group, i)])
    ensures To(group, i) == |Paste(UnitsOf(group)[..FirstUnit(group, i + 1)])|
  {
    UnitsPrefix(group, i);
    UnitsPrefix(group, i + 1);
  }

  /** Leading units of a stream: where the next one would start, and how long they are. */
  lemma OffsetsIn(us: seq<Unit>, a: nat, b: nat)
    requires LaidOut(us) && a < b <= |us|
    ensures NextOffset(us[..a]) == us[a].start && |Paste(us[..b])| == us[b - 1].end
  {
    if a > 0 {
      assert us[..a][a - 1] == us[a - 1];
    }
    var upto := us[..b];
    assert forall k :: 0 <= k < b ==> upto[k] == us[k];
    LayoutStreamLength(upto);
  }

  lemma SolidSplits(b: Block)
    requires !Blank(b.text)
    ensures SplitOversized(Strip(b.text)) != []
  {
    SplitLosesOnlyWhitespace(Strip(b.text));
    StripVisible(b.text);
    StripNothing(b.text);
    VisibleNothing(b.text);
  }

  lemma {:induction false} InAnchorsOf(us: seq<Unit>, a: Anchor)
    ensures a in AnchorsOf(us) <==> exists u :: 0 <= u < |us| && a in us[u].anchors
  {
    if us != [] {
      InAnchorsOf(us[..|us| - 1], a);
      assert us == us[..|us| - 1] + [us[|us| - 1]];
    }
  }

  lemma {:induction false} LaidOutGrows(us: seq<Unit>, i: nat, j: nat)
    requires LaidOut(us) && i < j < |us|
    ensures us[i].end < us[j].start
  {
    if i < j - 1 {
      LaidOutGrows(us, i, j - 1);
    }
  }

  /** The anchors of units `from` up to `to` are those of the blocks whose text meets their stretch of the stream. */
  lemma StretchAnchors(group: Group, from: nat, to: nat, a: Anchor)
    requires AllSolid(group) && from < to <= |UnitsOf(group)|
    ensures a in AnchorsOf(UnitsOf(group)[from..to]) <==> exists i :: 0 <= i < |group| && Met(group, from, to, a, i)
  {
    if a in AnchorsOf(UnitsOf(group)[from..to]) {
      var u := AnchoredUnit(UnitsOf(group), from, to, a);
      var i := AnchorOwner(group, from, to, a, u);
    }
    if i :| 0 <= i < |group| && Met(group, from, to, a, i) {
      var u := OwnedUnit(group, from, to, a, i);
      UnitAnchored(UnitsOf(group), from, to, a, u);
    }
  }

  lemma AnchoredUnit(us: seq<Unit>, from: nat, to: nat, a: Anchor) returns (u: nat)
    requires from < to <= |us| && a in AnchorsOf(us[from..to])
    ensures from <= u < to && a in us[u].anchors
  {
    InAnchorsOf(us[from..to], a);
    var v :| 0 <= v < |us[from..to]| && a in us[from..to][v].anchors;
    u := from + v;
  }

  lemma UnitAnchored(us: seq<Unit>, from: nat, to: nat, a: Anchor, u: nat)
    requires from <= u < to <= |us| && a in us[u].anchors
    ensures a in AnchorsOf(us[from..to])
  {
    InAnchorsOf(us[from..to], a);
    assert us[from..to][u - from] == us[u];
  }

  /** Block `i` has the anchor, and its text meets the stretch of units `from` up to `to`. */
  ghost predicate Met(group: Group, from: nat, to: nat, a: Anchor, i: nat)
    requires from < to <= |UnitsOf(group)| && i < |group|
  {
    HasAnchor(group[i], a) && From(group, i) < UnitsOf(group)[to - 1].end && UnitsOf(group)[from].start < To(group, i)
  }

  lemma AnchorOwner(group: Group, from: nat, to: nat, a: Anchor, u: nat) returns (i: nat)
    requires AllSolid(group) && from <= u < to <= |UnitsOf(group)| && a in UnitsOf(group)[u].anchors
    ensures i < |group| && Met(group, from, to, a, i)
  {
    AllUnits(group);
    i := OwnerOf(group, u);
    UnitAnchors(group, i, u);
    Overlap(group, from, to, i, u);
  }

  lemma AllUnits(group: Group)
    ensures FirstUnit(group, |group|) == |UnitsOf(group)|
  {
    assert group[..|group|] == group;
    LayoutLaidOut(PartsOf(group));
  }

  lemma UnitsOk(group: Group)
    requires AllSolid(group)
    ensures LaidOut(UnitsOf(group)) && AllFit(UnitsOf(group))
  {
    LayoutLaidOut(PartsOf(group));
    UnitsFit(group);
  }

  lemma BlockStretch(group: Group, i: nat) returns (first: nat, next: nat, start: nat, end: nat)
    requires AllSolid(group) && i < |group|
    ensures LaidOut(UnitsOf(group)) && AllFit(UnitsOf(group))
    ensures first == FirstUnit(group, i) && next == FirstUnit(group, i + 1) && first < next <= |UnitsOf(group)|
    ensures start == From(group, i) == UnitsOf(group)[first].start && end == To(group, i) == UnitsOf(group)[next - 1].end
  {
    UnitsOk(group);
    BlockOffsets(group, i);
    first, next, start, end := FirstUnit(group, i), FirstUnit(group, i + 1), From(group, i), To(group, i);
  }

  lemma Overlap(group: Group, from: nat, to: nat, i: nat, u: nat)
    requires AllSolid(group) && from <= u < to <= |UnitsOf(group)|
    requires i < |group| && FirstUnit(group, i) <= u < FirstUnit(group, i + 1)
    ensures From(group, i) < UnitsOf(group)[to - 1].end && UnitsOf(group)[from].start < To(group, i)
  {
    var first, next, start, end := BlockStretch(group, i);
    Between(UnitsOf(group), from, to, first, next, u);
  }

  lemma SharedUnit(group: Group, from: nat, to: nat, i: nat) returns (u: nat)
    requires AllSolid(group) && from < to <= |UnitsOf(group)| && i < |group|
    requires From(group, i) < UnitsOf(group)[to - 1].end && UnitsOf(group)[from].start < To(group, i)
    ensures from <= u < to && FirstUnit(group, i) <= u < FirstUnit(group, i + 1)
  {
    var first, next, start, end := BlockStretch(group, i);
    u := Meet(UnitsOf(group), from, to, first, next);
  }

  lemma OwnedUnit(group: Group, from: nat, to: nat, a: Anchor, i: nat) returns (u: nat)
    requires AllSolid(group) && from < to <= |UnitsOf(group)| && i < |group| && Met(group, from, to, a, i)
    ensures from <= u < to && a in UnitsOf(group)[u].anchors
  {
    u := SharedUnit(group, from, to, i);
    UnitAnchors(group, i, u);
  }

  /** Ranges of units that share one overlap in the stream. */
  lemma Between(us: seq<Unit>, from: nat, to: nat, first: nat, next: nat, u: nat)
    requires LaidOut(us) && AllFit(us) && from <= u < to <= |us| && first <= u < next <= |us|
    ensures us[first].start < us[to - 1].end && us[from].start < us[next - 1].end
  {
    assert us[first] in us && us[from] in us;
    if first < to - 1 {
      LaidOutGrows(us, first, to - 1);
    }
    if from < next - 1 {
      LaidOutGrows(us, from, next - 1);
    }
  }

  /** Ranges of units that overlap in the stream share one. */
  lemma Meet(us: seq<Unit>, from: nat, to: nat, first: nat, next: nat) returns (u: nat)
    requires LaidOut(us) && from < to <= |us| && first < next <= |us|
    requires us[first].start < us[to - 1].end && us[from].start < us[next - 1].end
    ensures from <= u < to && first <= u < next
  {
    u := if from <= first then first else from;
    if u >= to {
      LaidOutGrows(us, to - 1, first);
    }
    if u >= next {
      LaidOutGrows(us, next - 1, from);
    }
  }

  /** A chunk carries an anchor if and only if a block whose text it covers, at least in part, has it. */
  lemma {:induction false} ChunkAnchorsAre(group: Group, base: nat, k: nat, a: Anchor)
    requires AllSolid(group) && k < |GroupChunks(group, base)|
    ensures var c := GroupChunks(group, base)[k];
      a in c.anchors <==> exists i :: 0 <= i < |group| && Covers(c, group, a, i)
  {
    var s := ChunkStretch(group, base, k);
    StretchAnchors(group, s.from, s.to, a);
    forall i | 0 <= i < |group|
      ensures Met(group, s.from, s.to, a, i) <==> Covers(GroupChunks(group, base)[k], group, a, i)
    {
    }
  }

  lemma ChunkStretch(group: Group, base: nat, k: nat) returns (s: Span)
    requires k < |GroupChunks(group, base)|
    ensures var us, c := UnitsOf(group), GroupChunks(group, base)[k];
      && s.from < s.to <= |us|
      && c.start == us[s.from].start && c.end == us[s.to - 1].end && c.anchors == AnchorsOf(us[s.from..s.to])
  {
    var us := UnitsOf(group);
    GroupChunksAt(group, k, base);
    s := Spans(us, 0)[k];
    SpansLinked(us);
    ChunkAtFields(group[0], us, s, base + k);
  }

  /** Block `i` has the anchor, and the chunk covers its text at least in part. */
  ghost predicate Covers(c: Chunk, group: Group, a: Anchor, i: nat)
    requires i < |group|
  {
    HasAnchor(group[i], a) && From(group, i) < c.end && c.start < To(group, i)
  }

  /** A block whose stripped text fits is one unit, with exactly that text. */
  lemma {:induction false} ShortBlockIsOneUnit(group: Group, i: nat)
    requires i < |group| && |Strip(group[i].text)| <= 900
    ensures FirstUnit(group, i + 1) == FirstUnit(group, i) + 1 <= |UnitsOf(group)|
    ensures var text := UnitsOf(group)[FirstUnit(group, i)].text;
      text == Strip(group[i].text) && Trimmed(text) && Visible(text) == Visible(group[i].text)
  {
    var n := FirstUnit(group, i);
    StripVisible(group[i].text);
    PartsUpTo(group, i);
    OneUnit(group, i);
  }

  lemma OneUnit(group: Group, i: nat)
    requires i < |group|
    requires |SplitOversized(Strip(group[i].text))| == 1
    requires PartsOf(group[..i + 1]) == PartsOf(group[..i]) + WithAnchors(SplitOversized(Strip(group[i].text)), SafeAnchors(group[i]))
    ensures FirstUnit(group, i + 1) == FirstUnit(group, i) + 1 <= |UnitsOf(group)|
    ensures UnitsOf(group)[FirstUnit(group, i)].text == SplitOversized(Strip(group[i].text))[0]
  {
    var n := FirstUnit(group, i);
    UnitsPrefix(group, i + 1);
    LayoutLaidOut(PartsOf(group[..i + 1]));
    assert UnitsOf(group[..i + 1])[n] == UnitsOf(group)[n];
    assert PartsOf(group[..i + 1])[n].text == SplitOversized(Strip(group[i].text))[0];
  }

  // ---- the chunks of a document ----

  lemma ChunkGroupsStep(gs: seq<Group>)
    requires gs != []
    ensures var cs := ChunkGroups(gs[..|gs| - 1]); ChunkGroups(gs) == cs + GroupChunks(gs[|gs| - 1], |cs|)
  {
  }

  lemma GroupsAreSound(blocks: seq<Block>, g: Group)
    requires g in Groups(blocks)
    ensures OneKey(g) && AllSolid(g)
  {
    GroupsPartitionBlocks(blocks);
    SolidBlocks(blocks);
    InFlatten(Groups(blocks), g);
    var i :| 0 <= i < |Groups(blocks)| && Groups(blocks)[i] == g;
  }

  ghost predicate AnchoredBy(c: Chunk, group: Group) {
    forall a :: a in c.anchors <==> exists i :: 0 <= i < |group| && Covers(c, group, a, i)
  }

  /**
   * Every chunk is a slice of one group.  Page, slide and section path of the chunk are those of
   * every block of the group, told from the blocks as parsed; its anchors are those of the blocks
   * whose text it covers.
   */
  lemma {:induction false} ChunksKeepSections(blocks: seq<Block>, k: nat)
    requires k < |Chunks(blocks)|
    ensures exists g :: g in Groups(blocks) && ComesFrom(Chunks(blocks)[k], g)
  {
    var gs := Groups(blocks);
    forall g, base: nat, i: nat | g in gs && i < |GroupChunks(g, base)|
      ensures ComesFrom(GroupChunks(g, base)[i], g)
    {
      GroupsAreSound(blocks, g);
      GroupChunkComesFrom(g, base, i);
    }
    var g := OfSomeGroup(gs, k, (c: Chunk, g: Group) => ComesFrom(c, g));
  }

  /** What holds of every chunk of a group with that group holds of every chunk with one of the groups. */
  lemma {:induction false} OfSomeGroup(gs: seq<Group>, k: nat, p: (Chunk, Group) -> bool) returns (g: Group)
    requires forall g, base: nat, i: nat :: g in gs && i < |GroupChunks(g, base)| ==> p(GroupChunks(g, base)[i], g)
    requires k < |ChunkGroups(gs)|
    ensures g in gs && p(ChunkGroups(gs)[k], g)
  {
    var init, last := gs[..|gs| - 1], gs[|gs| - 1];
    var n := |ChunkGroups(init)|;
    ChunkGroupsStep(gs);
    if k < n {
      g := OfSomeGroup(init, k, p);
    } else {
      g := last;
      assert p(GroupChunks(last, n)[k - n], last);
    }
  }

  /** The blocks of the group share a key and none is blank. */
  ghost predicate Sound(g: Group) {
    OneKey(g) && AllSolid(g)
  }

  /** A slice of the group's stream, filed as all its blocks are, with the anchors of the blocks it covers. */
  ghost predicate ComesFrom(c: Chunk, group: Group) {
    SliceOf(c, group) && FiledWith(c, group) && AnchoredBy(c, group)
  }

  lemma SlicesAreFiled(c: Chunk, group: Group)
    requires SliceOf(c, group)
    ensures FiledWith(c, group)
  {
    forall b | b in group
      ensures c.page == b.page && c.slide == b.slide && UnderSection(b, c.path)
    {
      assert GroupKey(b) == GroupKey(group[0]);
      SectionPathIs(b, c.path);
    }
  }

  lemma GroupChunkComesFrom(group: Group, base: nat, i: nat)
    requires Sound(group) && i < |GroupChunks(group, base)|
    ensures ComesFrom(GroupChunks(group, base)[i], group)
  {
    var c := GroupChunks(group, base)[i];
    ChunkAtIsSlice(group, i, base);
    SlicesAreFiled(c, group);
    forall a
      ensures a in c.anchors <==> exists n :: 0 <= n < |group| && Covers(c, group, a, n)
    {
      ChunkAnchorsAre(group, base, i, a);
    }
  }
}
