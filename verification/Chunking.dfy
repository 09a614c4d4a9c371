/**
 * The structure-aware chunker (ingestion_chunking.py): blocks are grouped by locator and
 * section, groups are laid out as a stream of units, and overlapping chunks are cut from it.
 */
module Chunking {
  import opened Common
  import opened SentenceSplit
  import opened ChunkSpans

  /** A parsed block; `path` and `anchors` are the two list-valued metadata entries the chunker reads. */
  datatype Block = Block(text: string, page: Option<int>, slide: Option<int>, title: Option<string>,
                         path: Option<seq<string>>, anchors: Option<seq<Anchor>>)

  datatype Chunk = Chunk(text: string, page: Option<int>, slide: Option<int>, title: Option<string>,
                         path: seq<string>, index: nat, start: nat, end: nat, anchors: seq<Anchor>)

  datatype Key = Key(page: Option<int>, slide: Option<int>, path: seq<string>)

  predicate Blank(s: string) {
    Strip(s) == ""
  }

  function NotBlank(items: seq<string>): seq<string> {
    if items == [] then []
    else NotBlank(items[..|items| - 1])
         + (if Blank(items[|items| - 1]) then [] else [items[|items| - 1]])
  }

  function SectionPath(b: Block): seq<string> {
    if b.path.Some? then NotBlank(b.path.value)
    else if b.title.Some? && b.title.value != "" then [b.title.value]
    else []
  }

  function GroupKey(b: Block): Key {
    Key(b.page, b.slide, SectionPath(b))
  }

  function SafeAnchors(b: Block): seq<Anchor> {
    if b.anchors.Some? then b.anchors.value else []
  }

  // ---- grouping ----

  type Group = g: seq<Block> | |g| > 0 witness [Block("", None, None, None, None, None)]

  function AddBlock(gs: seq<Group>, b: Block): seq<Group> {
    if Blank(b.text) then gs
    else if gs == [] || GroupKey(gs[|gs| - 1][0]) != GroupKey(b) then gs + [[b]]
    else gs[..|gs| - 1] + [gs[|gs| - 1] + [b]]
  }

  function Groups(blocks: seq<Block>): seq<Group> {
    Fold(AddBlock, [], blocks)
  }

  function Solid(blocks: seq<Block>): seq<Block> {
    if blocks == [] then []
    else Solid(blocks[..|blocks| - 1])
         + (if Blank(blocks[|blocks| - 1].text) then [] else [blocks[|blocks| - 1]])
  }

  function Flatten(gs: seq<Group>): seq<Block> {
    if gs == [] then [] else Flatten(gs[..|gs| - 1]) + gs[|gs| - 1]
  }

  lemma FlattenStep(gs: seq<Group>, g: Group)
    ensures Flatten(gs + [g]) == Flatten(gs) + g
  {
    assert (gs + [g])[..|gs|] == gs;
  }

  ghost predicate OneKey(g: Group) {
    forall b :: b in g ==> GroupKey(b) == GroupKey(g[0])
  }

  /** Cut exactly where the key changes. */
  ghost predicate CutAtKeys(gs: seq<Group>) {
    && (forall i :: 0 <= i < |gs| ==> OneKey(gs[i]))
    && (forall i :: 0 < i < |gs| ==> GroupKey(gs[i - 1][0]) != GroupKey(gs[i][0]))
  }

  lemma AddBlockFlattens(gs: seq<Group>, b: Block)
    requires !Blank(b.text)
    ensures Flatten(AddBlock(gs, b)) == Flatten(gs) + [b]
  {
    if gs == [] || GroupKey(gs[|gs| - 1][0]) != GroupKey(b) {
      FlattenStep(gs, [b]);
    } else {
      var init, last := gs[..|gs| - 1], gs[|gs| - 1];
      FlattenStep(init, last + [b]);
      assert Flatten(init) + (last + [b]) == (Flatten(init) + last) + [b];
    }
  }

  lemma AddBlockCuts(gs: seq<Group>, b: Block)
    requires CutAtKeys(gs)
    ensures CutAtKeys(AddBlock(gs, b))
  {
    if !Blank(b.text) && gs != [] {
      assert OneKey(gs[|gs| - 1]);
    }
  }

  /** The groups hold the blocks that are not blank, in order, cut exactly where the key changes. */
  lemma {:induction false} GroupsPartitionBlocks(blocks: seq<Block>)
    ensures Flatten(Groups(blocks)) == Solid(blocks)
    ensures CutAtKeys(Groups(blocks))
  {
    if blocks != [] {
      var init, b := blocks[..|blocks| - 1], blocks[|blocks| - 1];
      GroupsPartitionBlocks(init);
      AddBlockCuts(Groups(init), b);
      if !Blank(b.text) {
        AddBlockFlattens(Groups(init), b);
      }
    }
  }

  // ---- units and their offsets ----

  datatype Part = Part(text: string, anchors: seq<Anchor>)

  function WithAnchors(texts: seq<string>, anchors: seq<Anchor>): seq<Part> {
    seq(|texts|, i requires 0 <= i < |texts| => Part(texts[i], anchors))
  }

  function PartsOf(group: seq<Block>): seq<Part> {
    if group == [] then []
    else
      var b := group[|group| - 1];
      PartsOf(group[..|group| - 1]) + WithAnchors(SplitOversized(Strip(b.text)), SafeAnchors(b))
  }

  function NextOffset(us: seq<Unit>): nat {
    if us == [] then 0 else us[|us| - 1].end + 2
  }

  function Layout(parts: seq<Part>): seq<Unit> {
    if parts == [] then []
    else
      var us := Layout(parts[..|parts| - 1]);
      var p := parts[|parts| - 1];
      us + [Unit(p.text, NextOffset(us), NextOffset(us) + |p.text|, p.anchors)]
  }

  lemma LayoutStep(parts: seq<Part>, p: Part)
    ensures Layout(parts + [p]) ==
            Layout(parts) + [Unit(p.text, NextOffset(Layout(parts)), NextOffset(Layout(parts)) + |p.text|, p.anchors)]
  {
    assert (parts + [p])[..|parts|] == parts;
  }

  function UnitsOf(group: seq<Block>): seq<Unit> {
    Layout(PartsOf(group))
  }

  /** Offsets count the characters of the units joined by two newlines. */
  ghost predicate LaidOut(us: seq<Unit>) {
    && (forall i :: 0 <= i < |us| ==> us[i].end == us[i].start + |us[i].text|)
    && (us != [] ==> us[0].start == 0)
    && (forall i :: 0 < i < |us| ==> us[i].start == us[i - 1].end + 2)
  }

  lemma {:induction false} LayoutLaidOut(parts: seq<Part>)
    ensures LaidOut(Layout(parts)) && |Layout(parts)| == |parts|
    ensures forall i :: 0 <= i < |parts| ==> Layout(parts)[i].text == parts[i].text
  {
    if parts != [] {
      LayoutLaidOut(parts[..|parts| - 1]);
    }
  }

  lemma {:induction false} PartsFit(group: seq<Block>)
    requires forall b :: b in group ==> !Blank(b.text)
    ensures forall p :: p in PartsOf(group) ==> Fits(p.text)
  {
    if group != [] {
      var init, b := group[..|group| - 1], group[|group| - 1];
      assert b in group && forall x :: x in init ==> x in group;
      PartsFit(init);
      SplitLosesOnlyWhitespace(Strip(b.text));
    }
  }

  lemma UnitsFit(group: seq<Block>)
    requires forall b :: b in group ==> !Blank(b.text)
    ensures AllFit(UnitsOf(group))
  {
    PartsFit(group);
    LayoutLaidOut(PartsOf(group));
    forall u | u in UnitsOf(group)
      ensures Fits(u.text)
    {
      var i :| 0 <= i < |UnitsOf(group)| && UnitsOf(group)[i] == u;
      assert PartsOf(group)[i] in PartsOf(group);
    }
  }

  lemma {:induction false} LayoutStreamLength(us: seq<Unit>)
    requires LaidOut(us) && us != []
    ensures |Paste(us)| == us[|us| - 1].end
  {
    if |us| > 1 {
      LayoutStreamLength(us[..|us| - 1]);
    }
  }

  /** The stream slice between two offsets is the text of the units between them. */
  lemma {:induction false} StreamSlice(us: seq<Unit>, from: nat, to: nat)
    requires LaidOut(us) && from < to <= |us|
    ensures us[from].start <= us[to - 1].end <= |Paste(us)|
    ensures Paste(us)[us[from].start..us[to - 1].end] == Paste(us[from..to])
  {
    if to < |us| {
      var init := us[..|us| - 1];
      StreamSlice(init, from, to);
      assert us[from..to] == init[from..to];
      PasteGrows(us);
    } else {
      StreamToEnd(us, from);
      assert us[from..to] == us[from..];
    }
  }

  lemma PasteGrows(us: seq<Unit>)
    requires us != []
    ensures Paste(us[..|us| - 1]) <= Paste(us)
  {
  }

  lemma StreamToEnd(us: seq<Unit>, from: nat)
    requires LaidOut(us) && from < |us|
    ensures us[from].start <= us[|us| - 1].end == |Paste(us)|
    ensures Paste(us)[us[from].start..us[|us| - 1].end] == Paste(us[from..])
  {
    StreamTail(us, from);
    LayoutStreamLength(us);
  }

  lemma {:induction false} StreamTail(us: seq<Unit>, from: nat)
    requires LaidOut(us) && from < |us|
    ensures us[from].start <= |Paste(us)|
    ensures Paste(us)[us[from].start..] == Paste(us[from..])
  {
    if |us| > 1 {
      var init, more := us[..|us| - 1], "\n\n" + us[|us| - 1].text;
      LayoutStreamLength(init);
      assert Paste(us) == Paste(init) + more;
      if from == |us| - 1 {
        assert us[from..] == [us[from]];
        assert more[2..] == us[from].text;
      } else {
        StreamTail(init, from);
        SliceExtends(Paste(init), us[from].start, more);
        PasteTailStep(us, from);
      }
    }
  }

  lemma PasteTailStep(us: seq<Unit>, from: nat)
    requires from < |us| - 1
    ensures Paste(us[from..]) == Paste(us[..|us| - 1][from..]) + ("\n\n" + us[|us| - 1].text)
  {
    assert us[from..][..|us| - from - 1] == us[..|us| - 1][from..];
  }

  lemma SliceExtends(s: string, from: nat, more: string)
    requires from <= |s|
    ensures (s + more)[from..] == s[from..] + more
  {
  }

  // ---- chunks ----

  function AnchorsOf(us: seq<Unit>): seq<Anchor> {
    if us == [] then [] else AnchorsOf(us[..|us| - 1]) + us[|us| - 1].anchors
  }

  function ChunkAt(b: Block, us: seq<Unit>, s: Span, index: nat): Chunk
    requires s.from < s.to <= |us|
  {
    var selected := us[s.from..s.to];
    Chunk(Paste(selected), b.page, b.slide, b.title, SectionPath(b), index,
          selected[0].start, selected[|selected| - 1].end, AnchorsOf(selected))
  }

  function ChunksOf(b: Block, us: seq<Unit>, ss: seq<Span>, base: nat): seq<Chunk>
    requires InRange(us, ss)
  {
    seq(|ss|, i requires 0 <= i < |ss| => ChunkAt(b, us, ss[i], base + i))
  }

  lemma SpansInRange(us: seq<Unit>)
    ensures InRange(us, Spans(us, 0))
  {
    SpansLinked(us);
  }

  function GroupChunks(group: Group, base: nat): seq<Chunk> {
    var us := UnitsOf(group);
    SpansInRange(us);
    ChunksOf(group[0], us, Spans(us, 0), base)
  }

  function ChunkGroups(gs: seq<Group>): seq<Chunk> {
    if gs == [] then []
    else
      var cs := ChunkGroups(gs[..|gs| - 1]);
      cs + GroupChunks(gs[|gs| - 1], |cs|)
  }

  function Chunks(blocks: seq<Block>): seq<Chunk> {
    ChunkGroups(Groups(blocks))
  }

  /** `c` is the slice of the stream of `group` its offsets name, under the key every block there shares. */
  ghost predicate SliceOf(c: Chunk, group: Group) {
    && OneKey(group) && GroupKey(group[0]) == Key(c.page, c.slide, c.path) && c.title == group[0].title
    && c.start < c.end <= |Paste(UnitsOf(group))|
    && c.text == Paste(UnitsOf(group))[c.start..c.end]
    && |c.text| <= MAX_CHUNK_CHARS
  }

  ghost predicate AllSolid(group: Group) {
    forall b :: b in group ==> !Blank(b.text)
  }

  lemma {:induction false} SpanIsSlice(us: seq<Unit>, s: Span)
    requires LaidOut(us) && AllFit(us) && s.from < s.to <= |us| && s.to == SelectEnd(us, s.from)
    ensures us[s.from].start < us[s.to - 1].end <= |Paste(us)|
    ensures Paste(us[s.from..s.to]) == Paste(us)[us[s.from].start..us[s.to - 1].end]
    ensures |Paste(us[s.from..s.to])| <= MAX_CHUNK_CHARS
  {
    StreamSlice(us, s.from, s.to);
    SelectEndIsLargest(us, s.from, s.to);
    WidthIsPasted(us, s.from, s.to);
    WidthGrows(us, s.from, s.from + 1, s.to);
    assert us[s.from] in us;
  }

  lemma GroupChunksAt(group: Group, i: nat, base: nat)
    requires i < |GroupChunks(group, base)|
    ensures InRange(UnitsOf(group), Spans(UnitsOf(group), 0)) && i < |Spans(UnitsOf(group), 0)|
    ensures GroupChunks(group, base)[i] == ChunkAt(group[0], UnitsOf(group), Spans(UnitsOf(group), 0)[i], base + i)
  {
    var us := UnitsOf(group);
    SpansInRange(us);
    ChunksOfAt(group[0], us, Spans(us, 0), base, i);
  }

  lemma ChunksOfAt(b: Block, us: seq<Unit>, ss: seq<Span>, base: nat, i: nat)
    requires InRange(us, ss)
    ensures |ChunksOf(b, us, ss, base)| == |ss|
    ensures i < |ss| ==> ChunksOf(b, us, ss, base)[i] == ChunkAt(b, us, ss[i], base + i)
  {
  }

  lemma ChunkAtFields(b: Block, us: seq<Unit>, s: Span, index: nat)
    requires s.from < s.to <= |us|
    ensures var c := ChunkAt(b, us, s, index);
      && c.text == Paste(us[s.from..s.to]) && c.start == us[s.from].start && c.end == us[s.to - 1].end
      && GroupKey(b) == Key(c.page, c.slide, c.path) && c.title == b.title && c.index == index
      && c.anchors == AnchorsOf(us[s.from..s.to])
  {
  }

  lemma ChunkAtIsSlice(group: Group, i: nat, base: nat)
    requires OneKey(group) && AllSolid(group)
    requires i < |GroupChunks(group, base)|
    ensures SliceOf(GroupChunks(group, base)[i], group)
    ensures GroupChunks(group, base)[i].index == base + i
  {
    var us := UnitsOf(group);
    GroupChunksAt(group, i, base);
    var s := Spans(us, 0)[i];
    assert LaidOut(us) && AllFit(us) && s.from < s.to <= |us| && s.to == SelectEnd(us, s.from) by {
      SpansLinked(us);
      LayoutLaidOut(PartsOf(group));
      UnitsFit(group);
    }
    SpanIsSlice(us, s);
    ChunkAtFields(group[0], us, s, base + i);
  }

  lemma {:induction false} SolidBlocks(blocks: seq<Block>)
    ensures forall b :: b in Solid(blocks) ==> !Blank(b.text)
  {
    if blocks != [] {
      SolidBlocks(blocks[..|blocks| - 1]);
    }
  }

  lemma {:induction false} InFlatten(gs: seq<Group>, g: Group)
    requires g in gs
    ensures forall b :: b in g ==> b in Flatten(gs)
  {
    if g in gs[..|gs| - 1] {
      InFlatten(gs[..|gs| - 1], g);
    }
  }

  lemma {:induction false} ChunkGroupsSlices(gs: seq<Group>, k: nat)
    requires forall g :: g in gs ==> OneKey(g) && AllSolid(g)
    requires k < |ChunkGroups(gs)|
    ensures ChunkGroups(gs)[k].index == k
    ensures exists g :: g in gs && SliceOf(ChunkGroups(gs)[k], g)
  {
    var init, last := gs[..|gs| - 1], gs[|gs| - 1];
    var cs := ChunkGroups(init);
    if k < |cs| {
      ChunkGroupsSlices(init, k);
      var g :| g in init && SliceOf(cs[k], g);
      assert g in gs;
    } else {
      assert last in gs;
      ChunkAtIsSlice(last, k - |cs|, |cs|);
      assert SliceOf(ChunkGroups(gs)[k], last);
    }
  }

  /**
   * Every chunk carries its position as index, is exactly the slice of one group's stream its
   * offsets name, has between 1 and 900 characters, and shares page, slide and section path
   * with every block of that group.
   */
  lemma {:induction false} ChunksAreSlices(blocks: seq<Block>, k: nat)
    requires k < |Chunks(blocks)|
    ensures Chunks(blocks)[k].index == k
    ensures exists g :: g in Groups(blocks) && SliceOf(Chunks(blocks)[k], g)
  {
    GroupsPartitionBlocks(blocks);
    SolidBlocks(blocks);
    forall g | g in Groups(blocks)
      ensures OneKey(g) && AllSolid(g)
    {
      InFlatten(Groups(blocks), g);
      var i :| 0 <= i < |Groups(blocks)| && Groups(blocks)[i] == g;
    }
    ChunkGroupsSlices(Groups(blocks), k);
  }
}
