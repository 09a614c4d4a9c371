/**
 * End to end: the chunks of a document, without the text each one repeats from the chunk
 * before it, hold the visible characters of all its blocks once and in order.
 */
module ChunkingTheorems {
  import opened SentenceSplit
  import opened ChunkSpans
  import opened Chunking

  /** What a chunk adds behind a chunk that ended at `prevEnd`, read off the offsets alone. */
  function Added(prevEnd: nat, c: Chunk): string {
    if 0 < c.start < prevEnd then
      var repeated := prevEnd + 2 - c.start;
      if repeated <= |c.text| then c.text[repeated..] else ""
    else c.text
  }

  /** What each chunk adds to the chunks before it. */
  function AddedTexts(cs: seq<Chunk>): seq<string> {
    seq(|cs|, i requires 0 <= i < |cs| => Added(if i == 0 then 0 else cs[i - 1].end, cs[i]))
  }

  /** The text of all chunks without what each repeats from the chunk before it. */
  function NewText(cs: seq<Chunk>): string {
    Concat(AddedTexts(cs))
  }

  function BlockText(bs: seq<Block>): string {
    if bs == [] then "" else BlockText(bs[..|bs| - 1]) + bs[|bs| - 1].text
  }

  // ---- visible text of units ----

  function VisibleUnits(us: seq<Unit>): string {
    if us == [] then "" else VisibleUnits(us[..|us| - 1]) + Visible(us[|us| - 1].text)
  }

  lemma {:induction false} VisibleUnitsConcat(a: seq<Unit>, b: seq<Unit>)
    ensures VisibleUnits(a + b) == VisibleUnits(a) + VisibleUnits(b)
  {
    if b == [] {
      assert a + b == a;
    } else {
      var init, last := b[..|b| - 1], b[|b| - 1];
      VisibleUnitsConcat(a, init);
      VisibleUnitsStep(a + init, last);
      VisibleUnitsStep(init, last);
      assert b == init + [last] && a + b == a + init + [last];
      Associate(VisibleUnits(a), VisibleUnits(init), Visible(last.text));
    }
  }

  lemma VisibleUnitsStep(us: seq<Unit>, u: Unit)
    ensures VisibleUnits(us + [u]) == VisibleUnits(us) + Visible(u.text)
  {
    assert (us + [u])[..|us|] == us;
  }

  lemma VisibleBreak()
    ensures Visible("\n\n") == ""
  {
    assert "\n\n"[1..] == "\n" && "\n"[1..] == "";
    assert IsSpace('\n');
    assert Visible("\n") == "";
  }

  lemma {:induction false} PasteVisible(us: seq<Unit>)
    ensures Visible(Paste(us)) == VisibleUnits(us)
  {
    if |us| == 1 {
      assert us[..0] == [];
    } else if |us| > 1 {
      var init, last := us[..|us| - 1], us[|us| - 1];
      PasteVisible(init);
      VisibleAcrossBreak(Paste(init), last.text);
    }
  }

  lemma VisibleAcrossBreak(a: string, b: string)
    ensures Visible(a + "\n\n" + b) == Visible(a) + Visible(b)
  {
    VisibleConcat(a + "\n\n", b);
    VisibleConcat(a, "\n\n");
    VisibleBreak();
  }

  lemma {:induction false} PasteFirst(us: seq<Unit>)
    requires |us| > 1
    ensures Paste(us) == us[0].text + "\n\n" + Paste(us[1..])
  {
    var init, last := us[..|us| - 1], us[|us| - 1];
    if |us| == 2 {
      assert us[1..] == [last] && init == [us[0]];
    } else {
      PasteFirst(init);
      assert init[1..] == us[1..][..|us| - 2];
    }
  }

  // ---- one group ----

  /** What a chunk adds is exactly the text of the units it does not carry over. */
  lemma AddedIsOwn(us: seq<Unit>, ss: seq<Span>, k: nat, c: Chunk)
    requires LaidOut(us) && AllFit(us) && Linked(us, ss) && k < |ss|
    requires c.text == Paste(us[ss[k].from..ss[k].to]) && c.start == us[ss[k].from].start
    ensures Added(if k == 0 then 0 else us[ss[k - 1].to - 1].end, c) == Paste(Own(us, ss, k))
  {
    if k > 0 {
      var prev := ss[k - 1];
      assert ss[k].from == NextCursor(us, prev.from, prev.to);
      if Carries(ss, k) {
        AddedByCarrier(us, ss[k].from, ss[k].to, c);
      }
    }
  }

  lemma AddedByCarrier(us: seq<Unit>, from: nat, to: nat, c: Chunk)
    requires LaidOut(us) && AllFit(us) && 0 < from < to <= |us|
    requires c.text == Paste(us[from..to]) && c.start == us[from].start
    ensures Added(us[from].end, c) == Paste(us[from + 1..to])
  {
    assert us[from] in us;
    var taken := us[from..to];
    if to - from == 1 {
      assert taken == [us[from]] && us[from + 1..to] == [];
      assert us[from].start == us[from - 1].end + 2 && c.text == us[from].text;
      assert Added(us[from].end, c) == "";
    } else {
      PasteFirst(taken);
      assert taken[1..] == us[from + 1..to];
      assert (us[from].text + "\n\n" + Paste(taken[1..]))[|us[from].text| + 2..] == Paste(taken[1..]);
    }
  }

  /** `cs` are the chunks cut from `us` at the spans `ss`. */
  ghost predicate CutAt(us: seq<Unit>, ss: seq<Span>, cs: seq<Chunk>)
    requires InRange(us, ss)
  {
    && |cs| == |ss|
    && forall i :: 0 <= i < |cs| ==>
         && cs[i].text == Paste(us[ss[i].from..ss[i].to])
         && cs[i].start == us[ss[i].from].start && cs[i].end == us[ss[i].to - 1].end
  }

  lemma ChunksOfCut(b: Block, us: seq<Unit>, ss: seq<Span>, base: nat)
    requires InRange(us, ss)
    ensures CutAt(us, ss, ChunksOf(b, us, ss, base))
  {
    forall i | 0 <= i < |ss|
      ensures ChunksOf(b, us, ss, base)[i] == ChunkAt(b, us, ss[i], base + i)
    {
      ChunkAtFields(b, us, ss[i], base + i);
    }
  }

  lemma CutAdds(us: seq<Unit>, ss: seq<Span>, cs: seq<Chunk>, k: nat)
    requires LaidOut(us) && AllFit(us) && Linked(us, ss) && InRange(us, ss)
    requires CutAt(us, ss, cs) && k < |cs|
    ensures AddedTexts(cs)[k] == Paste(Own(us, ss, k))
  {
    AddedIsOwn(us, ss, k, cs[k]);
  }

  /** Texts that are the pasted own units of the spans hold the visible text of those units. */
  lemma {:induction false} OwnTextsVisible(us: seq<Unit>, ss: seq<Span>, texts: seq<string>, n: nat)
    requires InRange(us, ss) && n <= |ss| == |texts|
    requires forall k :: 0 <= k < |ss| ==> texts[k] == Paste(Own(us, ss, k))
    ensures Visible(Concat(texts[..n])) == VisibleUnits(OwnUnits(us, ss, n))
  {
    if n > 0 {
      OwnTextsVisible(us, ss, texts, n - 1);
      assert texts[..n][..n - 1] == texts[..n - 1];
      PasteVisible(Own(us, ss, n - 1));
      VisibleConcat(Concat(texts[..n - 1]), texts[n - 1]);
      VisibleUnitsConcat(OwnUnits(us, ss, n - 1), Own(us, ss, n - 1));
    }
  }

  function PartText(ps: seq<Part>): string {
    if ps == [] then "" else PartText(ps[..|ps| - 1]) + ps[|ps| - 1].text
  }

  lemma {:induction false} LayoutVisible(ps: seq<Part>)
    ensures VisibleUnits(Layout(ps)) == Visible(PartText(ps))
  {
    if ps != [] {
      LayoutVisible(ps[..|ps| - 1]);
      VisibleConcat(PartText(ps[..|ps| - 1]), ps[|ps| - 1].text);
      var us := Layout(ps[..|ps| - 1]);
      assert Layout(ps)[..|us|] == us;
    }
  }

  lemma {:induction false} PartTextAppend(ps: seq<Part>, texts: seq<string>, anchors: seq<Anchor>)
    ensures PartText(ps + WithAnchors(texts, anchors)) == PartText(ps) + Concat(texts)
  {
    var more := WithAnchors(texts, anchors);
    if texts == [] {
      assert ps + more == ps;
    } else {
      var init := texts[..|texts| - 1];
      PartTextAppend(ps, init, anchors);
      assert (ps + more)[..|ps + more| - 1] == ps + WithAnchors(init, anchors);
    }
  }

  lemma {:induction false} PartsVisible(g: seq<Block>)
    ensures Visible(PartText(PartsOf(g))) == Visible(BlockText(g))
  {
    if g != [] {
      var init, b := g[..|g| - 1], g[|g| - 1];
      var texts := SplitOversized(Strip(b.text));
      PartsVisible(init);
      PartTextAppend(PartsOf(init), texts, SafeAnchors(b));
      VisibleConcat(PartText(PartsOf(init)), Concat(texts));
      VisibleConcat(BlockText(init), b.text);
      SplitLosesOnlyWhitespace(Strip(b.text));
      StripVisible(b.text);
    }
  }

  lemma {:induction false} UnitsVisible(g: Group)
    requires AllSolid(g)
    ensures VisibleUnits(UnitsOf(g)) == Visible(BlockText(g))
    ensures LaidOut(UnitsOf(g)) && AllFit(UnitsOf(g))
  {
    LayoutLaidOut(PartsOf(g));
    UnitsFit(g);
    LayoutVisible(PartsOf(g));
    PartsVisible(g);
  }

  lemma CutVisible(us: seq<Unit>, ss: seq<Span>, cs: seq<Chunk>)
    requires LaidOut(us) && AllFit(us) && Linked(us, ss) && InRange(us, ss) && CutAt(us, ss, cs)
    ensures Visible(NewText(cs)) == VisibleUnits(OwnUnits(us, ss, |ss|))
  {
    var texts := AddedTexts(cs);
    forall k | 0 <= k < |ss|
      ensures texts[k] == Paste(Own(us, ss, k))
    {
      CutAdds(us, ss, cs, k);
    }
    OwnTextsVisible(us, ss, texts, |ss|);
    assert texts[..|ss|] == texts;
  }

  lemma {:induction false} UnitChunksVisible(b: Block, us: seq<Unit>, base: nat)
    requires LaidOut(us) && AllFit(us)
    ensures InRange(us, Spans(us, 0))
    ensures Visible(NewText(ChunksOf(b, us, Spans(us, 0), base))) == VisibleUnits(us)
  {
    SpansLinked(us);
    ChunksRebuildUnits(us);
    ChunksOfCut(b, us, Spans(us, 0), base);
    CutVisible(us, Spans(us, 0), ChunksOf(b, us, Spans(us, 0), base));
  }

  lemma {:induction false} GroupVisible(g: Group, base: nat)
    requires AllSolid(g)
    ensures Visible(NewText(GroupChunks(g, base))) == Visible(BlockText(g))
  {
    UnitsVisible(g);
    UnitChunksVisible(g[0], UnitsOf(g), base);
  }

  // ---- all groups ----

  /** A new group starts at offset 0, so its first chunk never looks like a repetition. */
  lemma NewTextAppend(cs: seq<Chunk>, more: seq<Chunk>)
    requires more != [] ==> more[0].start == 0
    ensures NewText(cs + more) == NewText(cs) + NewText(more)
  {
    assert AddedTexts(cs + more) == AddedTexts(cs) + AddedTexts(more);
    ConcatAppend(AddedTexts(cs), AddedTexts(more));
  }

  lemma GroupStartsAtZero(g: Group, base: nat)
    ensures GroupChunks(g, base) != [] ==> GroupChunks(g, base)[0].start == 0
  {
    if GroupChunks(g, base) != [] {
      SpansLinked(UnitsOf(g));
      LayoutLaidOut(PartsOf(g));
      GroupChunksAt(g, 0, base);
    }
  }

  lemma {:induction false} BlockTextConcat(a: seq<Block>, b: seq<Block>)
    ensures BlockText(a + b) == BlockText(a) + BlockText(b)
  {
    if b == [] {
      assert a + b == a;
    } else {
      var init, last := b[..|b| - 1], b[|b| - 1];
      BlockTextConcat(a, init);
      BlockTextStep(a + init, last);
      BlockTextStep(init, last);
      assert b == init + [last] && a + b == a + init + [last];
      Associate(BlockText(a), BlockText(init), last.text);
    }
  }

  lemma BlockTextStep(bs: seq<Block>, b: Block)
    ensures BlockText(bs + [b]) == BlockText(bs) + b.text
  {
    assert (bs + [b])[..|bs|] == bs;
  }

  lemma {:induction false} GroupsVisible(gs: seq<Group>)
    requires forall g :: g in gs ==> AllSolid(g)
    ensures Visible(NewText(ChunkGroups(gs))) == Visible(BlockText(Flatten(gs)))
  {
    if gs != [] {
      var init, last := gs[..|gs| - 1], gs[|gs| - 1];
      var cs := ChunkGroups(init);
      assert last in gs && forall g :: g in init ==> g in gs;
      GroupsVisible(init);
      GroupVisible(last, |cs|);
      GroupStartsAtZero(last, |cs|);
      AppendVisible(cs, GroupChunks(last, |cs|), Flatten(init), last);
    }
  }

  lemma {:induction false} AppendVisible(cs: seq<Chunk>, more: seq<Chunk>, bs: seq<Block>, g: seq<Block>)
    requires more != [] ==> more[0].start == 0
    requires Visible(NewText(cs)) == Visible(BlockText(bs)) && Visible(NewText(more)) == Visible(BlockText(g))
    ensures Visible(NewText(cs + more)) == Visible(BlockText(bs + g))
  {
    NewTextAppend(cs, more);
    VisibleConcat(NewText(cs), NewText(more));
    BlockTextConcat(bs, g);
    VisibleConcat(BlockText(bs), BlockText(g));
  }

  lemma {:induction false} SolidVisible(bs: seq<Block>)
    ensures Visible(BlockText(Solid(bs))) == Visible(BlockText(bs))
  {
    if bs != [] {
      var init, b := bs[..|bs| - 1], bs[|bs| - 1];
      SolidVisible(init);
      StripVisible(b.text);
      VisibleConcat(BlockText(init), b.text);
      if Blank(b.text) {
        assert Solid(bs) == Solid(init);
      } else {
        assert Solid(bs) == Solid(init) + [b] && Solid(bs)[..|Solid(init)|] == Solid(init);
        VisibleConcat(BlockText(Solid(init)), b.text);
      }
    }
  }

  /**
   * Chunking loses nothing but whitespace and repeats nothing but what the offsets show:
   * the new text of all chunks has the visible characters of all blocks, in order.
   */
  lemma {:induction false} ChunkingLosesOnlyWhitespace(blocks: seq<Block>)
    ensures Visible(NewText(Chunks(blocks))) == Visible(BlockText(blocks))
  {
    GroupsPartitionBlocks(blocks);
    SolidBlocks(blocks);
    forall g | g in Groups(blocks)
      ensures AllSolid(g)
    {
      InFlatten(Groups(blocks), g);
    }
    GroupsVisible(Groups(blocks));
    SolidVisible(blocks);
  }
}
