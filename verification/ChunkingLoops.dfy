/** The loops of ingestion_chunking.py, each shown to compute its specification. */
module ChunkingLoops {
  import opened Common
  import opened SentenceSplit
  import opened ChunkSpans
  import opened Chunking

  /** The inner loop over the parts of one block. */
  method PlaceParts(before: seq<Unit>, at: nat, parts: seq<string>, anchors: seq<Anchor>, ghost seen: seq<Part>)
    returns (units: seq<Unit>, offset: nat)
    requires before == Layout(seen) && at == NextOffset(before)
    ensures units == Layout(seen + WithAnchors(parts, anchors)) && offset == NextOffset(units)
  {
    units, offset := before, at;
    assert seen + WithAnchors(parts[..0], anchors) == seen;
    for j := 0 to |parts|
      invariant units == Layout(seen + WithAnchors(parts[..j], anchors)) && offset == NextOffset(units)
    {
      var start := offset;
      var end := start + |parts[j]|;
      LayoutStep(seen + WithAnchors(parts[..j], anchors), Part(parts[j], anchors));
      assert seen + WithAnchors(parts[..j + 1], anchors)
          == seen + WithAnchors(parts[..j], anchors) + [Part(parts[j], anchors)];
      units := units + [Unit(parts[j], start, end, anchors)];
      offset := end + 2;
    }
    assert parts[..|parts|] == parts;
  }

  method GroupUnits(group: seq<Block>) returns (units: seq<Unit>)
    ensures units == UnitsOf(group)
  {
    units := [];
    var offset := 0;
    for i := 0 to |group|
      invariant units == UnitsOf(group[..i]) && offset == NextOffset(units)
    {
      var anchors := SafeAnchors(group[i]);
      var parts := Split(Strip(group[i].text));
      assert group[..i + 1][..i] == group[..i];
      units, offset := PlaceParts(units, offset, parts, anchors, PartsOf(group[..i]));
    }
    assert group[..|group|] == group;
  }

  /** The inner loop: take units while they fit. */
  method SelectUnits(units: seq<Unit>, from: nat) returns (selected: seq<Unit>, cursor: nat)
    requires from < |units|
    ensures cursor == SelectEnd(units, from) && selected == units[from..cursor]
  {
    selected, cursor := [], from;
    var size := 0;
    while cursor < |units|
      invariant from <= cursor <= |units| && selected == units[from..cursor]
      invariant size == Width(units, from, cursor)
      invariant SelectFrom(units, from, cursor) == SelectEnd(units, from)
    {
      var unit := units[cursor];
      var separator := if selected != [] then 2 else 0;
      if selected != [] && size + separator + |unit.text| > MAX_CHUNK_CHARS {
        break;
      }
      selected := selected + [unit];
      size := size + separator + |unit.text|;
      cursor := cursor + 1;
      if size >= MAX_CHUNK_CHARS {
        break;
      }
    }
  }

  lemma ChunksOfStep(b: Block, us: seq<Unit>, s: Span, rest: seq<Span>, base: nat)
    requires s.from < s.to <= |us| && InRange(us, rest)
    ensures InRange(us, [s] + rest)
    ensures ChunksOf(b, us, [s] + rest, base) == [ChunkAt(b, us, s, base)] + ChunksOf(b, us, rest, base + 1)
  {
    assert forall i :: 0 < i < 1 + |rest| ==> ([s] + rest)[i] == rest[i - 1];
  }

  lemma {:induction false} SpansFromInRange(us: seq<Unit>, cursor: nat)
    requires cursor <= |us|
    ensures InRange(us, Spans(us, cursor))
  {
    if cursor < |us| {
      SpansShape(us, cursor);
    }
  }

  /** The chunks still to come when the cursor is at `cursor`. */
  ghost function Remaining(b: Block, us: seq<Unit>, cursor: nat, base: nat): seq<Chunk>
    requires cursor <= |us|
  {
    SpansFromInRange(us, cursor);
    ChunksOf(b, us, Spans(us, cursor), base)
  }

  lemma RemainingStep(b: Block, us: seq<Unit>, cursor: nat, base: nat)
    requires cursor < |us|
    ensures var end := SelectEnd(us, cursor);
      Remaining(b, us, cursor, base) ==
      [ChunkAt(b, us, Span(cursor, end), base)] + Remaining(b, us, NextCursor(us, cursor, end), base + 1)
  {
    var end := SelectEnd(us, cursor);
    SpansFromInRange(us, NextCursor(us, cursor, end));
    ChunksOfStep(b, us, Span(cursor, end), Spans(us, NextCursor(us, cursor, end)), base);
  }

  /** The projection of one selection. */
  method Project(block: Block, selected: seq<Unit>, index: nat, ghost units: seq<Unit>, ghost s: Span)
    returns (projection: Chunk)
    requires s.from < s.to <= |units| && selected == units[s.from..s.to]
    ensures projection == ChunkAt(block, units, s, index)
  {
    var path := SectionPath(block);
    projection := Chunk(Paste(selected), block.page, block.slide, block.title, path, index,
                        selected[0].start, selected[|selected| - 1].end, AnchorsOf(selected));
  }

  /** One turn of the cursor loop; the branch for an empty selection is never taken. */
  method NextChunk(block: Block, units: seq<Unit>, from: nat, index: nat) returns (projection: Chunk, cursor: nat)
    requires from < |units|
    ensures projection == ChunkAt(block, units, Span(from, SelectEnd(units, from)), index)
    ensures cursor == NextCursor(units, from, SelectEnd(units, from))
  {
    var selected, end := SelectUnits(units, from);
    cursor := end;
    if selected == [] {
      assert false;
    }
    projection := Project(block, selected, index, units, Span(from, end));
    if cursor < |units| && |selected| > 1 {
      var overlap := selected[|selected| - 1];
      if |overlap.text| <= MIN_CHUNK_CHARS {
        cursor := cursor - 1;
      }
    }
  }

  /** The chunks written so far and those still to come are all chunks. */
  ghost predicate OnTrack(b: Block, us: seq<Unit>, cursor: nat, done: seq<Chunk>, total: seq<Chunk>) {
    cursor <= |us| && done + Remaining(b, us, cursor, |done|) == total
  }

  lemma StaysOnTrack(b: Block, us: seq<Unit>, cursor: nat, done: seq<Chunk>, total: seq<Chunk>)
    requires OnTrack(b, us, cursor, done, total) && cursor < |us|
    ensures var end := SelectEnd(us, cursor);
      OnTrack(b, us, NextCursor(us, cursor, end), done + [ChunkAt(b, us, Span(cursor, end), |done|)], total)
  {
    var end := SelectEnd(us, cursor);
    RemainingStep(b, us, cursor, |done|);
    Associate(done, [ChunkAt(b, us, Span(cursor, end), |done|)], Remaining(b, us, NextCursor(us, cursor, end), |done| + 1));
  }

  lemma EndOfTrack(b: Block, us: seq<Unit>, done: seq<Chunk>, total: seq<Chunk>)
    requires OnTrack(b, us, |us|, done, total)
    ensures done == total
  {
    assert Remaining(b, us, |us|, |done|) == [];
  }

  /** The cursor loop over one group. */
  method ChunkGroup(group: Group, units: seq<Unit>, before: seq<Chunk>) returns (projections: seq<Chunk>)
    requires units == UnitsOf(group)
    ensures projections == before + GroupChunks(group, |before|)
  {
    var cursor := 0;
    projections := before;
    ghost var total := before + Remaining(group[0], units, 0, |before|);
    while cursor < |units|
      invariant OnTrack(group[0], units, cursor, projections, total)
      decreases |units| - cursor
    {
      StaysOnTrack(group[0], units, cursor, projections, total);
      var projection, next := NextChunk(group[0], units, cursor, |projections|);
      projections, cursor := projections + [projection], next;
    }
    EndOfTrack(group[0], units, projections, total);
  }

  lemma Associate(a: seq<Chunk>, b: seq<Chunk>, c: seq<Chunk>)
    ensures (a + b) + c == a + (b + c)
  {
  }

  lemma GroupsStep(blocks: seq<Block>, i: nat)
    requires i < |blocks|
    ensures Groups(blocks[..i + 1]) == AddBlock(Groups(blocks[..i]), blocks[i])
  {
    assert blocks[..i + 1] == blocks[..i] + [blocks[i]];
    FoldStep(AddBlock, [], blocks[..i], blocks[i]);
  }

  method GroupBlocks(blocks: seq<Block>) returns (groups: seq<Group>)
    ensures groups == Groups(blocks)
  {
    groups := [];
    for i := 0 to |blocks|
      invariant groups == Groups(blocks[..i])
    {
      GroupsStep(blocks, i);
      var block := blocks[i];
      if !Blank(block.text) {
        if groups == [] || GroupKey(groups[|groups| - 1][0]) != GroupKey(block) {
          groups := groups + [[block]];
        } else {
          groups := groups[|groups| - 1 := groups[|groups| - 1] + [block]];
        }
      }
    }
    assert blocks[..|blocks|] == blocks;
  }

  method BuildStructureChunks(blocks: seq<Block>) returns (projections: seq<Chunk>)
    ensures projections == Chunks(blocks)
  {
    var groups := GroupBlocks(blocks);
    projections := [];
    for i := 0 to |groups|
      invariant projections == ChunkGroups(groups[..i])
    {
      assert groups[..i + 1][..i] == groups[..i];
      var units := GroupUnits(groups[i]);
      projections := ChunkGroup(groups[i], units, projections);
    }
    assert groups[..|groups|] == groups;
  }
}
