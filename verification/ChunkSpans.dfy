/**
 * The overlap cursor of the chunker (ingestion_chunking.py:52-92), over the units of one
 * group: which units each chunk takes and where the next chunk starts.
 */
module ChunkSpans {
  import opened SentenceSplit

  const MIN_CHUNK_CHARS := 180

  /** Parsers attach opaque source anchors to blocks. */
  type Anchor = nat

  /** One indivisible piece of text with its place in the normalized stream of its group. */
  datatype Unit = Unit(text: string, start: nat, end: nat, anchors: seq<Anchor>)

  ghost predicate AllFit(us: seq<Unit>) {
    forall u :: u in us ==> Fits(u.text)
  }

  /** `"\n\n".join(unit.text for unit in us)` */
  function Paste(us: seq<Unit>): string {
    if us == [] then ""
    else if |us| == 1 then us[0].text
    else Paste(us[..|us| - 1]) + "\n\n" + us[|us| - 1].text
  }

  /** Characters of `us[from..to]` once pasted together. */
  function Width(us: seq<Unit>, from: nat, to: nat): nat
    requires from <= to <= |us|
  {
    if from == to then 0
    else if to - from == 1 then |us[from].text|
    else Width(us, from, to - 1) + 2 + |us[to - 1].text|
  }

  lemma {:induction false} WidthIsPasted(us: seq<Unit>, from: nat, to: nat)
    requires from <= to <= |us|
    ensures Width(us, from, to) == |Paste(us[from..to])|
  {
    if to - from > 1 {
      WidthIsPasted(us, from, to - 1);
      assert us[from..to][..to - from - 1] == us[from..to - 1];
    }
  }

  lemma {:induction false} WidthGrows(us: seq<Unit>, from: nat, to: nat, k: nat)
    requires from < to <= k <= |us|
    ensures Width(us, from, to) <= Width(us, from, k)
  {
    if to < k {
      WidthGrows(us, from, to, k - 1);
    }
  }

  /** Where the greedy selection that has reached `to` stops. */
  function SelectFrom(us: seq<Unit>, from: nat, to: nat): (end: nat)
    requires from <= to <= |us|
    ensures to <= end <= |us|
    decreases |us| - to
  {
    if to < |us| && (to == from || Width(us, from, to) + 2 + |us[to].text| <= MAX_CHUNK_CHARS) then
      if Width(us, from, to + 1) >= MAX_CHUNK_CHARS then to + 1 else SelectFrom(us, from, to + 1)
    else to
  }

  function SelectEnd(us: seq<Unit>, from: nat): (end: nat)
    requires from < |us|
    ensures from < end <= |us|
  {
    SelectFrom(us, from, from)
  }

  /** The first unit of the next chunk: a short last unit is carried over when more units follow. */
  function NextCursor(us: seq<Unit>, from: nat, to: nat): (next: nat)
    requires from < to <= |us|
    ensures from < next <= to
  {
    if to < |us| && to - from > 1 && |us[to - 1].text| <= MIN_CHUNK_CHARS then to - 1 else to
  }

  /** The half-open range of units one chunk takes. */
  datatype Span = Span(from: nat, to: nat)

  function Spans(us: seq<Unit>, cursor: nat): seq<Span>
    requires cursor <= |us|
    decreases |us| - cursor
  {
    if cursor == |us| then []
    else
      var to := SelectEnd(us, cursor);
      [Span(cursor, to)] + Spans(us, NextCursor(us, cursor, to))
  }

  // ---- a chunk takes the longest run of units that fits ----

  lemma {:induction false} SelectFromFits(us: seq<Unit>, from: nat, to: nat)
    requires AllFit(us) && from <= to <= |us| && from < |us|
    requires Width(us, from, to) <= MAX_CHUNK_CHARS
    ensures var end := SelectFrom(us, from, to);
            Width(us, from, end) <= MAX_CHUNK_CHARS && (end < |us| ==> Width(us, from, end + 1) > MAX_CHUNK_CHARS)
    decreases |us| - to
  {
    if to < |us| && (to == from || Width(us, from, to) + 2 + |us[to].text| <= MAX_CHUNK_CHARS) {
      assert us[to] in us;
      if Width(us, from, to + 1) < MAX_CHUNK_CHARS {
        SelectFromFits(us, from, to + 1);
      }
    }
  }

  /** Of all ends, exactly those up to the selected one keep the chunk within 900 characters. */
  lemma SelectEndIsLargest(us: seq<Unit>, from: nat, k: nat)
    requires AllFit(us) && from < k <= |us|
    ensures Width(us, from, k) <= MAX_CHUNK_CHARS <==> k <= SelectEnd(us, from)
  {
    var end := SelectEnd(us, from);
    assert Width(us, from, from) == 0;
    SelectFromFits(us, from, from);
    if k <= end {
      WidthGrows(us, from, k, end);
    } else {
      WidthGrows(us, from, end + 1, k);
    }
  }

  // ---- how the spans follow each other ----

  /** The spans of one group: first unit to last unit, each greedy, each next start as the cursor rule says. */
  ghost predicate Linked(us: seq<Unit>, ss: seq<Span>) {
    && (us == [] <==> ss == [])
    && (ss != [] ==> ss[0].from == 0 && ss[|ss| - 1].to == |us|)
    && (forall i :: 0 <= i < |ss| ==> ss[i].from < ss[i].to <= |us| && ss[i].to == SelectEnd(us, ss[i].from))
    && (forall i :: 0 < i < |ss| ==> ss[i].from == NextCursor(us, ss[i - 1].from, ss[i - 1].to))
  }

  lemma {:induction false} SpansShape(us: seq<Unit>, cursor: nat)
    requires cursor < |us|
    ensures var ss := Spans(us, cursor);
      && ss != [] && ss[0].from == cursor && ss[|ss| - 1].to == |us|
      && (forall i :: 0 <= i < |ss| ==> ss[i].from < ss[i].to <= |us| && ss[i].to == SelectEnd(us, ss[i].from))
      && (forall i :: 0 < i < |ss| ==> ss[i].from == NextCursor(us, ss[i - 1].from, ss[i - 1].to))
    decreases |us| - cursor
  {
    var to := SelectEnd(us, cursor);
    var next := NextCursor(us, cursor, to);
    var ss := Spans(us, cursor);
    if next < |us| {
      SpansShape(us, next);
      var rest := Spans(us, next);
      assert ss == [Span(cursor, to)] + rest;
      forall i | 0 < i < |ss|
        ensures ss[i].from == NextCursor(us, ss[i - 1].from, ss[i - 1].to)
      {
        assert ss[i] == rest[i - 1];
        if i > 1 {
          assert ss[i - 1] == rest[i - 2];
        }
      }
    } else {
      assert ss == [Span(cursor, to)];
    }
  }

  lemma SpansLinked(us: seq<Unit>)
    ensures Linked(us, Spans(us, 0))
  {
    if us != [] {
      SpansShape(us, 0);
    }
  }

  /**
   * The next chunk repeats the last unit of this one exactly when this one has another unit and
   * that last unit has at most 180 characters; otherwise it starts with the unit that follows.
   */
  lemma {:induction false} NextStartIs(us: seq<Unit>, i: nat)
    requires i + 1 < |Spans(us, 0)|
    ensures var s, t := Spans(us, 0)[i], Spans(us, 0)[i + 1];
      && s.from < s.to < |us|
      && t.from == if s.to - s.from >= 2 && |us[s.to - 1].text| <= 180 then s.to - 1 else s.to
  {
    var ss := Spans(us, 0);
    SpansLinked(us);
    assert ss[i + 1].from == NextCursor(us, ss[i].from, ss[i].to) < |us|;
  }

  /** Every chunk starts after the one before it, so there are at most as many chunks as units. */
  lemma {:induction false} StartsIncrease(us: seq<Unit>, ss: seq<Span>, i: nat, j: nat)
    requires Linked(us, ss) && i < j < |ss|
    ensures ss[i].from < ss[j].from
    ensures ss[j].from >= j
  {
    if i + 1 < j {
      StartsIncrease(us, ss, i, j - 1);
    } else if i > 0 {
      StartsIncrease(us, ss, i - 1, i);
    }
  }

  lemma AtMostOneChunkPerUnit(us: seq<Unit>)
    ensures |Spans(us, 0)| <= |us|
  {
    SpansLinked(us);
    var ss := Spans(us, 0);
    if |ss| > 1 {
      StartsIncrease(us, ss, 0, |ss| - 1);
    }
  }

  /** Chunks that are not neighbours share nothing. */
  lemma {:induction false} FarChunksDisjoint(us: seq<Unit>, ss: seq<Span>, i: nat, j: nat)
    requires Linked(us, ss) && i + 1 < j < |ss|
    ensures ss[i].to <= ss[j].from
  {
    if i + 2 < j {
      FarChunksDisjoint(us, ss, i, j - 1);
      StartsIncrease(us, ss, j - 1, j);
    } else {
      var mid := ss[i + 1];
      assert mid.from == NextCursor(us, ss[i].from, ss[i].to);
      assert ss[j].from == NextCursor(us, mid.from, mid.to);
    }
  }

  predicate Covers(s: Span, u: nat) {
    s.from <= u < s.to
  }

  ghost predicate InSome(ss: seq<Span>, u: nat) {
    exists i :: 0 <= i < |ss| && Covers(ss[i], u)
  }

  lemma {:induction false} EveryUnitCovered(us: seq<Unit>, ss: seq<Span>, u: nat, n: nat)
    requires Linked(us, ss) && 0 < n <= |ss| && u < ss[n - 1].to
    ensures InSome(ss, u)
  {
    if ss[n - 1].from <= u {
      assert Covers(ss[n - 1], u);
    } else {
      assert n > 1;
      EveryUnitCovered(us, ss, u, n - 1);
    }
  }

  /**
   * Every unit is in one chunk or in two neighbouring ones; in the second case it is the
   * last unit of the first and the first unit of the second, and has at most 180 characters.
   */
  lemma UnitsInOneOrTwoChunks(us: seq<Unit>, u: nat)
    requires u < |us|
    ensures var ss := Spans(us, 0);
      && InSome(ss, u)
      && (forall i, j :: 0 <= i < j < |ss| && Covers(ss[i], u) && Covers(ss[j], u) ==>
            && j == i + 1 && u == ss[i].to - 1 && u == ss[j].from
            && |us[u].text| <= MIN_CHUNK_CHARS)
  {
    SpansLinked(us);
    var ss := Spans(us, 0);
    EveryUnitCovered(us, ss, u, |ss|);
    forall i, j | 0 <= i < j < |ss| && Covers(ss[i], u) && Covers(ss[j], u)
      ensures j == i + 1 && u == ss[i].to - 1 && u == ss[j].from && |us[u].text| <= MIN_CHUNK_CHARS
    {
      if i + 1 < j {
        FarChunksDisjoint(us, ss, i, j);
      }
      assert ss[i + 1].from == NextCursor(us, ss[i].from, ss[i].to);
    }
  }

  // ---- reconstruction ----

  /** The leading unit of chunk `i` was carried over from the chunk before it. */
  predicate Carries(ss: seq<Span>, i: nat)
    requires i < |ss|
  {
    i > 0 && ss[i].from < ss[i - 1].to
  }

  /** The units of chunk `i` without the one it carries over. */
  function Own(us: seq<Unit>, ss: seq<Span>, i: nat): seq<Unit>
    requires i < |ss| && ss[i].from < ss[i].to <= |us|
  {
    us[(if Carries(ss, i) then ss[i].from + 1 else ss[i].from)..ss[i].to]
  }

  ghost predicate InRange(us: seq<Unit>, ss: seq<Span>) {
    forall i :: 0 <= i < |ss| ==> ss[i].from < ss[i].to <= |us|
  }

  function OwnUnits(us: seq<Unit>, ss: seq<Span>, n: nat): seq<Unit>
    requires n <= |ss| && InRange(us, ss)
  {
    if n == 0 then [] else OwnUnits(us, ss, n - 1) + Own(us, ss, n - 1)
  }

  lemma {:induction false} OwnUnitsPrefix(us: seq<Unit>, ss: seq<Span>, n: nat)
    requires Linked(us, ss) && 0 < n <= |ss|
    ensures OwnUnits(us, ss, n) == us[..ss[n - 1].to]
  {
    assert InRange(us, ss);
    if n == 1 {
      assert OwnUnits(us, ss, 0) == [];
    } else {
      OwnUnitsPrefix(us, ss, n - 1);
      var prev, cur := ss[n - 2], ss[n - 1];
      assert cur.from == NextCursor(us, prev.from, prev.to);
      assert Own(us, ss, n - 1) == us[prev.to..cur.to];
      assert us[..cur.to] == us[..prev.to] + us[prev.to..cur.to];
    }
  }

  /** Without the carried units, the chunks of a group hold each of its units once and in order. */
  lemma ChunksRebuildUnits(us: seq<Unit>)
    ensures InRange(us, Spans(us, 0))
    ensures OwnUnits(us, Spans(us, 0), |Spans(us, 0)|) == us
  {
    SpansLinked(us);
    var ss := Spans(us, 0);
    if us != [] {
      OwnUnitsPrefix(us, ss, |ss|);
      assert us[..|us|] == us;
    }
  }

  /**
   * The cursor rule can produce a chunk that only repeats: exactly when it carries a unit
   * over and that unit does not fit in one chunk with the unit after it.
   */
  lemma RepeatingChunk(us: seq<Unit>, i: nat)
    requires AllFit(us) && 0 < i < |Spans(us, 0)|
    ensures InRange(us, Spans(us, 0)) && Spans(us, 0)[i - 1].to < |us|
    ensures var ss := Spans(us, 0); var u := ss[i].from;
      Own(us, ss, i) == [] <==>
      Carries(ss, i) && |us[u].text| + 2 + |us[ss[i - 1].to].text| > MAX_CHUNK_CHARS
  {
    SpansLinked(us);
    var ss := Spans(us, 0);
    var prev := ss[i - 1];
    assert ss[i].from == NextCursor(us, prev.from, prev.to);
    if Carries(ss, i) {
      SelectEndIsLargest(us, ss[i].from, ss[i].from + 2);
    }
  }

  lemma SpansStep(us: seq<Unit>, cursor: nat, to: nat, next: nat)
    requires cursor < |us| && SelectEnd(us, cursor) == to && NextCursor(us, cursor, to) == next
    ensures Spans(us, cursor) == [Span(cursor, to)] + Spans(us, next)
  {
  }

  /** Three units of 700, 100 and 850 characters: their ends of selection. */
  lemma ExampleEnds(us: seq<Unit>)
    requires |us| == 3 && AllFit(us)
    requires |us[0].text| == 700 && |us[1].text| == 100 && |us[2].text| == 850
    ensures SelectEnd(us, 0) == 2 && SelectEnd(us, 1) == 2 && SelectEnd(us, 2) == 3
  {
    SelectEndIsLargest(us, 0, 2);
    SelectEndIsLargest(us, 0, 3);
    SelectEndIsLargest(us, 1, 3);
  }

  /** They make such a chunk: the second one holds the carried unit and nothing else. */
  lemma RepeatingChunkExample(us: seq<Unit>)
    requires |us| == 3 && AllFit(us)
    requires |us[0].text| == 700 && |us[1].text| == 100 && |us[2].text| == 850
    ensures Spans(us, 0) == [Span(0, 2)] + [Span(1, 2)] + [Span(2, 3)]
  {
    ExampleEnds(us);
    SpansStep(us, 0, 2, 1);
    SpansStep(us, 1, 2, 2);
    SpansStep(us, 2, 3, 3);
  }
}
