/**
 * Splitting an oversized block (ingestion_chunking.py:125-150): cut after sentence
 * terminators, pack whole sentences greedily, and hard-slice a sentence that is too long alone.
 */
module SentenceSplit {
  import opened Common

  const MAX_CHUNK_CHARS := 900

  /** The characters both `str.strip` and the regular expression `\s` treat as whitespace. */
  predicate IsSpace(c: char) {
    var n := c as int;
    || 0x09 <= n <= 0x0D || 0x1C <= n <= 0x20 || n == 0x85 || n == 0xA0 || n == 0x1680
    || 0x2000 <= n <= 0x200A || n == 0x2028 || n == 0x2029 || n == 0x202F || n == 0x205F || n == 0x3000
  }

  /** Latin and full-width sentence terminators. */
  predicate IsTerminator(c: char) {
    var n := c as int;
    c == '.' || c == '!' || c == '?' || c == ';' || n == 0x3002 || n == 0xFF01 || n == 0xFF1F || n == 0xFF1B
  }

  /** The characters of `s` that are not whitespace, in order. */
  function Visible(s: string): string {
    if s == "" then "" else Keep(s[0]) + Visible(s[1..])
  }

  function Keep(c: char): string {
    if IsSpace(c) then "" else [c]
  }

  lemma Associate(a: string, b: string, c: string)
    ensures (a + b) + c == a + (b + c)
  {
  }

  lemma {:induction false} VisibleConcat(a: string, b: string)
    ensures Visible(a + b) == Visible(a) + Visible(b)
  {
    if a == "" {
      assert a + b == b;
    } else {
      VisibleConcat(a[1..], b);
      assert (a + b)[1..] == a[1..] + b;
      Associate(Keep(a[0]), Visible(a[1..]), Visible(b));
    }
  }

  function LStrip(s: string): (r: string)
    ensures |r| <= |s|
    ensures r != "" ==> !IsSpace(r[0])
    ensures Visible(r) == Visible(s)
  {
    if s != "" && IsSpace(s[0]) then LStrip(s[1..]) else s
  }

  function RStrip(s: string): (r: string)
    ensures r <= s
    ensures r != "" ==> !IsSpace(r[|r| - 1])
  {
    if s != "" && IsSpace(s[|s| - 1]) then RStrip(s[..|s| - 1]) else s
  }

  function Strip(s: string): string {
    RStrip(LStrip(s))
  }

  /** No whitespace at either end. */
  predicate Trimmed(s: string) {
    s != "" ==> !IsSpace(s[0]) && !IsSpace(s[|s| - 1])
  }

  lemma {:induction false} RStripVisible(s: string)
    ensures Visible(RStrip(s)) == Visible(s)
  {
    if s != "" && IsSpace(s[|s| - 1]) {
      RStripVisible(s[..|s| - 1]);
      VisibleConcat(s[..|s| - 1], s[|s| - 1..]);
      assert s == s[..|s| - 1] + s[|s| - 1..];
    }
  }

  lemma StripVisible(s: string)
    ensures Visible(Strip(s)) == Visible(s)
    ensures Trimmed(Strip(s)) && |Strip(s)| <= |s|
    ensures Trimmed(s) ==> Strip(s) == s
  {
    RStripVisible(LStrip(s));
  }

  /** All strings of `ss` one after the other. */
  function Concat(ss: seq<string>): string {
    if ss == [] then "" else Concat(ss[..|ss| - 1]) + ss[|ss| - 1]
  }

  lemma {:induction false} ConcatAppend(a: seq<string>, b: seq<string>)
    ensures Concat(a + b) == Concat(a) + Concat(b)
  {
    if b == [] {
      assert a + b == a;
    } else {
      ConcatAppend(a, b[..|b| - 1]);
      assert (a + b)[..|a + b| - 1] == a + b[..|b| - 1];
    }
  }

  lemma {:induction false} ConcatVisible(a: seq<string>, b: seq<string>)
    ensures Visible(Concat(a + b)) == Visible(Concat(a)) + Visible(Concat(b))
  {
    ConcatAppend(a, b);
    VisibleConcat(Concat(a), Concat(b));
  }

  lemma ConcatOne(s: string)
    ensures Concat([s]) == s
  {
    assert [s][..0] == [];
  }

  /** `sep.join(ss)` */
  function Join(ss: seq<string>, sep: string): string {
    if ss == [] then "" else if |ss| == 1 then ss[0] else Join(ss[..|ss| - 1], sep) + sep + ss[|ss| - 1]
  }

  lemma JoinStep(ss: seq<string>, s: string, sep: string)
    ensures Join(ss + [s], sep) == if ss == [] then s else Join(ss, sep) + sep + s
  {
    assert (ss + [s])[..|ss|] == ss;
  }

  // ---- re.split at sentence terminators ----

  /** Position of the first terminator, or the length of `s`. */
  function Stop(s: string): (i: nat)
    ensures i <= |s|
    ensures forall k :: 0 <= k < i ==> !IsTerminator(s[k])
    ensures i < |s| ==> IsTerminator(s[i])
  {
    if s == "" || IsTerminator(s[0]) then 0 else 1 + Stop(s[1..])
  }

  /** Cut behind every terminator and swallow the whitespace that follows it. */
  function Pieces(s: string): seq<string>
    decreases |s|
  {
    var i := Stop(s);
    if i == |s| then [s] else [s[..i + 1]] + Pieces(LStrip(s[i + 1..]))
  }

  /** The trimmed pieces that are not blank. */
  function NonBlank(ps: seq<string>): seq<string> {
    if ps == [] then []
    else (if Strip(ps[0]) == "" then [] else [Strip(ps[0])]) + NonBlank(ps[1..])
  }

  function Sentences(s: string): seq<string> {
    NonBlank(Pieces(s))
  }

  /** A sentence is trimmed, not empty, and holds a terminator at most at its end. */
  ghost predicate IsSentence(t: string) {
    t != "" && Trimmed(t) && forall k :: 0 <= k < |t| - 1 ==> !IsTerminator(t[k])
  }

  lemma {:induction false} NonBlankVisible(ps: seq<string>)
    ensures Visible(Concat(NonBlank(ps))) == Visible(Concat(ps))
  {
    if ps != [] {
      NonBlankVisible(ps[1..]);
      StripVisible(ps[0]);
      ConcatVisible([ps[0]], ps[1..]);
      assert ps == [ps[0]] + ps[1..];
      ConcatOne(ps[0]);
      ConcatOne(Strip(ps[0]));
      ConcatVisible([Strip(ps[0])], NonBlank(ps[1..]));
      if Strip(ps[0]) == "" {
        assert NonBlank(ps) == NonBlank(ps[1..]);
      }
    }
  }

  lemma {:induction false} PiecesVisible(s: string)
    ensures Visible(Concat(Pieces(s))) == Visible(s)
    decreases |s|
  {
    var i := Stop(s);
    if i == |s| {
      ConcatOne(s);
    } else {
      var rest := s[i + 1..];
      PiecesVisible(LStrip(rest));
      ConcatVisible([s[..i + 1]], Pieces(LStrip(rest)));
      ConcatOne(s[..i + 1]);
      VisibleConcat(s[..i + 1], rest);
      assert s == s[..i + 1] + rest;
    }
  }

  lemma StripOfPiece(p: string)
    requires forall k :: 0 <= k < |p| - 1 ==> !IsTerminator(p[k])
    ensures Strip(p) == "" || IsSentence(Strip(p))
  {
    StripVisible(p);
    LStripIsSuffix(p);
  }

  lemma {:induction false} LStripIsSuffix(s: string)
    ensures s[|s| - |LStrip(s)|..] == LStrip(s)
  {
    if s != "" && IsSpace(s[0]) {
      LStripIsSuffix(s[1..]);
      assert s[1..][|s| - 1 - |LStrip(s)|..] == s[|s| - |LStrip(s)|..];
    }
  }

  lemma {:induction false} PiecesStopOnce(s: string, j: nat)
    requires j < |Pieces(s)|
    ensures forall k :: 0 <= k < |Pieces(s)[j]| - 1 ==> !IsTerminator(Pieces(s)[j][k])
    decreases |s|
  {
    var i := Stop(s);
    if i < |s| && j > 0 {
      PiecesStopOnce(LStrip(s[i + 1..]), j - 1);
      assert Pieces(s)[j] == Pieces(LStrip(s[i + 1..]))[j - 1];
    }
  }

  lemma {:induction false} NonBlankSentences(ps: seq<string>)
    requires forall j :: 0 <= j < |ps| ==> forall k :: 0 <= k < |ps[j]| - 1 ==> !IsTerminator(ps[j][k])
    ensures forall t :: t in NonBlank(ps) ==> IsSentence(t)
  {
    if ps != [] {
      StripOfPiece(ps[0]);
      forall j | 0 <= j < |ps[1..]|
        ensures forall k :: 0 <= k < |ps[1..][j]| - 1 ==> !IsTerminator(ps[1..][j][k])
      {
        assert ps[1..][j] == ps[j + 1];
      }
      NonBlankSentences(ps[1..]);
    }
  }

  /** Cutting into sentences loses nothing but whitespace and never leaves a terminator inside one. */
  lemma SentencesComplete(s: string)
    ensures Visible(Concat(Sentences(s))) == Visible(s)
    ensures forall t :: t in Sentences(s) ==> IsSentence(t)
  {
    PiecesVisible(s);
    NonBlankVisible(Pieces(s));
    forall j | 0 <= j < |Pieces(s)|
      ensures forall k :: 0 <= k < |Pieces(s)[j]| - 1 ==> !IsTerminator(Pieces(s)[j][k])
    {
      PiecesStopOnce(s, j);
    }
    NonBlankSentences(Pieces(s));
  }

  // ---- packing sentences ----

  /** `current` is the part still being filled; empty when there is none. */
  datatype Packing = Packing(parts: seq<string>, current: string) {
    function Flush(): seq<string> {
      if current == "" then parts else parts + [current]
    }
  }

  /** Consecutive slices of 900 characters, the last one shorter. */
  function Slices(s: string): seq<string> {
    if |s| <= MAX_CHUNK_CHARS then [s] else [s[..MAX_CHUNK_CHARS]] + Slices(s[MAX_CHUNK_CHARS..])
  }

  function PackOne(p: Packing, sentence: string): Packing {
    if |sentence| > MAX_CHUNK_CHARS then
      Packing(p.Flush() + Slices(sentence), "")
    else
      var candidate := Strip(p.current + " " + sentence);
      if p.current != "" && |candidate| > MAX_CHUNK_CHARS then
        Packing(p.parts + [p.current], sentence)
      else
        Packing(p.parts, candidate)
  }

  function Pack(sentences: seq<string>): Packing {
    Fold(PackOne, Packing([], ""), sentences)
  }

  function SplitOversized(text: string): seq<string> {
    if |text| <= MAX_CHUNK_CHARS then [text] else Pack(Sentences(text)).Flush()
  }

  ghost predicate Fits(s: string) {
    0 < |s| <= MAX_CHUNK_CHARS
  }

  lemma {:induction false} SlicesProperties(s: string)
    requires s != ""
    ensures Concat(Slices(s)) == s
    ensures forall t :: t in Slices(s) ==> Fits(t)
  {
    if |s| <= MAX_CHUNK_CHARS {
      ConcatOne(s);
    } else {
      SlicesProperties(s[MAX_CHUNK_CHARS..]);
      ConcatAppend([s[..MAX_CHUNK_CHARS]], Slices(s[MAX_CHUNK_CHARS..]));
      ConcatOne(s[..MAX_CHUNK_CHARS]);
      assert s == s[..MAX_CHUNK_CHARS] + s[MAX_CHUNK_CHARS..];
    }
  }

  /** What packing keeps: every part fits, the open part is trimmed. */
  ghost predicate PackingOk(p: Packing) {
    && (forall t :: t in p.parts ==> Fits(t))
    && |p.current| <= MAX_CHUNK_CHARS
    && Trimmed(p.current)
  }

  /** The candidate part: the source's strip only matters while no part is open. */
  lemma Candidate(current: string, sentence: string)
    requires Trimmed(current) && sentence != "" && Trimmed(sentence)
    ensures Strip(current + " " + sentence) == if current == "" then sentence else current + " " + sentence
  {
    var joined := current + " " + sentence;
    if current == "" {
      assert joined == " " + sentence;
      assert joined[1..] == sentence;
      assert LStrip(joined) == LStrip(sentence) == sentence;
    } else {
      assert Trimmed(joined);
      StripVisible(joined);
    }
  }

  lemma FlushOk(p: Packing)
    requires PackingOk(p)
    ensures forall t :: t in p.Flush() ==> Fits(t)
    ensures Concat(p.Flush()) == Concat(p.parts) + p.current
  {
    ConcatAppend(p.parts, [p.current]);
    ConcatOne(p.current);
  }

  lemma PackOneOk(p: Packing, sentence: string)
    requires PackingOk(p) && sentence != "" && Trimmed(sentence)
    ensures PackingOk(PackOne(p, sentence))
  {
    if |sentence| > MAX_CHUNK_CHARS {
      FlushOk(p);
      SlicesProperties(sentence);
    } else {
      Candidate(p.current, sentence);
    }
  }

  lemma VisibleSpaced(a: string, b: string)
    ensures Visible(a + " " + b) == Visible(a) + Visible(b)
  {
    VisibleConcat(a + " ", b);
    VisibleConcat(a, " ");
    assert " "[1..] == "" && IsSpace(' ');
    assert Visible(" ") == "";
  }

  lemma {:induction false} PackLongVisible(p: Packing, sentence: string)
    requires PackingOk(p) && |sentence| > MAX_CHUNK_CHARS
    ensures Visible(Concat(PackOne(p, sentence).Flush())) == Visible(Concat(p.Flush())) + Visible(sentence)
  {
    SlicesProperties(sentence);
    ConcatVisible(p.Flush(), Slices(sentence));
    assert PackOne(p, sentence).Flush() == p.Flush() + Slices(sentence);
  }

  lemma {:induction false} PackShortVisible(p: Packing, sentence: string)
    requires PackingOk(p) && sentence != "" && Trimmed(sentence) && |sentence| <= MAX_CHUNK_CHARS
    ensures Visible(Concat(PackOne(p, sentence).Flush())) == Visible(Concat(p.Flush())) + Visible(sentence)
  {
    Candidate(p.current, sentence);
    if p.current == "" {
      assert PackOne(p, sentence) == Packing(p.parts, sentence);
      FlushVisible(p);
      FlushVisible(Packing(p.parts, sentence));
    } else if |p.current + " " + sentence| > MAX_CHUNK_CHARS {
      assert PackOne(p, sentence) == Packing(p.parts + [p.current], sentence);
      FlushVisible(Packing(p.parts + [p.current], sentence));
    } else {
      assert PackOne(p, sentence) == Packing(p.parts, p.current + " " + sentence);
      WiderVisible(p, sentence);
    }
  }

  lemma {:induction false} WiderVisible(p: Packing, sentence: string)
    ensures Visible(Concat(Packing(p.parts, p.current + " " + sentence).Flush()))
         == Visible(Concat(p.Flush())) + Visible(sentence)
  {
    FlushVisible(p);
    FlushVisible(Packing(p.parts, p.current + " " + sentence));
    VisibleSpaced(p.current, sentence);
  }

  lemma {:induction false} FlushVisible(p: Packing)
    ensures Visible(Concat(p.Flush())) == Visible(Concat(p.parts)) + Visible(p.current)
  {
    ConcatVisible(p.parts, [p.current]);
    ConcatOne(p.current);
  }

  lemma {:induction false} PackKeeps(sentences: seq<string>)
    requires forall t :: t in sentences ==> t != "" && Trimmed(t)
    ensures PackingOk(Pack(sentences))
    ensures Visible(Concat(Pack(sentences).Flush())) == Visible(Concat(sentences))
  {
    if sentences != [] {
      var init, last := sentences[..|sentences| - 1], sentences[|sentences| - 1];
      assert last in sentences && forall t :: t in init ==> t in sentences;
      PackKeeps(init);
      PackOneOk(Pack(init), last);
      if |last| > MAX_CHUNK_CHARS {
        PackLongVisible(Pack(init), last);
      } else {
        PackShortVisible(Pack(init), last);
      }
      VisibleConcat(Concat(init), last);
    }
  }

  /** Every part fits in one chunk, and the parts hold the visible characters of the text in order. */
  lemma SplitLosesOnlyWhitespace(text: string)
    ensures Visible(Concat(SplitOversized(text))) == Visible(text)
    ensures text != "" ==> forall t :: t in SplitOversized(text) ==> Fits(t)
  {
    if |text| <= MAX_CHUNK_CHARS {
      ConcatOne(text);
    } else {
      SentencesComplete(text);
      PackKeeps(Sentences(text));
      FlushOk(Pack(Sentences(text)));
    }
  }

  // ---- greedy packing keeps sentences whole ----

  /** Neighbouring parts could not have been one part. */
  ghost predicate Crowded(parts: seq<string>) {
    forall i :: 0 <= i < |parts| - 1 ==> |parts[i]| + 1 + |parts[i + 1]| > MAX_CHUNK_CHARS
  }

  lemma {:induction false} PackWhole(sentences: seq<string>)
    requires forall t :: t in sentences ==> Fits(t) && Trimmed(t)
    ensures var p := Pack(sentences);
            && PackingOk(p)
            && (sentences != [] ==> p.current != "")
            && Join(p.Flush(), " ") == Join(sentences, " ")
            && Crowded(p.Flush())
  {
    if sentences != [] {
      var init, last := sentences[..|sentences| - 1], sentences[|sentences| - 1];
      var p, q := Pack(init), Pack(sentences);
      assert last in sentences && forall t :: t in init ==> t in sentences;
      PackWhole(init);
      PackOneOk(p, last);
      assert sentences == init + [last];
      if init != [] {
        JoinStep(init, last, " ");
        PackWholeStep(p, last, Join(init, " "));
      } else {
        assert p == Packing([], "");
        FirstSentence(last);
      }
    }
  }

  lemma FirstSentence(t: string)
    requires Fits(t) && Trimmed(t)
    ensures PackOne(Packing([], ""), t) == Packing([], t)
    ensures Join([t], " ") == t && Crowded([t])
  {
    Candidate("", t);
  }

  lemma PackWholeStep(p: Packing, last: string, sofar: string)
    requires PackingOk(p) && p.current != "" && Fits(last) && Trimmed(last)
    requires Join(p.Flush(), " ") == sofar && Crowded(p.Flush())
    ensures var q := PackOne(p, last); Join(q.Flush(), " ") == sofar + " " + last && Crowded(q.Flush())
    ensures PackOne(p, last).current != ""
  {
    Candidate(p.current, last);
    var q := PackOne(p, last);
    if |p.current + " " + last| > MAX_CHUNK_CHARS {
      JoinStep(p.Flush(), last, " ");
      assert q.Flush() == p.Flush() + [last];
      assert p.Flush()[|p.parts|] == p.current;
    } else {
      JoinWider(p.parts, p.current, last);
      CrowdedWider(p.parts, p.current, p.current + " " + last);
    }
  }

  lemma JoinWider(parts: seq<string>, current: string, last: string)
    ensures Join(parts + [current + " " + last], " ") == Join(parts + [current], " ") + " " + last
  {
    JoinStep(parts, current, " ");
    JoinStep(parts, current + " " + last, " ");
    if parts != [] {
      assert Join(parts, " ") + " " + (current + " " + last) == (Join(parts, " ") + " " + current) + " " + last;
    }
  }

  lemma CrowdedWider(parts: seq<string>, current: string, wider: string)
    requires Crowded(parts + [current]) && |wider| >= |current|
    ensures Crowded(parts + [wider])
  {
    var was, now := parts + [current], parts + [wider];
    forall i | 0 <= i < |now| - 1
      ensures |now[i]| + 1 + |now[i + 1]| > MAX_CHUNK_CHARS
    {
      assert now[i] == was[i] && |now[i + 1]| >= |was[i + 1]|;
    }
  }

  /**
   * When no sentence is too long alone, every sentence stays whole: joining the parts with
   * single spaces gives the sentences joined with single spaces, and no two neighbouring
   * parts would have fitted together.
   */
  lemma SplitKeepsSentencesWhole(text: string)
    requires |text| > MAX_CHUNK_CHARS
    requires forall t :: t in Sentences(text) ==> |t| <= MAX_CHUNK_CHARS
    ensures Join(SplitOversized(text), " ") == Join(Sentences(text), " ")
    ensures Crowded(SplitOversized(text))
  {
    SentencesComplete(text);
    PackWhole(Sentences(text));
  }

  // ---- the loops ----

  lemma SlicesUnfold(s: string, index: nat)
    requires index < |s|
    ensures Slices(s[index..]) ==
            if index + MAX_CHUNK_CHARS >= |s| then [s[index..]]
            else [s[index..index + MAX_CHUNK_CHARS]] + Slices(s[index + MAX_CHUNK_CHARS..])
  {
    if index + MAX_CHUNK_CHARS < |s| {
      assert s[index..][..MAX_CHUNK_CHARS] == s[index..index + MAX_CHUNK_CHARS];
      assert s[index..][MAX_CHUNK_CHARS..] == s[index + MAX_CHUNK_CHARS..];
    }
  }

  method HardSlices(sentence: string) returns (slices: seq<string>)
    requires sentence != ""
    ensures slices == Slices(sentence)
  {
    slices := [];
    var index := 0;
    assert sentence[0..] == sentence;
    while index < |sentence|
      invariant index < |sentence| ==> slices + Slices(sentence[index..]) == Slices(sentence)
      invariant index >= |sentence| ==> slices == Slices(sentence)
    {
      SlicesUnfold(sentence, index);
      var end := if index + MAX_CHUNK_CHARS < |sentence| then index + MAX_CHUNK_CHARS else |sentence|;
      assert end == |sentence| ==> sentence[index..end] == sentence[index..];
      slices := slices + [sentence[index..end]];
      index := index + MAX_CHUNK_CHARS;
    }
  }

  method Split(text: string) returns (parts: seq<string>)
    ensures parts == SplitOversized(text)
  {
    if |text| <= MAX_CHUNK_CHARS {
      return [text];
    }
    var sentences := Sentences(text);
    parts := [];
    var current := "";
    for i := 0 to |sentences|
      invariant Packing(parts, current) == Pack(sentences[..i])
    {
      assert sentences[..i + 1] == sentences[..i] + [sentences[i]];
      FoldStep(PackOne, Packing([], ""), sentences[..i], sentences[i]);
      var sentence := sentences[i];
      if |sentence| > MAX_CHUNK_CHARS {
        if current != "" {
          parts := parts + [current];
          current := "";
        }
        var slices := HardSlices(sentence);
        parts := parts + slices;
      } else {
        var candidate := Strip(current + " " + sentence);
        if current != "" && |candidate| > MAX_CHUNK_CHARS {
          parts := parts + [current];
          current := sentence;
        } else {
          current := candidate;
        }
      }
    }
    assert sentences[..|sentences|] == sentences;
    if current != "" {
      parts := parts + [current];
    }
  }
}
