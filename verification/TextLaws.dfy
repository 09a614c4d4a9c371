/** What stripping and hard cutting leave of a text. */
module TextLaws {
  import opened SentenceSplit

  lemma {:induction false} VisibleNothing(s: string)
    ensures Visible(s) == "" <==> forall c :: c in s ==> IsSpace(c)
  {
    if s != "" {
      VisibleNothing(s[1..]);
      assert s == [s[0]] + s[1..];
    }
  }

  lemma {:induction false} StripNothing(s: string)
    ensures Strip(s) == "" <==> forall c :: c in s ==> IsSpace(c)
  {
    StripVisible(s);
    VisibleNothing(s);
    VisibleNothing(Strip(s));
    if Strip(s) != "" {
      assert Strip(s)[0] in Strip(s);
    }
  }

  /** Cutting hard gives pieces of exactly 900 characters, and one last piece of the rest. */
  lemma {:induction false} SlicesAre(s: string)
    ensures Concat(Slices(s)) == s && Slices(s) != []
    ensures forall k :: 0 <= k < |Slices(s)| - 1 ==> |Slices(s)[k]| == 900
    ensures |Slices(s)[|Slices(s)| - 1]| <= 900 && (s != "" ==> Slices(s)[|Slices(s)| - 1] != "")
  {
    if |s| <= MAX_CHUNK_CHARS {
      ConcatOne(s);
    } else {
      SlicesAre(s[MAX_CHUNK_CHARS..]);
      ConcatFront(s[..MAX_CHUNK_CHARS], Slices(s[MAX_CHUNK_CHARS..]));
      assert s == s[..MAX_CHUNK_CHARS] + s[MAX_CHUNK_CHARS..];
    }
  }

  lemma {:induction false} ConcatFront(first: string, rest: seq<string>)
    ensures Concat([first] + rest) == first + Concat(rest)
  {
    if rest == [] {
      assert [first] + rest == [first];
      ConcatOne(first);
    } else {
      var init := rest[..|rest| - 1];
      ConcatFront(first, init);
      assert ([first] + rest)[..|rest|] == [first] + init;
      Associate(first, Concat(init), rest[|rest| - 1]);
    }
  }
}
