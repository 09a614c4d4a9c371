/** Small vocabulary shared by every component of the model. */
module Common {

  /** UUIDs are modelled as numbers: only their identity is ever used. */
  type Id = nat

  datatype Option<+T> = None | Some(value: T)

  datatype Result<+T> = Success(value: T) | Failure(code: string)

  /** `list(dict.fromkeys(s))`: the first occurrence of every element, in order. */
  function Dedup<T(==,!new)>(s: seq<T>): (r: seq<T>)
    ensures forall x :: x in r <==> x in s
    ensures Distinct(r)
  {
    if s == [] then []
    else
      var init := Dedup(s[..|s| - 1]);
      if s[|s| - 1] in init then init else init + [s[|s| - 1]]
  }

  predicate Distinct<T(==)>(s: seq<T>) {
    forall i, j :: 0 <= i < j < |s| ==> s[i] != s[j]
  }

  /** `s` without the elements listed in `gone`, order kept. */
  function Without<T(==,!new)>(s: seq<T>, gone: seq<T>): (r: seq<T>)
    ensures forall x :: x in r <==> x in s && x !in gone
    ensures Distinct(s) ==> Distinct(r)
  {
    if s == [] then []
    else
      var init := Without(s[..|s| - 1], gone);
      if s[|s| - 1] in gone then init else init + [s[|s| - 1]]
  }

  lemma {:induction false} WithoutNothing<T(!new)>(s: seq<T>)
    ensures Without(s, []) == s
  {
    if s != [] {
      var init, last := s[..|s| - 1], s[|s| - 1];
      WithoutNothing(init);
      assert Without(s, []) == init + [last];
      assert s == init + [last];
    }
  }

  /** Removing one element after a list of others is removing the longer list. */
  lemma {:induction false} WithoutStep<T(!new)>(s: seq<T>, gone: seq<T>, x: T)
    ensures Without(Without(s, gone), [x]) == Without(s, gone + [x])
  {
    if s != [] {
      WithoutStep(s[..|s| - 1], gone, x);
      var init := Without(s[..|s| - 1], gone);
      if s[|s| - 1] !in gone {
        assert (init + [s[|s| - 1]])[..|init|] == init;
      }
    }
  }

  /** Removal keeps the relative order: positions in the result come from ordered positions. */
  lemma {:induction false} WithoutOrder<T(!new)>(s: seq<T>, gone: seq<T>, i: nat, j: nat)
    requires i < j < |Without(s, gone)|
    ensures exists a, b :: 0 <= a < b < |s| && s[a] == Without(s, gone)[i] && s[b] == Without(s, gone)[j]
  {
    var n := |s| - 1;
    var init := Without(s[..n], gone);
    if j < |init| {
      WithoutOrder(s[..n], gone, i, j);
      var a, b :| 0 <= a < b < n && s[..n][a] == init[i] && s[..n][b] == init[j];
      assert s[a] == init[i] && s[b] == init[j];
    } else {
      assert init[i] in s[..n];
      var a :| 0 <= a < n && s[..n][a] == init[i];
      assert s[a] == init[i] && s[n] == Without(s, gone)[j];
    }
  }

  /** `f` applied to the elements of `es` in order, starting from `s`. */
  function Fold<S, E>(f: (S, E) -> S, s: S, es: seq<E>): S {
    if es == [] then s else f(Fold(f, s, es[..|es| - 1]), es[|es| - 1])
  }

  lemma FoldStep<S, E>(f: (S, E) -> S, s: S, es: seq<E>, e: E)
    ensures Fold(f, s, es + [e]) == f(Fold(f, s, es), e)
  {
    assert (es + [e])[..|es|] == es;
  }

  lemma {:induction false} FoldConcat<S, E>(f: (S, E) -> S, s: S, a: seq<E>, b: seq<E>)
    ensures Fold(f, Fold(f, s, a), b) == Fold(f, s, a + b)
  {
    if b == [] {
      assert a + b == a;
    } else {
      FoldConcat(f, s, a, b[..|b| - 1]);
      assert a + b == (a + b[..|b| - 1]) + [b[|b| - 1]];
      FoldStep(f, s, a + b[..|b| - 1], b[|b| - 1]);
    }
  }
}
