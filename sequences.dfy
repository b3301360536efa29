/** Facts about sequence concatenation, stated once for any element type.
    Each is proved on its own, away from the string literals and recursive
    functions of the callers, which keeps the callers' proofs small. */
module Sequences {

  /** Regrouping a concatenation. */
  lemma ConcatAssoc<T>(a: seq<T>, b: seq<T>, c: seq<T>)
    ensures a + (b + c) == a + b + c
  {
  }

  /** Splitting a sequence at `n` and putting it back together. */
  lemma TakeDrop<T>(s: seq<T>, n: nat)
    requires n <= |s|
    ensures s[..n] + s[n..] == s
  {
  }

  /** The head and tail of a concatenation whose first part is not empty. */
  lemma ConcatHeadTail<T>(a: seq<T>, b: seq<T>)
    requires a != []
    ensures (a + b)[0] == a[0] && (a + b)[1..] == a[1..] + b
  {
  }

  /** The empty sequence is a unit of concatenation. */
  lemma ConcatEmpty<T>(a: seq<T>)
    ensures [] + a == a && a + [] == a
  {
  }

  /** One more element on a prefix. */
  lemma PrefixStep<T>(s: seq<T>, i: nat)
    requires i < |s|
    ensures s[..i + 1] == s[..i] + [s[i]]
  {
  }

  /** The whole sequence as a prefix. */
  lemma WholePrefix<T>(s: seq<T>)
    ensures s[..|s|] == s
  {
  }

  /** `f(first, xs[0]) + f(first + 1, xs[1]) + ...`: each element rendered
      with its rank, the renderings concatenated in order. */
  function ConcatRanked<T, U>(f: (nat, T) -> seq<U>, xs: seq<T>, first: nat): seq<U> {
    if xs == [] then [] else f(first, xs[0]) + ConcatRanked(f, xs[1..], first + 1)
  }

  /** Rendering a concatenation renders its parts, the second ranked on from the first. */
  lemma {:induction false} ConcatRankedAppend<T, U>(f: (nat, T) -> seq<U>, a: seq<T>, b: seq<T>, first: nat)
    ensures ConcatRanked(f, a + b, first) == ConcatRanked(f, a, first) + ConcatRanked(f, b, first + |a|)
  {
    if a == [] {
      assert a + b == b;
    } else {
      assert (a + b)[1..] == a[1..] + b;
      ConcatRankedAppend(f, a[1..], b, first + 1);
    }
  }

  lemma ConcatRankedSingle<T, U>(f: (nat, T) -> seq<U>, x: T, first: nat)
    ensures ConcatRanked(f, [x], first) == f(first, x)
  {
    assert [x][1..] == [];
  }
}
