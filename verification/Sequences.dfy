/** Facts about concatenation. Stated for any element type, they leave the solver nothing but equalities
    when a recursive function is shown to distribute over it. */
module Sequences {
  lemma Assoc<T>(a: seq<T>, b: seq<T>, c: seq<T>)
    ensures a + b + c == a + (b + c)
  {
  }

  lemma HeadAndTail<T>(a: seq<T>, b: seq<T>)
    requires a != []
    ensures a + b != [] && (a + b)[0] == a[0] && (a + b)[1..] == a[1..] + b
  {
  }

  lemma Empty<T>(a: seq<T>)
    ensures [] + a == a == a + []
  {
  }

  lemma One<T>(x: T)
    ensures [x][1..] == [] && [x][..0] == []
  {
  }

  lemma Step<T>(s: seq<T>, i: nat)
    requires i < |s|
    ensures s[..i + 1] == s[..i] + [s[i]]
    ensures s[i..] != [] && s[i..][0] == s[i] && s[i..][1..] == s[i + 1..]
  {
  }

  /** A sequence is what stands before, at and behind a position. */
  lemma Around<T>(s: seq<T>, i: nat)
    requires i < |s|
    ensures s == s[..i] + [s[i]] + s[i + 1..]
  {
  }
}
