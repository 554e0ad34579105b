/** Facts about prefixes of sequences, kept apart so that each is proved in a small context. */
module Prefixes {

  lemma PrefixOfPrefix<T>(s: seq<T>, n: nat, i: nat)
    requires i <= n <= |s|
    ensures s[..n][..i] == s[..i]
  {
  }

  lemma PrefixFull<T>(s: seq<T>)
    ensures s[..|s|] == s
  {
  }

  lemma PrefixReflexive<T>(s: seq<T>)
    ensures s <= s
  {
  }

  lemma PrefixGrows<T>(s: seq<T>, i: nat)
    requires i < |s|
    ensures s[..i + 1] == s[..i] + [s[i]]
  {
  }

  lemma PrefixOfAppend<T>(s: seq<T>, t: seq<T>)
    ensures (s + t)[..|s|] == s
    ensures s <= s + t
  {
  }

  lemma PrefixTransitive<T>(a: seq<T>, b: seq<T>, c: seq<T>)
    requires a <= b && b <= c
    ensures a <= c
  {
    assert c[..|b|][..|a|] == c[..|a|];
  }

  /** A prefix of `b` is still a prefix once more is appended to `b`. */
  lemma PrefixOfExtension<T>(a: seq<T>, b: seq<T>, c: seq<T>)
    requires a <= b
    ensures a <= b + c
  {
    assert (b + c)[..|a|] == a;
  }
}
