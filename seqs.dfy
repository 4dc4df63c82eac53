/** Facts about sequences of any element type. Stating them generically keeps the
    solver from comparing the elements (strings, records) character by character. */
module Seqs {

  /** Concatenation is associative. */
  lemma ConcatAssoc<T>(x: seq<T>, y: seq<T>, z: seq<T>)
    ensures x + (y + z) == (x + y) + z
  {
  }

  lemma EmptyConcat<T>(x: seq<T>)
    ensures [] + x == x
  {
  }

  /** A sequence is its three slices at `i` and `j` put back together. */
  lemma SliceThree<T>(s: seq<T>, i: nat, j: nat)
    requires i <= j <= |s|
    ensures s == s[..i] + s[i..j] + s[j..]
  {
  }

  /** The suffix from `i` is the slice up to `j` followed by the suffix from `j`. */
  lemma SuffixSplit<T>(s: seq<T>, i: nat, j: nat)
    requires i <= j <= |s|
    ensures s[i..] == s[i..j] + s[j..]
  {
  }

  /** Dropping the element at `i` from the suffix starting at `i`. */
  lemma DropFirst<T>(s: seq<T>, i: nat)
    requires i < |s|
    ensures s[i..][0] == s[i] && s[i..][1..] == s[i + 1..]
  {
  }

  lemma DropAll<T>(s: seq<T>)
    ensures s[|s|..] == []
  {
  }

  /** Appending one element keeps the earlier ones and puts `x` last. */
  lemma Snoc<T>(s: seq<T>, x: T)
    ensures |s + [x]| == |s| + 1 && (s + [x])[|s|] == x
    ensures forall k :: 0 <= k < |s| ==> (s + [x])[k] == s[k]
  {
  }

  lemma PrefixOfConcat<T>(a: seq<T>, b: seq<T>, n: nat)
    requires n <= |a|
    ensures (a + b)[..n] == a[..n]
  {
  }

  lemma SuffixOfConcat<T>(a: seq<T>, b: seq<T>, n: nat)
    requires n <= |b|
    ensures (a + b)[|a + b| - n..] == b[|b| - n..]
  {
  }

  /** Putting `x` in front shifts the elements of `s` up by one. */
  lemma Cons<T>(x: T, s: seq<T>)
    ensures |[x] + s| == |s| + 1 && ([x] + s)[0] == x
    ensures forall k :: 1 <= k < |s| + 1 ==> ([x] + s)[k] == s[k - 1]
  {
  }

  /** Python's `xs[:n]`, where a negative `n` counts from the end. */
  function SliceTo<T>(xs: seq<T>, n: int): (r: seq<T>)
    ensures |r| == if n >= 0 then (if n <= |xs| then n else |xs|) else (if -n >= |xs| then 0 else |xs| + n)
    ensures |r| <= |xs| && r == xs[..|r|]
  {
    if n >= 0 then (if n <= |xs| then xs[..n] else xs)
    else if -n >= |xs| then [] else xs[..|xs| + n]
  }
}
