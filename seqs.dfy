/** Facts about sequences that the proofs of the other modules use as single steps. */
module Seqs {
  /** Taking a prefix of a non-empty sequence takes its head and a prefix of its tail. */
  lemma PrefixCons<T>(s: seq<T>, n: nat)
    requires n < |s|
    ensures s[..n + 1] == [s[0]] + s[1..][..n]
  {
  }

  /** The tail of a non-empty prefix is a prefix of the tail. */
  lemma TailOfPrefix<T>(s: seq<T>, n: nat)
    requires 0 < n <= |s|
    ensures s[..n][1..] == s[1..][..n - 1]
  {
  }

  /** Concatenation is associative. */
  lemma Assoc<T>(a: seq<T>, b: seq<T>, c: seq<T>)
    ensures (a + b) + c == a + (b + c)
  {
  }

  /** The two halves of a concatenation are recovered by slicing. */
  lemma SliceAfter<T>(a: seq<T>, b: seq<T>)
    ensures |a + b| >= |a| && (a + b)[..|a|] == a && (a + b)[|a|..] == b
  {
  }

  /** Appending one element leaves the head and appends to the tail. */
  lemma SnocTail<T>(xs: seq<T>, x: T)
    requires xs != []
    ensures (xs + [x])[0] == xs[0] && (xs + [x])[1..] == xs[1..] + [x]
  {
  }

  /** A concatenation with a non-empty front starts with that front's head, followed by the rest. */
  lemma ConsAppend<T>(xs: seq<T>, ys: seq<T>)
    requires xs != []
    ensures (xs + ys)[0] == xs[0] && (xs + ys)[1..] == xs[1..] + ys
  {
  }

  /** Appending nothing changes nothing. */
  lemma AppendNil<T>(xs: seq<T>)
    ensures xs + [] == xs
  {
  }
}
