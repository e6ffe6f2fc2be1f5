/** Sequence bookkeeping used by the inductions and loop proofs. Each fact is
    stated on its own so that the proofs using it need not rediscover it next
    to the definitions they are about. */
module Seqs {
  lemma AppendAssoc<T>(x: seq<T>, y: seq<T>, z: seq<T>)
    ensures (x + y) + z == x + (y + z)
  {
  }

  /** A non-empty sequence is its prefix followed by its last element, also
      behind any other sequence. */
  lemma SplitLast<T>(a: seq<T>, b: seq<T>)
    requires b != []
    ensures b == b[..|b| - 1] + [b[|b| - 1]]
    ensures a + b == (a + b[..|b| - 1]) + [b[|b| - 1]]
  {
    assert b == b[..|b| - 1] + [b[|b| - 1]];
  }

  lemma TakeSnoc<T>(s: seq<T>, i: nat)
    requires i < |s|
    ensures s[..i + 1] == s[..i] + [s[i]]
  {
  }

  /** What was appended after `w0`, split at the intermediate state `w1`. */
  lemma SliceSplit<T>(w0: seq<T>, w1: seq<T>, w2: seq<T>)
    requires w0 <= w1 <= w2
    ensures w2[|w0|..] == w1[|w0|..] + w2[|w1|..]
    ensures w2[|w0|..|w1|] == w1[|w0|..]
  {
  }

  lemma OneAppended<T>(w0: seq<T>, w1: seq<T>, f: T)
    requires w1 == w0 + [f]
    ensures w0 <= w1 && w1[|w0|..] == [f]
  {
  }

  lemma TwoAppended<T>(w0: seq<T>, w1: seq<T>, w2: seq<T>, f: T, g: T)
    requires w1 == w0 + [f] && w2 == w1 + [g]
    ensures w0 <= w2 && w2[|w0|..] == [f] + [g]
  {
  }

  lemma TakeAll<T>(s: seq<T>)
    ensures s[..|s|] == s
  {
  }

  /** The last n+1 elements of a sequence extended by c are its last n
      elements followed by c. */
  lemma SuffixSnoc<T>(init: seq<T>, c: T, n: nat)
    requires n <= |init|
    ensures (init + [c])[|init| - n..] == init[|init| - n..] + [c]
  {
  }
}
