/**
 * Facts about slices and concatenations of sequences, stated once for any
 * element type so that the proofs about lines and options can cite them.
 */
module Seqs {
  lemma TakeAll<T>(s: seq<T>)
    ensures s[..|s|] == s
  {
  }

  lemma TakeOfTake<T>(s: seq<T>, i: nat, j: nat)
    requires i <= j <= |s|
    ensures s[..j][..i] == s[..i]
  {
  }

  lemma TakeOfAppend<T>(s: seq<T>, x: T)
    ensures (s + [x])[..|s|] == s
  {
  }

  lemma AppendEmpty<T>(s: seq<T>)
    ensures s + [] == s
  {
  }

  lemma InitOfConcat<T>(a: seq<T>, b: seq<T>)
    requires b != []
    ensures (a + b)[..|a + b| - 1] == a + b[..|b| - 1]
  {
  }

  lemma SplitAt<T>(s: seq<T>, k: nat)
    requires k < |s|
    ensures s == (s[..k] + [s[k]]) + s[k + 1..]
  {
  }

  lemma ConcatAssoc<T>(a: seq<T>, b: seq<T>, c: seq<T>)
    ensures (a + b) + c == a + (b + c)
  {
  }

  lemma UpdateMiddle<T>(a: seq<T>, x: T, b: seq<T>, y: T)
    ensures ((a + [x]) + b)[|a| := y] == (a + [y]) + b
  {
  }

  lemma AroundMiddle<T>(a: seq<T>, x: T, b: seq<T>)
    ensures ((a + [x]) + b)[..|a|] == a && ((a + [x]) + b)[|a| + 1..] == b
  {
  }

  lemma DropLastOnly<T>(s: seq<T>)
    requires s != []
    ensures s[..|s| - 1] + s[|s|..] == s[..|s| - 1]
  {
  }

  lemma Singleton<T>(s: seq<T>)
    requires |s| == 1
    ensures s == [s[0]]
  {
  }
}
