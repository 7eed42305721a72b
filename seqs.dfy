/** Facts about slices of sequences that the walks over pages and items use. */
module Seqs {

  /** Cutting a sequence at `i` and joining the halves gives it back. */
  lemma SplitAt<T>(s: seq<T>, i: nat)
    requires i <= |s|
    ensures s[..i] + s[i..] == s
  {
  }

  /** The prefix of length `i + 1` is the prefix of length `i` and `s[i]`. */
  lemma TakeSnoc<T>(s: seq<T>, i: nat)
    requires i < |s|
    ensures s[..i + 1] == s[..i] + [s[i]]
    ensures s[..i + 1][..i] == s[..i]
  {
  }
}
