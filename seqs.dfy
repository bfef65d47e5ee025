/**
 * Concatenating a list of sequences in order, and the sum of their lengths:
 * what joining identifier lists and `pd.concat` of row lists rely on.
 */
module Seqs {

  /** All the sequences of `xss`, concatenated in order. */
  function Flatten<T>(xss: seq<seq<T>>): seq<T>
    decreases |xss|
  {
    if |xss| == 0 then [] else xss[0] + Flatten(xss[1..])
  }

  /** The sum of the lengths of the sequences of `xss`. */
  function TotalLength<T>(xss: seq<seq<T>>): nat
    decreases |xss|
  {
    if |xss| == 0 then 0 else |xss[0]| + TotalLength(xss[1..])
  }

  /** The length of a concatenation is the sum of the lengths. */
  lemma {:induction false} FlattenLength<T>(xss: seq<seq<T>>)
    ensures |Flatten(xss)| == TotalLength(xss)
    decreases |xss|
  {
    if |xss| > 0 {
      FlattenLength(xss[1..]);
    }
  }

  /**
   * Item i of sequence j sits in the concatenation right after everything
   * of the sequences before j: concatenation keeps the order.
   */
  lemma {:induction false} FlattenAt<T>(xss: seq<seq<T>>, j: nat, i: nat)
    requires j < |xss| && i < |xss[j]|
    ensures TotalLength(xss[..j]) + i < |Flatten(xss)|
    ensures Flatten(xss)[TotalLength(xss[..j]) + i] == xss[j][i]
    decreases j
  {
    FlattenLength(xss);
    if j > 0 {
      FlattenAt(xss[1..], j - 1, i);
      assert xss[1..][..j - 1] == xss[..j][1..];
      FlattenLength(xss[1..]);
    }
  }
}
