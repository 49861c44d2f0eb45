/**
 * Flattening a sequence of sequences, the second half of `Array.prototype.flatMap`,
 * and where each piece lands in the flat result.
 */
module FlatMap {

  /** Position in the flat result where piece `j` begins: the lengths of the pieces before it. */
  function Start<T>(xss: seq<seq<T>>, j: nat): nat
    requires j <= |xss|
  {
    if j == 0 then 0 else Start(xss, j - 1) + |xss[j - 1]|
  }

  /** The pieces concatenated in order. */
  function Flatten<T>(xss: seq<seq<T>>): (r: seq<T>)
    ensures |r| == Start(xss, |xss|)
  {
    if xss == [] then []
    else
      var n := |xss| - 1;
      StartOfPrefix(xss, n, n);
      Flatten(xss[..n]) + xss[n]
  }

  /** Starts depend only on the pieces before them. */
  lemma {:induction false} StartOfPrefix<T>(xss: seq<seq<T>>, n: nat, j: nat)
    requires j <= n <= |xss|
    ensures Start(xss[..n], j) == Start(xss, j)
  {
    if j > 0 {
      StartOfPrefix(xss, n, j - 1);
      assert xss[..n][j - 1] == xss[j - 1];
    }
  }

  /** Starts grow with the piece index. */
  lemma {:induction false} StartMonotone<T>(xss: seq<seq<T>>, i: nat, j: nat)
    requires i <= j <= |xss|
    ensures Start(xss, i) <= Start(xss, j)
  {
    if i < j {
      StartMonotone(xss, i, j - 1);
    }
  }

  /** Element `i` of piece `j` is element `Start(xss, j) + i` of the flat result. */
  lemma {:induction false} FlattenAt<T>(xss: seq<seq<T>>, j: nat, i: nat)
    requires j < |xss| && i < |xss[j]|
    ensures Start(xss, j) + i < |Flatten(xss)|
    ensures Flatten(xss)[Start(xss, j) + i] == xss[j][i]
  {
    var n := |xss| - 1;
    var front := Flatten(xss[..n]);
    assert Flatten(xss) == front + xss[n];
    StartOfPrefix(xss, n, n);
    if j < n {
      assert xss[..n][j] == xss[j];
      FlattenAt(xss[..n], j, i);
      StartOfPrefix(xss, n, j);
      StartMonotone(xss, j + 1, n);
    }
  }
}
