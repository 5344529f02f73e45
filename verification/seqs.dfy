/**
 * Generic sequence helpers: the last occurrence of an element, and the
 * insertion-ordered dictionary that `dict(zip(keys, values))` builds.
 */
module Seqs {

  /** Index of the last occurrence of `c` in `s`, or -1 when `c` does not occur. */
  function LastIndexOf<T(==)>(s: seq<T>, c: T): (k: int)
    ensures -1 <= k < |s|
    ensures k >= 0 ==> s[k] == c
  {
    if s == [] then -1
    else if s[|s| - 1] == c then |s| - 1
    else LastIndexOf(s[..|s| - 1], c)
  }

  /** Nothing after the index found equals `c`, and -1 means `c` does not occur. */
  lemma {:induction false} LastIndexOfIsLast<T>(s: seq<T>, c: T)
    ensures forall j :: LastIndexOf(s, c) < j < |s| ==> s[j] != c
    ensures LastIndexOf(s, c) == -1 <==> c !in s
  {
    if s != [] && s[|s| - 1] != c {
      var p := s[..|s| - 1];
      LastIndexOfIsLast(p, c);
      assert s == p + [s[|s| - 1]];
    }
  }

  /** The three properties of `LastIndexOf` determine it. */
  lemma LastIndexOfUnique<T>(s: seq<T>, c: T, k: int)
    requires -1 <= k < |s|
    requires k >= 0 ==> s[k] == c
    requires forall j :: k < j < |s| ==> s[j] != c
    ensures LastIndexOf(s, c) == k
  {
    var n := |s| - 1;
    if k < n {
      assert s[n] != c;
      LastIndexOfUnique(s[..n], c, k);
    }
  }

  /** Appending elements different from `c` does not move the last `c`. */
  lemma LastIndexOfAppend<T>(a: seq<T>, b: seq<T>, c: T)
    requires c !in b
    ensures LastIndexOf(a + b, c) == LastIndexOf(a, c)
  {
    var k := LastIndexOf(a, c);
    var s := a + b;
    LastIndexOfIsLast(a, c);
    forall j | k < j < |s| ensures s[j] != c {
      if j >= |a| { assert s[j] == b[j - |a|]; }
    }
    LastIndexOfUnique(s, c, k);
  }

  /** In `a + [c] + b` with no `c` in `b`, the last `c` is the one in the middle. */
  lemma LastIndexOfSeparator<T>(a: seq<T>, c: T, b: seq<T>)
    requires c !in b
    ensures LastIndexOf(a + [c] + b, c) == |a|
  {
    assert (a + [c])[..|a|] == a;
    LastIndexOfAppend(a + [c], b, c);
  }

  /** Index of the first occurrence of `x` in `s`. */
  function FirstIndexOf<T(==)>(s: seq<T>, x: T): (k: nat)
    requires x in s
    ensures k < |s| && s[k] == x
    ensures x !in s[..k]
  {
    if s[0] == x then 0
    else
      var k := FirstIndexOf(s[1..], x);
      assert s[..k + 1] == [s[0]] + s[1..][..k];
      k + 1
  }

  /** No element occurs twice. */
  predicate Distinct<T(==)>(s: seq<T>) {
    forall i, j :: 0 <= i < j < |s| ==> s[i] != s[j]
  }

  /**
   * The keys of `dict(zip(s, ...))` in iteration order: `s` with every
   * element after its first occurrence dropped, as a left-to-right sequence
   * of dictionary insertions leaves it.
   */
  function Dedup<T(==,!new)>(s: seq<T>): (r: seq<T>)
    ensures |r| <= |s|
    ensures forall x :: x in r <==> x in s
  {
    if s == [] then []
    else
      var prefix := Dedup(s[..|s| - 1]);
      var x := s[|s| - 1];
      assert s == s[..|s| - 1] + [x];
      if x in prefix then prefix else prefix + [x]
  }

  /** Each element of `s` is kept exactly once. */
  lemma {:induction false} DedupDistinct<T(!new)>(s: seq<T>)
    ensures Distinct(Dedup(s))
  {
    if s != [] {
      DedupDistinct(s[..|s| - 1]);
    }
  }

  /** The kept elements are in order of their first occurrence in `s`. */
  lemma {:induction false} DedupFirstOccurrenceOrder<T(!new)>(s: seq<T>, i: nat, j: nat)
    requires i < j < |Dedup(s)|
    ensures FirstIndexOf(s, Dedup(s)[i]) < FirstIndexOf(s, Dedup(s)[j])
  {
    var p := s[..|s| - 1];
    var x := s[|s| - 1];
    assert s == p + [x];
    var d := Dedup(s);
    if j < |Dedup(p)| {
      assert d[i] == Dedup(p)[i] && d[j] == Dedup(p)[j];
      DedupFirstOccurrenceOrder(p, i, j);
      FirstIndexOfAppend(p, x, d[i]);
      FirstIndexOfAppend(p, x, d[j]);
    } else {
      assert d[j] == x && x !in p;
      assert d[i] == Dedup(p)[i] && d[i] in p;
      FirstIndexOfAppend(p, x, d[i]);
      assert s[..|p|] == p;
      FirstIndexOfUnique(s, x, |p|);
    }
  }

  /** The three properties of `FirstIndexOf` determine it. */
  lemma FirstIndexOfUnique<T>(s: seq<T>, x: T, k: nat)
    requires k < |s| && s[k] == x && x !in s[..k]
    ensures FirstIndexOf(s, x) == k
  {
    var m := FirstIndexOf(s, x);
    assert forall i :: 0 <= i < k ==> s[..k][i] == s[i];
    assert forall i :: 0 <= i < m ==> s[..m][i] == s[i];
  }

  lemma FirstIndexOfAppend<T>(p: seq<T>, x: T, y: T)
    requires y in p
    ensures FirstIndexOf(p + [x], y) == FirstIndexOf(p, y)
  {
    var k := FirstIndexOf(p, y);
    assert (p + [x])[..k] == p[..k];
    FirstIndexOfUnique(p + [x], y, k);
  }

  /** Nothing is dropped exactly when nothing occurs twice. */
  lemma {:induction false} DedupKeepsAllIffDistinct<T(!new)>(s: seq<T>)
    ensures Dedup(s) == s <==> Distinct(s)
    ensures !Distinct(s) ==> |Dedup(s)| < |s|
  {
    if s != [] {
      var p := s[..|s| - 1];
      var x := s[|s| - 1];
      assert s == p + [x];
      DedupKeepsAllIffDistinct(p);
      DedupDistinct(s);
      if x in p {
        var k :| 0 <= k < |p| && p[k] == x;
        assert s[k] == s[|s| - 1];
      } else if Distinct(s) {
        assert Distinct(p);
      } else {
        assert !Distinct(p) by {
          var a, b :| 0 <= a < b < |s| && s[a] == s[b];
          assert forall i :: 0 <= i < |p| ==> s[i] == p[i] && p[i] != x;
          assert b < |p|;
          assert p[a] == p[b];
        }
      }
    }
  }

  /**
   * The dictionary `dict(zip(keys, values))`: keys inserted left to right, a
   * repeated key overwriting the value stored for it earlier.
   */
  function ZipMap<K(==,!new), V>(keys: seq<K>, values: seq<V>): (m: map<K, V>)
    requires |keys| == |values|
    ensures m.Keys == set x | x in keys
  {
    if keys == [] then map[]
    else
      var n := |keys| - 1;
      assert keys == keys[..n] + [keys[n]];
      ZipMap(keys[..n], values[..n])[keys[n] := values[n]]
  }

  /** A key is bound to the value paired with its last occurrence. */
  lemma {:induction false} ZipMapLastWins<K(!new), V>(keys: seq<K>, values: seq<V>, x: K)
    requires |keys| == |values| && x in keys
    ensures LastIndexOf(keys, x) >= 0
    ensures ZipMap(keys, values)[x] == values[LastIndexOf(keys, x)]
  {
    var n := |keys| - 1;
    if keys[n] != x {
      assert keys == keys[..n] + [keys[n]];
      assert x in keys[..n];
      ZipMapLastWins(keys[..n], values[..n], x);
    }
  }
}
