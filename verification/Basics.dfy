/** Small vocabulary shared by every module: options, bytes, and multiset facts about sequences. */
module Basics {
  datatype Option<+T> = None | Some(value: T)

  type Byte = b: int | 0 <= b < 256

  function Min(a: nat, b: nat): nat {
    if a <= b then a else b
  }

  function Max(a: nat, b: nat): nat {
    if a <= b then b else a
  }

  /** The sequence 0, 1, ..., n - 1. */
  function Iota(n: nat): seq<nat> {
    seq(n, i => i)
  }

  /** Each number below `n` occurs in `Iota(n)` exactly once, and nothing else does. */
  lemma {:induction false} IotaMultiplicity(n: nat, b: nat)
    ensures multiset(Iota(n))[b] == if b < n then 1 else 0
  {
    if n != 0 {
      IotaMultiplicity(n - 1, b);
      assert Iota(n) == Iota(n - 1) + [n - 1];
    }
  }

  /** `s` without its element at `k`. */
  function RemoveAt<T>(s: seq<T>, k: nat): seq<T>
    requires k < |s|
  {
    s[..k] + s[k + 1..]
  }

  lemma RemoveAtMultiset<T>(s: seq<T>, k: nat)
    requires k < |s|
    ensures multiset(s) == multiset(RemoveAt(s, k)) + multiset{s[k]}
  {
    assert s == s[..k] + ([s[k]] + s[k + 1..]);
  }

  lemma RemoveAtMembers<T>(s: seq<T>, k: nat)
    requires k < |s|
    ensures forall x :: x in RemoveAt(s, k) ==> x in s
  {
  }

  function Elems(s: seq<nat>): set<nat> {
    set x | x in s
  }

  predicate Distinct(s: seq<nat>) {
    forall i, j :: 0 <= i < j < |s| ==> s[i] != s[j]
  }

  lemma {:induction false} DistinctCount(s: seq<nat>)
    requires Distinct(s)
    ensures |Elems(s)| == |s|
  {
    if s != [] {
      var front := s[..|s| - 1];
      var last := s[|s| - 1];
      DistinctCount(front);
      assert last !in front;
      assert s == front + [last];
      assert Elems(s) == Elems(front) + {last};
    }
  }
}
