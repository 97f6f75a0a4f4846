/** Sequence helpers for the in-place array edits the engines make. */
module Seqs {

  /** `a.splice(i, 1)`: the element at `i` taken out, the others kept in order. */
  function RemoveAt<T>(s: seq<T>, i: nat): (r: seq<T>)
    requires i < |s|
    ensures |r| == |s| - 1
    ensures forall k :: 0 <= k < i ==> r[k] == s[k]
    ensures forall k :: i <= k < |r| ==> r[k] == s[k + 1]
  {
    s[..i] + s[i + 1..]
  }

  /** What `splice(i, 1)` leaves contains nothing new, and keeps every
      element other than the one at `i`. */
  lemma RemoveAtMembers<T>(s: seq<T>, i: nat)
    requires i < |s|
    ensures forall x :: x in RemoveAt(s, i) ==> x in s
    ensures forall k :: 0 <= k < |s| && k != i ==> s[k] in RemoveAt(s, i)
  {
    var r := RemoveAt(s, i);
    forall k | 0 <= k < |s| && k != i
      ensures s[k] in r
    {
      if k < i {
        assert r[k] == s[k];
      } else {
        assert r[k - 1] == s[k];
      }
    }
  }

  lemma AppendAssoc<T>(a: seq<T>, b: seq<T>, c: seq<T>)
    ensures (a + b) + c == a + (b + c)
  {}

  /** Overwriting one element brings in nothing but the new value. */
  lemma UpdateMembers<T>(s: seq<T>, k: nat, v: T)
    requires k < |s|
    ensures forall x :: x in s[k := v] ==> x == v || x in s
  {
    forall x | x in s[k := v]
      ensures x == v || x in s
    {
      var q :| 0 <= q < |s| && s[k := v][q] == x;
      if q != k {
        assert s[q] == x;
      }
    }
  }

  lemma SliceCons<T>(s: seq<T>, i: nat)
    requires i < |s|
    ensures s[i..] == [s[i]] + s[i + 1..]
  {}

  /** A list split around the element at `|p|`. */
  lemma SplitAround<T>(p: seq<T>, x: T, rest: seq<T>)
    ensures var s := p + [x] + rest;
      && s[|p|] == x && s[..|p|] == p && s[|p| + 1..] == rest
      && RemoveAt(s, |p|) == p + rest
  {
    var s := p + [x] + rest;
    assert s[..|p|] == p;
    assert s[|p| + 1..] == rest;
  }
  /** Splicing index `j` out, or not: the part before `j` stays and the part
      from `j` on loses at most its head. */
  lemma SpliceTail<T>(s: seq<T>, j: nat, t: seq<T>, kept: bool)
    requires j < |s| && t == (if kept then s else RemoveAt(s, j))
    ensures t[..j] == s[..j] && t[j..] == (if kept then [s[j]] else []) + s[j + 1..]
  {
    if kept {
      SliceCons(s, j);
    } else {
      assert t[j..] == s[j + 1..];
    }
  }
}
