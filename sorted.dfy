/**
  Sets of timestamps in ascending order: the model of `Vec::sort_unstable` on the
  closed timestamps (kafka.rs:457) and of `min_by` over the encoder's stash keys
  (kafka.rs:730-734).
 */
module Sorted {

  /** Strictly ascending. */
  predicate Ascending(s: seq<nat>) {
    forall i, j :: 0 <= i < j < |s| ==> s[i] < s[j]
  }

  /** `m` is the least element of `s`. */
  predicate IsMin(m: nat, s: set<nat>) {
    m in s && forall x :: x in s ==> m <= x
  }

  lemma {:induction false} MinExists(s: set<nat>)
    requires s != {}
    ensures exists m :: IsMin(m, s)
  {
    var y :| y in s;
    if s == {y} {
      assert IsMin(y, s);
    } else {
      MinExists(s - {y});
      var m :| IsMin(m, s - {y});
      MinWithOneMore(m, s, y);
    }
  }

  lemma MinWithOneMore(m: nat, s: set<nat>, y: nat)
    requires y in s && IsMin(m, s - {y})
    ensures IsMin(if y < m then y else m, s)
  {
    forall x | x in s
      ensures (if y < m then y else m) <= x
    {
      if x != y {
        assert x in s - {y};
      }
    }
  }

  /** The least element of a non-empty set. */
  function MinOf(s: set<nat>): (m: nat)
    requires s != {}
    ensures m in s && forall x :: x in s ==> m <= x
  {
    MinExists(s);
    var m :| IsMin(m, s); m
  }

  /** The elements of a finite set in strictly ascending order. */
  function SortedSeq(s: set<nat>): (r: seq<nat>)
    ensures Ascending(r)
    ensures |r| == |s|
    ensures forall i :: 0 <= i < |r| ==> r[i] in s
    ensures forall x :: x in s ==> x in r
    decreases |s|
  {
    if s == {} then []
    else
      var m := MinOf(s);
      var rest := SortedSeq(s - {m});
      assert forall i :: 0 <= i < |rest| ==> m < rest[i];
      [m] + rest
  }

  /** The set of elements of a sequence. */
  function Elems(s: seq<nat>): set<nat> {
    set x | x in s
  }

  lemma ElemsSnoc(s: seq<nat>, k: nat)
    requires k < |s|
    ensures Elems(s[..k + 1]) == Elems(s[..k]) + {s[k]}
  {
    assert s[..k + 1] == s[..k] + [s[k]];
  }

  /** In an ascending sequence an element does not occur before its own position. */
  lemma NotInPrefix(s: seq<nat>, k: nat)
    requires Ascending(s) && k < |s|
    ensures s[k] !in Elems(s[..k])
  {
    assert forall i :: 0 <= i < k ==> s[..k][i] < s[k];
  }

  lemma ElemsOfSorted(s: set<nat>)
    ensures Elems(SortedSeq(s)) == s
  {
  }
}
