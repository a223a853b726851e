/**
  Frontiers of timestamps.

  A `Timestamp` is a `u64` in the source; it is totally ordered, so an
  `Antichain<Timestamp>` holds at most one element.  `Empty` is the empty
  antichain: every timestamp has been passed.  `At(t)` is the singleton
  antichain `{t}`.
 */
module Frontiers {

  type Timestamp = nat

  datatype Frontier = Empty | At(t: Timestamp)

  /** `f.less_equal(&t)`: some element of `f` is at or before `t`. */
  predicate LessEqual(f: Frontier, t: Timestamp) {
    f.At? && f.t <= t
  }

  /** `f.less_than(&t)`: some element of `f` is strictly before `t`. */
  predicate LessThan(f: Frontier, t: Timestamp) {
    f.At? && f.t < t
  }

  /** The partial order of frontiers: `g` is at or beyond `f` (`f` <= `g`). */
  predicate Precedes(f: Frontier, g: Frontier) {
    g.Empty? || (f.At? && f.t <= g.t)
  }

  /** `Antichain::meet_assign` over a totally ordered timestamp: the lower of the two. */
  function Meet(f: Frontier, g: Frontier): (m: Frontier)
    ensures Precedes(m, f) && Precedes(m, g)
    ensures forall h :: Precedes(h, f) && Precedes(h, g) ==> Precedes(h, m)
  {
    match (f, g)
    case (Empty, _) => g
    case (_, Empty) => f
    case (At(a), At(b)) => if a <= b then f else g
  }

  /** The meet of a sequence of frontiers, folded from the empty antichain (kafka.rs:443-448). */
  function MeetAll(fs: seq<Frontier>): Frontier
  {
    if fs == [] then Empty else Meet(MeetAll(fs[..|fs| - 1]), fs[|fs| - 1])
  }

  /** A timestamp is at or beyond the meet exactly when it is at or beyond one of the two. */
  lemma MeetLessEqual(f: Frontier, g: Frontier, t: Timestamp)
    ensures LessEqual(Meet(f, g), t) <==> LessEqual(f, t) || LessEqual(g, t)
  {
  }

  /** A timestamp is at or beyond the meet of all frontiers iff it is at or beyond one of them;
      in particular, with no frontiers at all nothing is held back. */
  lemma {:induction false} MeetAllLessEqual(fs: seq<Frontier>, t: Timestamp)
    ensures LessEqual(MeetAll(fs), t) <==> exists i :: 0 <= i < |fs| && LessEqual(fs[i], t)
  {
    if fs != [] {
      var init := fs[..|fs| - 1];
      MeetAllLessEqual(init, t);
      MeetLessEqual(MeetAll(init), fs[|fs| - 1], t);
      if LessEqual(MeetAll(fs), t) && !LessEqual(fs[|fs| - 1], t) {
        var i :| 0 <= i < |init| && LessEqual(init[i], t);
        assert fs[i] == init[i];
      }
      if exists i :: 0 <= i < |fs| && LessEqual(fs[i], t) {
        var i :| 0 <= i < |fs| && LessEqual(fs[i], t);
        if i < |fs| - 1 {
          assert init[i] == fs[i];
        }
      }
    }
  }

  /** The meet of all frontiers is a lower bound of each of them. */
  lemma {:induction false} MeetAllIsLowerBound(fs: seq<Frontier>, i: nat)
    requires i < |fs|
    ensures Precedes(MeetAll(fs), fs[i])
  {
    var init := fs[..|fs| - 1];
    if i < |fs| - 1 {
      MeetAllIsLowerBound(init, i);
      assert init[i] == fs[i];
    }
  }

  /** Raising every frontier (pointwise) can only raise their meet. */
  lemma {:induction false} MeetAllMonotone(fs: seq<Frontier>, gs: seq<Frontier>)
    requires |fs| == |gs|
    requires forall i :: 0 <= i < |fs| ==> Precedes(fs[i], gs[i])
    ensures Precedes(MeetAll(fs), MeetAll(gs))
  {
    if fs != [] {
      var n := |fs| - 1;
      MeetAllMonotone(fs[..n], gs[..n]);
    }
  }
}
