/**
 * How the obstacle list of one tick descends from the list of the tick
 * before: obstacles are only dropped, never reordered or created (except
 * by the spawner, which appends), and those kept change only in x and in
 * a passed flag that is never cleared.
 */
module Lineage {
  import opened Entities
  import opened Sequences

  /**
   * `r` is obtained from `s` by dropping some obstacles and moving each of
   * the others `dx` to the left (Descends), keeping their order.
   */
  predicate Embeds(s: seq<Obstacle>, r: seq<Obstacle>, dx: real)
    decreases |s|
  {
    if r == [] then true
    else if s == [] then false
    else (Descends(s[0], r[0], dx) && Embeds(s[1..], r[1..], dx)) || Embeds(s[1..], r, dx)
  }

  /** Number of obstacles of kind `k`. */
  function CountKind(s: seq<Obstacle>, k: Kind): (n: nat)
    ensures n <= |s|
    ensures n == 0 <==> forall o :: o in s ==> KindOf(o) != k
    decreases |s|
  {
    if s == [] then 0
    else (if KindOf(s[0]) == k then 1 else 0) + CountKind(s[1..], k)
  }

  lemma {:induction false} CountKindAppend(a: seq<Obstacle>, b: seq<Obstacle>, k: Kind)
    ensures CountKind(a + b, k) == CountKind(a, k) + CountKind(b, k)
    decreases |a|
  {
    if a == [] {
      assert a + b == b;
    } else {
      assert (a + b)[0] == a[0];
      assert (a + b)[1..] == a[1..] + b;
      CountKindAppend(a[1..], b, k);
    }
  }

  /** Moving an obstacle twice adds up the distances. */
  lemma {:induction false} EmbedsTransitive(a: seq<Obstacle>, b: seq<Obstacle>, c: seq<Obstacle>, d1: real, d2: real)
    requires Embeds(a, b, d1) && Embeds(b, c, d2)
    ensures Embeds(a, c, d1 + d2)
    decreases |a|
  {
    if c != [] {
      assert b != [] && a != [];
      if Descends(a[0], b[0], d1) && Embeds(a[1..], b[1..], d1) {
        if Descends(b[0], c[0], d2) && Embeds(b[1..], c[1..], d2) {
          EmbedsTransitive(a[1..], b[1..], c[1..], d1, d2);
          assert Descends(a[0], c[0], d1 + d2);
        } else {
          EmbedsTransitive(a[1..], b[1..], c, d1, d2);
        }
      } else {
        EmbedsTransitive(a[1..], b, c, d1, d2);
      }
    }
  }

  /** Two lists of equal length related index by index. */
  lemma {:induction false} EmbedsPointwise(s: seq<Obstacle>, r: seq<Obstacle>, dx: real)
    requires |s| == |r|
    requires forall i :: 0 <= i < |s| ==> Descends(s[i], r[i], dx)
    ensures Embeds(s, r, dx)
    decreases |s|
  {
    if s != [] {
      EmbedsPointwise(s[1..], r[1..], dx);
    }
  }

  /** A list descends from itself with no movement. */
  lemma EmbedsReflexive(s: seq<Obstacle>)
    ensures Embeds(s, s, 0.0)
  {
    EmbedsPointwise(s, s, 0.0);
  }

  /** The off-screen cleanup only drops obstacles. */
  lemma {:induction false} EmbedsFilter(s: seq<Obstacle>, keep: Obstacle -> bool)
    ensures Embeds(s, Filter(s, keep), 0.0)
    decreases |s|
  {
    if s != [] {
      EmbedsFilter(s[1..], keep);
      if keep(s[0]) {
        assert Filter(s, keep)[0] == s[0];
        assert Filter(s, keep)[1..] == Filter(s[1..], keep);
      } else {
        assert Filter(s, keep) == Filter(s[1..], keep);
      }
    }
  }

  /** Dropping obstacles never adds one of a kind. */
  lemma {:induction false} EmbedsCount(s: seq<Obstacle>, r: seq<Obstacle>, dx: real, k: Kind)
    requires Embeds(s, r, dx)
    ensures CountKind(r, k) <= CountKind(s, k)
    decreases |s|
  {
    if r != [] {
      if Descends(s[0], r[0], dx) && Embeds(s[1..], r[1..], dx) {
        EmbedsCount(s[1..], r[1..], dx, k);
      } else {
        EmbedsCount(s[1..], r, dx, k);
      }
    }
  }

  /** Every obstacle kept is one the spawner made: well-formedness is kept. */
  lemma {:induction false} EmbedsWellFormed(s: seq<Obstacle>, r: seq<Obstacle>, dx: real)
    requires Embeds(s, r, dx)
    requires forall o :: o in s ==> WellFormed(o)
    ensures forall o :: o in r ==> WellFormed(o)
    decreases |s|
  {
    if r != [] {
      assert s[0] in s;
      forall o | o in s[1..] ensures WellFormed(o) {
        assert o in s;
      }
      if Descends(s[0], r[0], dx) && Embeds(s[1..], r[1..], dx) {
        EmbedsWellFormed(s[1..], r[1..], dx);
        assert r == [r[0]] + r[1..];
        assert WellFormed(r[0]);
      } else {
        EmbedsWellFormed(s[1..], r, dx);
      }
    }
  }
}
