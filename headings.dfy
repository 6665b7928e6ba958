/**
 * Heading arithmetic shared by the drive base and its hardware-free stand-in.
 *
 * Headings are degrees measured clockwise from the field's +y axis. They are
 * floats in the program (they come out of `atan2`), so they are reals here, and
 * Python's `%` on floats is the remainder of FLOOR division: `v % 360` always
 * lies in [0, 360), for negative `v` too.
 */
module Headings {
  import Geometry

  /** `v % 360` as Python computes it on floats (rounding not modelled). */
  function Mod360(v: real): (r: real)
    ensures 0.0 <= r < 360.0
    ensures Congruent(r, v)
  {
    var turns := (v / 360.0).Floor;
    var r := v - 360.0 * turns as real;
    assert turns as real <= v / 360.0 < turns as real + 1.0;
    CongruentByTurns(r, v, -turns);
    r
  }

  /** `a` and `b` name the same direction: they differ by a whole number of turns. */
  predicate Congruent(a: real, b: real)
  {
    var q := (a - b) / 360.0;
    q.Floor as real == q
  }

  /**
   * The relative turn `turn_to` issues to go from `current` to `heading`,
   * given `delta == heading - current`: `delta % 360`, less a full turn when
   * that exceeds half a turn.
   */
  function RelativeTurn(delta: real): (turn: real)
    ensures -180.0 < turn <= 180.0
    ensures Congruent(turn, delta)
  {
    var t := Mod360(delta);
    if t > 180.0 then
      assert Congruent(t - 360.0, t) by { CongruentByTurns(t - 360.0, t, -1); }
      CongruentTransitive(t - 360.0, t, delta);
      t - 360.0
    else
      t
  }

  /** Two readings that differ by `k` whole turns are congruent. */
  lemma CongruentByTurns(a: real, b: real, k: int)
    requires a - b == 360.0 * k as real
    ensures Congruent(a, b)
  {
    assert (a - b) / 360.0 == k as real;
  }

  /** Congruent readings differ by a whole number of turns. */
  lemma TurnsBetween(a: real, b: real) returns (k: int)
    requires Congruent(a, b)
    ensures a - b == 360.0 * k as real
  {
    k := ((a - b) / 360.0).Floor;
  }

  lemma CongruentSymmetric(a: real, b: real)
    requires Congruent(a, b)
    ensures Congruent(b, a)
  {
    var k := TurnsBetween(a, b);
    CongruentByTurns(b, a, -k);
  }

  lemma CongruentTransitive(a: real, b: real, c: real)
    requires Congruent(a, b) && Congruent(b, c)
    ensures Congruent(a, c)
  {
    var k1 := TurnsBetween(a, b);
    var k2 := TurnsBetween(b, c);
    CongruentByTurns(a, c, k1 + k2);
  }

  /** Adding the same amount to both sides keeps two readings congruent. */
  lemma CongruentShift(a: real, b: real, d: real)
    requires Congruent(a, b)
    ensures Congruent(a + d, b + d)
  {
    var k := TurnsBetween(a, b);
    CongruentByTurns(a + d, b + d, k);
  }

  /** Two congruent readings less than a full turn apart are equal. */
  lemma CongruentClose(a: real, b: real)
    requires Congruent(a, b)
    requires -360.0 < a - b < 360.0
    ensures a == b
  {
    var k := TurnsBetween(a, b);
    assert -360.0 < 360.0 * k as real < 360.0;
  }

  /** `%` picks one representative per direction: equal results exactly for congruent inputs. */
  lemma {:induction false} Mod360Canonical(a: real, b: real)
    ensures Mod360(a) == Mod360(b) <==> Congruent(a, b)
  {
    if Congruent(a, b) {
      CongruentTransitive(Mod360(a), a, b);
      CongruentSymmetric(Mod360(b), b);
      CongruentTransitive(Mod360(a), b, Mod360(b));
      CongruentClose(Mod360(a), Mod360(b));
    }
    if Mod360(a) == Mod360(b) {
      CongruentSymmetric(Mod360(a), a);
      CongruentTransitive(a, Mod360(a), b);
    }
  }

  /** The relative turn is the only turn in (-180, 180] that reaches the target direction. */
  lemma RelativeTurnUnique(delta: real, other: real)
    requires Congruent(other, delta)
    requires -180.0 < other <= 180.0
    ensures other == RelativeTurn(delta)
  {
    var turn := RelativeTurn(delta);
    CongruentSymmetric(turn, delta);
    CongruentTransitive(other, delta, turn);
    CongruentClose(other, turn);
  }

  /** No turn that reaches the target direction is smaller than the relative turn. */
  lemma RelativeTurnIsShortest(delta: real, other: real)
    requires Congruent(other, delta)
    ensures Geometry.Abs(RelativeTurn(delta)) <= Geometry.Abs(other)
  {
    var turn := RelativeTurn(delta);
    CongruentSymmetric(turn, delta);
    CongruentTransitive(other, delta, turn);
    var k := TurnsBetween(other, turn);
    if k > 0 {
      assert other >= turn + 360.0;
    } else if k < 0 {
      assert other <= turn - 360.0;
    }
  }

  /**
   * Turning from `current` by the relative turn toward `target` ends on the
   * direction `target % 360`, wherever `current` started.
   */
  lemma TurnReachesTarget(current: real, target: real)
    ensures Mod360(current + RelativeTurn(target - current)) == Mod360(target)
  {
    var turn := RelativeTurn(target - current);
    CongruentShift(turn, target - current, current);
    assert current + turn == turn + current;
    assert (target - current) + current == target;
    Mod360Canonical(current + turn, target);
  }

  /**
   * Facing the other way: asking for `heading + 180` yields a turn that
   * differs from the turn toward `heading` by half a revolution.
   */
  lemma OppositeTurn(heading: real, current: real)
    ensures Congruent(RelativeTurn(heading + 180.0 - current), RelativeTurn(heading - current) + 180.0)
  {
    var fwd := RelativeTurn(heading - current);
    var rev := RelativeTurn(heading + 180.0 - current);
    CongruentShift(fwd, heading - current, 180.0);
    assert heading - current + 180.0 == heading + 180.0 - current;
    CongruentSymmetric(fwd + 180.0, heading + 180.0 - current);
    CongruentTransitive(rev, heading + 180.0 - current, fwd + 180.0);
  }
}
