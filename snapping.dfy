/** Grid and angle snapping (`snapPosition`, `snapRotation`): every component is rounded
    to the nearest multiple of a pitch, or left alone when snapping is switched off. */
module Snapping {
  import opened Geometry

  /** `Math.round(x / pitch) * pitch` */
  function SnapCoord(x: real, pitch: real): real
    requires pitch != 0.0
  {
    (Round(x / pitch) as real) * pitch
  }

  /** `r` is an integer multiple of `pitch`. */
  predicate OnGrid(r: real, pitch: real)
    requires pitch != 0.0
  {
    (r / pitch).Floor as real == r / pitch
  }

  /** All three components are multiples of `pitch`. */
  predicate OnGridVec(v: Vec3, pitch: real)
    requires pitch != 0.0
  {
    OnGrid(v.x, pitch) && OnGrid(v.y, pitch) && OnGrid(v.z, pitch)
  }

  /** Every component of `v` is within `d` of the same component of `w`. */
  predicate WithinEach(v: Vec3, w: Vec3, d: real) {
    Abs(v.x - w.x) <= d && Abs(v.y - w.y) <= d && Abs(v.z - w.z) <= d
  }

  lemma MulDiv(k: real, g: real)
    requires g != 0.0
    ensures (k * g) / g == k
  {
  }

  lemma MulNonNegative(a: real, b: real)
    requires a >= 0.0 && b >= 0.0
    ensures a * b >= 0.0
  {
  }

  /** A snapped coordinate lies on the grid and at most half a pitch from the input. */
  lemma SnapCoordOnGrid(x: real, pitch: real)
    requires pitch != 0.0
    ensures OnGrid(SnapCoord(x, pitch), pitch)
    ensures Abs(SnapCoord(x, pitch) - x) <= Abs(pitch) / 2.0
  {
    var k := Round(x / pitch) as real;
    var q := x / pitch;
    MulDiv(k, pitch);
    assert (k * pitch / pitch).Floor == Round(x / pitch);
    assert q * pitch == x;
    assert SnapCoord(x, pitch) - x == (k - q) * pitch;
    assert -0.5 <= k - q <= 0.5;
    var d := (k - q) * pitch;
    if pitch > 0.0 {
      MulNonNegative(0.5 - (k - q), pitch);
      MulNonNegative(0.5 + (k - q), pitch);
      assert -0.5 * pitch <= d <= 0.5 * pitch;
      assert Abs(pitch) / 2.0 == 0.5 * pitch;
    } else {
      MulNonNegative(0.5 - (k - q), -pitch);
      MulNonNegative(0.5 + (k - q), -pitch);
      assert 0.5 * pitch <= d <= -0.5 * pitch;
      assert Abs(pitch) / 2.0 == -0.5 * pitch;
    }
  }

  /** Points of the grid are exactly the points snapping leaves where they are. */
  lemma SnapCoordFixedPoints(x: real, pitch: real)
    requires pitch != 0.0
    ensures SnapCoord(x, pitch) == x <==> OnGrid(x, pitch)
  {
    if OnGrid(x, pitch) {
      var k := (x / pitch).Floor;
      RoundOfInteger(k);
      assert x / pitch * pitch == x;
    } else {
      SnapCoordOnGrid(x, pitch);
    }
  }

  /** Snapping a coordinate twice gives what snapping once gives. */
  lemma SnapCoordIdempotent(x: real, pitch: real)
    requires pitch != 0.0
    ensures SnapCoord(SnapCoord(x, pitch), pitch) == SnapCoord(x, pitch)
  {
    SnapCoordOnGrid(x, pitch);
    SnapCoordFixedPoints(SnapCoord(x, pitch), pitch);
  }

  /** The snapping rule shared by positions (grid) and rotations (angle): the input when
      switched off, else each component rounded to the pitch. */
  function Snap(enabled: bool, pitch: real, v: Vec3): Vec3
    requires enabled ==> pitch != 0.0
  {
    if !enabled then v
    else Vec3(SnapCoord(v.x, pitch), SnapCoord(v.y, pitch), SnapCoord(v.z, pitch))
  }

  /** Switched off, snapping is the identity; switched on, it lands on the grid and moves
      each component by at most half a pitch. */
  lemma SnapMeaning(enabled: bool, pitch: real, v: Vec3)
    requires enabled ==> pitch != 0.0
    ensures !enabled ==> Snap(enabled, pitch, v) == v
    ensures enabled ==> OnGridVec(Snap(enabled, pitch, v), pitch)
    ensures enabled ==> WithinEach(Snap(enabled, pitch, v), v, Abs(pitch) / 2.0)
  {
    if enabled {
      SnapCoordOnGrid(v.x, pitch);
      SnapCoordOnGrid(v.y, pitch);
      SnapCoordOnGrid(v.z, pitch);
    }
  }

  /** Snapping is idempotent. */
  lemma SnapIdempotent(enabled: bool, pitch: real, v: Vec3)
    requires enabled ==> pitch != 0.0
    ensures Snap(enabled, pitch, Snap(enabled, pitch, v)) == Snap(enabled, pitch, v)
  {
    if enabled {
      SnapCoordIdempotent(v.x, pitch);
      SnapCoordIdempotent(v.y, pitch);
      SnapCoordIdempotent(v.z, pitch);
    }
  }

  /** On a 0.1 grid, [1.234, 0.876, -0.551] snaps to [1.2, 0.9, -0.6]: -5.51 rounds to -6. */
  lemma SnapExample()
    ensures Snap(true, 0.1, Vec3(1.234, 0.876, -0.551)) == Vec3(1.2, 0.9, -0.6)
  {
    assert Round(1.234 / 0.1) == 12;
    assert Round(0.876 / 0.1) == 9;
    assert Round(-0.551 / 0.1) == -6;
  }

  /** Halves round toward +infinity, not away from zero: -0.25 snaps to -0.2 on a 0.1 grid. */
  lemma NegativeHalfRoundsUp()
    ensures SnapCoord(-0.25, 0.1) == -0.2
  {
    assert Round(-0.25 / 0.1) == -2;
  }
}
