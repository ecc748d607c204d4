/** The aiming arithmetic shared by every shooter: the angle from a shot's
    origin to its target, the normalisation of an angle into one turn, and
    the fan of angles of a missile barrage. */
module ShotAngles {
  import opened Geometry

  /** The angle between the x axis and the ray from `origin` to `target`
      (y grows downwards, so a target below the origin gives an angle in
      (0, pi)). Near-vertical and near-horizontal rays are special-cased with
      a tolerance of EPSILON; otherwise the arctangent of the slope is moved
      into the right half-turn by the sign of the vertical offset. */
  function ShotAngle(origin: Vec2, target: Vec2, lib: Lib): (angle: real)
    requires lib.Valid()
    ensures 0.0 <= angle < TAU
  {
    var dx := target.x - origin.x;
    var dy := target.y - origin.y;
    var a0 :=
      if Abs(dx) < EPSILON then (if target.y > origin.y then PI / 2.0 else -PI / 2.0)
      else if Abs(dy) < EPSILON then (if target.x > origin.x then 0.0 else -PI)
      else lib.atan(dy / dx);
    var a1 := if a0 > 0.0 && 0.0 > dy then a0 + PI else a0;
    var a2 := if a1 < 0.0 && 0.0 < dy then a1 + PI else a1;
    if a2 < 0.0 then a2 + TAU else a2
  }

  /** A target straight above or below the origin (within EPSILON
      horizontally) is shot straight down at pi/2 when it is lower on the
      screen and straight up at 3pi/2 otherwise, a coincident target included. */
  lemma ShotAngleVertical(origin: Vec2, target: Vec2, lib: Lib)
    requires lib.Valid()
    requires Abs(target.x - origin.x) < EPSILON
    ensures target.y > origin.y ==> ShotAngle(origin, target, lib) == PI / 2.0
    ensures target.y <= origin.y ==> ShotAngle(origin, target, lib) == 3.0 * PI / 2.0
  {
  }

  /** A target level with the origin (within EPSILON vertically, but not
      vertical) is shot at 0 when it is to the right; to the left it is shot
      at pi, except that a target a hair below the origin (0 < dy < EPSILON)
      is shot at 0, back toward the right. */
  lemma ShotAngleHorizontal(origin: Vec2, target: Vec2, lib: Lib)
    requires lib.Valid()
    requires Abs(target.x - origin.x) >= EPSILON && Abs(target.y - origin.y) < EPSILON
    ensures target.x > origin.x ==> ShotAngle(origin, target, lib) == 0.0
    ensures target.x < origin.x && target.y <= origin.y ==> ShotAngle(origin, target, lib) == PI
    ensures target.x < origin.x && target.y > origin.y ==> ShotAngle(origin, target, lib) == 0.0
  {
  }

  /** Away from both axes the angle lies in the open quadrant of the offset
      (dx, dy), and it differs from the arctangent of the slope by a whole
      number of half-turns. */
  lemma ShotAngleQuadrants(origin: Vec2, target: Vec2, lib: Lib)
    requires lib.Valid()
    requires Abs(target.x - origin.x) >= EPSILON && Abs(target.y - origin.y) >= EPSILON
    ensures var dx, dy, a := target.x - origin.x, target.y - origin.y, ShotAngle(origin, target, lib);
      (dx > 0.0 && dy > 0.0 ==> 0.0 < a < PI / 2.0) &&
      (dx < 0.0 && dy > 0.0 ==> PI / 2.0 < a < PI) &&
      (dx < 0.0 && dy < 0.0 ==> PI < a < 3.0 * PI / 2.0) &&
      (dx > 0.0 && dy < 0.0 ==> 3.0 * PI / 2.0 < a < TAU)
    ensures var t := lib.atan((target.y - origin.y) / (target.x - origin.x));
      var a := ShotAngle(origin, target, lib);
      a == t || a == t + PI || a == t + TAU
  {
    var dx, dy := target.x - origin.x, target.y - origin.y;
    var t := lib.atan(dy / dx);
    if dx > 0.0 && dy > 0.0 {
      assert dy / dx > 0.0;
    } else if dx < 0.0 && dy > 0.0 {
      assert dy / dx < 0.0;
    } else if dx < 0.0 && dy < 0.0 {
      assert dy / dx > 0.0;
    } else {
      assert dy / dx < 0.0;
    }
  }

  /** The `while` loops that bring a missile angle into [0, 2pi]: add a full
      turn while it is negative, then take one off while it exceeds 2pi. The
      result differs from `raw` by `turns` full turns. */
  method NormalizeAngle(raw: real) returns (angle: real, ghost turns: int)
    ensures 0.0 <= angle <= TAU
    ensures angle == raw + (turns as real) * TAU
    ensures 0.0 <= raw <= TAU ==> angle == raw
  {
    angle, turns := raw, 0;
    while angle < 0.0
      invariant angle == raw + (turns as real) * TAU
      invariant 0.0 <= raw ==> angle == raw
      decreases if angle < 0.0 then (-angle).Floor + 1 else 0
    {
      angle, turns := angle + TAU, turns + 1;
    }
    while angle > TAU
      invariant 0.0 <= angle
      invariant angle == raw + (turns as real) * TAU
      invariant 0.0 <= raw <= TAU ==> angle == raw
      decreases angle.Floor
    {
      angle, turns := angle - TAU, turns - 1;
    }
  }

  /** The unnormalised angle of missile `i` of a barrage of `n` missiles
      spaced `spread` apart around `center`. */
  function FanAngle(center: real, n: nat, spread: real, i: int): real {
    center - ((n as real - 1.0) / 2.0) * spread + (i as real) * spread
  }

  /** The fan is evenly spaced and symmetric about the centre angle: missiles
      `i` and `n - 1 - i` sit at equal distances on either side, and for an
      odd count the middle missile flies at the centre angle itself. */
  lemma FanSymmetric(center: real, n: nat, spread: real, i: int)
    requires 0 <= i < n
    ensures FanAngle(center, n, spread, i) + FanAngle(center, n, spread, n - 1 - i) == 2.0 * center
    ensures i + 1 < n ==> FanAngle(center, n, spread, i + 1) - FanAngle(center, n, spread, i) == spread
    ensures 2 * i == n - 1 ==> FanAngle(center, n, spread, i) == center
  {
    var half := (n as real - 1.0) / 2.0;
    assert (i as real) * spread + ((n - 1 - i) as real) * spread == 2.0 * half * spread;
    assert ((i + 1) as real) * spread - (i as real) * spread == spread;
    if 2 * i == n - 1 {
      assert i as real == half;
    }
  }

  // ------------------------------------------------------------ laser beams

  /** Where segment `i` of a beam from `start` along `dir` is laid out
      before its wave offset: `i` spacings along the beam. */
  function SegmentStart(start: Vec2, dir: Vec2, spacing: real, i: int): Vec2 {
    start.Plus(dir.Scale((i as real) * spacing))
  }

  /** The sideways displacement of segment `i` at the clock value
      `timeFactor`: a sine wave along the beam whose amplitude is a fifth of
      the laser's width. */
  function WaveOffset(lib: Lib, timeFactor: real, widthLaser: real, i: int): real {
    lib.sin(timeFactor + (i as real) * 0.2) * (widthLaser * 0.2)
  }

  /** The position of segment `i`: its start point moved by its wave offset
      along the perpendicular `(-dir.y, dir.x)`. */
  function SegmentPos(lib: Lib, start: Vec2, dir: Vec2, spacing: real, timeFactor: real,
                      widthLaser: real, i: int): Vec2 {
    SegmentStart(start, dir, spacing, i).Plus(
      Vec2(-dir.y, dir.x).Scale(WaveOffset(lib, timeFactor, widthLaser, i)))
  }

  /** Consecutive segment start points are one spacing apart along the beam;
      each segment is displaced from its start point at right angles to the
      beam, by at most a fifth of the laser's width. */
  lemma SegmentGeometry(lib: Lib, start: Vec2, dir: Vec2, spacing: real, timeFactor: real,
                        widthLaser: real, i: int)
    requires lib.Valid() && widthLaser >= 0.0
    ensures SegmentStart(start, dir, spacing, i + 1) ==
            SegmentStart(start, dir, spacing, i).Plus(dir.Scale(spacing))
    ensures var p := SegmentPos(lib, start, dir, spacing, timeFactor, widthLaser, i);
      var q := SegmentStart(start, dir, spacing, i);
      (p.x - q.x) * dir.x + (p.y - q.y) * dir.y == 0.0
    ensures -(widthLaser * 0.2) <= WaveOffset(lib, timeFactor, widthLaser, i) <= widthLaser * 0.2
  {
    var a := timeFactor + (i as real) * 0.2;
    SinBounded(lib, a);
    var w := WaveOffset(lib, timeFactor, widthLaser, i);
    var p := SegmentPos(lib, start, dir, spacing, timeFactor, widthLaser, i);
    var q := SegmentStart(start, dir, spacing, i);
    assert p.x - q.x == -dir.y * w && p.y - q.y == dir.x * w;
    assert ((i + 1) as real) * spacing == (i as real) * spacing + spacing;
    var amp := widthLaser * 0.2;
    var sn := lib.sin(a);
    assert w == sn * amp;
    assert amp - sn * amp == (1.0 - sn) * amp;
    assert sn * amp + amp == (sn + 1.0) * amp;
    MulNonNeg(1.0 - sn, amp);
    MulNonNeg(sn + 1.0, amp);
  }

  lemma MulNonNeg(a: real, b: real)
    requires 0.0 <= a && 0.0 <= b
    ensures 0.0 <= a * b
  {
  }

  lemma SinBounded(lib: Lib, a: real)
    requires lib.Valid()
    ensures -1.0 <= lib.sin(a) <= 1.0
  {
    var s, c := lib.sin(a), lib.cos(a);
    assert s * s + c * c == 1.0;
    assert (1.0 - s) * (1.0 + s) == c * c;
    assert c * c >= 0.0;
  }
}
