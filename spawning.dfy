/** The two mechanisms every shooter shares: a rate limiter that fires once
    enough frame time has accumulated, and the "self-collision walk" that
    advances a new shot one frame-step at a time until it no longer overlaps
    the sprite that fired it. */
module Spawning {
  import opened Geometry

  // ------------------------------------------------------------ rate limiter

  datatype Tick = Tick(fired: bool, acc: real)

  /** One frame of a rate-limited generator: the frame time `dt` is added to
      the accumulator; when the sum reaches `period` the generator fires and
      the accumulator restarts from zero (the excess is discarded). */
  function RateLimit(acc: real, dt: real, period: real): Tick {
    if acc + dt >= period then Tick(true, 0.0) else Tick(false, acc + dt)
  }

  /** The accumulator after `n` frames of constant length `dt`, from zero. */
  function AccAfter(dt: real, period: real, n: nat): real
    decreases n
  {
    if n == 0 then 0.0 else RateLimit(AccAfter(dt, period, n - 1), dt, period).acc
  }

  /** Whether the `n`-th frame (counting from 1) fires. */
  function FiresAt(dt: real, period: real, n: nat): bool
    requires n >= 1
  {
    RateLimit(AccAfter(dt, period, n - 1), dt, period).fired
  }

  /** With frames of constant length `dt > 0`, let `k` be the least number of
      frames whose total reaches the period. Then after `q * k + r` frames
      (`r < k`) the accumulator holds the time of the `r` frames since the
      last shot, and that frame fired exactly when `r` is zero: the generator
      fires on frames k, 2k, 3k, ... and on no others. */
  lemma {:induction false} RateLimitPeriodic(dt: real, period: real, k: nat, q: nat, r: nat, n: nat)
    requires dt > 0.0 && k >= 1 && r < k && n == q * k + r
    requires (k as real) * dt >= period && ((k - 1) as real) * dt < period
    ensures AccAfter(dt, period, n) == (r as real) * dt
    ensures n >= 1 ==> (FiresAt(dt, period, n) <==> r == 0)
    decreases n
  {
    if r > 0 {
      RateLimitPeriodic(dt, period, k, q, r - 1, n - 1);
      QuietFrame(dt, period, k, r, AccAfter(dt, period, n - 1));
    } else if q > 0 {
      MulPred(q, k);
      RateLimitPeriodic(dt, period, k, q - 1, k - 1, n - 1);
      FiringFrame(dt, period, k, AccAfter(dt, period, n - 1));
    }
  }

  /** A frame after the `r - 1`-th since the last shot, with `r < k`, does
      not reach the period and leaves `r` frames of time. */
  lemma QuietFrame(dt: real, period: real, k: nat, r: nat, acc: real)
    requires dt > 0.0 && 1 <= r < k && ((k - 1) as real) * dt < period
    requires acc == ((r - 1) as real) * dt
    ensures RateLimit(acc, dt, period) == Tick(false, (r as real) * dt)
  {
    ScaleSucc(r, dt);
    ScaleMono(r, k - 1, dt);
  }

  /** The `k`-th frame since the last shot reaches the period. */
  lemma FiringFrame(dt: real, period: real, k: nat, acc: real)
    requires (k as real) * dt >= period
    requires acc == ((k - 1) as real) * dt
    ensures RateLimit(acc, dt, period) == Tick(true, 0.0)
  {
    ScaleSucc(k, dt);
  }

  lemma MulPred(q: nat, k: nat)
    requires q >= 1
    ensures (q - 1) * k == q * k - k
  {
  }

  /** The same, phrased with the remainder: frame `n` fires iff `k` divides `n`. */
  lemma {:induction false} RateLimitEveryKth(dt: real, period: real, k: nat, n: nat)
    requires dt > 0.0 && k >= 1
    requires (k as real) * dt >= period && ((k - 1) as real) * dt < period
    ensures AccAfter(dt, period, n) == ((n % k) as real) * dt
    ensures n >= 1 ==> (FiresAt(dt, period, n) <==> n % k == 0)
  {
    var q, r := DivMod(n, k);
    RateLimitPeriodic(dt, period, k, q, r, n);
  }

  lemma DivMod(n: nat, k: nat) returns (q: nat, r: nat)
    requires k >= 1
    ensures n == q * k + r && r == n % k && r < k
  {
    q, r := n / k, n % k;
  }

  lemma ScaleSucc(r: int, dt: real)
    ensures ((r - 1) as real) * dt + dt == (r as real) * dt
  {
  }

  lemma ScaleMono(a: int, b: int, dt: real)
    requires a <= b && dt > 0.0
    ensures (a as real) * dt <= (b as real) * dt
  {
    assert (b as real) * dt - (a as real) * dt == ((b - a) as real) * dt;
  }

  // ------------------------------------------------------ self-collision walk

  /** The position `j` frame-steps of `step` beyond `origin`. */
  function StepPos(origin: Vec2, step: Vec2, j: int): Vec2 {
    origin.Plus(step.Scale(j as real))
  }

  /** How many more steps of size `s` a coordinate at `p` can take before it
      leaves the open interval (lo, hi) for good. */
  function Escape(p: real, s: real, lo: real, hi: real): int
    requires s != 0.0
  {
    if s > 0.0 then ((hi - p) / s).Floor else ((p - lo) / (-s)).Floor
  }

  lemma EscapeStep(p: real, s: real, lo: real, hi: real)
    requires s != 0.0
    ensures Escape(p + s, s, lo, hi) == Escape(p, s, lo, hi) - 1
    ensures lo < p < hi ==> Escape(p, s, lo, hi) >= 0
  {
    if s > 0.0 {
      DivLessOne(hi - p, s);
      assert hi - (p + s) == (hi - p) - s;
    } else {
      DivLessOne(p - lo, -s);
      assert (p + s) - lo == (p - lo) - (-s);
    }
  }

  lemma DivLessOne(a: real, s: real)
    requires s > 0.0
    ensures (a - s) / s == a / s - 1.0
    ensures a > 0.0 ==> a / s > 0.0
  {
    assert s / s == 1.0;
    assert (a - s) / s == a / s - s / s;
  }

  /** The termination measure of the walk: the escape count along an axis in
      which the step moves. */
  function WalkMeasure(pos: Vec2, step: Vec2, size: Vec2, agent: Rect): int
    requires step != Zero
  {
    if step.x != 0.0 then
      Escape(pos.x, step.x, agent.Left() - size.x / 2.0, agent.Right() + size.x / 2.0)
    else
      Escape(pos.y, step.y, agent.Top() - size.y / 2.0, agent.Bottom() + size.y / 2.0)
  }

  /** A step taken while the box still overlaps the agent brings the walk
      closer to its end. */
  lemma WalkStep(pos: Vec2, step: Vec2, size: Vec2, agent: Rect)
    requires step != Zero && Collide(agent, RectAt(pos, size))
    ensures 0 <= WalkMeasure(pos, step, size, agent)
    ensures WalkMeasure(pos.Plus(step), step, size, agent) == WalkMeasure(pos, step, size, agent) - 1
  {
    EscapeStep(pos.x, if step.x != 0.0 then step.x else 1.0,
               agent.Left() - size.x / 2.0, agent.Right() + size.x / 2.0);
    EscapeStep(pos.y, if step.y != 0.0 then step.y else 1.0,
               agent.Top() - size.y / 2.0, agent.Bottom() + size.y / 2.0);
  }

  lemma StepPosSucc(origin: Vec2, step: Vec2, k: int)
    ensures StepPos(origin, step, k).Plus(step) == StepPos(origin, step, k + 1)
  {
  }

  /** The spawn loop of the player's and the abilities' generators: starting
      from `origin`, advance a box of size `size` by `step` until it no longer
      collides with the firing sprite's box `agent`. The shot is placed `k >= 1`
      steps out, at the first such position that is clear of the agent. */
  method SelfCollisionWalk(origin: Vec2, step: Vec2, size: Vec2, agent: Rect)
      returns (pos: Vec2, ghost k: nat)
    requires step != Zero
    ensures k >= 1 && pos == StepPos(origin, step, k)
    ensures !Collide(agent, RectAt(pos, size))
    ensures forall j :: 1 <= j < k ==> Collide(agent, RectAt(StepPos(origin, step, j), size))
  {
    pos, k := origin.Plus(step), 1;
    while Collide(agent, RectAt(pos, size))
      invariant k >= 1 && pos == StepPos(origin, step, k)
      invariant forall j :: 1 <= j < k ==> Collide(agent, RectAt(StepPos(origin, step, j), size))
      decreases WalkMeasure(pos, step, size, agent)
    {
      WalkStep(pos, step, size, agent);
      StepPosSucc(origin, step, k);
      pos, k := pos.Plus(step), k + 1;
    }
  }
}
