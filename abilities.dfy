/** The third-generation abilities, one per character class that uses them:
    a missile barrage whose missiles explode into an area-of-effect blast, a
    laser beam whose segments leave a hit effect, and a fast, strong critical
    shot. They fire from the agent's projectile origin when the agent has
    one (`projectileOrigin`), else from the centre of its box, and create
    `Projectiles.ProjectileAbility` sprites. */
module Abilities {
  import opened Geometry
  import ShotAngles
  import Spawning
  import Projectiles

  const MISSILE_SHOT_CAPACITY: nat := 5
  const ANGLE_SPREAD_MISSILE: real := 10.0
  const EXPLOSION_RADIUS: real := 100.0
  const SEGMENT_LASER_LENGTH: real := 20.0
  /** The distance between consecutive laser segment start points. */
  const SEGMENT_SPACING: real := SEGMENT_LASER_LENGTH * 0.2
  const LASER_WIDTH: real := 5.0
  const LASER_LIFETIME: real := 1.0 / 60.0
  /** The missile image is scaled to 30 x 30. */
  const MISSILE_SIZE: Vec2 := Vec2(30.0, 30.0)

  /** Where an ability fires from. */
  function Origin(agent: Rect, projectileOrigin: Option<Vec2>): Vec2 {
    projectileOrigin.GetOr(agent.Center())
  }

  /** The hit effect a hook creates for the sprite `s`: a still 2r x 2r
      sprite centred on `s`, dealing `s`'s explosion damage for
      `hitLifetime` seconds. */
  ghost predicate IsBlastOf(e: Projectiles.ProjectileAbility, s: Projectiles.ProjectileAbility,
                            r: real, hitLifetime: real, area: bool)
    reads e, e.base, s, s.base
  {
    e.base.position == s.base.rect.Center() && e.angle == 0.0 && e.base.velocity == Zero &&
    e.base.rect == RectAt(s.base.rect.Center(), Vec2(r * 2.0, r * 2.0)) &&
    e.base.damage == s.explosionDamage && e.lifetime == hitLifetime &&
    e.timeAlive == 0.0 && e.base.alive && e.hook == Projectiles.NoHook &&
    e.radius == (if area then Some(r) else None)
  }

  // ------------------------------------------------------------ missiles

  class MissileBarrage {
    const missileSpeed: real
    const missileDamage: real
    const numMissiles: nat := MISSILE_SHOT_CAPACITY
    /** The spread between neighbouring missiles, in radians. */
    const angleSpread: real := ANGLE_SPREAD_MISSILE * (PI / 180.0)
    const explosionRadius: real := EXPLOSION_RADIUS
    const missileLifetime: real
    /** The lifetime of the explosions. */
    const hitLifetime: real

    /** A barrage with the abilities' default speed and damage. */
    constructor (defaultSpeed: real, defaultDamage: real, missileLifetime: real, hitLifetime: real)
      ensures missileSpeed == defaultSpeed && missileDamage == defaultDamage
      ensures this.missileLifetime == missileLifetime && this.hitLifetime == hitLifetime
    {
      missileSpeed := defaultSpeed;
      missileDamage := defaultDamage;
      this.missileLifetime := missileLifetime;
      this.hitLifetime := hitLifetime;
    }

    /** Missile `i` of a barrage fired from `origin` toward `target` by an
        agent whose box is `agent`: its angle is the `i`-th fan angle brought
        into [0, 2pi] by `turns` full turns, it flies at `missileSpeed` along
        that angle for `missileLifetime` seconds, it was walked `steps`
        frame-steps out to the first position clear of the agent, and it
        carries the explosion hook. */
    ghost predicate IsMissile(m: Projectiles.ProjectileAbility, i: nat, steps: nat, turns: int,
                              agent: Rect, origin: Vec2, target: Vec2, dt: real, lib: Lib)
      requires lib.Valid()
      reads m, m.base
    {
      var fan := ShotAngles.FanAngle(ShotAngles.ShotAngle(origin, target, lib), numMissiles, angleSpread, i);
      var step := m.base.velocity.Scale(dt);
      0.0 <= m.angle <= TAU && m.angle == fan + (turns as real) * TAU &&
      m.base.velocity == lib.Direction(m.angle).Scale(missileSpeed) &&
      steps >= 1 && m.base.position == Spawning.StepPos(origin, step, steps) &&
      m.base.rect == RectAt(m.base.position, MISSILE_SIZE) && !Collide(agent, m.base.rect) &&
      (forall j :: 1 <= j < steps ==> Collide(agent, RectAt(Spawning.StepPos(origin, step, j), MISSILE_SIZE))) &&
      m.base.alive && m.base.damage == missileDamage && m.lifetime == missileLifetime &&
      m.timeAlive == 0.0 && m.explosionRadius == Some(explosionRadius) &&
      m.explosionDamage == missileDamage * 0.8 && m.hook == Projectiles.ExplosionHook(hitLifetime) &&
      !m.hasExploded && m.radius.None? && m.Valid()
    }

    /** Fires the barrage: one new missile per fan angle, in fan order. */
    method Generate(agent: Rect, projectileOrigin: Option<Vec2>, target: Vec2, dt: real, lib: Lib)
        returns (fired: bool, added: seq<Projectiles.ProjectileAbility>,
                 ghost steps: seq<nat>, ghost turns: seq<int>)
      requires lib.Valid() && missileSpeed != 0.0 && dt != 0.0
      ensures fired
      ensures |added| == numMissiles && |steps| == numMissiles && |turns| == numMissiles
      ensures forall i, j :: 0 <= i < j < |added| ==> added[i] != added[j]
      ensures forall i :: 0 <= i < |added| ==>
        fresh(added[i]) && fresh(added[i].base) &&
        IsMissile(added[i], i, steps[i], turns[i], agent, Origin(agent, projectileOrigin), target, dt, lib)
    {
      var origin := Origin(agent, projectileOrigin);
      added, steps, turns := [], [], [];
      for i := 0 to numMissiles
        invariant |added| == i && |steps| == i && |turns| == i
        invariant forall a, b :: 0 <= a < b < i ==> added[a] != added[b]
        invariant forall a :: 0 <= a < i ==>
          fresh(added[a]) && fresh(added[a].base) &&
          IsMissile(added[a], a, steps[a], turns[a], agent, origin, target, dt, lib)
      {
        var missile, n, k := Launch(i, agent, origin, target, dt, lib);
        added, steps, turns := added + [missile], steps + [n], turns + [k];
      }
      fired := true;
    }

    /** Creates missile `i` of a barrage. */
    method Launch(i: nat, agent: Rect, origin: Vec2, target: Vec2, dt: real, lib: Lib)
        returns (missile: Projectiles.ProjectileAbility, ghost steps: nat, ghost turns: int)
      requires lib.Valid() && missileSpeed != 0.0 && dt != 0.0
      ensures fresh(missile) && fresh(missile.base)
      ensures IsMissile(missile, i, steps, turns, agent, origin, target, dt, lib)
    {
      var centerAngle := ShotAngles.ShotAngle(origin, target, lib);
      var startAngle := centerAngle - ((numMissiles as real - 1.0) / 2.0) * angleSpread;
      var missileAngle;
      missileAngle, turns := ShotAngles.NormalizeAngle(startAngle + (i as real) * angleSpread);
      var velocity := lib.Direction(missileAngle).Scale(missileSpeed);
      var step := velocity.Scale(dt);
      DirectionNonZero(lib, missileAngle, missileSpeed * dt);
      assert step == lib.Direction(missileAngle).Scale(missileSpeed * dt);
      var position;
      position, steps := Spawning.SelfCollisionWalk(origin, step, MISSILE_SIZE, agent);
      missile := new Projectiles.ProjectileAbility(position, missileAngle, velocity, MISSILE_SIZE,
                                                   missileDamage, missileLifetime);
      AttachExplosion(missile);
    }

    /** The attributes a missile carries for its explosion. */
    method AttachExplosion(missile: Projectiles.ProjectileAbility)
      requires missile.radius.None? && missile.hook == Projectiles.NoHook
      modifies missile`explosionRadius, missile`explosionDamage, missile`hook, missile`hasExploded
      ensures missile.explosionRadius == Some(explosionRadius)
      ensures missile.explosionDamage == missileDamage * 0.8
      ensures missile.hook == Projectiles.ExplosionHook(hitLifetime) && !missile.hasExploded
      ensures missile.Valid()
    {
      missile.explosionRadius := Some(explosionRadius);
      missile.explosionDamage := missileDamage * 0.8;
      missile.hook := Projectiles.ExplosionHook(hitLifetime);
      missile.hasExploded := false;
    }
  }

  // ------------------------------------------------------------ laser

  class LaserBeam {
    const damage: real
    const speed: real
    const lifetime: real := LASER_LIFETIME
    const widthLaser: real := LASER_WIDTH
    /** The number of segments, `int(LIMIT_WIDTH_LASER / SEGMENT_LASER_LENGTH)`. */
    const numSegments: int
    /** The clock divisor: the wave's phase is the clock in milliseconds
        divided by it. */
    const timeDivisor: real
    const hitLifetime: real
    /** The size of a segment image, `(SEGMENT_LASER_LENGTH, int(LASER_WIDTH * 3))`. */
    const segmentSize: Vec2

    constructor (laserDamage: real, laserSpeed: real, limitWidthLaser: real, timeDivisor: real,
                 hitLifetime: real)
      ensures damage == laserDamage && speed == laserSpeed
      ensures numSegments == Trunc(limitWidthLaser / SEGMENT_LASER_LENGTH)
      ensures this.timeDivisor == timeDivisor && this.hitLifetime == hitLifetime
      ensures segmentSize == Vec2(20.0, 15.0)
    {
      damage := laserDamage;
      speed := laserSpeed;
      numSegments := Trunc(limitWidthLaser / SEGMENT_LASER_LENGTH);
      this.timeDivisor := timeDivisor;
      this.hitLifetime := hitLifetime;
      segmentSize := Vec2(SEGMENT_LASER_LENGTH, Trunc(LASER_WIDTH * 3.0) as real);
    }

    /** How many segments the loop considers: `range(numSegments)`. */
    function SegmentCount(): nat {
      if numSegments > 0 then numSegments else 0
    }

    /** Segment `i` of a beam from `start` along `dir`: offset sideways by
        the wave of the clock value `timeFactor`, flying along `dir` for
        `lifetime` seconds, carrying an equal share of the beam's damage and
        the hit-effect hook. */
    ghost predicate IsSegment(s: Projectiles.ProjectileAbility, i: int, start: Vec2, dir: Vec2,
                              timeFactor: real, lib: Lib)
      reads s, s.base
    {
      s.base.position == ShotAngles.SegmentPos(lib, start, dir, SEGMENT_SPACING, timeFactor, widthLaser, i) &&
      s.angle == lib.atan2(dir.y, dir.x) && s.base.velocity == dir &&
      s.base.rect == RectAt(s.base.position, segmentSize) &&
      numSegments > 0 && s.base.damage == damage / (numSegments as real) && s.lifetime == lifetime &&
      s.timeAlive == 0.0 && s.base.alive &&
      s.explosionRadius == Some(EXPLOSION_RADIUS) && s.explosionDamage == 0.0 &&
      s.hook == Projectiles.HitEffectHook(hitLifetime) && !s.hasHit && s.radius.None? && s.Valid()
    }

    /** Fires the beam at clock `ticks` (milliseconds): the beam starts half
        the agent's width out from the origin, and segment `i` is created
        exactly when its start point lies on the screen; `indices` lists the
        segments created, in order. */
    method Generate(agent: Rect, projectileOrigin: Option<Vec2>, target: Vec2, ticks: real, lib: Lib)
        returns (fired: bool, added: seq<Projectiles.ProjectileAbility>, ghost indices: seq<int>)
      requires lib.Valid() && timeDivisor != 0.0
      ensures fired
      ensures var origin := Origin(agent, projectileOrigin);
        var dir := lib.Direction(ShotAngles.ShotAngle(origin, target, lib));
        var start := origin.Plus(dir.Scale(agent.w / 2.0));
        |indices| == |added| <= SegmentCount() &&
        (forall a, b :: 0 <= a < b < |indices| ==> indices[a] < indices[b]) &&
        (forall i :: 0 <= i < SegmentCount() ==>
          (i in indices <==> OnScreen(ShotAngles.SegmentStart(start, dir, SEGMENT_SPACING, i)))) &&
        (forall a :: 0 <= a < |added| ==>
          0 <= indices[a] < SegmentCount() && fresh(added[a]) && fresh(added[a].base) &&
          IsSegment(added[a], indices[a], start, dir, ticks / timeDivisor, lib))
      ensures forall a, b :: 0 <= a < b < |added| ==> added[a] != added[b]
    {
      var origin := Origin(agent, projectileOrigin);
      var angle := ShotAngles.ShotAngle(origin, target, lib);
      var dir := lib.Direction(angle);
      var start := origin.Plus(dir.Scale(agent.w / 2.0));
      added, indices := CreateLaserSegments(start, dir, ticks / timeDivisor, lib);
      fired := true;
    }

    method CreateLaserSegments(start: Vec2, dir: Vec2, timeFactor: real, lib: Lib)
        returns (added: seq<Projectiles.ProjectileAbility>, ghost indices: seq<int>)
      ensures |indices| == |added| <= SegmentCount()
      ensures forall a, b :: 0 <= a < b < |indices| ==> indices[a] < indices[b]
      ensures forall i :: 0 <= i < SegmentCount() ==>
        (i in indices <==> OnScreen(ShotAngles.SegmentStart(start, dir, SEGMENT_SPACING, i)))
      ensures forall a :: 0 <= a < |added| ==>
        0 <= indices[a] < SegmentCount() && fresh(added[a]) && fresh(added[a].base) &&
        IsSegment(added[a], indices[a], start, dir, timeFactor, lib)
      ensures forall a, b :: 0 <= a < b < |added| ==> added[a] != added[b]
    {
      added, indices := [], [];
      for i := 0 to SegmentCount()
        invariant |indices| == |added| <= i
        invariant forall a, b :: 0 <= a < b < |indices| ==> indices[a] < indices[b]
        invariant forall a :: 0 <= a < |indices| ==> 0 <= indices[a] < i
        invariant forall j :: 0 <= j < i ==>
          (j in indices <==> OnScreen(ShotAngles.SegmentStart(start, dir, SEGMENT_SPACING, j)))
        invariant forall a :: 0 <= a < |added| ==>
          fresh(added[a]) && fresh(added[a].base) &&
          IsSegment(added[a], indices[a], start, dir, timeFactor, lib)
        invariant forall a, b :: 0 <= a < b < |added| ==> added[a] != added[b]
      {
        var segmentStart := ShotAngles.SegmentStart(start, dir, SEGMENT_SPACING, i);
        if !(0.0 <= segmentStart.x <= WIDTH && 0.0 <= segmentStart.y <= HEIGHT) {
          continue;
        }
        var segment := NewSegment(start, dir, i, timeFactor, lib);
        added, indices := added + [segment], indices + [i];
      }
    }

    /** Creates segment `i` of a beam. */
    method NewSegment(start: Vec2, dir: Vec2, i: int, timeFactor: real, lib: Lib)
        returns (segment: Projectiles.ProjectileAbility)
      requires numSegments > 0
      ensures fresh(segment) && fresh(segment.base)
      ensures IsSegment(segment, i, start, dir, timeFactor, lib)
    {
      var segmentPos := ShotAngles.SegmentPos(lib, start, dir, SEGMENT_SPACING, timeFactor, widthLaser, i);
      segment := new Projectiles.ProjectileAbility(segmentPos, lib.atan2(dir.y, dir.x), dir, segmentSize,
                                                   damage / (numSegments as real), lifetime);
      segment.explosionRadius := Some(EXPLOSION_RADIUS);
      segment.explosionDamage := 0.0;
      segment.hook := Projectiles.HitEffectHook(hitLifetime);
      segment.hasHit := false;
    }
  }

  /** `MissileBarrage.create_explosion`, which a missile carries as its
      explosion hook: the first call for a missile creates its explosion — an
      area-of-effect sprite of the missile's explosion radius, alive for
      `hitLifetime` — and marks the missile exploded; later calls create
      nothing. */
  method CreateExplosion(missile: Projectiles.ProjectileAbility, hitLifetime: real)
      returns (explosion: Option<Projectiles.ProjectileAbility>)
    requires missile.explosionRadius.Some?
    modifies missile`hasExploded
    ensures missile.hasExploded
    ensures explosion.Some? <==> !old(missile.hasExploded)
    ensures explosion.Some? ==>
      fresh(explosion.value) && fresh(explosion.value.base) &&
      IsBlastOf(explosion.value, missile, missile.explosionRadius.value, hitLifetime, true) &&
      (missile.explosionRadius.value > 0.0 ==> explosion.value.Valid())
  {
    explosion := None;
    if !missile.hasExploded {
      var r := missile.explosionRadius.value;
      var e := new Projectiles.ProjectileAbility(missile.base.rect.Center(), 0.0, Zero,
                                                 Vec2(r * 2.0, r * 2.0), missile.explosionDamage,
                                                 hitLifetime);
      e.radius := Some(r);
      explosion := Some(e);
      missile.hasExploded := true;
    }
  }

  /** `LaserBeam.create_hit_effect`, which a segment carries as its hit
      hook: the first call for a segment creates its hit effect — a contact
      sprite: the radius is stored under a misspelt attribute name, so the
      sprite has no area radius — and marks the segment hit. */
  method CreateHitEffect(laser: Projectiles.ProjectileAbility, hitLifetime: real)
      returns (effect: Option<Projectiles.ProjectileAbility>)
    requires laser.explosionRadius.Some?
    modifies laser`hasHit
    ensures laser.hasHit
    ensures effect.Some? <==> !old(laser.hasHit)
    ensures effect.Some? ==>
      fresh(effect.value) && fresh(effect.value.base) && effect.value.Valid() &&
      IsBlastOf(effect.value, laser, laser.explosionRadius.value, hitLifetime, false)
  {
    effect := None;
    if !laser.hasHit {
      var r := laser.explosionRadius.value;
      var e := new Projectiles.ProjectileAbility(laser.base.rect.Center(), 0.0, Zero,
                                                 Vec2(r * 2.0, r * 2.0), laser.explosionDamage,
                                                 hitLifetime);
      effect := Some(e);
      laser.hasHit := true;
    }
  }

  /** Every segment carries an equal share of the beam's damage, so a beam
      of `numSegments` segments never deals more in total than the laser's
      damage, and exactly that when every segment is on screen. */
  lemma LaserDamageShare(damage: real, numSegments: nat, created: nat)
    requires 0.0 <= damage && 0 < numSegments && created <= numSegments
    ensures 0.0 <= (created as real) * (damage / (numSegments as real)) <= damage
    ensures created == numSegments ==> (created as real) * (damage / (numSegments as real)) == damage
  {
    var share := damage / (numSegments as real);
    assert share * (numSegments as real) == damage;
    assert 0.0 <= share;
    assert (numSegments as real) * share - (created as real) * share == ((numSegments - created) as real) * share;
  }

  // ------------------------------------------------------------ critical shot

  class CriticalShot {
    const shotSpeed: real
    const criticalDamage: real
    const lifetime: real

    /** Three times the abilities' default speed and five times their
        default damage. */
    constructor (defaultSpeed: real, defaultDamage: real, criticalShotLifetime: real)
      ensures shotSpeed == defaultSpeed * 3.0 && criticalDamage == defaultDamage * 5.0
      ensures lifetime == criticalShotLifetime
    {
      shotSpeed := defaultSpeed * 3.0;
      criticalDamage := defaultDamage * 5.0;
      lifetime := criticalShotLifetime;
    }

    /** One shot from the origin straight toward the target, with no walk. */
    method Generate(agent: Rect, projectileOrigin: Option<Vec2>, target: Vec2, lib: Lib)
        returns (fired: bool, added: Projectiles.ProjectileAbility)
      requires lib.Valid()
      ensures fired && fresh(added) && fresh(added.base)
      ensures var origin := Origin(agent, projectileOrigin);
        var angle := ShotAngles.ShotAngle(origin, target, lib);
        added.base.position == origin && added.angle == angle &&
        added.base.velocity == lib.Direction(angle).Scale(shotSpeed) &&
        added.base.rect == RectAt(origin, CRITICAL_SHOT_SIZE) &&
        added.base.damage == criticalDamage && added.lifetime == lifetime &&
        added.base.alive && added.hook == Projectiles.NoHook && added.radius.None? && added.Valid()
    {
      var origin := Origin(agent, projectileOrigin);
      var angle := ShotAngles.ShotAngle(origin, target, lib);
      var velocity := lib.Direction(angle).Scale(shotSpeed);
      added := new Projectiles.ProjectileAbility(origin, angle, velocity, CRITICAL_SHOT_SIZE,
                                                 criticalDamage, lifetime);
      fired := true;
    }
  }
}
