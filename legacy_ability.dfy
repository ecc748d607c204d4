/** The first-generation abilities (one file of the source): a timed sprite,
    and three generators built on it — a fan of missiles that explode on
    contact, a laser beam made of short-lived segments, and a single critical
    shot. */
module LegacyAbility {
  import opened Geometry
  import ShotAngles
  import Spawning

  /** The segments of a laser: `int(WIDTH * 9 / SEGMENT_LASER_LENGTH)`. */
  const SEGMENT_LASER_LENGTH: real := 20.0
  const NUM_LASER_SEGMENTS: nat := 360
  /** The distance between consecutive segment start points, written
      `(i * SEGMENT_LASER_LENGTH) * 0.15` per segment. */
  const SEGMENT_SPACING: real := SEGMENT_LASER_LENGTH * 0.15
  const EXPLOSION_RADIUS: real := 100.0
  const EXPLOSION_LIFETIME: real := 0.5

  lemma NumLaserSegmentsValue()
    ensures NUM_LASER_SEGMENTS == Trunc(WIDTH * 9.0 / SEGMENT_LASER_LENGTH)
  {
  }

  /** A straight-flying sprite with an optional lifetime. Besides its own
      state it carries the attributes that the generators attach to it after
      construction. */
  class Ability {
    var position: Vec2
    /** The rotation of the image, in radians. */
    const angle: real
    const velocity: Vec2
    var rect: Rect
    const damage: real
    const lifetime: Option<real>
    var timeAlive: real
    var alive: bool
    // attached by the generator that creates the sprite
    var explosionRadius: Option<real>
    var explosionDamage: real
    var callback: ExplosionCallback
    var hasExploded: bool
    /** Present on area-of-effect sprites only (the missile explosion). */
    var radius: Option<real>

    constructor (position: Vec2, angle: real, velocity: Vec2, size: Vec2, damage: real,
                 lifetime: Option<real>)
      ensures this.position == position && this.angle == angle && this.velocity == velocity
      ensures rect == RectAt(position, size) && this.damage == damage && this.lifetime == lifetime
      ensures timeAlive == 0.0 && alive
      ensures explosionRadius.None? && explosionDamage == 0.0 && callback == NoCallback
      ensures !hasExploded && radius.None?
    {
      this.position := position;
      this.angle := angle;
      this.velocity := velocity;
      this.rect := RectAt(position, size);
      this.damage := damage;
      this.lifetime := lifetime;
      this.timeAlive := 0.0;
      this.alive := true;
      this.explosionRadius := None;
      this.explosionDamage := 0.0;
      this.callback := NoCallback;
      this.hasExploded := false;
      this.radius := None;
    }

    /** Whether a sprite of this lifetime and age is due to die. */
    predicate Expired(age: real) {
      lifetime.Some? && age >= lifetime.value
    }

    /** One frame, its length scaled by `speedMultiplier`: a sprite with a
        lifetime ages, and dies without moving once its age reaches the
        lifetime; otherwise it moves and is killed when off screen. */
    method Update(dt: real, speedMultiplier: real)
      modifies this`position, this`rect, this`timeAlive, this`alive
      ensures var d := dt * speedMultiplier;
        timeAlive == (if lifetime.Some? then old(timeAlive) + d else old(timeAlive))
      ensures Expired(timeAlive) ==>
        !alive && position == old(position) && rect == old(rect)
      ensures !Expired(timeAlive) ==>
        position == old(position).Plus(velocity.Scale(dt * speedMultiplier)) &&
        rect == old(rect).WithCenter(position) &&
        alive == (old(alive) && !OffScreen(rect))
    {
      var d := dt * speedMultiplier;
      if lifetime.Some? {
        timeAlive := timeAlive + d;
        if timeAlive >= lifetime.value {
          alive := false;
          return;
        }
      }
      position := position.Plus(velocity.Scale(d));
      rect := rect.WithCenter(position);
      HandleBounds();
    }

    method HandleBounds()
      modifies this`alive
      ensures alive == (old(alive) && !OffScreen(rect))
    {
      if rect.Right() < 0.0 || rect.Left() > WIDTH || rect.Bottom() < 0.0 || rect.Top() > HEIGHT {
        alive := false;
      }
    }
  }

  /** The explosion sprite a callback creates for the sprite `s`: a still
      2r x 2r sprite centred on `s`, dealing `s`'s explosion damage and
      living half a second. */
  ghost predicate IsExplosionOf(e: Ability, s: Ability, r: real, area: bool)
    reads e, s
  {
    e.position == s.rect.Center() && e.angle == 0.0 && e.velocity == Zero &&
    e.rect == RectAt(s.rect.Center(), Vec2(r * 2.0, r * 2.0)) &&
    e.damage == s.explosionDamage && e.lifetime == Some(EXPLOSION_LIFETIME) &&
    e.timeAlive == 0.0 && e.alive && e.callback == NoCallback &&
    e.radius == (if area then Some(r) else None)
  }

  // ------------------------------------------------------------ missiles

  /** Fires `numMissiles` missiles in a fan `angleSpread` apart, centred on
      the direction of the target. */
  class MissileBarrage {
    const missileSpeed: real
    const missileSize: Vec2
    const missileDamage: real
    const numMissiles: nat
    /** The spread between neighbouring missiles, in radians. */
    const angleSpread: real
    const explosionRadius: real

    /** `angleSpreadDegrees` is converted to radians. */
    constructor (missileSpeed: real, missileSize: Vec2, missileDamage: real, numMissiles: nat,
                 angleSpreadDegrees: real, explosionRadius: real)
      ensures this.missileSpeed == missileSpeed && this.missileSize == missileSize
      ensures this.missileDamage == missileDamage && this.numMissiles == numMissiles
      ensures angleSpread == angleSpreadDegrees * (PI / 180.0)
      ensures this.explosionRadius == explosionRadius
    {
      this.missileSpeed := missileSpeed;
      this.missileSize := missileSize;
      this.missileDamage := missileDamage;
      this.numMissiles := numMissiles;
      this.angleSpread := angleSpreadDegrees * (PI / 180.0);
      this.explosionRadius := explosionRadius;
    }

    /** Missile `i` of a barrage fired from the box `agent` toward `target`:
        its angle is the `i`-th fan angle brought into [0, 2pi] by `turns` full
        turns, it flies at `missileSpeed` along that angle, it was walked
        `steps` frame-steps out to the first position clear of the agent, and
        it carries the explosion attributes. */
    ghost predicate IsMissile(m: Ability, i: nat, steps: nat, turns: int,
                              agent: Rect, target: Vec2, dt: real, lib: Lib)
      requires lib.Valid()
      reads m
    {
      var origin := agent.Center();
      var fan := ShotAngles.FanAngle(ShotAngles.ShotAngle(origin, target, lib), numMissiles, angleSpread, i);
      var step := m.velocity.Scale(dt);
      0.0 <= m.angle <= TAU && m.angle == fan + (turns as real) * TAU &&
      m.velocity == lib.Direction(m.angle).Scale(missileSpeed) &&
      steps >= 1 && m.position == Spawning.StepPos(origin, step, steps) &&
      m.rect == RectAt(m.position, missileSize) && !Collide(agent, m.rect) &&
      (forall j :: 1 <= j < steps ==> Collide(agent, RectAt(Spawning.StepPos(origin, step, j), missileSize))) &&
      m.alive && m.damage == missileDamage && m.lifetime.None? && m.timeAlive == 0.0 &&
      m.explosionRadius == Some(explosionRadius) && m.explosionDamage == missileDamage * 0.8 &&
      m.callback == MissileExplosion && !m.hasExploded && m.radius.None?
    }

    /** Fires the barrage: one new missile per fan angle, in fan order. */
    method Generate(agent: Rect, target: Vec2, dt: real, lib: Lib)
        returns (fired: bool, added: seq<Ability>, ghost steps: seq<nat>, ghost turns: seq<int>)
      requires lib.Valid() && missileSpeed != 0.0 && dt != 0.0
      ensures fired
      ensures |added| == numMissiles && |steps| == numMissiles && |turns| == numMissiles
      ensures forall i, j :: 0 <= i < j < |added| ==> added[i] != added[j]
      ensures forall i :: 0 <= i < |added| ==>
        fresh(added[i]) && IsMissile(added[i], i, steps[i], turns[i], agent, target, dt, lib)
    {
      added, steps, turns := [], [], [];
      for i := 0 to numMissiles
        invariant |added| == i && |steps| == i && |turns| == i
        invariant forall a, b :: 0 <= a < b < i ==> added[a] != added[b]
        invariant forall a :: 0 <= a < i ==>
          fresh(added[a]) && IsMissile(added[a], a, steps[a], turns[a], agent, target, dt, lib)
      {
        var missile, n, k := Launch(i, agent, target, dt, lib);
        added, steps, turns := added + [missile], steps + [n], turns + [k];
      }
      fired := true;
    }

    /** Creates missile `i` of a barrage. */
    method Launch(i: nat, agent: Rect, target: Vec2, dt: real, lib: Lib)
        returns (missile: Ability, ghost steps: nat, ghost turns: int)
      requires lib.Valid() && missileSpeed != 0.0 && dt != 0.0
      ensures fresh(missile) && IsMissile(missile, i, steps, turns, agent, target, dt, lib)
    {
      var origin := agent.Center();
      var centerAngle := ShotAngles.ShotAngle(origin, target, lib);
      var startAngle := centerAngle - ((numMissiles as real - 1.0) / 2.0) * angleSpread;
      var missileAngle;
      missileAngle, turns := ShotAngles.NormalizeAngle(startAngle + (i as real) * angleSpread);
      var velocity := lib.Direction(missileAngle).Scale(missileSpeed);
      var step := velocity.Scale(dt);
      DirectionNonZero(lib, missileAngle, missileSpeed * dt);
      assert step == lib.Direction(missileAngle).Scale(missileSpeed * dt);
      var position;
      position, steps := Spawning.SelfCollisionWalk(origin, step, missileSize, agent);
      missile := new Ability(position, missileAngle, velocity, missileSize, missileDamage, None);
      missile.explosionRadius := Some(explosionRadius);
      missile.explosionDamage := missileDamage * 0.8;
      missile.callback := MissileExplosion;
      missile.hasExploded := false;
    }

    /** The first call for a missile creates its explosion — an
        area-of-effect sprite of radius `explosionRadius` — and marks the
        missile exploded; later calls create nothing. */
    method CreateExplosion(missile: Ability) returns (explosion: Option<Ability>)
      requires missile.explosionRadius.Some?
      modifies missile`hasExploded
      ensures missile.hasExploded
      ensures explosion.Some? <==> !old(missile.hasExploded)
      ensures explosion.Some? ==>
        fresh(explosion.value) &&
        IsExplosionOf(explosion.value, missile, missile.explosionRadius.value, true)
    {
      explosion := None;
      if !missile.hasExploded {
        var r := missile.explosionRadius.value;
        var e := new Ability(missile.rect.Center(), 0.0, Zero, Vec2(r * 2.0, r * 2.0),
                             missile.explosionDamage, Some(EXPLOSION_LIFETIME));
        e.radius := Some(r);
        explosion := Some(e);
        missile.hasExploded := true;
      }
    }
  }

  // ------------------------------------------------------------ laser

  /** A beam of up to 360 segments laid along the direction of the target. */
  class LaserBeam {
    const damage: real
    const duration: real
    const widthLaser: real
    const lifetime: Option<real>
    /** The size of a segment image, `(SEGMENT_LASER_LENGTH, int(width * 3))`. */
    const segmentSize: Vec2

    constructor (damage: real, duration: real, widthLaser: real, lifetime: Option<real>)
      ensures this.damage == damage && this.duration == duration && this.widthLaser == widthLaser
      ensures this.lifetime == lifetime
      ensures segmentSize == Vec2(SEGMENT_LASER_LENGTH, Trunc(widthLaser * 3.0) as real)
    {
      this.damage := damage;
      this.duration := duration;
      this.widthLaser := widthLaser;
      this.lifetime := lifetime;
      segmentSize := Vec2(SEGMENT_LASER_LENGTH, Trunc(widthLaser * 3.0) as real);
    }

    /** Segment `i` of a beam from `start` along `dir`: offset sideways by
        the wave of the clock value `timeFactor`, flying along `dir`, carrying
        an equal share of the beam's damage and the laser's callback. */
    ghost predicate IsSegment(s: Ability, i: int, start: Vec2, dir: Vec2, timeFactor: real, lib: Lib)
      reads s
    {
      s.position == ShotAngles.SegmentPos(lib, start, dir, SEGMENT_SPACING, timeFactor, widthLaser, i) &&
      s.angle == lib.atan2(dir.y, dir.x) && s.velocity == dir &&
      s.rect == RectAt(s.position, segmentSize) &&
      s.damage == damage / (NUM_LASER_SEGMENTS as real) && s.lifetime == lifetime &&
      s.timeAlive == 0.0 && s.alive &&
      s.explosionRadius == Some(EXPLOSION_RADIUS) && s.explosionDamage == 0.0 &&
      s.callback == LaserExplosion && !s.hasExploded && s.radius.None?
    }

    /** Fires the beam from an agent whose box is `agent`: the beam starts
        half the agent's width out from its centre, and segment `i` is created
        exactly when its start point lies on the screen; `indices` lists the
        segments created, in order. */
    method Generate(agent: Rect, target: Vec2, timeFactor: real, lib: Lib)
        returns (fired: bool, added: seq<Ability>, ghost indices: seq<int>)
      requires lib.Valid()
      ensures fired
      ensures var origin := agent.Center();
        var dir := lib.Direction(ShotAngles.ShotAngle(origin, target, lib));
        var start := origin.Plus(dir.Scale(agent.w / 2.0));
        |indices| == |added| <= NUM_LASER_SEGMENTS &&
        (forall a, b :: 0 <= a < b < |indices| ==> indices[a] < indices[b]) &&
        (forall i :: 0 <= i < NUM_LASER_SEGMENTS ==>
          (i in indices <==> OnScreen(ShotAngles.SegmentStart(start, dir, SEGMENT_SPACING, i)))) &&
        (forall a :: 0 <= a < |added| ==>
          0 <= indices[a] < NUM_LASER_SEGMENTS && fresh(added[a]) &&
          IsSegment(added[a], indices[a], start, dir, timeFactor, lib))
      ensures forall a, b :: 0 <= a < b < |added| ==> added[a] != added[b]
    {
      var origin := agent.Center();
      var angle := ShotAngles.ShotAngle(origin, target, lib);
      var dir := lib.Direction(angle);
      var start := origin.Plus(dir.Scale(agent.w / 2.0));
      added, indices := CreateLaserSegments(start, dir, timeFactor, lib);
      fired := true;
    }

    method CreateLaserSegments(start: Vec2, dir: Vec2, timeFactor: real, lib: Lib)
        returns (added: seq<Ability>, ghost indices: seq<int>)
      ensures |indices| == |added| <= NUM_LASER_SEGMENTS
      ensures forall a, b :: 0 <= a < b < |indices| ==> indices[a] < indices[b]
      ensures forall i :: 0 <= i < NUM_LASER_SEGMENTS ==>
        (i in indices <==> OnScreen(ShotAngles.SegmentStart(start, dir, SEGMENT_SPACING, i)))
      ensures forall a :: 0 <= a < |added| ==>
        0 <= indices[a] < NUM_LASER_SEGMENTS && fresh(added[a]) &&
        IsSegment(added[a], indices[a], start, dir, timeFactor, lib)
      ensures forall a, b :: 0 <= a < b < |added| ==> added[a] != added[b]
    {
      added, indices := [], [];
      for i := 0 to NUM_LASER_SEGMENTS
        invariant |indices| == |added| <= i
        invariant forall a, b :: 0 <= a < b < |indices| ==> indices[a] < indices[b]
        invariant forall a :: 0 <= a < |indices| ==> 0 <= indices[a] < i
        invariant forall j :: 0 <= j < i ==> (j in indices <==> OnScreen(ShotAngles.SegmentStart(start, dir, SEGMENT_SPACING, j)))
        invariant forall a :: 0 <= a < |added| ==>
          fresh(added[a]) && IsSegment(added[a], indices[a], start, dir, timeFactor, lib)
        invariant forall a, b :: 0 <= a < b < |added| ==> added[a] != added[b]
      {
        var segmentStart := ShotAngles.SegmentStart(start, dir, SEGMENT_SPACING, i);
        if !(0.0 <= segmentStart.x <= WIDTH && 0.0 <= segmentStart.y <= HEIGHT) {
          continue;
        }
        var segment := NewSegment(start, dir, i, timeFactor, lib);
        added, indices := added + [segment], indices + [i];
      }
    }

    /** Creates segment `i` of a beam. */
    method NewSegment(start: Vec2, dir: Vec2, i: int, timeFactor: real, lib: Lib) returns (segment: Ability)
      ensures fresh(segment) && IsSegment(segment, i, start, dir, timeFactor, lib)
    {
      var segmentPos := ShotAngles.SegmentPos(lib, start, dir, SEGMENT_SPACING, timeFactor, widthLaser, i);
      segment := new Ability(segmentPos, lib.atan2(dir.y, dir.x), dir, segmentSize,
                             damage / (NUM_LASER_SEGMENTS as real), lifetime);
      segment.explosionRadius := Some(EXPLOSION_RADIUS);
      segment.explosionDamage := 0.0;
      segment.callback := LaserExplosion;
      segment.hasExploded := false;
    }

    /** The first call for a segment creates its explosion — a contact
        sprite: the radius is stored under a misspelt attribute name, so the
        sprite has no area radius — and marks the segment exploded. */
    method CreateExplosion(laser: Ability) returns (explosion: Option<Ability>)
      requires laser.explosionRadius.Some?
      modifies laser`hasExploded
      ensures laser.hasExploded
      ensures explosion.Some? <==> !old(laser.hasExploded)
      ensures explosion.Some? ==>
        fresh(explosion.value) &&
        IsExplosionOf(explosion.value, laser, laser.explosionRadius.value, false)
    {
      explosion := None;
      if !laser.hasExploded {
        var r := laser.explosionRadius.value;
        var e := new Ability(laser.rect.Center(), 0.0, Zero, Vec2(r * 2.0, r * 2.0),
                             laser.explosionDamage, Some(EXPLOSION_LIFETIME));
        explosion := Some(e);
        laser.hasExploded := true;
      }
    }
  }

  // ------------------------------------------------------------ critical shot

  /** A single straight shot from the agent's centre, with no walk. The
      sprite is the glow surface around the shot's image, so its box has the
      glow border's size. */
  class CriticalShot {
    const shotSpeed: real
    const criticalDamage: real
    /** Assigned by each shot and read nowhere. */
    var boostedDamage: real

    constructor (shotSpeed: real, criticalDamage: real)
      ensures this.shotSpeed == shotSpeed
      ensures this.criticalDamage == criticalDamage && boostedDamage == 0.0
    {
      this.shotSpeed := shotSpeed;
      this.criticalDamage := criticalDamage;
      this.boostedDamage := 0.0;
    }

    method Generate(agent: Rect, target: Vec2, lib: Lib) returns (fired: bool, added: Ability)
      requires lib.Valid()
      modifies this`boostedDamage
      ensures fired && fresh(added)
      ensures var angle := ShotAngles.ShotAngle(agent.Center(), target, lib);
        added.position == agent.Center() && added.angle == angle &&
        added.velocity == lib.Direction(angle).Scale(shotSpeed) &&
        added.rect == RectAt(agent.Center(), CRITICAL_SHOT_SIZE) &&
        added.damage == criticalDamage && added.lifetime.None? && added.alive &&
        added.callback == NoCallback && added.radius.None?
      ensures boostedDamage == criticalDamage * 1.5
    {
      var origin := agent.Center();
      var angle := ShotAngles.ShotAngle(origin, target, lib);
      var velocity := lib.Direction(angle).Scale(shotSpeed);
      added := new Ability(origin, angle, velocity, CRITICAL_SHOT_SIZE, criticalDamage, None);
      boostedDamage := criticalDamage * 1.5;
      fired := true;
    }
  }
}
