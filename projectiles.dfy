/** The second-generation projectile hierarchy: two base classes holding
    position, velocity, box and damage; the enemies' normal shot and falling
    bomb; the timed sprites fired by abilities; and the generator that fires
    normal shots or bombs at a fixed rate.

    A subclass holds its base-class state as a `core` object and calls the
    base-class helpers on it, in the order the subclass's `update` does. */
module Projectiles {
  import opened Geometry
  import ShotAngles
  import Spawning

  // ------------------------------------------------------------ base classes

  /** The base of the enemies' projectiles: moves, is culled off screen, and
      damages the player on contact. */
  class AbstractProjectile {
    var position: Vec2
    const velocity: Vec2
    var rect: Rect
    const damage: real
    /** False once the sprite has been killed (removed from every group). */
    var alive: bool

    constructor (position: Vec2, velocity: Vec2, size: Vec2, damage: real)
      ensures this.position == position && this.velocity == velocity && this.damage == damage
      ensures rect == RectAt(position, size) && alive
    {
      this.position := position;
      this.velocity := velocity;
      this.rect := RectAt(position, size);
      this.damage := damage;
      this.alive := true;
    }

    /** On contact with the player's box the player takes `damage` (the
        returned amount) and the projectile is killed; otherwise nothing
        happens. */
    method ComputeCollision(player: Rect) returns (inflicted: Option<real>)
      modifies this`alive
      ensures inflicted == (if Collide(rect, player) then Some(damage) else None)
      ensures alive == (old(alive) && !Collide(rect, player))
    {
      inflicted := None;
      if Collide(rect, player) {
        inflicted := Some(damage);
        alive := false;
      }
    }

    method Move(dt: real)
      modifies this`position, this`rect
      ensures position == old(position).Plus(velocity.Scale(dt))
      ensures rect == old(rect).WithCenter(position)
    {
      position := position.Plus(velocity.Scale(dt));
      rect := rect.WithCenter(position);
    }

    method HandleBounds()
      modifies this`alive
      ensures alive == (old(alive) && !OffScreen(rect))
    {
      if rect.Right() < 0.0 || rect.Left() > WIDTH || rect.Bottom() < 0.0 || rect.Top() > HEIGHT {
        alive := false;
      }
    }
  }

  /** The damage the projectiles overlapping `r` deal, in group order. */
  function DamageTaken(r: Rect, shots: seq<AbstractProjectile>): real
    reads shots`rect
  {
    if shots == [] then 0.0
    else DamageTaken(r, shots[..|shots| - 1]) +
         (if Collide(r, shots[|shots| - 1].rect) then shots[|shots| - 1].damage else 0.0)
  }

  /** No overlap, no damage; non-negative damages never heal. */
  lemma {:induction false} DamageTakenBounds(r: Rect, shots: seq<AbstractProjectile>)
    requires forall i :: 0 <= i < |shots| ==> shots[i].damage >= 0.0
    ensures DamageTaken(r, shots) >= 0.0
    ensures (forall i :: 0 <= i < |shots| ==> !Collide(r, shots[i].rect)) ==> DamageTaken(r, shots) == 0.0
    decreases |shots|
  {
    if shots != [] {
      var init := shots[..|shots| - 1];
      assert forall i :: 0 <= i < |init| ==> init[i] == shots[i];
      DamageTakenBounds(r, init);
    }
  }

  /** The loop the player's and the enemies' `_compute_damage` share: every
      projectile of the group overlapping `r` is killed, and the damage they
      deal is returned for the caller to take off its health. */
  method ResolveHits(r: Rect, shots: seq<AbstractProjectile>) returns (taken: real)
    requires forall i, j :: 0 <= i < j < |shots| ==> shots[i] != shots[j]
    modifies shots`alive
    ensures taken == old(DamageTaken(r, shots))
    ensures forall i :: 0 <= i < |shots| ==>
      shots[i].alive == (old(shots[i].alive) && !Collide(r, shots[i].rect))
    ensures forall i :: 0 <= i < |shots| ==> shots[i].rect == old(shots[i].rect)
  {
    taken := 0.0;
    for i := 0 to |shots|
      invariant forall j :: 0 <= j < |shots| ==> shots[j].rect == old(shots[j].rect)
      invariant forall j :: 0 <= j < i ==> shots[j].alive == (old(shots[j].alive) && !Collide(r, shots[j].rect))
      invariant forall j :: i <= j < |shots| ==> shots[j].alive == old(shots[j].alive)
      invariant taken == old(DamageTaken(r, shots[..i]))
    {
      assert shots[..i + 1][..i] == shots[..i];
      if Collide(r, shots[i].rect) {
        taken := taken + shots[i].damage;
        shots[i].alive := false;
      }
    }
    assert shots[..|shots|] == shots;
  }

  /** The base of the abilities' projectiles: culled off screen; movement is
      left to the subclass. */
  class BaseProjectile {
    var position: Vec2
    const velocity: Vec2
    var rect: Rect
    const damage: real
    var alive: bool

    constructor (position: Vec2, velocity: Vec2, size: Vec2, damage: real)
      ensures this.position == position && this.velocity == velocity && this.damage == damage
      ensures rect == RectAt(position, size) && alive
    {
      this.position := position;
      this.velocity := velocity;
      this.rect := RectAt(position, size);
      this.damage := damage;
      this.alive := true;
    }

    method HandleBounds()
      modifies this`alive
      ensures alive == (old(alive) && !OffScreen(rect))
    {
      if rect.Right() < 0.0 || rect.Left() > WIDTH || rect.Bottom() < 0.0 || rect.Top() > HEIGHT {
        alive := false;
      }
    }
  }

  // --------------------------------------------------------- enemy projectiles

  /** A straight shot stopped by the screen edge and by the terrain. */
  class NormalProjectile {
    const core: AbstractProjectile

    constructor (position: Vec2, velocity: Vec2, size: Vec2, damage: real)
      ensures fresh(core) && core.position == position && core.velocity == velocity
      ensures core.damage == damage && core.rect == RectAt(position, size) && core.alive
    {
      core := new AbstractProjectile(position, velocity, size, damage);
    }

    /** Move, then die when off screen or overlapping any terrain block (an
        empty terrain group is skipped). */
    method Update(dt: real, terrain: seq<Rect>)
      modifies core`position, core`rect, core`alive
      ensures core.position == old(core.position).Plus(core.velocity.Scale(dt))
      ensures core.rect == old(core.rect).WithCenter(core.position)
      ensures core.alive == (old(core.alive) && !OffScreen(core.rect) && Hits(core.rect, terrain) == [])
    {
      core.Move(dt);
      core.HandleBounds();
      if terrain != [] {
        var hits := Hits(core.rect, terrain);
        if hits != [] {
          core.alive := false;
        }
      }
    }
  }

  /** A bomb that falls until it meets the terrain or the player, then
      explodes once: the explosion is a 2r x 2r box centred on the bomb, which
      damages the player if it overlaps the player's box, and the bomb is
      killed one explosion duration later. */
  class BombProjectile {
    const core: AbstractProjectile
    const explosionRadius: real
    var exploded: bool
    var explosionTime: real
    const explosionDuration: real
    var explosionRect: Option<Rect>
    /** How many times this bomb has damaged the player. */
    ghost var inflictions: nat

    ghost predicate Valid()
      reads this
    {
      inflictions <= 1 &&
      (!exploded ==> inflictions == 0 && explosionRect.None?) &&
      (exploded ==> explosionRect.Some?)
    }

    constructor (position: Vec2, velocity: Vec2, size: Vec2, damage: real, explosionRadius: real)
      ensures Valid() && fresh(core)
      ensures core.position == position && core.velocity == velocity && core.damage == damage
      ensures core.rect == RectAt(position, size) && core.alive
      ensures this.explosionRadius == explosionRadius && !exploded
      ensures explosionTime == 0.0 && explosionDuration == 1.0 && inflictions == 0
    {
      core := new AbstractProjectile(position, velocity, size, damage);
      this.explosionRadius := explosionRadius;
      exploded := false;
      explosionTime := 0.0;
      explosionDuration := 1.0;
      explosionRect := None;
      inflictions := 0;
    }

    /** The box of the explosion of a bomb whose box is `r`. */
    function ExplosionBox(r: Rect): Rect {
      RectAt(r.Center(), Vec2(explosionRadius * 2.0, explosionRadius * 2.0))
    }

    method TriggerExplosion(player: Option<Rect>) returns (inflicted: Option<real>)
      requires Valid() && !exploded
      modifies this`exploded, this`explosionRect, this`inflictions
      ensures Valid() && exploded && explosionRect == Some(ExplosionBox(core.rect))
      ensures inflicted == (if player.Some? && Collide(ExplosionBox(core.rect), player.value)
                            then Some(core.damage) else None)
      ensures inflictions == old(inflictions) + (if inflicted.Some? then 1 else 0)
    {
      exploded := true;
      var box := RectAt(core.rect.Center(), Vec2(explosionRadius * 2.0, explosionRadius * 2.0));
      explosionRect := Some(box);
      inflicted := None;
      if player.Some? && Collide(box, player.value) {
        inflicted := Some(core.damage);
        inflictions := inflictions + 1;
      }
    }

    /** Before the explosion: fall by `velocity * dt`; on meeting terrain, rest
        the bomb's bottom on the top of the first block hit and explode
        (damaging `player` if the blast reaches it). After the explosion: count
        the explosion time and die once it reaches the duration. */
    method Update(dt: real, terrain: seq<Rect>, player: Option<Rect>) returns (inflicted: Option<real>)
      requires Valid()
      modifies this`exploded, this`explosionRect, this`inflictions, this`explosionTime
      modifies core`position, core`rect, core`alive
      ensures Valid()
      ensures inflicted.Some? ==> !old(exploded) && exploded
      ensures !old(exploded) ==>
        var moved := old(core.rect).WithCenter(old(core.position).Plus(core.velocity.Scale(dt)));
        var hits := Hits(moved, terrain);
        core.position == old(core.position).Plus(core.velocity.Scale(dt)) &&
        core.alive == old(core.alive) && explosionTime == old(explosionTime) &&
        (hits == [] ==> core.rect == moved && !exploded && inflicted.None?) &&
        (hits != [] ==>
          core.rect == moved.WithBottom(hits[0].Top()) && exploded &&
          explosionRect == Some(ExplosionBox(core.rect)) &&
          inflicted == (if player.Some? && Collide(ExplosionBox(core.rect), player.value)
                        then Some(core.damage) else None))
      ensures old(exploded) ==>
        exploded && inflicted.None? && explosionTime == old(explosionTime) + dt &&
        core.position == old(core.position) && core.rect == old(core.rect) &&
        core.alive == (old(core.alive) && explosionTime < explosionDuration)
    {
      inflicted := None;
      if !exploded {
        core.Move(dt);
        if terrain != [] {
          var hits := Hits(core.rect, terrain);
          if hits != [] {
            core.rect := core.rect.WithBottom(hits[0].Top());
            inflicted := TriggerExplosion(player);
          }
        }
      } else {
        explosionTime := explosionTime + dt;
        if explosionTime >= explosionDuration {
          core.alive := false;
        }
      }
    }

    /** Contact with the player's box explodes a bomb that has not exploded
        yet; an exploded bomb ignores further contact. */
    method ComputeCollision(player: Rect) returns (inflicted: Option<real>)
      requires Valid()
      modifies this`exploded, this`explosionRect, this`inflictions
      ensures Valid()
      ensures inflicted.Some? ==> !old(exploded) && exploded
      ensures !old(exploded) && Collide(core.rect, player) ==>
        exploded && explosionRect == Some(ExplosionBox(core.rect)) &&
        inflicted == (if Collide(ExplosionBox(core.rect), player) then Some(core.damage) else None)
      ensures old(exploded) || !Collide(core.rect, player) ==>
        inflicted.None? && exploded == old(exploded) && explosionRect == old(explosionRect) &&
        inflictions == old(inflictions)
    {
      inflicted := None;
      if !exploded && Collide(core.rect, player) {
        inflicted := TriggerExplosion(Some(player));
      }
    }
  }

  /** A projectile of the enemies' projectile group. */
  datatype EnemyShot = Normal(normal: NormalProjectile) | Bomb(bomb: BombProjectile) {
    function Core(): AbstractProjectile {
      if Normal? then normal.core else bomb.core
    }
  }

  // ------------------------------------------------------ ability projectiles

  /** What an enemy hit by an ability sprite calls on it: nothing, the missile
      barrage's `create_explosion`, or the laser's `create_hit_effect`; each
      creates an effect sprite that lives `hitLifetime` seconds. */
  datatype HitHook = NoHook | ExplosionHook(hitLifetime: real) | HitEffectHook(hitLifetime: real)

  /** A timed, straight-flying ability sprite (missile, laser segment,
      critical shot, explosion). Besides its own state it carries the
      attributes that abilities attach to it after construction. */
  class ProjectileAbility {
    const base: BaseProjectile
    /** The rotation of the sprite image, in radians. */
    const angle: real
    const lifetime: real
    var timeAlive: real
    // attached by the abilities that create the sprite
    var explosionRadius: Option<real>
    var explosionDamage: real
    var hook: HitHook
    var hasExploded: bool
    var hasHit: bool
    /** Present on area-of-effect sprites only (the missile explosion). */
    var radius: Option<real>

    /** The attributes an enemy's damage computation relies on: a hook comes
        with a positive explosion radius, and an area radius is positive. */
    ghost predicate Valid()
      reads this
    {
      (hook != NoHook ==> explosionRadius.Some? && explosionRadius.value > 0.0) &&
      (radius.Some? ==> radius.value > 0.0)
    }

    constructor (position: Vec2, angle: real, velocity: Vec2, size: Vec2, damage: real, lifetime: real)
      ensures Valid() && fresh(base)
      ensures base.position == position && base.velocity == velocity && base.damage == damage
      ensures base.rect == RectAt(position, size) && base.alive
      ensures this.angle == angle && this.lifetime == lifetime && timeAlive == 0.0
      ensures explosionRadius.None? && hook == NoHook && radius.None?
      ensures !hasExploded && !hasHit && explosionDamage == 0.0
    {
      base := new BaseProjectile(position, velocity, size, damage);
      this.angle := angle;
      this.lifetime := lifetime;
      timeAlive := 0.0;
      explosionRadius := None;
      explosionDamage := 0.0;
      hook := NoHook;
      hasExploded := false;
      hasHit := false;
      radius := None;
    }

    /** Age the sprite by `dt`; once its age reaches the lifetime it is killed
        without moving, otherwise it moves by `velocity * dt`. It is not culled
        off screen. */
    method Update(dt: real)
      modifies this`timeAlive, base`position, base`rect, base`alive
      ensures timeAlive == old(timeAlive) + dt
      ensures timeAlive >= lifetime ==>
        !base.alive && base.position == old(base.position) && base.rect == old(base.rect)
      ensures timeAlive < lifetime ==>
        base.alive == old(base.alive) &&
        base.position == old(base.position).Plus(base.velocity.Scale(dt)) &&
        base.rect == old(base.rect).WithCenter(base.position)
    {
      timeAlive := timeAlive + dt;
      if timeAlive >= lifetime {
        base.alive := false;
        return;
      }
      Move(dt);
    }

    method Move(dt: real)
      modifies base`position, base`rect
      ensures base.position == old(base.position).Plus(base.velocity.Scale(dt))
      ensures base.rect == old(base.rect).WithCenter(base.position)
    {
      base.position := base.position.Plus(base.velocity.Scale(dt));
      base.rect := base.rect.WithCenter(base.position);
    }
  }

  /** The same timed sprite built on `AbstractProjectile` (the class named
      `ProjectileAbility` in the file AbilityProjectile.py). */
  class AbilityProjectile {
    const core: AbstractProjectile
    const angle: real
    const lifetime: real
    var timeAlive: real

    constructor (position: Vec2, angle: real, velocity: Vec2, size: Vec2, damage: real, lifetime: real)
      ensures fresh(core) && core.position == position && core.velocity == velocity
      ensures core.damage == damage && core.rect == RectAt(position, size) && core.alive
      ensures this.angle == angle && this.lifetime == lifetime && timeAlive == 0.0
    {
      core := new AbstractProjectile(position, velocity, size, damage);
      this.angle := angle;
      this.lifetime := lifetime;
      timeAlive := 0.0;
    }

    method Update(dt: real)
      modifies this`timeAlive, core`position, core`rect, core`alive
      ensures timeAlive == old(timeAlive) + dt
      ensures timeAlive >= lifetime ==>
        !core.alive && core.position == old(core.position) && core.rect == old(core.rect)
      ensures timeAlive < lifetime ==>
        core.alive == old(core.alive) &&
        core.position == old(core.position).Plus(core.velocity.Scale(dt)) &&
        core.rect == old(core.rect).WithCenter(core.position)
    {
      timeAlive := timeAlive + dt;
      if timeAlive >= lifetime {
        core.alive := false;
        return;
      }
      core.Move(dt);
    }
  }

  // ------------------------------------------------------------ the generator

  /** Fires, at most `frequency` times per second, a normal shot aimed at the
      target or (for the type "bomb") a bomb dropped straight down, from the
      centre of the agent. */
  class ProjectileGenerator {
    const projectileSpeed: real
    const frequency: real
    const projectileSize: Vec2
    const projectileDamage: real
    const projectileType: string
    const isPlayerProjectile: bool
    /** The explosion radius given to bombs. */
    const bombExplosionRadius: real
    var timeWithoutGeneration: real

    ghost predicate Valid()
      reads this
    {
      frequency > 0.0
    }

    constructor (projectileSpeed: real, frequency: real, projectileSize: Vec2, projectileDamage: real,
                 projectileType: string, isPlayerProjectile: bool, bombExplosionRadius: real)
      requires frequency > 0.0
      ensures Valid() && timeWithoutGeneration == 0.0
      ensures this.projectileSpeed == projectileSpeed && this.frequency == frequency
      ensures this.projectileSize == projectileSize && this.projectileDamage == projectileDamage
      ensures this.projectileType == projectileType && this.isPlayerProjectile == isPlayerProjectile
      ensures this.bombExplosionRadius == bombExplosionRadius
    {
      this.projectileSpeed := projectileSpeed;
      this.frequency := frequency;
      this.projectileSize := projectileSize;
      this.projectileDamage := projectileDamage;
      this.projectileType := projectileType;
      this.isPlayerProjectile := isPlayerProjectile;
      this.bombExplosionRadius := bombExplosionRadius;
      this.timeWithoutGeneration := 0.0;
    }

    /** One frame: the rate limiter decides whether a projectile is fired; a
        fired projectile starts at the agent's centre (there is no walk), a
        bomb falling at `projectileSpeed`, a normal shot flying at the shot
        angle toward `target`. */
    method Generate(agent: Rect, target: Vec2, dt: real, lib: Lib) returns (added: Option<EnemyShot>)
      requires Valid() && lib.Valid()
      modifies this`timeWithoutGeneration
      ensures var t := Spawning.RateLimit(old(timeWithoutGeneration), dt, 1.0 / frequency);
        added.Some? == t.fired && timeWithoutGeneration == t.acc
      ensures added.Some? ==>
        var c := added.value.Core();
        fresh(c) && c.alive && c.position == agent.Center() &&
        c.rect == RectAt(agent.Center(), projectileSize) && c.damage == projectileDamage
      ensures added.Some? && projectileType == "bomb" ==>
        added.value.Bomb? && fresh(added.value.bomb) && added.value.bomb.Valid() &&
        added.value.Core().velocity == Vec2(0.0, projectileSpeed) &&
        added.value.bomb.explosionRadius == bombExplosionRadius &&
        !added.value.bomb.exploded && added.value.bomb.explosionTime == 0.0
      ensures added.Some? && projectileType != "bomb" ==>
        added.value.Normal? && fresh(added.value.normal) &&
        added.value.Core().velocity ==
          lib.Direction(ShotAngles.ShotAngle(agent.Center(), target, lib)).Scale(projectileSpeed)
    {
      timeWithoutGeneration := timeWithoutGeneration + dt;
      added := None;
      if timeWithoutGeneration >= 1.0 / frequency {
        timeWithoutGeneration := 0.0;
        var origin := agent.Center();
        var angle := ShotAngles.ShotAngle(origin, target, lib);
        var velocity := lib.Direction(angle).Scale(projectileSpeed);
        if projectileType == "bomb" {
          velocity := Vec2(0.0, projectileSpeed);
          var bomb := new BombProjectile(origin, velocity, projectileSize, projectileDamage,
                                         bombExplosionRadius);
          added := Some(Bomb(bomb));
        } else {
          var normal := new NormalProjectile(origin, velocity, projectileSize, projectileDamage);
          added := Some(Normal(normal));
        }
      }
    }
  }
}
