/** The first-generation projectile and its generator (one file of the
    source): a straight-flying shot culled off screen, and a rate-limited
    generator that aims at a target and walks each new shot clear of the
    sprite firing it. */
module SimpleProjectile {
  import opened Geometry
  import ShotAngles
  import Spawning

  /** A straight-flying shot. Its box keeps the size of its image and is
      kept centred on its position. */
  class Projectile {
    var position: Vec2
    const angle: real
    const velocity: Vec2
    var rect: Rect
    const damage: real
    /** False once the sprite has been killed (removed from every group). */
    var alive: bool

    constructor (position: Vec2, angle: real, velocity: Vec2, size: Vec2, damage: real)
      ensures this.position == position && this.angle == angle && this.velocity == velocity
      ensures this.damage == damage && rect == RectAt(position, size) && alive
    {
      this.position := position;
      this.angle := angle;
      this.velocity := velocity;
      this.rect := RectAt(position, size);
      this.damage := damage;
      this.alive := true;
    }

    /** Move by `velocity * dt`, recentre the box on the new position, and
        kill the shot once its box lies wholly beyond a side of the screen. */
    method Update(dt: real)
      modifies this
      ensures position == old(position).Plus(velocity.Scale(dt))
      ensures rect == old(rect).WithCenter(position)
      ensures alive == (old(alive) && !OffScreen(rect))
    {
      position := position.Plus(velocity.Scale(dt));
      rect := rect.WithCenter(position);
      HandleBounds();
    }

    method HandleBounds()
      modifies this`alive
      ensures alive == (old(alive) && !OffScreen(rect))
    {
      if rect.Right() < 0.0 || rect.Left() > WIDTH || rect.Bottom() < 0.0 || rect.Top() > HEIGHT {
        alive := false;
      }
    }
  }

  /** Fires `frequency` shots per second at most, each of speed
      `projectileSpeed` toward a target, from the centre of the agent. */
  class ProjectileGenerator {
    const projectileSpeed: real
    const frequency: real
    /** The size of the projectile image. */
    const projectileSize: Vec2
    const projectileDamage: real
    var timeWithoutGeneration: real

    ghost predicate Valid()
      reads this
    {
      frequency > 0.0 && projectileSpeed != 0.0 && timeWithoutGeneration < 1.0 / frequency
    }

    constructor (projectileSpeed: real, frequency: real, projectileSize: Vec2, projectileDamage: real)
      requires frequency > 0.0 && projectileSpeed != 0.0
      ensures Valid() && timeWithoutGeneration == 0.0
      ensures this.projectileSpeed == projectileSpeed && this.frequency == frequency
      ensures this.projectileSize == projectileSize && this.projectileDamage == projectileDamage
    {
      this.projectileSpeed := projectileSpeed;
      this.frequency := frequency;
      this.projectileSize := projectileSize;
      this.projectileDamage := projectileDamage;
      this.timeWithoutGeneration := 0.0;
    }

    /** One frame of the generator for an agent whose box is `agent`: the
        rate limiter decides whether a shot is fired; a fired shot flies at
        the shot angle from the agent's centre to `target` and is placed `steps`
        frame-steps out, at the first position clear of the agent. */
    method Generate(agent: Rect, target: Vec2, dt: real, lib: Lib)
        returns (added: Option<Projectile>, ghost steps: nat)
      requires Valid() && lib.Valid()
      modifies this`timeWithoutGeneration
      ensures Valid()
      ensures var t := Spawning.RateLimit(old(timeWithoutGeneration), dt, 1.0 / frequency);
        added.Some? == t.fired && timeWithoutGeneration == t.acc
      ensures added.Some? ==>
        var p := added.value;
        var origin := agent.Center();
        var angle := ShotAngles.ShotAngle(origin, target, lib);
        var step := lib.Direction(angle).Scale(projectileSpeed).Scale(dt);
        fresh(p) && p.alive && p.angle == angle && p.damage == projectileDamage &&
        p.velocity == lib.Direction(angle).Scale(projectileSpeed) &&
        steps >= 1 && p.position == Spawning.StepPos(origin, step, steps) &&
        p.rect == RectAt(p.position, projectileSize) && !Collide(agent, p.rect) &&
        (forall j :: 1 <= j < steps ==>
          Collide(agent, RectAt(Spawning.StepPos(origin, step, j), projectileSize)))
    {
      timeWithoutGeneration := timeWithoutGeneration + dt;
      var origin := agent.Center();
      var angle := ShotAngles.ShotAngle(origin, target, lib);
      var velocity := lib.Direction(angle).Scale(projectileSpeed);
      added, steps := None, 0;
      if timeWithoutGeneration >= 1.0 / frequency {
        timeWithoutGeneration := 0.0;
        var step := velocity.Scale(dt);
        DirectionNonZero(lib, angle, projectileSpeed * dt);
        assert step == lib.Direction(angle).Scale(projectileSpeed * dt);
        var position;
        position, steps := Spawning.SelfCollisionWalk(origin, step, projectileSize, agent);
        var projectile := new Projectile(position, angle, velocity, projectileSize, projectileDamage);
        added := Some(projectile);
      }
    }
  }
}
