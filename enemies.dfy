/** The enemies: the shared base (clamping that reports whether it clamped,
    damage from the player's shots and from ability sprites, the save
    dictionary), the four kinds of enemy with their movement, behaviour and
    attacks, and the class table used to restore them by type tag.

    A concrete enemy holds its base-class state as a `core` object, as the
    projectiles do. */
module Enemies {
  import opened Geometry
  import Spawning
  import Projectiles
  import Abilities

  // ---------------------------------------------------------------- constants
  // config/Constants.py, ENEMIES and PROJECTILES sections
  const ENEMY_SPEED: real := 100.0

  const WAVY_ENEMY_Y: real := 100.0
  const WAVY_ENEMY_AMPLITUDE: real := 100.0
  const WAVY_ENEMY_ANGULAR_FREQUENCY: real := 3.0
  const WAVY_ENEMY_MAX_HEALTH: real := 100.0
  const WAVY_ENEMY_SPEED: real := 1.0 * ENEMY_SPEED

  const LINEAR_ENEMY_MAX_HEALTH: real := 80.0
  const LINEAR_ENEMY_SPEED: real := 150.0

  const BOUNCING_ENEMY_MAX_HEALTH: real := 60.0
  const BOUNCING_ENEMY_HORIZONTAL_SPEED: real := 150.0
  const BOUNCING_ENEMY_FALL_SPEED: real := 500.0
  const BOUNCING_ENEMY_RISE_SPEED: real := 100.0
  const BOUNCING_ENEMY_BASE_HEIGHT: real := HEIGHT / 4.0
  const BOUNCING_ENEMY_MIN_TIME_BEFORE_FALL: real := 2.0
  const BOUNCING_ENEMY_MAX_TIME_BEFORE_FALL: real := 5.0
  const BOUNCING_ENEMY_WAIT_TIME: real := 1.0

  const TANK_ENEMY_MAX_HEALTH: real := 200.0
  const TANK_ENEMY_SPEED: real := 50.0
  const TANK_ENEMY_Y: real := 80.0

  const PROJECTILE_DEFAULT_SIZE: Vec2 := Vec2(8.0, 8.0)
  /** The wavy enemy's gun: `ProjectileGenerator(self, 200, 1, image, 5)`. */
  const WAVY_SHOT_SPEED: real := 200.0
  const WAVY_SHOT_FREQUENCY: real := 1.0
  const WAVY_SHOT_DAMAGE: real := 5.0

  // ------------------------------------------------------------ class table

  datatype Kind = Linear | Wavy | Bouncing | Tank

  /** `self.__class__.__name__` */
  function ClassName(k: Kind): string {
    match k
    case Linear => "LinearEnemy"
    case Wavy => "WavyEnemy"
    case Bouncing => "BouncingEnemy"
    case Tank => "TankEnemy"
  }

  /** The size of each kind's sprite. */
  function Size(k: Kind): (s: Vec2)
    ensures 0.0 < s.x <= WIDTH && 0.0 < s.y <= HEIGHT
  {
    match k
    case Linear => Vec2(40.0, 40.0)
    case Wavy => Vec2(50.0, 30.0)
    case Bouncing => Vec2(35.0, 35.0)
    case Tank => Vec2(80.0, 60.0)
  }

  /** `EnemyClassMap`: class name to class. */
  const ENEMY_CLASS_MAP: map<string, Kind> :=
    map["BouncingEnemy" := Bouncing, "LinearEnemy" := Linear, "TankEnemy" := Tank, "WavyEnemy" := Wavy]

  /** The table has exactly the four concrete class names as keys, each key
      names the class it maps to, and no two keys share a class. */
  lemma ClassMapShape()
    ensures ENEMY_CLASS_MAP.Keys == {"BouncingEnemy", "LinearEnemy", "TankEnemy", "WavyEnemy"}
    ensures |ENEMY_CLASS_MAP.Keys| == 4
    ensures forall name :: name in ENEMY_CLASS_MAP ==> ClassName(ENEMY_CLASS_MAP[name]) == name
    ensures forall a, b :: a in ENEMY_CLASS_MAP && b in ENEMY_CLASS_MAP && a != b ==>
      ENEMY_CLASS_MAP[a] != ENEMY_CLASS_MAP[b]
  {
    assert ENEMY_CLASS_MAP.Keys == {"BouncingEnemy", "LinearEnemy", "TankEnemy", "WavyEnemy"};
  }

  /** `AbstractEnemy.to_dict`: the type tag, `centerx`, `bottom`, health
      and speed. */
  function EnemyDict(k: Kind, rect: Rect, health: real, speed: real): (d: Dict)
    ensures d.Keys == {"type", "centerx", "bottom", "health", "speed"}
    ensures d["type"] == Text(ClassName(k))
    ensures d["centerx"] == Num(rect.CenterX()) && d["bottom"] == Num(rect.Bottom())
    ensures d["health"] == Num(health) && d["speed"] == Num(speed)
  {
    map["type" := Text(ClassName(k)), "centerx" := Num(rect.CenterX()), "bottom" := Num(rect.Bottom()),
        "health" := Num(health), "speed" := Num(speed)]
  }

  /** Looking the saved type tag of any enemy up in the class table gives
      back the enemy's own class. */
  lemma TypeTagRoundTrip(k: Kind, rect: Rect, health: real, speed: real)
    ensures var tag := EnemyDict(k, rect, health, speed)["type"];
      tag.Text? && tag.s in ENEMY_CLASS_MAP && ENEMY_CLASS_MAP[tag.s] == k
  {
    ClassMapShape();
  }

  // ------------------------------------------------------ damage from abilities

  /** The damage an area sprite of radius `r` deals at distance `d`: full at
      the centre, falling linearly to nothing at the rim. */
  function AreaDamage(damage: real, d: real, r: real): real
    requires r > 0.0
  {
    if d <= r then damage * (1.0 - d / r) else 0.0
  }

  /** The falloff is full at distance 0, zero at distance `r` and beyond,
      between 0 and the full damage, and never grows with distance. */
  lemma AreaDamageFalloff(damage: real, d: real, e: real, r: real)
    requires r > 0.0 && 0.0 <= damage && 0.0 <= d <= e
    ensures AreaDamage(damage, 0.0, r) == damage
    ensures AreaDamage(damage, r, r) == 0.0
    ensures e > r ==> AreaDamage(damage, e, r) == 0.0
    ensures 0.0 <= AreaDamage(damage, d, r) <= damage
    ensures AreaDamage(damage, e, r) <= AreaDamage(damage, d, r)
  {
    assert r / r == 1.0;
    if d <= r {
      assert d / r <= r / r by {
        assert r / r - d / r == (r - d) / r;
      }
      assert 0.0 <= d / r;
      assert 0.0 <= damage * (1.0 - d / r) <= damage * 1.0;
    }
    if e <= r {
      assert d / r <= e / r by {
        assert e / r - d / r == (e - d) / r;
      }
      assert damage * (1.0 - e / r) <= damage * (1.0 - d / r) by {
        assert damage * (1.0 - d / r) - damage * (1.0 - e / r) == damage * (e / r - d / r);
      }
    }
  }

  /** The distance between the centres of two boxes (`Vector2.length`). */
  function Distance(r: Rect, s: Rect, lib: Lib): real {
    lib.Length(Vec2(s.CenterX() - r.CenterX(), s.CenterY() - r.CenterY()))
  }

  /** What an enemy's damage computation sees of an ability sprite. */
  datatype Sprite = Sprite(rect: Rect, damage: real, radius: Option<real>, explosionRadius: Option<real>,
                           hook: Projectiles.HitHook, exploded: bool, hit: bool, alive: bool)
  {
    /** The attributes the computation relies on (`ProjectileAbility.Valid`). */
    predicate Valid() {
      (hook != Projectiles.NoHook ==> explosionRadius.Some? && explosionRadius.value > 0.0) &&
      (radius.Some? ==> radius.value > 0.0)
    }

    /** The damage this sprite deals an enemy whose box is `r`: by distance
        when it has an area radius, otherwise its full damage on contact. */
    function DamageTo(r: Rect, lib: Lib): real
      requires Valid()
    {
      if radius.Some? then AreaDamage(damage, Distance(r, rect, lib), radius.value)
      else if Collide(r, rect) then damage else 0.0
    }

    /** Contact with the box `r` fires the sprite's hook this frame: a
        missile not yet exploded, or a laser segment that has not hit yet. */
    predicate Triggers(r: Rect) {
      radius.None? && Collide(r, rect) &&
      ((hook.ExplosionHook? && !exploded) || (hook.HitEffectHook? && !hit))
    }
  }

  function View(a: Projectiles.ProjectileAbility): Sprite
    reads a`radius, a`explosionRadius, a`hook, a`hasExploded, a`hasHit, a.base`rect, a.base`alive
  {
    Sprite(a.base.rect, a.base.damage, a.radius, a.explosionRadius, a.hook, a.hasExploded, a.hasHit, a.base.alive)
  }

  function Bases(abilities: seq<Projectiles.ProjectileAbility>): set<Projectiles.BaseProjectile> {
    set a | a in abilities :: a.base
  }

  /** The group shows the run of sprites `ss`: sprite by sprite, each
      ability is seen as the sprite at its place. */
  ghost predicate Shows(abilities: seq<Projectiles.ProjectileAbility>, ss: seq<Sprite>)
    reads abilities`radius, abilities`explosionRadius, abilities`hook, abilities`hasExploded, abilities`hasHit,
          Bases(abilities)`rect, Bases(abilities)`alive
  {
    |ss| == |abilities| && forall j :: 0 <= j < |abilities| ==> View(abilities[j]) == ss[j]
  }

  /** The sprite `s` after touching the box `r`: a contact sprite that
      overlaps is removed and has fired its hook; any other sprite is as it
      was, and nothing else about it changes. */
  function Touched(r: Rect, s: Sprite): Sprite {
    var contact := s.radius.None? && Collide(r, s.rect);
    s.(alive := s.alive && !contact,
       exploded := s.exploded || (contact && s.hook.ExplosionHook?),
       hit := s.hit || (contact && s.hook.HitEffectHook?))
  }

  /** The run of sprites `ss` after each has touched the box `r`. */
  function TouchedAll(r: Rect, ss: seq<Sprite>): seq<Sprite> {
    seq(|ss|, j requires 0 <= j < |ss| => Touched(r, ss[j]))
  }

  /** Each sprite of the group appears once and carries its own base. */
  predicate DistinctAbilities(abilities: seq<Projectiles.ProjectileAbility>) {
    forall i, j :: 0 <= i < j < |abilities| ==>
      abilities[i] != abilities[j] && abilities[i].base != abilities[j].base
  }

  /** Part way through the ability loop: the first `i` sprites of the
      group have touched the box `r` and the rest are as `before` shows
      them. */
  ghost predicate TouchedUpTo(abilities: seq<Projectiles.ProjectileAbility>, before: seq<Sprite>, i: nat, r: Rect)
    reads abilities`radius, abilities`explosionRadius, abilities`hook, abilities`hasExploded, abilities`hasHit,
          Bases(abilities)`rect, Bases(abilities)`alive
  {
    |before| == |abilities| && i <= |abilities| &&
    forall j :: 0 <= j < |abilities| ==> View(abilities[j]) == if j < i then Touched(r, before[j]) else before[j]
  }

  /** At the end of the loop every sprite has touched the box. */
  lemma TouchedUpToAll(abilities: seq<Projectiles.ProjectileAbility>, before: seq<Sprite>, r: Rect)
    requires TouchedUpTo(abilities, before, |abilities|, r)
    ensures Shows(abilities, TouchedAll(r, before))
  {
  }

  predicate AllSpritesValid(ss: seq<Sprite>) {
    forall i :: 0 <= i < |ss| ==> ss[i].Valid()
  }

  /** The damage a run of sprites deals an enemy whose box is `r`. */
  function SpritesDamage(r: Rect, ss: seq<Sprite>, lib: Lib): real
    requires AllSpritesValid(ss)
    decreases |ss|
  {
    if ss == [] then 0.0
    else SpritesDamage(r, ss[..|ss| - 1], lib) + ss[|ss| - 1].DamageTo(r, lib)
  }

  /** How many hit effects a run of sprites creates against the box `r`. */
  function SpritesTriggered(r: Rect, ss: seq<Sprite>): nat
    decreases |ss|
  {
    if ss == [] then 0
    else SpritesTriggered(r, ss[..|ss| - 1]) + (if ss[|ss| - 1].Triggers(r) then 1 else 0)
  }

  /** Non-negative damages never heal, and sprites that are all far away
      and out of contact deal nothing. */
  lemma {:induction false} SpritesDamageBounds(r: Rect, ss: seq<Sprite>, lib: Lib)
    requires lib.Valid() && AllSpritesValid(ss)
    requires forall i :: 0 <= i < |ss| ==> ss[i].damage >= 0.0
    ensures SpritesDamage(r, ss, lib) >= 0.0
    ensures (forall i :: 0 <= i < |ss| ==>
               if ss[i].radius.Some? then Distance(r, ss[i].rect, lib) > ss[i].radius.value
               else !Collide(r, ss[i].rect))
            ==> SpritesDamage(r, ss, lib) == 0.0
    decreases |ss|
  {
    if ss != [] {
      var init := ss[..|ss| - 1];
      assert forall i :: 0 <= i < |init| ==> init[i] == ss[i];
      SpritesDamageBounds(r, init, lib);
      var s := ss[|ss| - 1];
      if s.radius.Some? {
        var d := Distance(r, s.rect, lib);
        LengthNonNegative(lib, Vec2(s.rect.CenterX() - r.CenterX(), s.rect.CenterY() - r.CenterY()));
        AreaDamageFalloff(s.damage, d, d, s.radius.value);
      }
    }
  }

  // ------------------------------------------------------------ movement

  /** An enemy's box and speed after a move. */
  datatype Motion = Motion(rect: Rect, speed: real)

  /** The linear and wavy enemies' rule: clamp the moved box onto the
      screen and reverse the speed when it had to be clamped. */
  function Reflect(moved: Rect, speed: real): Motion {
    var c := Geometry.LimitBounds(moved);
    Motion(c.rect, if c.clamped then -speed else speed)
  }

  /** The moved box ends inside the screen; the speed keeps its size and
      changes sign exactly when the moved box was not inside the screen. */
  lemma ReflectMeaning(moved: Rect, speed: real)
    requires 0.0 <= moved.w <= WIDTH && 0.0 <= moved.h <= HEIGHT
    ensures InsideScreen(Reflect(moved, speed).rect)
    ensures Abs(Reflect(moved, speed).speed) == Abs(speed)
    ensures Reflect(moved, speed).speed == (if InsideScreen(moved) then speed else -speed)
    ensures InsideScreen(moved) ==> Reflect(moved, speed).rect == moved
  {
    LimitBoundsMeaning(moved);
  }

  /** The tank's move: sideways by `speed * dt` at the fixed altitude, and
      at an edge (touching counts) the box is put back on it and the speed
      is turned to point inwards. */
  function TankStep(rect: Rect, speed: real, dt: real): Motion {
    var moved := rect.(x := rect.x + speed * dt).WithCenterY(TANK_ENEMY_Y);
    if moved.Left() <= 0.0 then Motion(moved.(x := 0.0), Abs(speed))
    else if moved.Right() >= WIDTH then Motion(moved.WithRight(WIDTH), -Abs(speed))
    else Motion(moved, speed)
  }

  lemma TankStepMeaning(rect: Rect, speed: real, dt: real)
    requires 0.0 <= rect.w <= WIDTH
    ensures var m := TankStep(rect, speed, dt);
      m.rect.CenterY() == TANK_ENEMY_Y && m.rect.w == rect.w && m.rect.h == rect.h &&
      0.0 <= m.rect.Left() && m.rect.Right() <= WIDTH && Abs(m.speed) == Abs(speed)
    ensures var m := TankStep(rect, speed, dt);
      (rect.Left() + speed * dt <= 0.0 ==> m.speed >= 0.0) &&
      (rect.Left() + speed * dt > 0.0 && rect.Right() + speed * dt >= WIDTH ==> m.speed <= 0.0) &&
      (0.0 < rect.Left() + speed * dt && rect.Right() + speed * dt < WIDTH ==>
         m.speed == speed && m.rect.x == rect.x + speed * dt)
  {
  }

  // ------------------------------------------------- the bouncing enemy's cycle

  /** The five states of the bouncing enemy. */
  datatype Phase = Moving | Preparing | Falling | Waiting | Rising

  /** The cycle the states follow. */
  function Next(p: Phase): Phase {
    match p
    case Moving => Preparing
    case Preparing => Falling
    case Falling => Waiting
    case Waiting => Rising
    case Rising => Moving
  }

  /** The part of a bouncing enemy that `_move` and `_update_behavior`
      change. */
  datatype Bounce = Bounce(rect: Rect, vx: real, phase: Phase, timer: real, fallTime: real)

  /** `BouncingEnemy._move`: sideways while moving, reversing at the edges
      (touching counts); down while falling, landing on the first block hit;
      up while rising, back to moving (with a new fall time `draw`) once the
      centre is at or above the starting height; still otherwise. */
  function BounceMove(s: Bounce, dt: real, terrain: seq<Rect>, originalY: real, draw: real): Bounce {
    match s.phase
    case Moving =>
      var moved := s.rect.(x := s.rect.x + s.vx * dt);
      if moved.Left() <= 0.0 then s.(rect := moved.(x := 0.0), vx := BOUNCING_ENEMY_HORIZONTAL_SPEED)
      else if moved.Right() >= WIDTH then s.(rect := moved.WithRight(WIDTH), vx := -BOUNCING_ENEMY_HORIZONTAL_SPEED)
      else s.(rect := moved)
    case Falling =>
      var moved := s.rect.(y := s.rect.y + BOUNCING_ENEMY_FALL_SPEED * dt);
      var hits := Hits(moved, terrain);
      if hits != [] then s.(rect := moved.WithBottom(hits[0].Top()), phase := Waiting, timer := 0.0)
      else s.(rect := moved)
    case Rising =>
      var moved := s.rect.(y := s.rect.y - BOUNCING_ENEMY_RISE_SPEED * dt);
      if moved.CenterY() <= originalY then s.(rect := moved, phase := Moving, timer := 0.0, fallTime := draw)
      else s.(rect := moved)
    case _ => s
  }

  /** `BouncingEnemy._update_behavior`: the timed transitions. */
  function BounceBehavior(s: Bounce, dt: real): Bounce {
    match s.phase
    case Moving =>
      if s.timer + dt >= s.fallTime then s.(phase := Preparing, timer := 0.0) else s.(timer := s.timer + dt)
    case Preparing =>
      if s.timer + dt >= BOUNCING_ENEMY_WAIT_TIME then s.(phase := Falling, timer := 0.0) else s.(timer := s.timer + dt)
    case Waiting =>
      if s.timer + dt >= BOUNCING_ENEMY_WAIT_TIME then s.(phase := Rising, timer := 0.0) else s.(timer := s.timer + dt)
    case _ => s
  }

  /** What holds of a bouncing enemy at all times: it moves sideways at the
      fixed speed, its fall time was drawn from the allowed range, and its
      timer is not negative. */
  predicate BounceValid(s: Bounce) {
    Abs(s.vx) == BOUNCING_ENEMY_HORIZONTAL_SPEED &&
    BOUNCING_ENEMY_MIN_TIME_BEFORE_FALL <= s.fallTime <= BOUNCING_ENEMY_MAX_TIME_BEFORE_FALL &&
    0.0 <= s.timer
  }

  /** `_move` only leaves the falling state by landing on a block, with the
      box's bottom on that block's top, and only leaves the rising state
      back to moving once the centre is at or above the starting height; it
      never changes any other state, and it keeps the enemy still while
      preparing and waiting. */
  lemma BounceMoveMeaning(s: Bounce, dt: real, terrain: seq<Rect>, originalY: real, draw: real)
    ensures var t := BounceMove(s, dt, terrain, originalY, draw);
      (t.phase == s.phase || t.phase == Next(s.phase)) &&
      (t.phase != s.phase ==> s.phase == Falling || s.phase == Rising) &&
      (s.phase == Falling && t.phase == Waiting ==>
         exists b :: b in terrain && Collide(s.rect.(y := s.rect.y + BOUNCING_ENEMY_FALL_SPEED * dt), b) &&
                     t.rect.Bottom() == b.Top() && t.timer == 0.0) &&
      (s.phase == Rising && t.phase == Moving ==> t.rect.CenterY() <= originalY && t.timer == 0.0 && t.fallTime == draw) &&
      (s.phase == Preparing || s.phase == Waiting ==> t == s)
  {
    if s.phase == Falling {
      var moved := s.rect.(y := s.rect.y + BOUNCING_ENEMY_FALL_SPEED * dt);
      var hits := Hits(moved, terrain);
      if hits != [] {
        assert hits[0] in hits;
      }
    }
  }

  /** `_update_behavior` never leaves the falling state (only landing does)
      and never leaves the rising state; each timed transition happens only
      once its wait has run out, and resets the timer. */
  lemma BounceBehaviorMeaning(s: Bounce, dt: real)
    ensures var t := BounceBehavior(s, dt);
      (t.phase == s.phase || t.phase == Next(s.phase)) &&
      (s.phase == Falling || s.phase == Rising ==> t == s) &&
      (t.phase != s.phase ==> t.timer == 0.0 && t.rect == s.rect) &&
      (s.phase == Moving && t.phase == Preparing ==> s.timer + dt >= s.fallTime) &&
      (s.phase == Preparing && t.phase == Falling ==> s.timer + dt >= BOUNCING_ENEMY_WAIT_TIME) &&
      (s.phase == Waiting && t.phase == Rising ==> s.timer + dt >= BOUNCING_ENEMY_WAIT_TIME)
  {
  }

  /** Both steps keep `BounceValid`, with a fall time drawn from the allowed
      range, and a moving enemy stays within the screen's width. */
  lemma BounceStepsValid(s: Bounce, dt: real, terrain: seq<Rect>, originalY: real, draw: real)
    requires BounceValid(s) && 0.0 <= dt && 0.0 <= s.rect.w <= WIDTH
    requires BOUNCING_ENEMY_MIN_TIME_BEFORE_FALL <= draw <= BOUNCING_ENEMY_MAX_TIME_BEFORE_FALL
    ensures BounceValid(BounceMove(s, dt, terrain, originalY, draw))
    ensures BounceValid(BounceBehavior(s, dt))
    ensures s.phase == Moving ==>
      var t := BounceMove(s, dt, terrain, originalY, draw);
      0.0 <= t.rect.Left() && t.rect.Right() <= WIDTH
  {
  }

  /** One frame of `update` for the bouncing enemy: its move, with the fall
      time drawn for the frame, then the clamp to the screen. `update` never
      calls `_update_behavior`, so no frame runs it. */
  datatype Frame = Frame(dt: real, terrain: seq<Rect>, draw: real)

  function BounceFrame(s: Bounce, f: Frame, originalY: real): Bounce {
    var m := BounceMove(s, f.dt, f.terrain, originalY, f.draw);
    m.(rect := Geometry.LimitBounds(m.rect).rect)
  }

  function BounceRun(s: Bounce, frames: seq<Frame>, originalY: real): Bounce
    decreases |frames|
  {
    if frames == [] then s
    else BounceRun(BounceFrame(s, frames[0], originalY), frames[1..], originalY)
  }

  /** Over any run of `update` frames with non-negative frame times and fall
      times drawn from the allowed range, the enemy keeps `BounceValid` and
      its size, and after at least one frame it is inside the screen. */
  lemma {:induction false} BounceRunValid(s: Bounce, frames: seq<Frame>, originalY: real)
    requires BounceValid(s) && 0.0 <= s.rect.w <= WIDTH && 0.0 <= s.rect.h <= HEIGHT
    requires forall i :: 0 <= i < |frames| ==>
      0.0 <= frames[i].dt &&
      BOUNCING_ENEMY_MIN_TIME_BEFORE_FALL <= frames[i].draw <= BOUNCING_ENEMY_MAX_TIME_BEFORE_FALL
    ensures var t := BounceRun(s, frames, originalY);
      BounceValid(t) && t.rect.w == s.rect.w && t.rect.h == s.rect.h
    ensures frames != [] ==> InsideScreen(BounceRun(s, frames, originalY).rect)
    decreases |frames|
  {
    if frames != [] {
      var f := frames[0];
      var m := BounceMove(s, f.dt, f.terrain, originalY, f.draw);
      BounceStepsValid(s, f.dt, f.terrain, originalY, f.draw);
      LimitBoundsMeaning(m.rect);
      var n := BounceFrame(s, f, originalY);
      assert forall i :: 0 <= i < |frames[1..]| ==> frames[1..][i] == frames[i + 1];
      BounceRunValid(n, frames[1..], originalY);
      if frames[1..] == [] {
        assert BounceRun(s, frames, originalY) == n;
      }
    }
  }

  // ------------------------------------------------------------ phase timer

  /** Python's float `a % m` for `m != 0`: the result has the sign of `m`. */
  function PyMod(a: real, m: real): real
    requires m != 0.0
  {
    a - m * ((a / m).Floor as real)
  }

  /** For a positive period the result lies in [0, m), differs from `a` by a
      whole number of periods, and leaves a value already in [0, m) alone. */
  lemma PyModRange(a: real, m: real)
    requires m > 0.0
    ensures 0.0 <= PyMod(a, m) < m
    ensures ((a - PyMod(a, m)) / m).Floor as real == (a - PyMod(a, m)) / m
    ensures 0.0 <= a < m ==> PyMod(a, m) == a
  {
    var q := a / m;
    var f := q.Floor as real;
    var r := PyMod(a, m);
    assert r == a - m * f;
    assert f <= q < f + 1.0;
    assert q * m == a;
    var g := q - f;
    assert 0.0 <= g < 1.0;
    assert r == m * g;
    assert 0.0 <= m * g;
    assert m * g < m by {
      assert m * (1.0 - g) > 0.0;
      assert m * (1.0 - g) == m - m * g;
    }
    assert a - r == m * f;
    assert (m * f) / m == f;
    if 0.0 <= a < m {
      assert 0.0 <= q;
      assert q < 1.0 by {
        assert m / m == 1.0;
        assert m / m - a / m == (m - a) / m;
      }
      assert q.Floor == 0;
    }
  }

  /** The wavy enemy's height: the wave stays within one amplitude of its
      base line, so with the default amplitude and box the enemy never
      touches the top or bottom of the screen. */
  lemma WavyAltitude(lib: Lib, amplitude: real, t: real)
    requires lib.Valid() && 0.0 <= amplitude
    ensures WAVY_ENEMY_Y - amplitude <= WAVY_ENEMY_Y + amplitude * lib.sin(t) <= WAVY_ENEMY_Y + amplitude
    ensures amplitude == WAVY_ENEMY_AMPLITUDE ==>
      var y := WAVY_ENEMY_Y + amplitude * lib.sin(t);
      0.0 <= y && y + Size(Wavy).y <= HEIGHT
  {
    var s, c := lib.sin(t), lib.cos(t);
    assert s * s + c * c == 1.0;
    assert s * s <= 1.0;
    assert -1.0 <= s <= 1.0 by {
      assert (1.0 - s) * (1.0 + s) >= 0.0;
    }
    assert -amplitude <= amplitude * s <= amplitude by {
      assert amplitude * (1.0 - s) >= 0.0;
      assert amplitude * (s + 1.0) >= 0.0;
    }
  }

  // ------------------------------------------------------------ save files

  /** The state the wavy enemy's `to_dict` and `from_dict` carry. */
  datatype WavySnapshot = WavySnapshot(rect: Rect, health: real, speed: real, timer: real,
                                       amplitude: real, angularFrequency: real)

  /** The wavy box placed as its constructor places it: `centerx = x`,
      `bottom = y`. */
  function WavyRect(cx: real, bottom: real): (r: Rect)
    ensures r.CenterX() == cx && r.Bottom() == bottom && r.w == Size(Wavy).x && r.h == Size(Wavy).y
  {
    Rect(cx - Size(Wavy).x / 2.0, bottom - Size(Wavy).y, Size(Wavy).x, Size(Wavy).y)
  }

  /** `WavyEnemy.to_dict`: the base keys and the three wave keys. */
  function WavyDict(s: WavySnapshot): Dict {
    EnemyDict(Wavy, s.rect, s.health, s.speed)["timer" := Num(s.timer)]
      ["amplitude" := Num(s.amplitude)]["angular_frequency" := Num(s.angularFrequency)]
  }

  /** `WavyEnemy.from_dict`: a missing (or non-numeric) base key is an
      error; the wave keys default to 0 and the two constants. */
  function RestoreWavy(d: Dict): (r: Result<WavySnapshot>)
    ensures r.Ok? <==> GetNum(d, "centerx").Ok? && GetNum(d, "bottom").Ok? && GetNum(d, "health").Ok? &&
                       GetNum(d, "speed").Ok? && GetNumOr(d, "timer", 0.0).Ok? &&
                       GetNumOr(d, "amplitude", WAVY_ENEMY_AMPLITUDE).Ok? &&
                       GetNumOr(d, "angular_frequency", WAVY_ENEMY_ANGULAR_FREQUENCY).Ok?
  {
    var cx := GetNum(d, "centerx");
    var bottom := GetNum(d, "bottom");
    var health := GetNum(d, "health");
    var speed := GetNum(d, "speed");
    var timer := GetNumOr(d, "timer", 0.0);
    var amplitude := GetNumOr(d, "amplitude", WAVY_ENEMY_AMPLITUDE);
    var omega := GetNumOr(d, "angular_frequency", WAVY_ENEMY_ANGULAR_FREQUENCY);
    if cx.Err? then Err(cx.reason)
    else if bottom.Err? then Err(bottom.reason)
    else if health.Err? then Err(health.reason)
    else if speed.Err? then Err(speed.reason)
    else if timer.Err? then Err(timer.reason)
    else if amplitude.Err? then Err(amplitude.reason)
    else if omega.Err? then Err(omega.reason)
    else Ok(WavySnapshot(WavyRect(cx.value, bottom.value), health.value, speed.value, timer.value,
                         amplitude.value, omega.value))
  }

  /** Saving a wavy enemy and restoring it gives back the same state. */
  lemma WavyRoundTrip(s: WavySnapshot)
    requires s.rect.w == Size(Wavy).x && s.rect.h == Size(Wavy).y
    ensures RestoreWavy(WavyDict(s)) == Ok(s)
  {
    var d := WavyDict(s);
    assert d["centerx"] == Num(s.rect.CenterX()) && d["bottom"] == Num(s.rect.Bottom());
    assert d["health"] == Num(s.health) && d["speed"] == Num(s.speed);
    assert d["timer"] == Num(s.timer) && d["amplitude"] == Num(s.amplitude);
    assert d["angular_frequency"] == Num(s.angularFrequency);
    assert WavyRect(s.rect.CenterX(), s.rect.Bottom()) == s.rect;
  }

  /** A dictionary with only the base keys restores the wave from its
      start: timer 0, default amplitude and angular frequency. */
  lemma WavyRestoreDefaults(rect: Rect, health: real, speed: real)
    requires rect.w == Size(Wavy).x && rect.h == Size(Wavy).y
    ensures RestoreWavy(EnemyDict(Wavy, rect, health, speed)) ==
      Ok(WavySnapshot(rect, health, speed, 0.0, WAVY_ENEMY_AMPLITUDE, WAVY_ENEMY_ANGULAR_FREQUENCY))
  {
    assert WavyRect(rect.CenterX(), rect.Bottom()) == rect;
  }

  /** A save whose position, health and speed are ints, as pygame's integer
      box writes them, restores each of them as that number. */
  lemma WavyRestoresIntSave(cx: int, bottom: int, health: int, speed: int)
    ensures RestoreWavy(map["type" := Text("WavyEnemy"), "centerx" := Int(cx), "bottom" := Int(bottom),
                            "health" := Int(health), "speed" := Int(speed)]) ==
      Ok(WavySnapshot(WavyRect(cx as real, bottom as real), health as real, speed as real, 0.0,
                      WAVY_ENEMY_AMPLITUDE, WAVY_ENEMY_ANGULAR_FREQUENCY))
  {
  }

  // ------------------------------------------------------------ base class

  /** `AbstractEnemy`: the box, speed and health every enemy has; `kind` is
      the concrete class. */
  class AbstractEnemy {
    const kind: Kind
    var rect: Rect
    var speed: real
    var health: real

    ghost predicate Valid()
      reads this
    {
      rect.w == Size(kind).x && rect.h == Size(kind).y
    }

    constructor (kind: Kind, rect: Rect, speed: real, health: real)
      requires rect.w == Size(kind).x && rect.h == Size(kind).y
      ensures Valid()
      ensures this.kind == kind && this.rect == rect && this.speed == speed && this.health == health
    {
      this.kind := kind;
      this.rect := rect;
      this.speed := speed;
      this.health := health;
    }

    /** `_limit_bounds`: the box is pushed back onto the screen, and the
        result says whether it had to be. */
    method LimitBounds() returns (outOfBounds: bool)
      requires Valid()
      modifies this`rect
      ensures Valid() && InsideScreen(rect)
      ensures Clamped(rect, outOfBounds) == Geometry.LimitBounds(old(rect))
      ensures outOfBounds <==> !InsideScreen(old(rect))
    {
      LimitBoundsMeaning(rect);
      var c := Geometry.LimitBounds(rect);
      rect := c.rect;
      outOfBounds := c.clamped;
    }

    /** One ability sprite's part of `_compute_damage`: an area sprite deals
        damage by distance and stays; a contact sprite that overlaps deals
        its full damage, fires its hook if it has not fired yet, and is
        removed. */
    method Absorb(a: Projectiles.ProjectileAbility, lib: Lib, ghost s: Sprite)
        returns (effect: Option<Projectiles.ProjectileAbility>)
      requires View(a) == s && s.Valid()
      modifies this`health, a`hasExploded, a`hasHit, a.base`alive
      ensures health == old(health) - s.DamageTo(rect, lib)
      ensures View(a) == Touched(rect, s)
      ensures effect.Some? <==> s.Triggers(rect)
      ensures effect.Some? ==>
        fresh(effect.value) && fresh(effect.value.base) && effect.value.Valid() &&
        Abilities.IsBlastOf(effect.value, a, a.explosionRadius.value, a.hook.hitLifetime, a.hook.ExplosionHook?)
    {
      effect := None;
      if a.radius.Some? {
        var distance := Distance(rect, a.base.rect, lib);
        if distance <= a.radius.value {
          health := health - a.base.damage * (1.0 - distance / a.radius.value);
        }
      } else if Collide(rect, a.base.rect) {
        health := health - a.base.damage;
        if a.hook.ExplosionHook? && !a.hasExploded {
          effect := Abilities.CreateExplosion(a, a.hook.hitLifetime);
        } else if a.hook.HitEffectHook? && !a.hasHit {
          effect := Abilities.CreateHitEffect(a, a.hook.hitLifetime);
        }
        a.base.alive := false;
      }
    }

    /** One turn of the ability loop: the sprite at `i` is absorbed, so the
        first `i + 1` sprites have touched the box and the damage of one
        more sprite of `before` is taken. */
    method AbsorbNext(abilities: seq<Projectiles.ProjectileAbility>, i: nat, a: Projectiles.ProjectileAbility,
                      lib: Lib, ghost before: seq<Sprite>, ghost start: real)
        returns (effect: Option<Projectiles.ProjectileAbility>)
      requires i < |abilities| && a == abilities[i] && DistinctAbilities(abilities) && AllSpritesValid(before)
      requires TouchedUpTo(abilities, before, i, rect)
      requires health == start - SpritesDamage(rect, before[..i], lib)
      modifies this`health, a`hasExploded, a`hasHit, a.base`alive
      ensures TouchedUpTo(abilities, before, i + 1, rect)
      ensures health == start - SpritesDamage(rect, before[..i + 1], lib)
      ensures effect.Some? <==> before[i].Triggers(rect)
      ensures effect.Some? ==> fresh(effect.value) && fresh(effect.value.base)
    {
      assert before[..i + 1][..i] == before[..i];
      effect := Absorb(a, lib, before[i]);
    }

    /** The ability loop of `_compute_damage`, over the group in order, when
        the group is seen as `before`: the damage of every sprite is taken,
        every sprite has touched the box, and one hit effect per triggered
        sprite is returned for the caller to add to the group. */
    method AbsorbAbilities(abilities: seq<Projectiles.ProjectileAbility>, lib: Lib, ghost before: seq<Sprite>)
        returns (effects: seq<Projectiles.ProjectileAbility>)
      requires Shows(abilities, before) && AllSpritesValid(before) && DistinctAbilities(abilities)
      modifies this`health, abilities`hasExploded, abilities`hasHit, Bases(abilities)`alive
      ensures health == old(health) - SpritesDamage(rect, before, lib)
      ensures Shows(abilities, TouchedAll(rect, before))
      ensures |effects| == SpritesTriggered(rect, before)
      ensures forall k :: 0 <= k < |effects| ==> fresh(effects[k]) && fresh(effects[k].base)
    {
      effects := [];
      for i := 0 to |abilities|
        invariant TouchedUpTo(abilities, before, i, rect)
        invariant health == old(health) - SpritesDamage(rect, before[..i], lib)
        invariant |effects| == SpritesTriggered(rect, before[..i])
        invariant forall k :: 0 <= k < |effects| ==> fresh(effects[k]) && fresh(effects[k].base)
      {
        assert before[..i + 1][..i] == before[..i];
        var effect := AbsorbNext(abilities, i, abilities[i], lib, before, old(health));
        if effect.Some? {
          effects := effects + [effect.value];
        }
      }
      assert before[..|abilities|] == before;
      TouchedUpToAll(abilities, before, rect);
    }

    /** `_compute_damage`: the player's shots first, then the ability
        sprites, seen as `before`. */
    method ComputeDamage(shots: seq<Projectiles.AbstractProjectile>, abilities: seq<Projectiles.ProjectileAbility>,
                         lib: Lib, ghost before: seq<Sprite>) returns (effects: seq<Projectiles.ProjectileAbility>)
      requires forall i, j :: 0 <= i < j < |shots| ==> shots[i] != shots[j]
      requires Shows(abilities, before) && AllSpritesValid(before) && DistinctAbilities(abilities)
      modifies this`health, shots`alive, abilities`hasExploded, abilities`hasHit, Bases(abilities)`alive
      ensures health == old(health) - old(Projectiles.DamageTaken(rect, shots)) - SpritesDamage(rect, before, lib)
      ensures forall i :: 0 <= i < |shots| ==>
        shots[i].alive == (old(shots[i].alive) && !Collide(rect, shots[i].rect))
      ensures Shows(abilities, TouchedAll(rect, before))
      ensures |effects| == SpritesTriggered(rect, before)
      ensures forall k :: 0 <= k < |effects| ==> fresh(effects[k]) && fresh(effects[k].base)
    {
      ghost var r := rect;
      var taken := Projectiles.ResolveHits(rect, shots);
      health := health - taken;
      ghost var h := health;
      effects := AbsorbAbilities(abilities, lib, before);
      assert rect == r;
      assert health == h - SpritesDamage(rect, before, lib);
    }

    /** `to_dict` */
    function ToDict(): Dict
      reads this
    {
      EnemyDict(kind, rect, health, speed)
    }
  }

  // ------------------------------------------------------------ linear enemy

  /** `LinearEnemy`: moves sideways and bounces off the screen edges. */
  class LinearEnemy {
    const core: AbstractEnemy

    ghost predicate Valid()
      reads this, core
    {
      core.kind == Linear && core.Valid()
    }

    /** A linear enemy centred on (x, y); the defaults are the right edge
        and half the screen's height. */
    constructor (x: real, y: real)
      ensures Valid() && fresh(core)
      ensures core.rect == RectAt(Vec2(x, y), Size(Linear))
      ensures core.health == LINEAR_ENEMY_MAX_HEALTH && core.speed == LINEAR_ENEMY_SPEED
    {
      core := new AbstractEnemy(Linear, RectAt(Vec2(x, y), Size(Linear)), LINEAR_ENEMY_SPEED, LINEAR_ENEMY_MAX_HEALTH);
    }

    /** The box `_move` places before clamping: sideways by `speed * dt`. */
    function Shifted(dt: real): Rect
      reads core
    {
      core.rect.(x := core.rect.x + core.speed * dt)
    }

    /** `_move`: the sideways step, then the speed is reversed when the box
        had to be put back on the screen. */
    method Move(dt: real)
      requires Valid()
      modifies core`rect, core`speed
      ensures Valid()
      ensures Motion(core.rect, core.speed) == Reflect(old(Shifted(dt)), old(core.speed))
    {
      core.rect := Shifted(dt);
      var outOfBounds := core.LimitBounds();
      if outOfBounds {
        core.speed := -core.speed;
      }
    }

    /** `update` (inherited): move, clamp, damage. The linear enemy has no
        attack. */
    method Update(dt: real, speedMultiplier: real, shots: seq<Projectiles.AbstractProjectile>,
                  abilities: seq<Projectiles.ProjectileAbility>, lib: Lib, ghost before: seq<Sprite>)
      returns (effects: seq<Projectiles.ProjectileAbility>)
      requires Valid()
      requires forall i, j :: 0 <= i < j < |shots| ==> shots[i] != shots[j]
      requires Shows(abilities, before) && AllSpritesValid(before) && DistinctAbilities(abilities)
      modifies core`rect, core`speed, core`health, shots`alive,
        abilities`hasExploded, abilities`hasHit, Bases(abilities)`alive
      ensures Valid() && InsideScreen(core.rect)
      ensures Motion(core.rect, core.speed) == Reflect(old(Shifted(dt * speedMultiplier)), old(core.speed))
      ensures var r := core.rect;
        core.health == old(core.health) - old(Projectiles.DamageTaken(r, shots)) - SpritesDamage(r, before, lib)
      ensures forall i :: 0 <= i < |shots| ==>
        shots[i].alive == (old(shots[i].alive) && !Collide(core.rect, shots[i].rect))
      ensures Shows(abilities, TouchedAll(core.rect, before))
      ensures |effects| == SpritesTriggered(core.rect, before)
    {
      var scaled := dt * speedMultiplier;
      Move(scaled);
      ReflectMeaning(old(Shifted(scaled)), old(core.speed));
      var _ := core.LimitBounds();
      ghost var r := core.rect;
      assert Projectiles.DamageTaken(r, shots) == old(Projectiles.DamageTaken(r, shots));
      effects := core.ComputeDamage(shots, abilities, lib, before);
    }
  }

  // ------------------------------------------------------------ wavy enemy

  /** `WavyEnemy`: moves sideways on a sine wave around a fixed height and
      fires at the player. */
  class WavyEnemy {
    const core: AbstractEnemy
    var timer: real
    var amplitude: real
    var angularFrequency: real
    const gun: Projectiles.ProjectileGenerator

    ghost predicate Valid()
      reads this, core, gun
    {
      core.kind == Wavy && core.Valid() && gun.Valid() && gun.projectileType == "normal" &&
      gun.projectileDamage == WAVY_SHOT_DAMAGE
    }

    function State(): WavySnapshot
      reads this, core
    {
      WavySnapshot(core.rect, core.health, core.speed, timer, amplitude, angularFrequency)
    }

    /** A wavy enemy whose box has its bottom centre at (x, y); the defaults
        are the right edge and a third of the screen's height. */
    constructor (x: real, y: real)
      ensures Valid() && fresh(core) && fresh(gun)
      ensures State() == WavySnapshot(WavyRect(x, y), WAVY_ENEMY_MAX_HEALTH, WAVY_ENEMY_SPEED, 0.0,
                                      WAVY_ENEMY_AMPLITUDE, WAVY_ENEMY_ANGULAR_FREQUENCY)
      ensures gun.projectileSpeed == WAVY_SHOT_SPEED && gun.frequency == WAVY_SHOT_FREQUENCY
      ensures gun.projectileDamage == WAVY_SHOT_DAMAGE && gun.projectileSize == PROJECTILE_DEFAULT_SIZE
      ensures !gun.isPlayerProjectile && gun.timeWithoutGeneration == 0.0
    {
      core := new AbstractEnemy(Wavy, WavyRect(x, y), WAVY_ENEMY_SPEED, WAVY_ENEMY_MAX_HEALTH);
      timer := 0.0;
      amplitude := WAVY_ENEMY_AMPLITUDE;
      angularFrequency := WAVY_ENEMY_ANGULAR_FREQUENCY;
      gun := new Projectiles.ProjectileGenerator(WAVY_SHOT_SPEED, WAVY_SHOT_FREQUENCY, PROJECTILE_DEFAULT_SIZE,
                                                 WAVY_SHOT_DAMAGE, "normal", false, 0.0);
    }

    /** The box `_move` places before clamping: sideways by `speed * dt`,
        with its top on the wave. */
    function Waved(dt: real, lib: Lib): Rect
      reads this, core
    {
      core.rect.(x := core.rect.x + core.speed * dt,
                 y := WAVY_ENEMY_Y + amplitude * lib.sin(angularFrequency * timer))
    }

    /** `_move`: the wave step, then the speed is reversed when the box had
        to be put back on the screen. */
    method Move(dt: real, lib: Lib)
      requires Valid()
      modifies core`rect, core`speed
      ensures Valid()
      ensures Motion(core.rect, core.speed) == Reflect(old(Waved(dt, lib)), old(core.speed))
    {
      var moved := Waved(dt, lib);
      ghost var speed := core.speed;
      core.rect := moved;
      var outOfBounds := core.LimitBounds();
      assert Clamped(core.rect, outOfBounds) == Geometry.LimitBounds(moved);
      if outOfBounds {
        core.speed := -core.speed;
      }
      assert Motion(core.rect, core.speed) == Reflect(moved, speed);
    }

    /** `_update_behavior`: the phase timer advances by `dt` and wraps
        around the wave's period `2 pi / omega` (Python's float modulo). A
        zero angular frequency (possible only from a save file) raises
        ZeroDivisionError, reported as `raised`, and changes nothing. */
    method UpdateBehavior(dt: real) returns (raised: bool)
      modifies this`timer
      ensures raised <==> angularFrequency == 0.0
      ensures raised ==> timer == old(timer)
      ensures !raised ==> timer == PyMod(old(timer) + dt, TAU / angularFrequency)
      ensures angularFrequency > 0.0 ==> 0.0 <= timer < TAU / angularFrequency
    {
      if angularFrequency == 0.0 {
        return true;
      }
      raised := false;
      var period := TAU / angularFrequency;
      if angularFrequency > 0.0 {
        PyModRange(timer + dt, period);
      }
      timer := PyMod(timer + dt, period);
    }

    /** `_attack`: delegate to the generator, which fires at `target`. */
    method Attack(dt: real, target: Vec2, lib: Lib) returns (shot: Option<Projectiles.EnemyShot>)
      requires Valid() && lib.Valid()
      modifies gun`timeWithoutGeneration
      ensures Valid()
      ensures var t := Spawning.RateLimit(old(gun.timeWithoutGeneration), dt, 1.0 / gun.frequency);
        shot.Some? == t.fired && gun.timeWithoutGeneration == t.acc
      ensures shot.Some? ==>
        shot.value.Normal? && fresh(shot.value.Core()) &&
        shot.value.Core().position == core.rect.Center() && shot.value.Core().damage == WAVY_SHOT_DAMAGE
    {
      shot := gun.Generate(core.rect, target, dt, lib);
    }

    /** The first two steps of `update`: the move, then the clamping, which
        finds the box already on the screen. */
    method MoveAndClamp(dt: real, lib: Lib)
      requires Valid()
      modifies core`rect, core`speed
      ensures Valid() && InsideScreen(core.rect)
      ensures Motion(core.rect, core.speed) == Reflect(old(Waved(dt, lib)), old(core.speed))
    {
      Move(dt, lib);
      ReflectMeaning(old(Waved(dt, lib)), old(core.speed));
      var _ := core.LimitBounds();
    }

    /** The first part of `update`: move, clamp, damage. */
    method MoveAndDamage(dt: real, shots: seq<Projectiles.AbstractProjectile>,
                         abilities: seq<Projectiles.ProjectileAbility>, lib: Lib, ghost before: seq<Sprite>)
      returns (effects: seq<Projectiles.ProjectileAbility>)
      requires Valid()
      requires forall i, j :: 0 <= i < j < |shots| ==> shots[i] != shots[j]
      requires Shows(abilities, before) && AllSpritesValid(before) && DistinctAbilities(abilities)
      modifies core`rect, core`speed, core`health, shots`alive,
        abilities`hasExploded, abilities`hasHit, Bases(abilities)`alive
      ensures Valid() && InsideScreen(core.rect)
      ensures Motion(core.rect, core.speed) == Reflect(old(Waved(dt, lib)), old(core.speed))
      ensures var r := core.rect;
        core.health == old(core.health) - old(Projectiles.DamageTaken(r, shots)) - SpritesDamage(r, before, lib)
      ensures forall i :: 0 <= i < |shots| ==>
        shots[i].alive == (old(shots[i].alive) && !Collide(core.rect, shots[i].rect))
      ensures Shows(abilities, TouchedAll(core.rect, before))
      ensures |effects| == SpritesTriggered(core.rect, before)
    {
      MoveAndClamp(dt, lib);
      ghost var r := core.rect;
      assert Projectiles.DamageTaken(r, shots) == old(Projectiles.DamageTaken(r, shots));
      effects := core.ComputeDamage(shots, abilities, lib, before);
    }

    /** `update` (inherited): move, clamp, damage, and attack when there is
        a player, whose box centre is `player`. */
    method Update(dt: real, speedMultiplier: real, shots: seq<Projectiles.AbstractProjectile>,
                  abilities: seq<Projectiles.ProjectileAbility>, player: Option<Vec2>, lib: Lib,
                  ghost before: seq<Sprite>)
      returns (effects: seq<Projectiles.ProjectileAbility>, shot: Option<Projectiles.EnemyShot>)
      requires Valid() && lib.Valid()
      requires forall i, j :: 0 <= i < j < |shots| ==> shots[i] != shots[j]
      requires Shows(abilities, before) && AllSpritesValid(before) && DistinctAbilities(abilities)
      modifies core`rect, core`speed, core`health, gun`timeWithoutGeneration, shots`alive,
        abilities`hasExploded, abilities`hasHit, Bases(abilities)`alive
      ensures Valid() && InsideScreen(core.rect)
      ensures Motion(core.rect, core.speed) == Reflect(old(Waved(dt * speedMultiplier, lib)), old(core.speed))
      ensures var r := core.rect;
        core.health == old(core.health) - old(Projectiles.DamageTaken(r, shots)) - SpritesDamage(r, before, lib)
      ensures forall i :: 0 <= i < |shots| ==>
        shots[i].alive == (old(shots[i].alive) && !Collide(core.rect, shots[i].rect))
      ensures Shows(abilities, TouchedAll(core.rect, before))
      ensures |effects| == SpritesTriggered(core.rect, before)
      ensures player.None? ==> shot.None? && gun.timeWithoutGeneration == old(gun.timeWithoutGeneration)
      ensures player.Some? ==>
        var t := Spawning.RateLimit(old(gun.timeWithoutGeneration), dt * speedMultiplier, 1.0 / gun.frequency);
        shot.Some? == t.fired && gun.timeWithoutGeneration == t.acc
    {
      var scaled := dt * speedMultiplier;
      effects := MoveAndDamage(scaled, shots, abilities, lib, before);
      shot := None;
      if player.Some? {
        shot := Attack(scaled, player.value, lib);
      }
    }

    /** `to_dict` */
    function ToDict(): Dict
      reads this, core
    {
      WavyDict(State())
    }

    /** `from_dict`: a new wavy enemy restored from `d`, or the error of a
        missing or ill-typed base key. */
    static method FromDict(d: Dict) returns (r: Result<WavyEnemy>)
      ensures r.Ok? <==> RestoreWavy(d).Ok?
      ensures r.Ok? ==> fresh(r.value) && r.value.Valid() && r.value.State() == RestoreWavy(d).value
    {
      var restored := RestoreWavy(d);
      if restored.Err? {
        return Err(restored.reason);
      }
      var s := restored.value;
      var e := new WavyEnemy(s.rect.CenterX(), s.rect.Bottom());
      e.core.health := s.health;
      e.core.speed := s.speed;
      e.timer := s.timer;
      e.amplitude := s.amplitude;
      e.angularFrequency := s.angularFrequency;
      return Ok(e);
    }
  }

  // ------------------------------------------------------------ bouncing enemy

  /** `BouncingEnemy`: moves sideways for a while, then drops onto the
      terrain, waits, and rises slowly back to its starting height. */
  class BouncingEnemy {
    const core: AbstractEnemy
    var vx: real
    var phase: Phase
    var timer: real
    /** Set by the constructor and never used. */
    var waitTimer: real
    var fallTime: real
    const originalY: real

    ghost predicate Valid()
      reads this, core
    {
      core.kind == Bouncing && core.Valid()
    }

    function State(): Bounce
      reads this, core
    {
      Bounce(core.rect, vx, phase, timer, fallTime)
    }

    /** A bouncing enemy centred on (x, y), moving left; `draw` is the
        fall time drawn by `random.uniform(MIN, MAX)`. The defaults are the
        right edge and a quarter of the screen's height. */
    constructor (x: real, y: real, draw: real)
      requires BOUNCING_ENEMY_MIN_TIME_BEFORE_FALL <= draw <= BOUNCING_ENEMY_MAX_TIME_BEFORE_FALL
      ensures Valid() && fresh(core) && BounceValid(State())
      ensures State() == Bounce(RectAt(Vec2(x, y), Size(Bouncing)), -BOUNCING_ENEMY_HORIZONTAL_SPEED, Moving, 0.0, draw)
      ensures waitTimer == 0.0 && originalY == y
      ensures core.health == BOUNCING_ENEMY_MAX_HEALTH && core.speed == ENEMY_SPEED
    {
      core := new AbstractEnemy(Bouncing, RectAt(Vec2(x, y), Size(Bouncing)), ENEMY_SPEED, BOUNCING_ENEMY_MAX_HEALTH);
      vx := -BOUNCING_ENEMY_HORIZONTAL_SPEED;
      phase := Moving;
      timer := 0.0;
      waitTimer := 0.0;
      fallTime := draw;
      originalY := y;
    }

    /** `_move`, with `draw` the fall time a return to the moving state
        draws. */
    method Move(dt: real, terrain: seq<Rect>, draw: real)
      requires Valid()
      modifies core`rect, this`vx, this`phase, this`timer, this`fallTime
      ensures Valid()
      ensures State() == BounceMove(old(State()), dt, terrain, originalY, draw)
    {
      if phase == Moving {
        core.rect := core.rect.(x := core.rect.x + vx * dt);
        if core.rect.Left() <= 0.0 {
          core.rect := core.rect.(x := 0.0);
          vx := BOUNCING_ENEMY_HORIZONTAL_SPEED;
        } else if core.rect.Right() >= WIDTH {
          core.rect := core.rect.WithRight(WIDTH);
          vx := -BOUNCING_ENEMY_HORIZONTAL_SPEED;
        }
      } else if phase == Falling {
        core.rect := core.rect.(y := core.rect.y + BOUNCING_ENEMY_FALL_SPEED * dt);
        var hits := Hits(core.rect, terrain);
        if hits != [] {
          core.rect := core.rect.WithBottom(hits[0].Top());
          phase := Waiting;
          timer := 0.0;
          return;
        }
      } else if phase == Rising {
        core.rect := core.rect.(y := core.rect.y - BOUNCING_ENEMY_RISE_SPEED * dt);
        if core.rect.CenterY() <= originalY {
          phase := Moving;
          timer := 0.0;
          fallTime := draw;
        }
      }
    }

    /** `_update_behavior`: the timed state changes. */
    method UpdateBehavior(dt: real)
      modifies this`phase, this`timer
      ensures State() == BounceBehavior(old(State()), dt)
    {
      if phase == Moving {
        timer := timer + dt;
        if timer >= fallTime {
          phase := Preparing;
          timer := 0.0;
        }
      } else if phase == Preparing {
        timer := timer + dt;
        if timer >= BOUNCING_ENEMY_WAIT_TIME {
          phase := Falling;
          timer := 0.0;
        }
      } else if phase == Waiting {
        timer := timer + dt;
        if timer >= BOUNCING_ENEMY_WAIT_TIME {
          phase := Rising;
          timer := 0.0;
        }
      }
    }

    /** The first two steps of `update`: the move, then the clamping. */
    method MoveAndClamp(dt: real, terrain: seq<Rect>, draw: real)
      requires Valid()
      modifies core`rect, this`vx, this`phase, this`timer, this`fallTime
      ensures Valid() && InsideScreen(core.rect)
      ensures var b := BounceMove(old(State()), dt, terrain, originalY, draw);
        State() == b.(rect := Geometry.LimitBounds(b.rect).rect)
    {
      Move(dt, terrain, draw);
      var _ := core.LimitBounds();
    }

    /** `update` (inherited): move, clamp, damage. The bouncing enemy has
        no attack. */
    method Update(dt: real, speedMultiplier: real, shots: seq<Projectiles.AbstractProjectile>,
                  abilities: seq<Projectiles.ProjectileAbility>, terrain: seq<Rect>, draw: real, lib: Lib,
                  ghost before: seq<Sprite>)
      returns (effects: seq<Projectiles.ProjectileAbility>)
      requires Valid()
      requires forall i, j :: 0 <= i < j < |shots| ==> shots[i] != shots[j]
      requires Shows(abilities, before) && AllSpritesValid(before) && DistinctAbilities(abilities)
      modifies core`rect, core`health, this`vx, this`phase, this`timer, this`fallTime
      modifies shots`alive, abilities`hasExploded, abilities`hasHit, Bases(abilities)`alive
      ensures Valid() && InsideScreen(core.rect)
      ensures var b := BounceMove(old(State()), dt * speedMultiplier, terrain, originalY, draw);
        State().(rect := b.rect) == b && core.rect == Geometry.LimitBounds(b.rect).rect
      ensures var r := core.rect;
        core.health == old(core.health) - old(Projectiles.DamageTaken(r, shots)) - SpritesDamage(r, before, lib)
      ensures forall i :: 0 <= i < |shots| ==>
        shots[i].alive == (old(shots[i].alive) && !Collide(core.rect, shots[i].rect))
      ensures Shows(abilities, TouchedAll(core.rect, before))
      ensures |effects| == SpritesTriggered(core.rect, before)
    {
      MoveAndClamp(dt * speedMultiplier, terrain, draw);
      ghost var r := core.rect;
      assert Projectiles.DamageTaken(r, shots) == old(Projectiles.DamageTaken(r, shots));
      effects := core.ComputeDamage(shots, abilities, lib, before);
    }
  }

  // ------------------------------------------------------------ tank enemy

  /** The tank's bomb. The shot period, bomb size, speed, damage and
      explosion radius are named in TankEnemy.py but missing from
      config/Constants.py, so they are parameters here. */
  datatype Arsenal = Arsenal(shootFrequency: real, bombSize: Vec2, bombSpeed: real, bombDamage: real,
                             bombExplosionRadius: real)

  /** `TankEnemy`: moves slowly along a fixed height and drops bombs. */
  class TankEnemy {
    const core: AbstractEnemy
    var timeSinceLastShot: real

    ghost predicate Valid()
      reads this, core
    {
      core.kind == Tank && core.Valid()
    }

    /** A tank centred on (x, y); the defaults are the right edge and the
        tank's height. */
    constructor (x: real, y: real)
      ensures Valid() && fresh(core)
      ensures core.rect == RectAt(Vec2(x, y), Size(Tank))
      ensures core.health == TANK_ENEMY_MAX_HEALTH && core.speed == TANK_ENEMY_SPEED && timeSinceLastShot == 0.0
    {
      core := new AbstractEnemy(Tank, RectAt(Vec2(x, y), Size(Tank)), TANK_ENEMY_SPEED, TANK_ENEMY_MAX_HEALTH);
      timeSinceLastShot := 0.0;
    }

    /** `_move` */
    method Move(dt: real)
      requires Valid()
      modifies core`rect, core`speed
      ensures Valid()
      ensures Motion(core.rect, core.speed) == TankStep(old(core.rect), old(core.speed), dt)
    {
      core.rect := core.rect.(x := core.rect.x + core.speed * dt).WithCenterY(TANK_ENEMY_Y);
      if core.rect.Left() <= 0.0 {
        core.rect := core.rect.(x := 0.0);
        core.speed := Abs(core.speed);
      } else if core.rect.Right() >= WIDTH {
        core.rect := core.rect.WithRight(WIDTH);
        core.speed := -Abs(core.speed);
      }
    }

    /** `_attack`: the shot timer is a rate limiter with the arsenal's
        period; when it fires, one bomb is dropped from the middle of the
        tank's bottom edge, falling straight down. The target is not used. */
    method Attack(dt: real, arsenal: Arsenal) returns (bomb: Option<Projectiles.BombProjectile>)
      modifies this`timeSinceLastShot
      ensures var t := Spawning.RateLimit(old(timeSinceLastShot), dt, arsenal.shootFrequency);
        bomb.Some? == t.fired && timeSinceLastShot == t.acc
      ensures bomb.Some? ==>
        var b := bomb.value;
        fresh(b) && fresh(b.core) && b.Valid() && !b.exploded && b.core.alive &&
        b.core.position == Vec2(core.rect.CenterX(), core.rect.Bottom()) &&
        b.core.velocity == Vec2(0.0, arsenal.bombSpeed) && b.core.damage == arsenal.bombDamage &&
        b.explosionRadius == arsenal.bombExplosionRadius &&
        b.core.rect == RectAt(b.core.position, arsenal.bombSize)
    {
      bomb := None;
      timeSinceLastShot := timeSinceLastShot + dt;
      if timeSinceLastShot >= arsenal.shootFrequency {
        timeSinceLastShot := 0.0;
        var b := new Projectiles.BombProjectile(Vec2(core.rect.CenterX(), core.rect.Bottom()),
                                                Vec2(0.0, arsenal.bombSpeed), arsenal.bombSize,
                                                arsenal.bombDamage, arsenal.bombExplosionRadius);
        bomb := Some(b);
      }
    }

    /** The first two steps of `update`: the move, then the clamping, which
        finds the box already on the screen. */
    method MoveAndClamp(dt: real)
      requires Valid()
      modifies core`rect, core`speed
      ensures Valid() && InsideScreen(core.rect)
      ensures Motion(core.rect, core.speed) == TankStep(old(core.rect), old(core.speed), dt)
    {
      TankStepMeaning(core.rect, core.speed, dt);
      Move(dt);
      LimitBoundsMeaning(core.rect);
      var _ := core.LimitBounds();
    }

    /** The first part of `update`: move, clamp (the tank's move already
        keeps it on the screen), damage. */
    method MoveAndDamage(dt: real, shots: seq<Projectiles.AbstractProjectile>,
                         abilities: seq<Projectiles.ProjectileAbility>, lib: Lib, ghost before: seq<Sprite>)
      returns (effects: seq<Projectiles.ProjectileAbility>)
      requires Valid()
      requires forall i, j :: 0 <= i < j < |shots| ==> shots[i] != shots[j]
      requires Shows(abilities, before) && AllSpritesValid(before) && DistinctAbilities(abilities)
      modifies core`rect, core`speed, core`health, shots`alive,
        abilities`hasExploded, abilities`hasHit, Bases(abilities)`alive
      ensures Valid() && InsideScreen(core.rect)
      ensures Motion(core.rect, core.speed) == TankStep(old(core.rect), old(core.speed), dt)
      ensures var r := core.rect;
        core.health == old(core.health) - old(Projectiles.DamageTaken(r, shots)) - SpritesDamage(r, before, lib)
      ensures forall i :: 0 <= i < |shots| ==>
        shots[i].alive == (old(shots[i].alive) && !Collide(core.rect, shots[i].rect))
      ensures Shows(abilities, TouchedAll(core.rect, before))
      ensures |effects| == SpritesTriggered(core.rect, before)
    {
      MoveAndClamp(dt);
      ghost var r := core.rect;
      assert Projectiles.DamageTaken(r, shots) == old(Projectiles.DamageTaken(r, shots));
      effects := core.ComputeDamage(shots, abilities, lib, before);
    }

    /** `update` (inherited): move, clamp, damage, and attack when there is
        a player. */
    method Update(dt: real, speedMultiplier: real, shots: seq<Projectiles.AbstractProjectile>,
                  abilities: seq<Projectiles.ProjectileAbility>, player: Option<Vec2>, arsenal: Arsenal, lib: Lib,
                  ghost before: seq<Sprite>)
      returns (effects: seq<Projectiles.ProjectileAbility>, bomb: Option<Projectiles.BombProjectile>)
      requires Valid()
      requires forall i, j :: 0 <= i < j < |shots| ==> shots[i] != shots[j]
      requires Shows(abilities, before) && AllSpritesValid(before) && DistinctAbilities(abilities)
      modifies core`rect, core`speed, core`health, this`timeSinceLastShot, shots`alive,
        abilities`hasExploded, abilities`hasHit, Bases(abilities)`alive
      ensures Valid() && InsideScreen(core.rect)
      ensures Motion(core.rect, core.speed) == TankStep(old(core.rect), old(core.speed), dt * speedMultiplier)
      ensures var r := core.rect;
        core.health == old(core.health) - old(Projectiles.DamageTaken(r, shots)) - SpritesDamage(r, before, lib)
      ensures forall i :: 0 <= i < |shots| ==>
        shots[i].alive == (old(shots[i].alive) && !Collide(core.rect, shots[i].rect))
      ensures Shows(abilities, TouchedAll(core.rect, before))
      ensures |effects| == SpritesTriggered(core.rect, before)
      ensures player.None? ==> bomb.None? && timeSinceLastShot == old(timeSinceLastShot)
      ensures player.Some? ==>
        var t := Spawning.RateLimit(old(timeSinceLastShot), dt * speedMultiplier, arsenal.shootFrequency);
        bomb.Some? == t.fired && timeSinceLastShot == t.acc
    {
      var scaled := dt * speedMultiplier;
      effects := MoveAndDamage(scaled, shots, abilities, lib, before);
      bomb := None;
      if player.Some? {
        bomb := Attack(scaled, arsenal);
      }
    }
  }
}
