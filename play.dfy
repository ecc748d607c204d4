/** The play state: where the player starts, the terrain, the enemy group
    and the spawn timer that fills it. */
module Play {
  import opened Geometry
  import Spawning
  import Players
  import Enemies
  import Terrain

  const MAX_ENEMIES: nat := 20
  const SPAWN_TIMER: real := 2.5

  /** The default place of a Wavy enemy built with no arguments. */
  const WAVY_SPAWN_X: real := WIDTH
  const WAVY_SPAWN_Y: real := HEIGHT / 3.0

  // ------------------------------------------------------------ as written

  /** `spawn_enemy` as written, on the size of the enemy group: below the
      cap its first `add` instantiates `AbstractEnemy`, which has abstract
      methods, so Python raises TypeError before anything joins the group;
      at or above the cap nothing happens. */
  function SpawnAsWritten(count: nat): Result<nat> {
    if count < MAX_ENEMIES then Err("TypeError") else Ok(count)
  }

  /** The spawn timer as written over `n` frames of length `dt` from the
      start of play (timer 0, empty group): each frame steps the timer, and
      a frame on which it fires calls `spawn_enemy`; an error ends the run. */
  function SpawnRunAsWritten(dt: real, n: nat): Result<(real, nat)>
    decreases n
  {
    if n == 0 then Ok((0.0, 0))
    else
      var prev := SpawnRunAsWritten(dt, n - 1);
      if prev.Err? then prev
      else
        var t := Spawning.RateLimit(prev.value.0, dt, SPAWN_TIMER);
        if !t.fired then Ok((t.acc, prev.value.1))
        else
          var s := SpawnAsWritten(prev.value.1);
          if s.Err? then Err(s.reason) else Ok((t.acc, s.value))
  }

  /** As written, the run survives exactly the frames before the spawn
      timer first fires, with the group still empty; the first frame on
      which it fires raises TypeError while the group holds no enemy. */
  lemma {:induction false} SpawnAsWrittenFails(dt: real, n: nat)
    ensures SpawnRunAsWritten(dt, n).Ok? <==> forall i :: 1 <= i <= n ==> !Spawning.FiresAt(dt, SPAWN_TIMER, i)
    ensures SpawnRunAsWritten(dt, n).Ok? ==> SpawnRunAsWritten(dt, n).value == (Spawning.AccAfter(dt, SPAWN_TIMER, n), 0)
    ensures SpawnRunAsWritten(dt, n).Err? ==> SpawnRunAsWritten(dt, n) == Err("TypeError")
    decreases n
  {
    if n > 0 {
      SpawnAsWrittenFails(dt, n - 1);
      var prev := SpawnRunAsWritten(dt, n - 1);
      if prev.Ok? {
        assert Spawning.FiresAt(dt, SPAWN_TIMER, n) == Spawning.RateLimit(prev.value.0, dt, SPAWN_TIMER).fired;
      } else {
        assert !(forall i :: 1 <= i <= n - 1 ==> !Spawning.FiresAt(dt, SPAWN_TIMER, i));
      }
    }
  }

  // ------------------------------------------------------------ spawning

  /** The group size after `n` frames of constant length `dt`, from the
      start of play, when each spawn adds two enemies below the cap. */
  function GroupAfter(dt: real, n: nat): nat
    decreases n
  {
    if n == 0 then 0
    else
      var g := GroupAfter(dt, n - 1);
      if Spawning.FiresAt(dt, SPAWN_TIMER, n) && g < MAX_ENEMIES then g + 2 else g
  }

  function Min(a: nat, b: nat): nat {
    if a <= b then a else b
  }

  /** With frames of constant length `dt > 0`, where `k` frames are the
      fewest that reach SPAWN_TIMER, two enemies arrive on frames k, 2k,
      3k, ... until the group holds MAX_ENEMIES: after `q * k + r` frames
      (`r < k`) it holds min(2q, MAX_ENEMIES). The cap is even, so the
      group never passes it. */
  lemma {:induction false} GroupAfterCount(dt: real, k: nat, q: nat, r: nat, n: nat)
    requires dt > 0.0 && k >= 1 && r < k && n == q * k + r
    requires (k as real) * dt >= SPAWN_TIMER && ((k - 1) as real) * dt < SPAWN_TIMER
    ensures GroupAfter(dt, n) == Min(2 * q, MAX_ENEMIES)
    ensures GroupAfter(dt, n) <= MAX_ENEMIES
    decreases n
  {
    if r > 0 {
      assert q * k >= 0;
      GroupAfterCount(dt, k, q, r - 1, n - 1);
      Spawning.RateLimitPeriodic(dt, SPAWN_TIMER, k, q, r, n);
    } else if q > 0 {
      assert (q - 1) * k == q * k - k;
      GroupAfterCount(dt, k, q - 1, k - 1, n - 1);
      Spawning.RateLimitPeriodic(dt, SPAWN_TIMER, k, q, r, n);
    } else {
      assert n == 0;
    }
  }

  // ------------------------------------------------------------ the group

  /** A member of the enemy group, of any of the four kinds. */
  datatype Member =
    | LinearMember(linear: Enemies.LinearEnemy)
    | WavyMember(wavy: Enemies.WavyEnemy)
    | BouncingMember(bouncing: Enemies.BouncingEnemy)
    | TankMember(tank: Enemies.TankEnemy)
  {
    /** The state every kind of enemy shares. */
    function Core(): Enemies.AbstractEnemy {
      match this
      case LinearMember(e) => e.core
      case WavyMember(e) => e.core
      case BouncingMember(e) => e.core
      case TankMember(e) => e.core
    }

    function Repr(): set<object> {
      match this
      case LinearMember(e) => {e, e.core}
      case WavyMember(e) => {e, e.core, e.gun}
      case BouncingMember(e) => {e, e.core}
      case TankMember(e) => {e, e.core}
    }

    ghost predicate Valid()
      reads Repr()
    {
      match this
      case LinearMember(e) => e.Valid()
      case WavyMember(e) => e.Valid()
      case BouncingMember(e) => e.Valid()
      case TankMember(e) => e.Valid()
    }
  }

  /** Where an enemy built with its default arguments stands: at the right
      edge, at its kind's default height. */
  function SpawnRect(kind: Enemies.Kind): Rect {
    match kind
    case Linear => RectAt(Vec2(WIDTH, HEIGHT / 2.0), Enemies.Size(Enemies.Linear))
    case Wavy => Enemies.WavyRect(WAVY_SPAWN_X, WAVY_SPAWN_Y)
    case Bouncing => RectAt(Vec2(WIDTH, Enemies.BOUNCING_ENEMY_BASE_HEIGHT), Enemies.Size(Enemies.Bouncing))
    case Tank => RectAt(Vec2(WIDTH, Enemies.TANK_ENEMY_Y), Enemies.Size(Enemies.Tank))
  }

  /** An enemy of the given kind, built with its default arguments. A
      bouncing enemy's fall time is drawn by `random.uniform` between its
      bounds; the draw is a parameter. */
  method NewEnemy(kind: Enemies.Kind, draw: real) returns (m: Member)
    requires kind == Enemies.Bouncing ==>
      Enemies.BOUNCING_ENEMY_MIN_TIME_BEFORE_FALL <= draw <= Enemies.BOUNCING_ENEMY_MAX_TIME_BEFORE_FALL
    ensures fresh(m.Repr()) && m.Valid()
    ensures m.Core().kind == kind && m.Core().rect == SpawnRect(kind)
  {
    match kind
    case Linear =>
      var e := new Enemies.LinearEnemy(WIDTH, HEIGHT / 2.0);
      m := LinearMember(e);
    case Wavy =>
      var e := new Enemies.WavyEnemy(WAVY_SPAWN_X, WAVY_SPAWN_Y);
      m := WavyMember(e);
    case Bouncing =>
      var e := new Enemies.BouncingEnemy(WIDTH, Enemies.BOUNCING_ENEMY_BASE_HEIGHT, draw);
      m := BouncingMember(e);
    case Tank =>
      var e := new Enemies.TankEnemy(WIDTH, Enemies.TANK_ENEMY_Y);
      m := TankMember(e);
  }

  /** `WavyEnemy()` with its default arguments: a valid Wavy enemy at full
      health whose box has its bottom centre at the right edge, a third of
      the way down the screen. */
  method NewWavyEnemy() returns (e: Enemies.WavyEnemy)
    ensures fresh(e) && fresh(e.core) && fresh(e.gun) && e.Valid()
    ensures e.core.rect == Enemies.WavyRect(WAVY_SPAWN_X, WAVY_SPAWN_Y)
    ensures e.core.health == Enemies.WAVY_ENEMY_MAX_HEALTH
  {
    e := new Enemies.WavyEnemy(WAVY_SPAWN_X, WAVY_SPAWN_Y);
  }

  // ------------------------------------------------------------ the state

  class Play {
    const player: Players.Player
    const terrain: Terrain.Terrain
    var spawnTimer: real
    var enemies: seq<Member>

    /** `spawn_enemy` checks the cap before adding two enemies, so the
        group never holds more than one enemy past it. */
    ghost predicate Valid()
      reads this
    {
      |enemies| <= MAX_ENEMIES + 1
    }

    /** `Play.__init__`: the spawn timer at 0, an empty enemy group, and the
        player moved to the middle of the bottom edge of the screen. The
        terrain, which the source draws at random from the available
        layouts, is a parameter. */
    constructor (player: Players.Player, terrain: Terrain.Terrain)
      modifies player`rect
      ensures Valid() && this.player == player && this.terrain == terrain
      ensures spawnTimer == 0.0 && enemies == []
      ensures player.rect.CenterX() == WIDTH / 2.0 && player.rect.Bottom() == HEIGHT
      ensures player.rect.w == old(player.rect.w) && player.rect.h == old(player.rect.h)
    {
      this.player := player;
      this.terrain := terrain;
      spawnTimer := 0.0;
      enemies := [];
      new;
      player.rect := player.rect.WithCenterX(WIDTH / 2.0).WithBottom(HEIGHT);
    }

    /** `spawn_enemy`, with the `AbstractEnemy()` that cannot be built
        replaced by an enemy of the kind `first`: below the cap that enemy
        and then a new Wavy enemy join the end of the group, each at its
        default place; at the cap the group is unchanged. */
    method SpawnEnemy(first: Enemies.Kind, draw: real) returns (spawned: seq<Member>)
      requires Valid()
      requires first == Enemies.Bouncing ==>
        Enemies.BOUNCING_ENEMY_MIN_TIME_BEFORE_FALL <= draw <= Enemies.BOUNCING_ENEMY_MAX_TIME_BEFORE_FALL
      modifies this`enemies
      ensures Valid()
      ensures enemies == old(enemies) + spawned
      ensures |old(enemies)| < MAX_ENEMIES ==> |spawned| == 2
      ensures |old(enemies)| >= MAX_ENEMIES ==> spawned == []
      ensures forall i :: 0 <= i < |spawned| ==> fresh(spawned[i].Repr()) && spawned[i].Valid()
      ensures |spawned| == 2 ==>
        spawned[0].Core().kind == first && spawned[0].Core().rect == SpawnRect(first) &&
        spawned[1].WavyMember? && spawned[1].Core().rect == SpawnRect(Enemies.Wavy) &&
        spawned[1].Core().health == Enemies.WAVY_ENEMY_MAX_HEALTH
    {
      spawned := [];
      if |enemies| < MAX_ENEMIES {
        var m := NewEnemy(first, draw);
        var e := NewWavyEnemy();
        spawned := [m, WavyMember(e)];
        enemies := enemies + spawned;
      }
    }

    /** The spawn timer of `update`: the frame time accumulates, and when it
        reaches SPAWN_TIMER enemies are spawned and the timer restarts from
        zero. */
    method UpdateSpawn(dt: real, first: Enemies.Kind, draw: real)
      requires Valid()
      requires first == Enemies.Bouncing ==>
        Enemies.BOUNCING_ENEMY_MIN_TIME_BEFORE_FALL <= draw <= Enemies.BOUNCING_ENEMY_MAX_TIME_BEFORE_FALL
      modifies this`spawnTimer, this`enemies
      ensures Valid()
      ensures var t := Spawning.RateLimit(old(spawnTimer), dt, SPAWN_TIMER);
        spawnTimer == t.acc &&
        |enemies| == (if t.fired && |old(enemies)| < MAX_ENEMIES then |old(enemies)| + 2 else |old(enemies)|) &&
        enemies[..|old(enemies)|] == old(enemies)
      ensures forall i :: |old(enemies)| <= i < |enemies| ==> fresh(enemies[i].Repr())
    {
      spawnTimer := spawnTimer + dt;
      if spawnTimer >= SPAWN_TIMER {
        var _ := SpawnEnemy(first, draw);
        spawnTimer := 0.0;
      }
    }
  }
}
