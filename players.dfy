/** The playable characters: one `Player` class holding the state of
    `AbstractPlayer` and of the four characters (Kane, Jones, Cyborg, Rain),
    whose only differences are their stats and their ability-readiness
    machines. The readiness machines are specified as pure step functions on
    a `Meter` value; the class's methods are proved to follow them, and the
    lemmas state what the machines promise over whole runs of frames. */
module Players {
  import opened Geometry
  import Spawning
  import Projectiles

  // config/Constants.py, PLAYER, PROJECTILE and ABILITY sections
  const PLAYER_WIDTH: real := 50.0
  const PLAYER_HEIGHT: real := 100.0
  const PLAYER_SPEED: real := 100.0
  const JUMP_SPEED: real := 700.0
  const PLAYER_MAX_HEALTH: real := 100.0
  const PROJECTILE_DEFAULT_SPEED: real := 800.0
  const PROJECTILE_DEFAULT_FREQUENCY: real := 10.0
  const PROJECTILE_DEFAULT_DAMAGE: real := 10.0
  const ABILITY_COOLDOWN: real := 10.0
  const ABILITY_DURATION: real := 5.0
  const LASER_DURATION: real := 8.0
  const NORMAL_SHOTS_REQUIRED: real := 5.0
  /** Rain's charge period, `1 / (PROJECTILE_DEFAULT_FREQUENCY * 0.1)`. */
  const CHARGE_PERIOD: real := 1.0 / (PROJECTILE_DEFAULT_FREQUENCY * 0.1)

  datatype Character = Kane | Jones | Cyborg | Rain

  /** The class name, which `to_dict` stores under "type". */
  function ClassName(who: Character): string {
    match who
    case Kane => "Kane"
    case Jones => "Jones"
    case Cyborg => "Cyborg"
    case Rain => "Rain"
  }

  // ------------------------------------------------------------------ stats

  function InitialHealth(who: Character): real {
    match who
    case Kane => PLAYER_MAX_HEALTH
    case Jones => Trunc(PLAYER_MAX_HEALTH * 1.2) as real
    case Cyborg => PLAYER_MAX_HEALTH
    case Rain => Trunc(PLAYER_MAX_HEALTH * 0.9) as real
  }

  function GunSpeed(who: Character): real {
    match who
    case Kane => PROJECTILE_DEFAULT_SPEED * 1.5
    case Jones => PROJECTILE_DEFAULT_SPEED * 0.7
    case Cyborg => PROJECTILE_DEFAULT_SPEED * 1.5
    case Rain => PROJECTILE_DEFAULT_SPEED * 2.0
  }

  function GunFrequency(who: Character): (f: real)
    ensures f > 0.0
  {
    match who
    case Kane => PROJECTILE_DEFAULT_FREQUENCY * 1.5
    case Jones => PROJECTILE_DEFAULT_FREQUENCY * 0.5
    case Cyborg => PROJECTILE_DEFAULT_FREQUENCY * 1.5
    case Rain => PROJECTILE_DEFAULT_FREQUENCY * 0.5
  }

  function GunDamage(who: Character): real {
    match who
    case Kane => Trunc(PROJECTILE_DEFAULT_DAMAGE * 1.2) as real
    case Jones => Trunc(PROJECTILE_DEFAULT_DAMAGE * 2.0) as real
    case Cyborg => Trunc(PROJECTILE_DEFAULT_DAMAGE * 1.2) as real
    case Rain => Trunc(PROJECTILE_DEFAULT_DAMAGE * 1.8) as real
  }

  /** Cyborg loads a 10x10 projectile image; the others use the default 8x8. */
  function GunSize(who: Character): Vec2 {
    if who == Cyborg then Vec2(10.0, 10.0) else Vec2(8.0, 8.0)
  }

  /** The gun's rate-limiter period `1 / frequency` is positive for every
      character, so each gun fires again after a finite stretch of firing:
      every 1/15 s for Kane and Cyborg, every 1/5 s for Jones and Rain. */
  lemma GunPeriod(who: Character)
    ensures 1.0 / GunFrequency(who) > 0.0
    ensures who == Kane || who == Cyborg ==> 1.0 / GunFrequency(who) == 1.0 / 15.0
    ensures who == Jones || who == Rain ==> 1.0 / GunFrequency(who) == 0.2
  {
  }

  // ------------------------------------------------------- readiness meter

  /** Every counter any character keeps for its special ability:
      `_ready_ability`; Kane's and Jones's `_time_cooldown_ability` and
      Kane's `_time_duration_ability`; Cyborg's `_ability_downtime` and
      `_ability_time_left`; Rain's `_charging_critical` and
      `time_projectile_generation`. */
  datatype Meter = Meter(ready: bool, cooldown: real, duration: real, downtime: real,
                         timeLeft: real, charge: real, genTime: real)

  /** A new player's meter: ready, every counter 0, and Cyborg's budget full. */
  function InitialMeter(who: Character): Meter {
    Meter(true, 0.0, 0.0, 0.0, if who == Cyborg then LASER_DURATION else 0.0, 0.0, 0.0)
  }

  /** Kane's and Jones's cooldown step. */
  function CounterCooldown(m: Meter, dt: real): Meter {
    if m.ready then m
    else if m.cooldown + dt >= ABILITY_COOLDOWN then m.(cooldown := 0.0, ready := true)
    else m.(cooldown := m.cooldown + dt)
  }

  /** Kane's duration step: holding the ability button uses up its duration. */
  function KaneDuration(m: Meter, dt: real, special: bool): Meter {
    if !special then m
    else if m.duration + dt >= ABILITY_DURATION then m.(duration := 0.0, ready := false)
    else m.(duration := m.duration + dt)
  }

  /** Jones's duration step: the ability is a single shot. */
  function JonesDuration(m: Meter, special: bool): Meter {
    if special then m.(ready := false) else m
  }

  /** Cyborg's cooldown step; `cooldown` is its `_ability_cooldown`. */
  function CyborgCooldown(m: Meter, dt: real, cooldown: real): Meter {
    if m.ready then m
    else if m.downtime + dt >= cooldown then
      m.(downtime := m.downtime + dt, timeLeft := LASER_DURATION, ready := true)
    else m.(downtime := m.downtime + dt)
  }

  /** Cyborg's duration step: the budget drains while the button is held. */
  function CyborgDuration(m: Meter, dt: real, special: bool): Meter {
    if !(special && m.ready) then m
    else if m.timeLeft - dt <= 0.0 then m.(timeLeft := 0.0, ready := false)
    else m.(timeLeft := m.timeLeft - dt)
  }

  /** Rain's cooldown step: firing builds up charge. */
  function RainCooldown(m: Meter, dt: real, fire: bool): Meter {
    if !fire then m
    else
      var g := m.genTime + dt;
      var c := if g >= CHARGE_PERIOD then m.charge + 1.0 else m.charge;
      m.(genTime := g, charge := c, ready := m.ready || c >= NORMAL_SHOTS_REQUIRED)
  }

  /** Rain's duration step: using the ability spends a full charge. */
  function RainDuration(m: Meter, special: bool): Meter {
    if !special then m
    else if m.charge >= NORMAL_SHOTS_REQUIRED then m.(ready := false, charge := 0.0, genTime := 0.0)
    else m.(ready := false)
  }

  function CooldownStep(who: Character, m: Meter, dt: real, fire: bool, laserCooldown: real): Meter {
    match who
    case Kane => CounterCooldown(m, dt)
    case Jones => CounterCooldown(m, dt)
    case Cyborg => CyborgCooldown(m, dt, laserCooldown)
    case Rain => RainCooldown(m, dt, fire)
  }

  function DurationStep(who: Character, m: Meter, dt: real, special: bool): Meter {
    match who
    case Kane => KaneDuration(m, dt, special)
    case Jones => JonesDuration(m, special)
    case Cyborg => CyborgDuration(m, dt, special)
    case Rain => RainDuration(m, special)
  }

  /** What one frame presses: its duration and the two mouse buttons. */
  datatype Press = Press(dt: real, fire: bool, special: bool)

  /** One frame of the meter: the cooldown step, then the duration step. */
  function MeterTick(who: Character, m: Meter, p: Press, laserCooldown: real): Meter {
    DurationStep(who, CooldownStep(who, m, p.dt, p.fire, laserCooldown), p.dt, p.special)
  }

  function MeterRun(who: Character, m: Meter, ps: seq<Press>, laserCooldown: real): Meter
    decreases |ps|
  {
    if ps == [] then m else MeterRun(who, MeterTick(who, m, ps[0], laserCooldown), ps[1..], laserCooldown)
  }

  function TotalTime(ps: seq<Press>): real
    decreases |ps|
  {
    if ps == [] then 0.0 else ps[0].dt + TotalTime(ps[1..])
  }

  predicate NonNegative(ps: seq<Press>) {
    forall i :: 0 <= i < |ps| ==> ps[i].dt >= 0.0
  }

  lemma {:induction false} TotalTimeNonNegative(ps: seq<Press>)
    requires NonNegative(ps)
    ensures TotalTime(ps) >= 0.0
    decreases |ps|
  {
    if ps != [] {
      TotalTimeNonNegative(ps[1..]);
    }
  }

  /** Kane and Jones: with non-negative frame times, the cooldown counter
      stays in [0, ABILITY_COOLDOWN) and Kane's duration counter in
      [0, ABILITY_DURATION) over any run of frames. */
  lemma {:induction false} CountersStayBelow(who: Character, m: Meter, ps: seq<Press>, laserCooldown: real)
    requires who == Kane || who == Jones
    requires 0.0 <= m.cooldown < ABILITY_COOLDOWN && 0.0 <= m.duration < ABILITY_DURATION
    requires NonNegative(ps)
    ensures var r := MeterRun(who, m, ps, laserCooldown);
      0.0 <= r.cooldown < ABILITY_COOLDOWN && 0.0 <= r.duration < ABILITY_DURATION
    decreases |ps|
  {
    if ps != [] {
      assert NonNegative(ps[1..]) by {
        forall i | 0 <= i < |ps[1..]| ensures ps[1..][i].dt >= 0.0 {
          assert ps[1..][i] == ps[i + 1];
        }
      }
      CountersStayBelow(who, MeterTick(who, m, ps[0], laserCooldown), ps[1..], laserCooldown);
    }
  }

  /** Kane and Jones: a player that is not ready becomes ready only after at
      least ABILITY_COOLDOWN of accumulated frame time. */
  lemma {:induction false} ReadyNeedsCooldown(who: Character, m: Meter, ps: seq<Press>, laserCooldown: real)
    requires who == Kane || who == Jones
    requires !m.ready && 0.0 <= m.cooldown
    requires NonNegative(ps)
    ensures MeterRun(who, m, ps, laserCooldown).ready ==> m.cooldown + TotalTime(ps) >= ABILITY_COOLDOWN
    decreases |ps|
  {
    if ps != [] {
      assert NonNegative(ps[1..]) by {
        forall i | 0 <= i < |ps[1..]| ensures ps[1..][i].dt >= 0.0 {
          assert ps[1..][i] == ps[i + 1];
        }
      }
      TotalTimeNonNegative(ps[1..]);
      var m1 := MeterTick(who, m, ps[0], laserCooldown);
      if m.cooldown + ps[0].dt < ABILITY_COOLDOWN {
        assert !m1.ready && m1.cooldown == m.cooldown + ps[0].dt;
        ReadyNeedsCooldown(who, m1, ps[1..], laserCooldown);
      }
    }
  }

  /** Cyborg: with non-negative frame times the budget stays within
      [0, LASER_DURATION]. */
  lemma {:induction false} TimeLeftStaysInBudget(m: Meter, ps: seq<Press>, laserCooldown: real)
    requires 0.0 <= m.timeLeft <= LASER_DURATION
    requires NonNegative(ps)
    ensures 0.0 <= MeterRun(Cyborg, m, ps, laserCooldown).timeLeft <= LASER_DURATION
    decreases |ps|
  {
    if ps != [] {
      assert NonNegative(ps[1..]) by {
        forall i | 0 <= i < |ps[1..]| ensures ps[1..][i].dt >= 0.0 {
          assert ps[1..][i] == ps[i + 1];
        }
      }
      TimeLeftStaysInBudget(MeterTick(Cyborg, m, ps[0], laserCooldown), ps[1..], laserCooldown);
    }
  }

  /** Cyborg: while the ability button is held on every frame and the frames
      add up to less than the budget, the ability stays ready and the budget
      drops by exactly the time held. */
  lemma {:induction false} HeldBudget(m: Meter, ps: seq<Press>, laserCooldown: real)
    requires m.ready
    requires forall i :: 0 <= i < |ps| ==> ps[i].special
    requires NonNegative(ps)
    requires TotalTime(ps) < m.timeLeft
    ensures var r := MeterRun(Cyborg, m, ps, laserCooldown);
      r.ready && r.timeLeft == m.timeLeft - TotalTime(ps)
    decreases |ps|
  {
    if ps != [] {
      assert NonNegative(ps[1..]) by {
        forall i | 0 <= i < |ps[1..]| ensures ps[1..][i].dt >= 0.0 {
          assert ps[1..][i] == ps[i + 1];
        }
      }
      assert forall i :: 0 <= i < |ps[1..]| ==> ps[1..][i].special by {
        forall i | 0 <= i < |ps[1..]| ensures ps[1..][i].special {
          assert ps[1..][i] == ps[i + 1];
        }
      }
      TotalTimeNonNegative(ps[1..]);
      var m1 := MeterTick(Cyborg, m, ps[0], laserCooldown);
      assert m1 == m.(timeLeft := m.timeLeft - ps[0].dt);
      HeldBudget(m1, ps[1..], laserCooldown);
    }
  }

  /** Cyborg: a held frame at least as long as what is left of the budget
      empties it and ends the ability. */
  lemma BudgetRunsOut(m: Meter, dt: real, laserCooldown: real)
    requires m.ready && dt >= m.timeLeft
    ensures var r := MeterTick(Cyborg, m, Press(dt, false, true), laserCooldown);
      !r.ready && r.timeLeft == 0.0
  {
  }

  /** Cyborg: nothing resets the downtime, so it never decreases; once it has
      reached the cooldown, every later cooldown step of a player that is
      not ready makes it ready again at once. */
  lemma {:induction false} DowntimeNeverReset(m: Meter, ps: seq<Press>, laserCooldown: real, dt: real)
    requires NonNegative(ps) && dt >= 0.0
    ensures MeterRun(Cyborg, m, ps, laserCooldown).downtime >= m.downtime
    ensures m.downtime >= laserCooldown ==>
      CyborgCooldown(MeterRun(Cyborg, m, ps, laserCooldown), dt, laserCooldown).ready
    decreases |ps|
  {
    if ps != [] {
      assert NonNegative(ps[1..]) by {
        forall i | 0 <= i < |ps[1..]| ensures ps[1..][i].dt >= 0.0 {
          assert ps[1..][i] == ps[i + 1];
        }
      }
      DowntimeNeverReset(MeterTick(Cyborg, m, ps[0], laserCooldown), ps[1..], laserCooldown, dt);
    }
  }

  /** Rain, while the ability is not used: the charge never decreases, and a
      player that was not ready is ready only with a full charge. */
  lemma {:induction false} ChargeOnlyGrows(m: Meter, ps: seq<Press>, laserCooldown: real)
    requires forall i :: 0 <= i < |ps| ==> !ps[i].special
    ensures var r := MeterRun(Rain, m, ps, laserCooldown);
      r.charge >= m.charge && (r.ready ==> m.ready || r.charge >= NORMAL_SHOTS_REQUIRED)
    decreases |ps|
  {
    if ps != [] {
      assert forall i :: 0 <= i < |ps[1..]| ==> !ps[1..][i].special by {
        forall i | 0 <= i < |ps[1..]| ensures !ps[1..][i].special {
          assert ps[1..][i] == ps[i + 1];
        }
      }
      ChargeOnlyGrows(MeterTick(Rain, m, ps[0], laserCooldown), ps[1..], laserCooldown);
    }
  }

  /** Rain's two steps in words: without the fire button the cooldown step
      changes nothing; with it, the charge grows by one on every frame once
      the accumulated firing time has reached the charge period; the
      ability button always ends readiness and spends the charge exactly
      when it is full. */
  lemma RainSteps(m: Meter, dt: real, fire: bool, special: bool)
    ensures !fire ==> RainCooldown(m, dt, fire) == m
    ensures fire ==>
      RainCooldown(m, dt, fire).charge == m.charge + (if m.genTime + dt >= CHARGE_PERIOD then 1.0 else 0.0)
    ensures RainCooldown(m, dt, fire).ready ==> m.ready || RainCooldown(m, dt, fire).charge >= NORMAL_SHOTS_REQUIRED
    ensures special ==> !RainDuration(m, special).ready
    ensures special ==> (RainDuration(m, special).charge == 0.0 && RainDuration(m, special).genTime == 0.0
                         <==> m.charge >= NORMAL_SHOTS_REQUIRED || (m.charge == 0.0 && m.genTime == 0.0))
    ensures !special ==> RainDuration(m, special) == m
  {
  }

  // ------------------------------------------------ counters as written

  /** Kane's and Jones's cooldown step as the source has it: the counter
      `_time_cooldown_ability` is assigned nowhere before this step first
      reads it (the constructor assigns the public `time_cooldown_ability`),
      so `None` stands for the missing attribute and `Err` for the
      AttributeError. Once the counter exists it is the corrected step. */
  function CounterCooldownAsWritten(ready: bool, counter: Option<real>, dt: real): (r: Result<(bool, Option<real>)>)
    ensures r.Err? <==> !ready && counter.None?
    ensures counter.Some? ==>
      var c := CounterCooldown(Meter(ready, counter.value, 0.0, 0.0, 0.0, 0.0, 0.0), dt);
      r == Ok((c.ready, Some(c.cooldown)))
  {
    if ready then Ok((ready, counter))
    else if counter.None? then Err("AttributeError")
    else if counter.value + dt >= ABILITY_COOLDOWN then Ok((true, Some(0.0)))
    else Ok((false, Some(counter.value + dt)))
  }

  /** A new Jones that uses its ability on the first frame fails on the
      second frame, whatever the frame times. */
  lemma CounterCooldownAsWrittenFails(dt1: real, dt2: real)
    ensures var first := CounterCooldownAsWritten(true, None, dt1);
      first == Ok((true, None)) &&
      JonesDuration(Meter(first.value.0, 0.0, 0.0, 0.0, 0.0, 0.0, 0.0), true).ready == false &&
      CounterCooldownAsWritten(false, first.value.1, dt2).Err?
  {
  }

  /** Cyborg's cooldown step as the source has it: `_ability_downtime` is
      assigned only by `from_dict`, so a Cyborg built by its constructor
      fails on its first cooldown step after the ability ends. */
  function CyborgCooldownAsWritten(ready: bool, downtime: Option<real>, dt: real, cooldown: real): (r: Result<(bool, Option<real>)>)
    ensures r.Err? <==> !ready && downtime.None?
    ensures downtime.Some? ==>
      var c := CyborgCooldown(Meter(ready, 0.0, 0.0, downtime.value, 0.0, 0.0, 0.0), dt, cooldown);
      r == Ok((c.ready, Some(c.downtime)))
  {
    if ready then Ok((ready, downtime))
    else if downtime.None? then Err("AttributeError")
    else Ok((downtime.value + dt >= cooldown, Some(downtime.value + dt)))
  }

  /** A new Cyborg that holds the ability button until the budget is empty
      fails on the next frame. */
  lemma CyborgCooldownAsWrittenFails(dt: real, dt2: real, cooldown: real)
    requires dt >= LASER_DURATION
    ensures var m := InitialMeter(Cyborg);
      !CyborgDuration(m, dt, true).ready &&
      CyborgCooldownAsWritten(false, None, dt2, cooldown).Err?
  {
  }

  // ------------------------------------------------------------- movement

  /** The key and mouse state read by one frame of input handling. */
  datatype Input = Input(moveLeft: bool, moveRight: bool, up: bool, space: bool,
                         fire: bool, special: bool, mouse: Vec2)
  {
    predicate Jump() { up || space }
  }

  datatype Vertical = Vertical(rect: Rect, isJumping: bool, ySpeed: real)

  /** `_compute_vertical_position` as a function of the state before it. */
  function VerticalStep(r: Rect, jumping: bool, v: real, jump: bool, dt: real, terrain: seq<Rect>): (s: Vertical)
    ensures s.rect.x == r.x && s.rect.w == r.w && s.rect.h == r.h
  {
    var v1 := FallSpeed(jumping, v, jump, dt);
    Land(Drop(r, v1, dt), jumping || jump, v1, terrain)
  }

  /** The position step `rect.y += y_speed * dt`. */
  function Drop(r: Rect, v: real, dt: real): Rect {
    r.(y := r.y + v * dt)
  }

  /** The vertical speed after the jump check and gravity. */
  function FallSpeed(jumping: bool, v: real, jump: bool, dt: real): real {
    (if jump && !jumping then -JUMP_SPEED else v) + GRAVITY * dt
  }

  /** The terrain check after the position step. */
  function Land(moved: Rect, jumping: bool, v: real, terrain: seq<Rect>): (s: Vertical)
    ensures s.rect.x == moved.x && s.rect.w == moved.w && s.rect.h == moved.h
  {
    var hits := Hits(moved, terrain);
    if hits == [] then Vertical(moved, jumping, v)
    else Vertical(moved.WithBottom(hits[|hits| - 1].Top()), false, 0.0)
  }

  /** A jump starts only from the ground, with speed -JUMP_SPEED, gravity is
      added before the position step, and a player that touches the terrain
      ends the frame standing on top of a block it overlapped, not jumping
      and at rest. */
  lemma VerticalStepMeaning(r: Rect, jumping: bool, v: real, jump: bool, dt: real, terrain: seq<Rect>)
    ensures jumping ==> VerticalStep(r, jumping, v, jump, dt, terrain) == VerticalStep(r, jumping, v, false, dt, terrain)
    ensures FallSpeed(jumping, v, jump, dt) ==
      (if jump && !jumping then -JUMP_SPEED else v) + GRAVITY * dt
    ensures var s := VerticalStep(r, jumping, v, jump, dt, terrain);
      var v1 := FallSpeed(jumping, v, jump, dt);
      var moved := Drop(r, v1, dt);
      s.rect.x == r.x && s.rect.w == r.w && s.rect.h == r.h &&
      (Hits(moved, terrain) == [] ==> s == Vertical(moved, jumping || jump, v1)) &&
      (Hits(moved, terrain) != [] ==>
        !s.isJumping && s.ySpeed == 0.0 &&
        exists b :: b in terrain && Collide(moved, b) && s.rect.Bottom() == b.Top())
  {
    var v1 := FallSpeed(jumping, v, jump, dt);
    var moved := Drop(r, v1, dt);
    var hits := Hits(moved, terrain);
    if hits != [] {
      var b := hits[|hits| - 1];
      assert b in hits;
      assert b in terrain && Collide(moved, b);
    }
  }

  /** Each hit block's push: moving right puts the right edge on the block's
      left edge (this wins when both keys are held), moving left puts the
      left edge on the block's right edge. */
  function Push(r: Rect, b: Rect, moveLeft: bool, moveRight: bool): Rect {
    if moveRight then r.WithRight(b.Left())
    else if moveLeft then r.(x := b.Right())
    else r
  }

  /** `_compute_horizontal_position` as a function of the box before it. */
  function HorizontalStep(r: Rect, moveLeft: bool, moveRight: bool, dt: real, terrain: seq<Rect>): (s: Rect)
    ensures s.y == r.y && s.w == r.w && s.h == r.h
  {
    var x1 := r.x - (if moveLeft then PLAYER_SPEED * dt else 0.0) + (if moveRight then PLAYER_SPEED * dt else 0.0);
    var moved := r.(x := x1);
    var hits := Hits(moved, terrain);
    if hits == [] then moved else Push(moved, hits[|hits| - 1], moveLeft, moveRight)
  }

  /** The horizontal step never moves the box vertically or resizes it;
      without a key it changes nothing; a box pushed out of a block only
      touches that block. */
  lemma HorizontalStepMeaning(r: Rect, moveLeft: bool, moveRight: bool, dt: real, terrain: seq<Rect>)
    ensures var s := HorizontalStep(r, moveLeft, moveRight, dt, terrain);
      s.y == r.y && s.w == r.w && s.h == r.h &&
      (!moveLeft && !moveRight ==> s == r)
    ensures var x1 := r.x - (if moveLeft then PLAYER_SPEED * dt else 0.0) + (if moveRight then PLAYER_SPEED * dt else 0.0);
      var hits := Hits(r.(x := x1), terrain);
      (moveLeft || moveRight) && hits != [] ==>
        hits[|hits| - 1] in terrain &&
        !Collide(HorizontalStep(r, moveLeft, moveRight, dt, terrain), hits[|hits| - 1])
  {
    var x1 := r.x - (if moveLeft then PLAYER_SPEED * dt else 0.0) + (if moveRight then PLAYER_SPEED * dt else 0.0);
    var moved := r.(x := x1);
    var hits := Hits(moved, terrain);
    if hits != [] {
      var b := hits[|hits| - 1];
      assert b in hits;
      assert HorizontalStep(r, moveLeft, moveRight, dt, terrain) == Push(moved, b, moveLeft, moveRight);
      PushClears(moved, b, moveLeft, moveRight);
    }
  }

  /** A box pushed against a block's side touches it without overlapping;
      with no key it is not pushed. */
  lemma PushClears(r: Rect, b: Rect, moveLeft: bool, moveRight: bool)
    ensures moveLeft || moveRight ==> !Collide(Push(r, b, moveLeft, moveRight), b)
    ensures !moveLeft && !moveRight ==> Push(r, b, moveLeft, moveRight) == r
  {
  }

  // ------------------------------------------------------------ save files

  /** The state `to_dict` and `from_dict` carry. */
  datatype Snapshot = Snapshot(rect: Rect, health: real, isJumping: bool, ySpeed: real, meter: Meter)

  /** The player box after `rect.centerx = cx` and `rect.bottom = bottom`. */
  function PlayerRect(cx: real, bottom: real): (r: Rect)
    ensures r.CenterX() == cx && r.Bottom() == bottom
    ensures r.w == PLAYER_WIDTH && r.h == PLAYER_HEIGHT
  {
    Rect(cx - PLAYER_WIDTH / 2.0, bottom - PLAYER_HEIGHT, PLAYER_WIDTH, PLAYER_HEIGHT)
  }

  /** `to_dict`: the common keys, and Rain's two extra ones. The value under
      "time_cooldown_ability" is the public attribute of that name, which
      stays 0 because nothing but the constructor assigns it. */
  function SaveDict(who: Character, s: Snapshot): (d: Dict)
    ensures who == Rain <==> "charging_critical" in d
  {
    var base := map[
      "type" := Text(ClassName(who)),
      "centerx" := Num(s.rect.CenterX()),
      "bottom" := Num(s.rect.Bottom()),
      "health" := Num(s.health),
      "is_jumping" := Flag(s.isJumping),
      "y_speed" := Num(s.ySpeed),
      "ready_ability" := Flag(s.meter.ready),
      "time_cooldown_ability" := Num(0.0),
      "time_duration_ability" := Num(s.meter.duration)];
    if who == Rain then
      base["charging_critical" := Num(s.meter.charge)]["time_projectile_geration" := Num(s.meter.genTime)]
    else base
  }

  /** The values every `from_dict` reads with `data[key]`. */
  datatype Common = Common(cx: real, bottom: real, health: real, isJumping: bool, ySpeed: real,
                           ready: bool, cooldown: real, duration: real)

  /** The keys every `from_dict` reads, and those of them used as numbers. */
  const COMMON_KEYS: set<string> := {"centerx", "bottom", "health", "is_jumping", "y_speed",
                                     "ready_ability", "time_cooldown_ability", "time_duration_ability"}
  const NUMBER_KEYS: set<string> := {"centerx", "bottom", "health", "y_speed",
                                     "time_cooldown_ability", "time_duration_ability"}

  /** The common reads of `from_dict`: a missing key is a KeyError; text
      under a number key is a TypeError; an int, a float or a bool is a
      number, and any value has a truth value. */
  function ReadCommon(d: Dict): (r: Result<Common>)
    ensures r.Ok? <==> (forall k :: k in COMMON_KEYS ==> k in d) &&
                       (forall k :: k in NUMBER_KEYS ==> k in d && !d[k].Text?)
    ensures (exists k :: k in COMMON_KEYS && k !in d) ==> r == Err("KeyError")
    ensures r.Ok? ==> r.value.isJumping == Truthy(d["is_jumping"]) && r.value.ready == Truthy(d["ready_ability"])
  {
    var cx := GetNum(d, "centerx");
    var bottom := GetNum(d, "bottom");
    var health := GetNum(d, "health");
    var jumping := GetFlag(d, "is_jumping");
    var ySpeed := GetNum(d, "y_speed");
    var ready := GetFlag(d, "ready_ability");
    var cooldown := GetNum(d, "time_cooldown_ability");
    var duration := GetNum(d, "time_duration_ability");
    if "centerx" !in d || "bottom" !in d || "health" !in d || "is_jumping" !in d || "y_speed" !in d ||
       "ready_ability" !in d || "time_cooldown_ability" !in d || "time_duration_ability" !in d
    then Err("KeyError")
    else if cx.Err? || bottom.Err? || health.Err? || ySpeed.Err? || cooldown.Err? || duration.Err?
    then Err("TypeError")
    else Ok(Common(cx.value, bottom.value, health.value, jumping.value, ySpeed.value,
                   ready.value, cooldown.value, duration.value))
  }

  /** `Rain.from_dict`: a new Rain whose box, health, jump state, readiness
      and counters come from `data`; the charge and its timer default to 0. */
  function RestoreRain(d: Dict): (r: Result<Snapshot>)
    ensures r.Ok? <==> ReadCommon(d).Ok? && GetNumOr(d, "charging_critical", 0.0).Ok? &&
                       GetNumOr(d, "time_projectile_geration", 0.0).Ok?
  {
    var c := ReadCommon(d);
    var charge := GetNumOr(d, "charging_critical", 0.0);
    var gen := GetNumOr(d, "time_projectile_geration", 0.0);
    if c.Err? then Err(c.reason)
    else if charge.Err? then Err(charge.reason)
    else if gen.Err? then Err(gen.reason)
    else
      var v := c.value;
      Ok(Snapshot(PlayerRect(v.cx, v.bottom), v.health, v.isJumping, v.ySpeed,
                  Meter(v.ready, v.cooldown, v.duration, 0.0, 0.0, charge.value, gen.value)))
  }

  /** `Cyborg.from_dict`: a new Cyborg at the saved position whose downtime
      comes from "time_cooldown_ability"; its budget is the constructor's. */
  function RestoreCyborg(d: Dict): (r: Result<Snapshot>)
    ensures r.Ok? <==> ReadCommon(d).Ok?
  {
    var c := ReadCommon(d);
    if c.Err? then Err(c.reason)
    else
      var v := c.value;
      Ok(Snapshot(PlayerRect(v.cx, v.bottom), v.health, v.isJumping, v.ySpeed,
                  Meter(v.ready, 0.0, v.duration, v.cooldown, LASER_DURATION, 0.0, 0.0)))
  }

  /** The common reads of any character's save give back its box centre and
      bottom, health, jump state, vertical speed, readiness, the public
      cooldown attribute's 0 and the duration counter. */
  lemma ReadCommonOfSave(who: Character, s: Snapshot)
    ensures ReadCommon(SaveDict(who, s)) ==
      Ok(Common(s.rect.CenterX(), s.rect.Bottom(), s.health, s.isJumping, s.ySpeed, s.meter.ready,
                0.0, s.meter.duration))
  {
    var d := SaveDict(who, s);
    assert d["centerx"] == Num(s.rect.CenterX()) && d["bottom"] == Num(s.rect.Bottom());
    assert d["health"] == Num(s.health) && d["y_speed"] == Num(s.ySpeed);
    assert d["is_jumping"] == Flag(s.isJumping) && d["ready_ability"] == Flag(s.meter.ready);
    assert d["time_cooldown_ability"] == Num(0.0) && d["time_duration_ability"] == Num(s.meter.duration);
  }

  /** Rain's save round trip keeps the box, health, jump state, readiness,
      duration counter, charge and charge timer; the cooldown counter comes
      back as the public attribute's 0. */
  lemma RainRoundTrip(s: Snapshot)
    requires s.rect.w == PLAYER_WIDTH && s.rect.h == PLAYER_HEIGHT
    ensures RestoreRain(SaveDict(Rain, s)) ==
      Ok(s.(meter := s.meter.(cooldown := 0.0, downtime := 0.0, timeLeft := 0.0)))
  {
    ReadCommonOfSave(Rain, s);
    assert PlayerRect(s.rect.CenterX(), s.rect.Bottom()) == s.rect;
  }

  /** A save of Rain without the two extra keys restores charge and timer 0. */
  lemma RainRestoreDefaults(s: Snapshot)
    ensures var d := SaveDict(Kane, s);
      RestoreRain(d).Ok? && RestoreRain(d).value.meter.charge == 0.0 &&
      RestoreRain(d).value.meter.genTime == 0.0
  {
    ReadCommonOfSave(Kane, s);
  }

  /** A Rain save with an integer box, an integer health (the `int(...)` of
      the constructor), integer counters and an integer charge restores, each
      int as that number. */
  lemma RainRestoresIntSave(cx: int, bottom: int, health: int, jumping: bool, ySpeed: real, ready: bool,
                            charge: int, gen: real)
    ensures var d := map["type" := Text("Rain"), "centerx" := Int(cx), "bottom" := Int(bottom),
                         "health" := Int(health), "is_jumping" := Flag(jumping), "y_speed" := Num(ySpeed),
                         "ready_ability" := Flag(ready), "time_cooldown_ability" := Int(0),
                         "time_duration_ability" := Int(0), "charging_critical" := Int(charge),
                         "time_projectile_geration" := Num(gen)];
      RestoreRain(d) == Ok(Snapshot(PlayerRect(cx as real, bottom as real), health as real, jumping, ySpeed,
                                    Meter(ready, 0.0, 0.0, 0.0, 0.0, charge as real, gen)))
  {
  }

  /** Any value under a flag key restores as its truth value: an int 1 is a
      jump in progress and an empty text is not ready. */
  lemma CyborgRestoresTruthValues(d: Dict)
    requires ReadCommon(d).Ok? && d["is_jumping"] == Int(1) && d["ready_ability"] == Text("")
    ensures RestoreCyborg(d).Ok? && RestoreCyborg(d).value.isJumping && !RestoreCyborg(d).value.meter.ready
  {
  }

  /** Cyborg's save round trip keeps the box, health, jump state, readiness
      and duration counter, but the downtime comes back as 0 (the public
      attribute saved in its place) and the budget full. */
  lemma CyborgRoundTrip(s: Snapshot)
    requires s.rect.w == PLAYER_WIDTH && s.rect.h == PLAYER_HEIGHT
    ensures RestoreCyborg(SaveDict(Cyborg, s)) ==
      Ok(s.(meter := Meter(s.meter.ready, 0.0, s.meter.duration, 0.0, LASER_DURATION, 0.0, 0.0)))
  {
    ReadCommonOfSave(Cyborg, s);
    assert PlayerRect(s.rect.CenterX(), s.rect.Bottom()) == s.rect;
  }

  // ---------------------------------------------------------------- player

  class Player {
    const who: Character
    /** Cyborg's `_ability_cooldown` (its constant is absent from the constants file). */
    const laserCooldown: real
    const gun: Projectiles.ProjectileGenerator
    var rect: Rect
    var isJumping: bool
    var ySpeed: real
    var health: real
    var facingLeft: bool
    var alive: bool
    var ready: bool
    var cooldown: real
    var duration: real
    var downtime: real
    var timeLeft: real
    var charge: real
    var genTime: real

    ghost predicate Valid()
      reads this, gun
    {
      rect.w == PLAYER_WIDTH && rect.h == PLAYER_HEIGHT && gun.Valid() &&
      gun.projectileType == "normal" && gun.projectileDamage == GunDamage(who)
    }

    function Readiness(): Meter
      reads this
    {
      Meter(ready, cooldown, duration, downtime, timeLeft, charge, genTime)
    }

    function State(): Snapshot
      reads this
    {
      Snapshot(rect, health, isJumping, ySpeed, Readiness())
    }

    /** A player standing with its bottom centre at (x, y): not jumping, at
        rest, at full health and with the ability ready. Both counters the
        source leaves unassigned start at 0 here. */
    constructor (who: Character, x: real, y: real, laserCooldown: real)
      ensures Valid() && fresh(gun) && alive && !facingLeft
      ensures this.who == who && this.laserCooldown == laserCooldown
      ensures State() == Snapshot(PlayerRect(x, y), InitialHealth(who), false, 0.0, InitialMeter(who))
      ensures gun.projectileSpeed == GunSpeed(who) && gun.frequency == GunFrequency(who)
      ensures gun.projectileDamage == GunDamage(who) && gun.projectileSize == GunSize(who)
      ensures gun.projectileType == "normal" && gun.isPlayerProjectile
      ensures gun.timeWithoutGeneration == 0.0
    {
      this.who := who;
      this.laserCooldown := laserCooldown;
      gun := new Projectiles.ProjectileGenerator(GunSpeed(who), GunFrequency(who), GunSize(who),
                                                 GunDamage(who), "normal", true, 0.0);
      rect := PlayerRect(x, y);
      isJumping := false;
      ySpeed := 0.0;
      health := InitialHealth(who);
      facingLeft := false;
      alive := true;
      ready := true;
      cooldown := 0.0;
      duration := 0.0;
      downtime := 0.0;
      timeLeft := if who == Cyborg then LASER_DURATION else 0.0;
      charge := 0.0;
      genTime := 0.0;
    }

    /** The instance `from_dict` builds: a new player whose saved fields are
        then overwritten with `s`. */
    constructor Restored(who: Character, s: Snapshot, laserCooldown: real)
      requires s.rect.w == PLAYER_WIDTH && s.rect.h == PLAYER_HEIGHT
      ensures Valid() && fresh(gun) && alive && !facingLeft
      ensures this.who == who && this.laserCooldown == laserCooldown && State() == s
    {
      this.who := who;
      this.laserCooldown := laserCooldown;
      gun := new Projectiles.ProjectileGenerator(GunSpeed(who), GunFrequency(who), GunSize(who),
                                                 GunDamage(who), "normal", true, 0.0);
      rect := s.rect;
      isJumping := s.isJumping;
      ySpeed := s.ySpeed;
      health := s.health;
      facingLeft := false;
      alive := true;
      ready := s.meter.ready;
      cooldown := s.meter.cooldown;
      duration := s.meter.duration;
      downtime := s.meter.downtime;
      timeLeft := s.meter.timeLeft;
      charge := s.meter.charge;
      genTime := s.meter.genTime;
    }

    method ComputeVerticalPosition(terrain: seq<Rect>, jump: bool, dt: real)
      modifies this`rect, this`isJumping, this`ySpeed
      ensures Vertical(rect, isJumping, ySpeed) ==
        VerticalStep(old(rect), old(isJumping), old(ySpeed), jump, dt, terrain)
    {
      if jump && !isJumping {
        ySpeed := -JUMP_SPEED;
        isJumping := true;
      }
      ySpeed := ySpeed + GRAVITY * dt;
      assert ySpeed == FallSpeed(old(isJumping), old(ySpeed), jump, dt);
      assert isJumping == (old(isJumping) || jump);
      rect := rect.(y := rect.y + ySpeed * dt);
      assert rect == Drop(old(rect), ySpeed, dt);
      ghost var moved := rect;
      var hits := Hits(rect, terrain);
      for i := 0 to |hits|
        invariant i == 0 ==> Vertical(rect, isJumping, ySpeed) == Vertical(moved, old(isJumping) || jump, FallSpeed(old(isJumping), old(ySpeed), jump, dt))
        invariant i > 0 ==> Vertical(rect, isJumping, ySpeed) == Vertical(moved.WithBottom(hits[i - 1].Top()), false, 0.0)
      {
        rect := rect.WithBottom(hits[i].Top());
        isJumping := false;
        ySpeed := 0.0;
      }
      assert Hits(moved, terrain) == hits;
    }

    method ComputeHorizontalPosition(terrain: seq<Rect>, moveLeft: bool, moveRight: bool, dt: real)
      modifies this`rect
      ensures rect == HorizontalStep(old(rect), moveLeft, moveRight, dt, terrain)
    {
      if moveLeft {
        rect := rect.(x := rect.x - PLAYER_SPEED * dt);
      }
      if moveRight {
        rect := rect.(x := rect.x + PLAYER_SPEED * dt);
      }
      ghost var moved := rect;
      var hits := Hits(rect, terrain);
      for i := 0 to |hits|
        invariant rect == if i == 0 then moved else Push(moved, hits[i - 1], moveLeft, moveRight)
      {
        if moveLeft {
          rect := rect.(x := hits[i].Right());
        }
        if moveRight {
          rect := rect.WithRight(hits[i].Left());
        }
      }
    }

    method ComputeCooldownAbility(dt: real, fire: bool)
      modifies this`ready, this`cooldown, this`downtime, this`timeLeft, this`charge, this`genTime
      ensures Readiness() == CooldownStep(who, old(Readiness()), dt, fire, laserCooldown)
    {
      match who {
        case Kane =>
          CounterCooldownTick(dt);
        case Jones =>
          CounterCooldownTick(dt);
        case Cyborg =>
          if !ready {
            downtime := downtime + dt;
            if downtime >= laserCooldown {
              timeLeft := LASER_DURATION;
              ready := true;
            }
          }
        case Rain =>
          if fire {
            genTime := genTime + dt;
            if genTime >= CHARGE_PERIOD {
              charge := charge + 1.0;
            }
            if charge >= NORMAL_SHOTS_REQUIRED {
              ready := true;
            }
          }
      }
    }

    /** The cooldown step Kane and Jones share. */
    method CounterCooldownTick(dt: real)
      modifies this`ready, this`cooldown
      ensures Readiness() == CounterCooldown(old(Readiness()), dt)
    {
      if !ready {
        cooldown := cooldown + dt;
        if cooldown >= ABILITY_COOLDOWN {
          ready := true;
          cooldown := 0.0;
        }
      }
    }

    method ComputeDurationAbility(dt: real, special: bool)
      modifies this`ready, this`duration, this`timeLeft, this`charge, this`genTime
      ensures Readiness() == DurationStep(who, old(Readiness()), dt, special)
    {
      match who {
        case Kane =>
          if special {
            duration := duration + dt;
            if duration >= ABILITY_DURATION {
              duration := 0.0;
              ready := false;
            }
          }
        case Jones =>
          if special {
            ready := false;
          }
        case Cyborg =>
          if special && ready {
            timeLeft := timeLeft - dt;
            if timeLeft <= 0.0 {
              timeLeft := 0.0;
              ready := false;
            }
          }
        case Rain =>
          if special {
            ready := false;
            if charge >= NORMAL_SHOTS_REQUIRED {
              charge := 0.0;
              genTime := 0.0;
            }
          }
      }
    }

    /** `_handle_input`: vertical then horizontal movement; the gun fires
        when the fire button is held unless the ability button is held with
        the ability ready; the cooldown step; the ability is used when its
        button is held and it is ready; the duration step; the facing. */
    method HandleInput(input: Input, terrain: seq<Rect>, dt: real, lib: Lib)
      returns (shot: Option<Projectiles.EnemyShot>, usedAbility: bool)
      requires Valid() && lib.Valid()
      modifies this`rect, this`isJumping, this`ySpeed, this`facingLeft
      modifies this`ready, this`cooldown, this`duration, this`downtime, this`timeLeft, this`charge, this`genTime
      modifies gun`timeWithoutGeneration
      ensures Valid()
      ensures var v := VerticalStep(old(rect), old(isJumping), old(ySpeed), input.Jump(), dt, terrain);
        rect == HorizontalStep(v.rect, input.moveLeft, input.moveRight, dt, terrain) &&
        isJumping == v.isJumping && ySpeed == v.ySpeed
      ensures var gate := input.fire && !(input.special && old(ready));
        (!gate ==> shot.None? && gun.timeWithoutGeneration == old(gun.timeWithoutGeneration)) &&
        (gate ==> var t := Spawning.RateLimit(old(gun.timeWithoutGeneration), dt, 1.0 / gun.frequency);
                  shot.Some? == t.fired && gun.timeWithoutGeneration == t.acc)
      ensures shot.Some? ==>
        var c := shot.value.Core();
        fresh(c) && shot.value.Normal? && c.alive && c.position == rect.Center() &&
        c.damage == GunDamage(who) && c.rect == RectAt(rect.Center(), gun.projectileSize)
      ensures usedAbility == (input.special && CooldownStep(who, old(Readiness()), dt, input.fire, laserCooldown).ready)
      ensures Readiness() == MeterTick(who, old(Readiness()), Press(dt, input.fire, input.special), laserCooldown)
      ensures facingLeft == (if input.moveLeft then true else if input.moveRight then false else old(facingLeft))
      ensures health == old(health) && alive == old(alive)
    {
      ComputeVerticalPosition(terrain, input.Jump(), dt);
      ComputeHorizontalPosition(terrain, input.moveLeft, input.moveRight, dt);
      shot := FireGun(input, dt, lib);
      ComputeCooldownAbility(dt, input.fire);
      usedAbility := input.special && ready;
      ComputeDurationAbility(dt, input.special);
      if input.moveLeft {
        facingLeft := true;
      } else if input.moveRight {
        facingLeft := false;
      }
    }

    /** The gun part of `_handle_input`: the fire button fires the gun unless
        the ability button is held with the ability ready. */
    method FireGun(input: Input, dt: real, lib: Lib) returns (shot: Option<Projectiles.EnemyShot>)
      requires Valid() && lib.Valid()
      modifies gun`timeWithoutGeneration
      ensures var gate := input.fire && !(input.special && ready);
        (!gate ==> shot.None? && gun.timeWithoutGeneration == old(gun.timeWithoutGeneration)) &&
        (gate ==> var t := Spawning.RateLimit(old(gun.timeWithoutGeneration), dt, 1.0 / gun.frequency);
                  shot.Some? == t.fired && gun.timeWithoutGeneration == t.acc)
      ensures shot.Some? ==>
        var c := shot.value.Core();
        fresh(c) && shot.value.Normal? && c.alive && c.position == rect.Center() &&
        c.damage == GunDamage(who) && c.rect == RectAt(rect.Center(), gun.projectileSize)
    {
      shot := None;
      if input.fire && !(input.special && ready) {
        shot := gun.Generate(rect, input.mouse, dt, lib);
      }
    }

    /** `_limit_bounds`: the player always fits on the screen, so it ends
        inside it. */
    method LimitBounds()
      requires Valid()
      modifies this`rect
      ensures Valid()
      ensures rect == Geometry.LimitBounds(old(rect)).rect
      ensures InsideScreen(rect)
      ensures InsideScreen(old(rect)) ==> rect == old(rect)
    {
      LimitBoundsMeaning(rect);
      rect := Geometry.LimitBounds(rect).rect;
    }

    /** `_compute_damage`: every enemy projectile overlapping the player
        takes its damage off the health and is removed. The branch for
        projectiles with an `_exploded` attribute is never taken (the bomb's
        flag is name-mangled), so bombs are treated like any other shot. */
    method ComputeDamage(shots: seq<Projectiles.AbstractProjectile>)
      requires forall i, j :: 0 <= i < j < |shots| ==> shots[i] != shots[j]
      modifies this`health, shots
      ensures health == old(health) - old(Projectiles.DamageTaken(rect, shots))
      ensures forall i :: 0 <= i < |shots| ==>
        shots[i].alive == (old(shots[i].alive) && !Collide(rect, shots[i].rect))
      ensures forall i :: 0 <= i < |shots| ==> shots[i].rect == old(shots[i].rect)
    {
      var taken := Projectiles.ResolveHits(rect, shots);
      health := health - taken;
    }

    /** The first two steps of `update`: the input, then the clamping. */
    method Step(input: Input, terrain: seq<Rect>, dt: real, lib: Lib)
      returns (shot: Option<Projectiles.EnemyShot>, usedAbility: bool)
      requires Valid() && lib.Valid()
      modifies this`rect, this`isJumping, this`ySpeed, this`facingLeft
      modifies this`ready, this`cooldown, this`duration, this`downtime, this`timeLeft, this`charge, this`genTime
      modifies gun`timeWithoutGeneration
      ensures Valid() && InsideScreen(rect)
      ensures var v := VerticalStep(old(rect), old(isJumping), old(ySpeed), input.Jump(), dt, terrain);
        rect == Geometry.LimitBounds(HorizontalStep(v.rect, input.moveLeft, input.moveRight, dt, terrain)).rect &&
        isJumping == v.isJumping && ySpeed == v.ySpeed
      ensures var gate := input.fire && !(input.special && old(ready));
        (!gate ==> shot.None?) &&
        (gate ==> var t := Spawning.RateLimit(old(gun.timeWithoutGeneration), dt, 1.0 / gun.frequency);
                  shot.Some? == t.fired)
      ensures usedAbility == (input.special && CooldownStep(who, old(Readiness()), dt, input.fire, laserCooldown).ready)
      ensures Readiness() == MeterTick(who, old(Readiness()), Press(dt, input.fire, input.special), laserCooldown)
      ensures health == old(health) && alive == old(alive)
    {
      shot, usedAbility := HandleInput(input, terrain, dt, lib);
      LimitBounds();
    }

    /** `update`: input, then clamping, then damage; a player whose health
        has dropped to 0 or below is removed. The sprite swap keeps the box,
        as every sprite has the player's size. */
    method Update(input: Input, terrain: seq<Rect>, dt: real,
                  shots: seq<Projectiles.AbstractProjectile>, lib: Lib)
      returns (shot: Option<Projectiles.EnemyShot>, usedAbility: bool)
      requires Valid() && lib.Valid()
      requires forall i, j :: 0 <= i < j < |shots| ==> shots[i] != shots[j]
      modifies this`rect, this`isJumping, this`ySpeed, this`facingLeft, this`health, this`alive
      modifies this`ready, this`cooldown, this`duration, this`downtime, this`timeLeft, this`charge, this`genTime
      modifies gun`timeWithoutGeneration, shots
      ensures Valid() && InsideScreen(rect)
      ensures var v := VerticalStep(old(rect), old(isJumping), old(ySpeed), input.Jump(), dt, terrain);
        rect == Geometry.LimitBounds(HorizontalStep(v.rect, input.moveLeft, input.moveRight, dt, terrain)).rect &&
        isJumping == v.isJumping && ySpeed == v.ySpeed
      ensures var gate := input.fire && !(input.special && old(ready));
        (!gate ==> shot.None?) &&
        (gate ==> var t := Spawning.RateLimit(old(gun.timeWithoutGeneration), dt, 1.0 / gun.frequency);
                  shot.Some? == t.fired)
      ensures usedAbility == (input.special && CooldownStep(who, old(Readiness()), dt, input.fire, laserCooldown).ready)
      ensures Readiness() == MeterTick(who, old(Readiness()), Press(dt, input.fire, input.special), laserCooldown)
      ensures var r := rect; health == old(health) - old(Projectiles.DamageTaken(r, shots))
      ensures forall i :: 0 <= i < |shots| ==>
        shots[i].alive == (old(shots[i].alive) && !Collide(rect, shots[i].rect))
      ensures alive == (old(alive) && health > 0.0)
    {
      shot, usedAbility := Step(input, terrain, dt, lib);
      ghost var r := rect;
      ghost var meter := Readiness();
      assert Projectiles.DamageTaken(r, shots) == old(Projectiles.DamageTaken(r, shots));
      ComputeDamage(shots);
      assert rect == r && Readiness() == meter;
      if health <= 0.0 {
        alive := false;
      }
    }

    /** `to_dict` (Rain's adds its two charge keys). */
    function ToDict(): Dict
      reads this
    {
      SaveDict(who, State())
    }

    /** `from_dict` of Rain and Cyborg, the two characters that define it:
        a fresh player restored from `d`, or the KeyError of a missing key. */
    static method FromDict(who: Character, d: Dict, laserCooldown: real) returns (r: Result<Player>)
      requires who == Rain || who == Cyborg
      ensures r.Ok? <==> (if who == Rain then RestoreRain(d) else RestoreCyborg(d)).Ok?
      ensures r.Ok? ==>
        fresh(r.value) && r.value.Valid() && r.value.who == who && r.value.alive &&
        r.value.State() == (if who == Rain then RestoreRain(d) else RestoreCyborg(d)).value
    {
      var restored := if who == Rain then RestoreRain(d) else RestoreCyborg(d);
      if restored.Err? {
        return Err(restored.reason);
      }
      var p := new Player.Restored(who, restored.value, laserCooldown);
      return Ok(p);
    }
  }
}
