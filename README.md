# alien_force combat core, modelled in Dafny

alien_force is a 2D side-view shooter built on pygame. A player character
(Kane, Jones, Cyborg or Rain) runs and jumps over a block terrain and fires at
enemies (linear, wavy, bouncing, tank). The enemies shoot back or drop bombs.
Everything advances in fixed frames of length `dt`. This project models that
frame-stepped combat core:

- the projectile generators: their rate limiter, their aiming function and
  the self-collision walk that moves a new shot out of its shooter;
- the projectiles: the legacy `Projectile` and the `projectiles` package,
  including the bomb's explosion;
- the three generations of abilities (`Ability.py`, `AbstractAbility.py` and
  the `abilities` package): missile barrage, laser beam and critical shot;
- the player: movement against the terrain, screen clamping, damage, the four
  characters' stats, their ability cooldown and duration meters, and save and
  restore;
- the enemies: their movement patterns, screen clamping, damage from shots and
  ability sprites, attacks, the class map and save and restore;
- the terrain grid and the spawn timer of the play state.

How the model is built:

- Objects whose fields the source updates in place become Dafny classes, and
  their methods state their new state in `ensures`.
- Pure calculations become functions, and lemmas about those functions state
  what the source promises.
- Positions and times are `real`s. pygame's integer rectangles are not modelled.
- Trigonometry and square roots are values of the datatype `Geometry.Lib`. The
  only facts assumed about them are the ones in `Lib.Valid`: ranges, sign of
  `atan`, and sin² + cos² = 1.
- Randomness (`random.uniform`, the terrain draw), mouse and keyboard state,
  and the clock are parameters.
- Sprite groups become sequences. `kill()` clears the sprite's `alive` flag.
  An operation that adds sprites to a group returns the sprites it adds.
- Class inheritance becomes composition. An abstract base is a "core" object
  held by the concrete class (`NormalProjectile.core`, `WavyEnemy.core`). The
  four player characters are one class tagged by `Character`.

Modules, one per source file or package:

| module | file | source |
|---|---|---|
| `Geometry` | geometry.dfy | shared rectangles, collision, screen clamping, the numeric library, dictionary values |
| `ShotAngles` | shot_angle.dfy | `compute_shot_angle`, fan angles, laser segment geometry |
| `Spawning` | spawning.dfy | the rate limiter of generators and spawn timers; the self-collision walk |
| `SimpleProjectile` | simple_projectile.dfy | `src/entities/Projectile.py` |
| `Projectiles` | projectiles.dfy | `src/entities/projectiles/` |
| `LegacyAbility` | legacy_ability.dfy | `src/entities/Ability.py` |
| `AbstractAbilities` | abstract_ability.dfy | `src/entities/AbstractAbility.py` |
| `Abilities` | abilities.dfy | `src/entities/abilities/` |
| `Players` | players.dfy | `src/entities/players/` |
| `Enemies` | enemies.dfy | `src/entities/enemies/` |
| `Terrain` | terrain.dfy | `src/entities/Terrain.py` |
| `Play` | play.dfy | `src/states/Play.py` |

## Model

| member | source | states |
|---|---|---|
| Geometry.Hits | src/entities/players/AbstractPlayer.py:243-247 | `spritecollide`: a block is among the hits exactly when it is in the group and collides with the box; there are never more hits than blocks |
| Geometry.LimitBounds | src/entities/players/AbstractPlayer.py:271-283 | clamping the box edge by edge keeps its size |
| Geometry.LimitBoundsMeaning | src/entities/players/AbstractPlayer.py:271-283 | the clamp reports a change exactly when the box was not inside the screen; a box no larger than the screen ends inside it; a box already inside is unchanged |
| Geometry.LimitBoundsIdempotent | src/entities/enemies/AbstractEnemy.py:76-93 | clamping an already clamped box changes nothing and reports no change |
| Geometry.GetNum | src/entities/players/Rain.py:88-95 | `data[key]` used as a number: a missing key is a KeyError; an int, a float or a bool is accepted, an int or a float as that number; only text is refused |
| Geometry.GetFlag | src/entities/players/Rain.py:91-93 | `data[key]` used as a truth value: a missing key is a KeyError; every present value succeeds, a bool as itself |
| Geometry.GetNumOr | src/entities/enemies/WavyEnemy.py:104-108 | `data.get(key, default)` used as a number: a missing key yields the default; a present int or float is yielded as that number; only text is refused |
| Geometry.AsNumber | src/entities/enemies/WavyEnemy.py:101-103 | a stored value as Python arithmetic takes it: an int or a float is that number, and only text is refused |
| ShotAngles.ShotAngle | src/entities/Projectile.py:129-157 | the aiming angle always lies in [0, 2π) |
| ShotAngles.ShotAngleVertical | src/entities/Projectile.py:137-141 | within EPSILON horizontally, the angle is π/2 when the target is below the origin and 3π/2 otherwise |
| ShotAngles.ShotAngleHorizontal | src/entities/Projectile.py:142-146 | within EPSILON vertically: 0 toward the right; π to the left when the target is not below; 0 to the left when the target is below (the `-π` is corrected by the `+π` adjustment) |
| ShotAngles.ShotAngleQuadrants | src/entities/Projectile.py:147-155 | in the general case the angle falls in the quadrant of the target's offset, and it differs from `atan(dy/dx)` by 0, π or 2π |
| ShotAngles.NormalizeAngle | src/entities/Ability.py:155-158 | the missile's angle is brought into [0, 2π] by a whole number of turns; an angle already in range is kept |
| ShotAngles.FanSymmetric | src/entities/Ability.py:149-153 | the missile fan is evenly spaced by the spread, symmetric about the aiming angle, and an odd fan's middle missile flies at the aiming angle |
| ShotAngles.SegmentGeometry | src/entities/Ability.py:296-304 | consecutive laser segment start points are one spacing apart; each segment is displaced at right angles to the beam by at most a fifth of the laser width |
| Spawning.RateLimit | src/entities/projectiles/ProjectileGenerator.py:42-45 | one frame of the rate limiter (`time_without_generation`), whose behaviour over a run is stated by `Spawning.RateLimitPeriodic`, `Spawning.QuietFrame`, `Spawning.FiringFrame` and `Spawning.RateLimitEveryKth` |
| Spawning.RateLimitPeriodic | src/entities/projectiles/ProjectileGenerator.py:42-45 | with constant frames where k frames are the fewest to reach the period, the accumulator after q·k + r frames is r·dt, and a frame fires exactly when r = 0 |
| Spawning.QuietFrame | src/entities/projectiles/ProjectileGenerator.py:42-45 | a frame that leaves the accumulator below the period does not fire and adds dt |
| Spawning.FiringFrame | src/entities/projectiles/ProjectileGenerator.py:42-45 | the k-th frame fires and resets the accumulator to 0 |
| Spawning.RateLimitEveryKth | src/entities/Projectile.py:104-114 | the generator fires exactly on frames k, 2k, 3k, …; the accumulator after n frames is (n mod k)·dt |
| Spawning.SelfCollisionWalk | src/entities/Projectile.py:115-127 | for a non-zero step, the shot is placed k ≥ 1 steps from the origin at the first position whose box is clear of the shooter, and every earlier position collides with the shooter |
| SimpleProjectile.Projectile.constructor | src/entities/Projectile.py:11-30 | a new legacy shot is alive, centred on its position, with the given angle, velocity and damage |
| SimpleProjectile.Projectile.Update | src/entities/Projectile.py:41-50 | the shot moves by velocity·dt, its box follows its centre, and it dies once off screen |
| SimpleProjectile.Projectile.HandleBounds | src/entities/Projectile.py:52-60 | the shot dies exactly when its box is off screen, and a dead shot stays dead |
| SimpleProjectile.ProjectileGenerator.constructor | src/entities/Projectile.py:76-93 | the generator starts with an empty accumulator and keeps its speed, frequency, size and damage |
| SimpleProjectile.ProjectileGenerator.Generate | src/entities/Projectile.py:95-127 | a shot is added exactly on the frames the rate limiter fires; it flies along the aiming angle at the gun's speed, and it starts at the first walk position clear of the shooter |
| Projectiles.AbstractProjectile.constructor | src/entities/projectiles/AbstractProjectile.py:14-29 | a new shot is alive and centred on its position, with the given velocity and damage |
| Projectiles.AbstractProjectile.ComputeCollision | src/entities/projectiles/AbstractProjectile.py:43-51 | a shot touching the target box inflicts its damage and dies; otherwise it inflicts nothing and stays as it was |
| Projectiles.AbstractProjectile.Move | src/entities/projectiles/AbstractProjectile.py:53-60 | the shot moves by velocity·dt and its box follows its centre |
| Projectiles.AbstractProjectile.HandleBounds | src/entities/projectiles/AbstractProjectile.py:62-69 | the shot dies exactly when its box is off screen |
| Projectiles.DamageTakenBounds | src/entities/players/AbstractPlayer.py:285-299 | with non-negative damages, the damage a box takes from a run of shots is never negative, and it is zero when no shot touches the box |
| Projectiles.DamageTaken | src/entities/players/AbstractPlayer.py:290-299 | the total damage of the shots touching a box, in group order, whose bounds are stated by `Projectiles.DamageTakenBounds` and whose use by the loop is stated by `Projectiles.ResolveHits` |
| Projectiles.ResolveHits | src/entities/players/AbstractPlayer.py:290-299 | the loop over enemy shots takes exactly the total damage of the shots touching the box, and kills exactly those shots |
| Projectiles.BaseProjectile.constructor | src/entities/projectiles/BaseProjectile.py:12-27 | a new base shot is alive and centred on its position |
| Projectiles.BaseProjectile.HandleBounds | src/entities/projectiles/BaseProjectile.py:41-48 | the shot dies exactly when its box is off screen |
| Projectiles.NormalProjectile.constructor | src/entities/projectiles/NormalProjectile.py:11-20 | a new normal shot is alive and centred on its position |
| Projectiles.NormalProjectile.Update | src/entities/projectiles/NormalProjectile.py:22-38 | the shot moves, and then dies exactly when it is off screen or collides with a terrain block |
| Projectiles.BombProjectile.constructor | src/entities/projectiles/BombProjectile.py:15-32 | a new bomb has not exploded, its explosion clock is at 0 and lasts 1 second, and it keeps its blast radius |
| Projectiles.BombProjectile.TriggerExplosion | src/entities/projectiles/BombProjectile.py:56-89 | the bomb explodes with a blast box of twice its radius, centred on it; the player is damaged exactly when the blast box touches the player |
| Projectiles.BombProjectile.Update | src/entities/projectiles/BombProjectile.py:34-54 | a falling bomb moves; on a terrain hit it lands on the first block and explodes, damaging the player exactly when the blast reaches them; an exploded bomb stays put, ages, and dies when the explosion is over |
| Projectiles.BombProjectile.ComputeCollision | src/entities/projectiles/BombProjectile.py:91-93 | touching the player explodes a bomb that has not exploded yet; an exploded bomb inflicts nothing more |
| Projectiles.ProjectileAbility.constructor | src/entities/projectiles/ProjectileAbility.py:10-28 | a new ability sprite is alive, has no age, has no hook, explosion or area radius, and keeps its angle and lifetime |
| Projectiles.ProjectileAbility.Update | src/entities/projectiles/ProjectileAbility.py:30-44 | the sprite ages by dt; once its age reaches its lifetime it dies without moving, and otherwise it moves and stays alive |
| Projectiles.ProjectileAbility.Move | src/entities/projectiles/ProjectileAbility.py:46-53 | the sprite moves by velocity·dt and its box follows its centre |
| Projectiles.AbilityProjectile.constructor | src/entities/projectiles/AbilityProjectile.py:12-27 | a new ability shot is alive, has no age and keeps its angle and lifetime |
| Projectiles.AbilityProjectile.Update | src/entities/projectiles/AbilityProjectile.py:29-43 | the shot ages by dt; once its age reaches its lifetime it dies without moving, and otherwise it moves |
| Projectiles.ProjectileGenerator.constructor | src/entities/projectiles/ProjectileGenerator.py:13-32 | the generator starts with an empty accumulator and keeps its settings |
| Projectiles.ProjectileGenerator.Generate | src/entities/projectiles/ProjectileGenerator.py:34-74 | a shot is added exactly when the rate limiter fires, at the agent's centre; a bomb falls straight down with the tank's blast radius, and any other type flies along the aiming angle |
| LegacyAbility.NumLaserSegmentsValue | src/entities/Ability.py:291-293 | the beam has `int(WIDTH * 9 / SEGMENT_LASER_LENGTH)` segments |
| LegacyAbility.Ability.constructor | src/entities/Ability.py:12-36 | a new ability sprite is alive and has no age, no callback and no explosion |
| LegacyAbility.Ability.Update | src/entities/Ability.py:47-66 | with the frame scaled by the speed multiplier, a sprite with a lifetime ages; once expired it dies without moving, and otherwise it moves and dies off screen |
| LegacyAbility.Ability.HandleBounds | src/entities/Ability.py:68-77 | the sprite dies exactly when it is off screen |
| LegacyAbility.MissileBarrage.constructor | src/entities/Ability.py:116-136 | the spread is converted from degrees to radians and the other settings are kept |
| LegacyAbility.MissileBarrage.Generate | src/entities/Ability.py:138-190 | the barrage fires one distinct new missile per fan angle, in fan order; each is normalised, flies at the missile speed, starts clear of the agent and carries 80% explosion damage |
| LegacyAbility.MissileBarrage.Launch | src/entities/Ability.py:153-188 | one missile of the fan, as `Generate` promises for each |
| LegacyAbility.MissileBarrage.CreateExplosion | src/entities/Ability.py:212-235 | the first call creates one still area explosion sized by the blast radius; later calls create nothing |
| LegacyAbility.LaserBeam.constructor | src/entities/Ability.py:243-261 | the beam keeps its damage, duration, width and lifetime, and its segment image is `(SEGMENT_LASER_LENGTH, int(width * 3))` as `_create_segment_surface` builds it |
| LegacyAbility.LaserBeam.Generate | src/entities/Ability.py:263-280 | the beam starts half the agent's width out along the aiming direction; segment i is created exactly when its start point is on screen, in order, and each carries an equal share of the damage |
| LegacyAbility.LaserBeam.CreateLaserSegments | src/entities/Ability.py:282-321 | the segments created are exactly those whose start point is on screen, in increasing order and each distinct |
| LegacyAbility.LaserBeam.NewSegment | src/entities/Ability.py:296-319 | one segment, as `CreateLaserSegments` promises for each |
| LegacyAbility.LaserBeam.CreateExplosion | src/entities/Ability.py:372-395 | the first call creates one still contact-type explosion; the typo `.radio` leaves it without an area radius; later calls create nothing |
| LegacyAbility.CriticalShot.constructor | src/entities/Ability.py:404-417 | the shot keeps its speed and damage, with no boost yet |
| LegacyAbility.CriticalShot.Generate | src/entities/Ability.py:419-470 | one shot from the agent's centre along the aiming angle, with no lifetime, whose box is the 24 x 24 glow border; the boosted damage becomes 1.5 times the critical damage |
| AbstractAbilities.ProjectileAbility.constructor | src/entities/AbstractAbility.py:63-81 | a new ability sprite is alive and has no age, no callback and no explosion |
| AbstractAbilities.ProjectileAbility.Update | src/entities/AbstractAbility.py:30-39 | the lifetime step may kill the sprite; the sprite then moves anyway, even on the frame it dies, and is never culled off screen |
| AbstractAbilities.ProjectileAbility.UpdateBehavior | src/entities/AbstractAbility.py:98-111 | a sprite with a lifetime ages by dt and dies exactly when its age reaches the lifetime |
| AbstractAbilities.ProjectileAbility.Move | src/entities/AbstractAbility.py:113-120 | the sprite moves by velocity·dt |
| AbstractAbilities.ProjectileAbility.Generate | src/entities/AbstractAbility.py:122-134 | the base generator fires nothing |
| AbstractAbilities.MissileBarrage.constructor | src/entities/AbstractAbility.py:142-164 | the spread is converted to radians and the other settings are kept |
| AbstractAbilities.MissileBarrage.Generate | src/entities/AbstractAbility.py:196-248 | one distinct new missile per fan angle, each normalised, clear of the agent and armed with 80% explosion damage |
| AbstractAbilities.MissileBarrage.Launch | src/entities/AbstractAbility.py:213-246 | one missile of the fan, as `Generate` promises for each |
| AbstractAbilities.MissileBarrage.CreateExplosion | src/entities/AbstractAbility.py:269-293 | the first call creates one still area explosion; later calls create nothing |
| AbstractAbilities.LaserBeam.constructor | src/entities/AbstractAbility.py:301-320 | the beam keeps its damage, duration, width and lifetime, and its segment image is `(SEGMENT_LASER_LENGTH, int(width * 3))` as `_create_segment_surface` builds it |
| AbstractAbilities.LaserBeam.Generate | src/entities/AbstractAbility.py:341-357 | segment i is created exactly when its start point is on screen, in order, each with an equal share of the damage |
| AbstractAbilities.LaserBeam.CreateLaserSegments | src/entities/AbstractAbility.py:359-399 | exactly the on-screen segments, in increasing order and each distinct |
| AbstractAbilities.LaserBeam.NewSegment | src/entities/AbstractAbility.py:373-397 | one segment, as `CreateLaserSegments` promises for each |
| AbstractAbilities.LaserBeam.CreateExplosion | src/entities/AbstractAbility.py:448-471 | the first call creates one contact-type explosion; later calls create nothing |
| AbstractAbilities.CriticalShot.constructor | src/entities/AbstractAbility.py:480-493 | the shot keeps its speed and damage |
| AbstractAbilities.CriticalShot.Generate | src/entities/AbstractAbility.py:514-561 | one shot from the agent's centre along the aiming angle with the critical damage, whose box is the 24 x 24 glow border |
| Abilities.MissileBarrage.constructor | src/entities/abilities/MissileBarrage.py:16-34 | the missiles take the default speed and damage, and the missile and hit lifetimes are kept |
| Abilities.MissileBarrage.Generate | src/entities/abilities/MissileBarrage.py:36-91 | from the projectile origin (or the agent's centre), one distinct new missile per fan angle, each normalised, clear of the agent and carrying the explosion hook |
| Abilities.MissileBarrage.Launch | src/entities/abilities/MissileBarrage.py:56-89 | one missile of the fan, as `Generate` promises for each |
| Abilities.MissileBarrage.AttachExplosion | src/entities/abilities/MissileBarrage.py:80-83 | the missile gets the blast radius, 80% explosion damage and the explosion hook, and so satisfies what enemy damage relies on |
| Abilities.LaserBeam.constructor | src/entities/abilities/LaserBeam.py:15-27 | the beam has `int(LIMIT_WIDTH_LASER / SEGMENT_LASER_LENGTH)` segments, keeps its damage and speed, and its segment image is 20 by `int(LASER_WIDTH * 3)` = 15 |
| Abilities.LaserBeam.Generate | src/entities/abilities/LaserBeam.py:29-48 | the clock is divided by the time divisor; segment i is created exactly when its start point is on screen, in order, each with the hit-effect hook |
| Abilities.LaserBeam.CreateLaserSegments | src/entities/abilities/LaserBeam.py:50-89 | exactly the on-screen segments, in increasing order and each distinct |
| Abilities.LaserBeam.NewSegment | src/entities/abilities/LaserBeam.py:64-87 | one segment, as `CreateLaserSegments` promises for each |
| Abilities.CreateExplosion | src/entities/abilities/MissileBarrage.py:112-135 | the first call creates one still area explosion living `HIT_LIFETIME`; later calls create nothing |
| Abilities.CreateHitEffect | src/entities/abilities/LaserBeam.py:137-159 | the first hit creates one still contact-type hit effect; later hits create nothing |
| Abilities.LaserDamageShare | src/entities/abilities/LaserBeam.py:76-81 | the segments' equal shares never add up to more than the beam's damage, and a full beam deals exactly its damage |
| Abilities.CriticalShot.constructor | src/entities/abilities/CriticalShot.py:15-29 | the critical shot flies at three times the default speed and deals five times the default damage |
| Abilities.CriticalShot.Generate | src/entities/abilities/CriticalShot.py:31-63 | one shot from the projectile origin along the aiming angle with the critical damage and lifetime |
| Players.GunFrequency | src/entities/players/Kane.py:27-28 | every character's gun fires at a positive frequency, so its rate limiter is well defined |
| Players.GunPeriod | src/entities/players/Cyborg.py:22-24 | the rate-limiter period `1 / frequency` is positive for every character's gun: 1/15 s for Kane and Cyborg, 1/5 s for Jones and Rain |
| Players.TotalTimeNonNegative | src/entities/players/AbstractPlayer.py:213-220 | frames of non-negative length add up to a non-negative time |
| Players.CounterCooldown | src/entities/players/Kane.py:43-53 | Kane's and Jones's cooldown step, whose runs are stated by `Players.CountersStayBelow` and `Players.ReadyNeedsCooldown` |
| Players.KaneDuration | src/entities/players/Kane.py:55-66 | Kane's duration step, whose runs are stated by `Players.CountersStayBelow` |
| Players.JonesDuration | src/entities/players/Jones.py:54-61 | Jones's duration step: using the ability ends it; `Players.ReadyNeedsCooldown` states what follows |
| Players.CyborgCooldown | src/entities/players/Cyborg.py:131-141 | Cyborg's cooldown step, whose runs are stated by `Players.DowntimeNeverReset` and `Players.TimeLeftStaysInBudget` |
| Players.CyborgDuration | src/entities/players/Cyborg.py:143-153 | Cyborg's duration step, whose runs are stated by `Players.TimeLeftStaysInBudget`, `Players.HeldBudget` and `Players.BudgetRunsOut` |
| Players.RainCooldown | src/entities/players/Rain.py:41-55 | Rain's cooldown step, whose runs are stated by `Players.ChargeOnlyGrows` and `Players.RainSteps` |
| Players.RainDuration | src/entities/players/Rain.py:57-68 | Rain's duration step, stated by `Players.RainSteps` |
| Players.CountersStayBelow | src/entities/players/Kane.py:43-66 | for Kane and Jones, the cooldown and duration counters stay within [0, limit) over any run of frames |
| Players.ReadyNeedsCooldown | src/entities/players/Kane.py:43-53 | Kane's or Jones's ability only becomes ready again after a full ability cooldown of frames has passed |
| Players.TimeLeftStaysInBudget | src/entities/players/Cyborg.py:143-153 | Cyborg's laser time left stays within [0, LASER_DURATION] over any run of frames |
| Players.HeldBudget | src/entities/players/Cyborg.py:143-153 | holding the button drains Cyborg's budget by exactly the time held, and the ability stays ready while budget remains |
| Players.BudgetRunsOut | src/entities/players/Cyborg.py:143-153 | a frame as long as the remaining budget empties it and ends the ability |
| Players.DowntimeNeverReset | src/entities/players/Cyborg.py:131-141 | Cyborg's downtime only grows, so once it has reached the cooldown every later cooldown step makes the ability ready at once |
| Players.ChargeOnlyGrows | src/entities/players/Rain.py:41-55 | without using the ability, Rain's charge never decreases, and the ability only becomes ready with a full charge |
| Players.RainSteps | src/entities/players/Rain.py:41-68 | firing adds a charge whenever the generation timer reaches the charge period; using the ability always ends it, and spends the charge only when it was full |
| Players.CounterCooldownAsWritten | src/entities/players/Kane.py:43-53 | as written, the cooldown step fails exactly when the ability is not ready and the private counter was never set |
| Players.CounterCooldownAsWrittenFails | src/entities/players/Jones.py:42-52 | the first Jones shot ends the ability, and the next cooldown step then raises |
| Players.CyborgCooldownAsWritten | src/entities/players/Cyborg.py:131-141 | as written, the cooldown step fails exactly when the ability is not ready and the downtime was never set |
| Players.CyborgCooldownAsWrittenFails | src/entities/players/Cyborg.py:131-141 | a new Cyborg that drains its budget ends the ability, and its next cooldown step raises |
| Players.VerticalStep | src/entities/players/AbstractPlayer.py:226-247 | the vertical step never changes the box's x position or size |
| Players.Land | src/entities/players/AbstractPlayer.py:243-247 | landing never changes the box's x position or size |
| Players.VerticalStepMeaning | src/entities/players/AbstractPlayer.py:226-247 | a jump key only counts when not jumping; with no terrain hit the player falls freely; on a hit the player stops on top of a block it collided with and is no longer jumping |
| Players.HorizontalStep | src/entities/players/AbstractPlayer.py:249-269 | the horizontal step never changes the box's y position or size |
| Players.HorizontalStepMeaning | src/entities/players/AbstractPlayer.py:249-269 | with no key nothing moves; when the move hits blocks, the player ends pushed clear of the last block hit |
| Players.PushClears | src/entities/players/AbstractPlayer.py:265-269 | pushing the box against a block in the direction of travel leaves it not colliding with that block |
| Players.PlayerRect | src/entities/players/AbstractPlayer.py:26-31 | the player's box has its bottom centre at (x, y) and size PLAYER_WIDTH × PLAYER_HEIGHT |
| Players.SaveDict | src/entities/players/Rain.py:72-79 | only Rain's dictionary holds the charge key |
| Players.ReadCommon | src/entities/players/Rain.py:88-95 | the common reads succeed exactly when all eight keys are present and no number key holds text; any missing key is a KeyError; the two flags restore as their truth values |
| Players.ReadCommonOfSave | src/entities/players/AbstractPlayer.py:301-315 | the common reads of any character's save give back its box centre and bottom, health, jump state, vertical speed, readiness and duration counter, with the public cooldown attribute's 0 |
| Players.Player.ToDict | src/entities/players/AbstractPlayer.py:301-315 | the player's dictionary is `Players.SaveDict` of its state, whose restores are stated by `Players.RainRoundTrip` and `Players.CyborgRoundTrip` |
| Players.RestoreRain | src/entities/players/Rain.py:82-99 | restoring Rain succeeds exactly when the common reads succeed and any charge keys present hold numbers (an int charge included) |
| Players.RestoreCyborg | src/entities/players/Cyborg.py:163-175 | restoring Cyborg succeeds exactly when the common reads succeed |
| Players.RainRoundTrip | src/entities/players/Rain.py:72-99 | saving a Rain and restoring it gives back its box, health, jump state, readiness, duration and charge |
| Players.RainRestoreDefaults | src/entities/players/Rain.py:82-99 | a dictionary without charge keys restores with the charge and its timer at 0 |
| Players.RainRestoresIntSave | src/entities/players/Rain.py:82-99 | a save holding ints for the box, the health, the two counters and the charge restores, each int as that number |
| Players.CyborgRoundTrip | src/entities/players/Cyborg.py:155-175 | saving a Cyborg and restoring it gives back its state, with a full laser budget and the downtime at 0 |
| Players.CyborgRestoresTruthValues | src/entities/players/Cyborg.py:170-172 | the flag keys restore as Python truth values: an int 1 is a jump in progress, an empty text is not ready |
| Players.Player.constructor | src/entities/players/AbstractPlayer.py:17-62 | a new player has its box at (x, y), full health, is not jumping, is ready, has zeroed counters and carries a gun with its character's stats |
| Players.Player.Restored | src/entities/players/Rain.py:82-99 | a restored player holds exactly the given state |
| Players.Player.ComputeVerticalPosition | src/entities/players/AbstractPlayer.py:226-247 | the loop over hits realises `VerticalStep` |
| Players.Player.ComputeHorizontalPosition | src/entities/players/AbstractPlayer.py:249-269 | the loop over hits realises `HorizontalStep` |
| Players.Player.ComputeCooldownAbility | src/entities/players/Kane.py:43-53 | the character's cooldown step |
| Players.Player.CounterCooldownTick | src/entities/players/Jones.py:42-52 | the cooldown step of Kane and Jones |
| Players.Player.ComputeDurationAbility | src/entities/players/Cyborg.py:143-153 | the character's duration step |
| Players.Player.HandleInput | src/entities/players/AbstractPlayer.py:198-224 | vertical then horizontal movement; the gun fires only if the fire button is held and the ability is not being used, as the rate limiter allows; the ability is used exactly when its button is held and it is ready after the cooldown step; facing follows the last movement key |
| Players.Player.FireGun | src/entities/players/AbstractPlayer.py:202-212 | the fire gate and the rate limiter decide whether a shot leaves the player's centre |
| Players.Player.LimitBounds | src/entities/players/AbstractPlayer.py:271-283 | the player ends inside the screen, and a player already inside does not move |
| Players.Player.ComputeDamage | src/entities/players/AbstractPlayer.py:285-299 | health drops by exactly the damage of the enemy shots touching the player, and exactly those shots die |
| Players.Player.Step | src/entities/players/AbstractPlayer.py:158-159 | input handling then clamping: the player ends inside the screen |
| Players.Player.Update | src/entities/players/AbstractPlayer.py:156-196 | one frame: movement, clamping, damage from the enemy shots touching the clamped box; the player dies exactly when health falls to 0 or below |
| Players.Player.FromDict | src/entities/players/Rain.py:82-99 | restoring Rain or Cyborg succeeds exactly when the dictionary restores, and then the new player holds the restored state |
| Enemies.Size | config/Constants.py:50-78 | every enemy sprite is smaller than the screen |
| Enemies.ClassMapShape | src/entities/enemies/EnemyClassMap.py:6-11 | the class map has exactly the four enemy class names, maps each name to the kind of that name, and is one to one |
| Enemies.EnemyDict | src/entities/enemies/AbstractEnemy.py:144-154 | the saved dictionary has exactly the type, centre-x, bottom, health and speed keys with the enemy's values |
| Enemies.AbstractEnemy.ToDict | src/entities/enemies/AbstractEnemy.py:144-154 | the enemy's dictionary is `Enemies.EnemyDict` of its kind, box, health and speed, whose keys and type tag are stated by `Enemies.EnemyDict` and `Enemies.TypeTagRoundTrip` |
| Enemies.TypeTagRoundTrip | src/entities/enemies/EnemyClassMap.py:6-11 | the saved type tag looks up, in the class map, the enemy's own kind |
| Enemies.AreaDamageFalloff | src/entities/enemies/AbstractEnemy.py:108-117 | area damage is full at the centre, zero at and beyond the radius, within [0, damage], and non-increasing with distance |
| Enemies.TouchedUpToAll | src/entities/enemies/AbstractEnemy.py:108-129 | once the loop has visited every ability sprite, the group shows each sprite as touched by the enemy |
| Enemies.SpritesDamageBounds | src/entities/enemies/AbstractEnemy.py:108-129 | with non-negative damages, the ability damage is never negative, and it is zero when no area sprite is in range and no contact sprite touches |
| Enemies.Reflect | src/entities/enemies/LinearEnemy.py:36-45 | the linear and wavy enemies' clamp-and-reverse rule, stated by `Enemies.ReflectMeaning` |
| Enemies.ReflectMeaning | src/entities/enemies/LinearEnemy.py:36-45 | the moved enemy ends inside the screen; its speed keeps its size and reverses exactly when the move left the screen |
| Enemies.TankStep | src/entities/enemies/TankEnemy.py:38-57 | the tank's patrol step, stated by `Enemies.TankStepMeaning` |
| Enemies.TankStepMeaning | src/entities/enemies/TankEnemy.py:38-57 | the tank stays at its fixed height within the screen; it heads right after touching the left edge, left after touching the right edge, and otherwise moves by speed·dt |
| Enemies.BounceMove | src/entities/enemies/BouncingEnemy.py:53-95 | the bouncing enemy's movement step, stated by `Enemies.BounceMoveMeaning` and `Enemies.BounceStepsValid` |
| Enemies.BounceMoveMeaning | src/entities/enemies/BouncingEnemy.py:53-95 | movement only leaves the falling state by landing on a block it hit, and only leaves the rising state at the starting height with a new fall time; preparing and waiting stand still |
| Enemies.BounceBehavior | src/entities/enemies/BouncingEnemy.py:97-124 | the bouncing enemy's timed transitions, stated by `Enemies.BounceBehaviorMeaning` and `Enemies.BounceStepsValid` |
| Enemies.BounceBehaviorMeaning | src/entities/enemies/BouncingEnemy.py:97-124 | the timed transitions go to the next phase only when their wait is over, reset the timer and do not move the enemy |
| Enemies.BounceStepsValid | src/entities/enemies/BouncingEnemy.py:53-124 | both steps keep the sideways speed, the fall-time range and the timer's sign; a moving enemy stays inside the screen horizontally |
| Enemies.BounceFrame | src/entities/enemies/AbstractEnemy.py:31-55 | one frame of `update` for the bouncing enemy: `_move`, then `_limit_bounds`; `Enemies.BounceRunValid` states what a run of them keeps |
| Enemies.BounceRunValid | src/entities/enemies/AbstractEnemy.py:31-55 | over any run of `update` frames (the bouncing move, then the clamp) the bouncing invariant and the size hold, and after one frame the enemy is inside the screen |
| Enemies.PyMod | src/entities/enemies/WavyEnemy.py:72-73 | Python's float `%`, whose range for a positive period is stated by `Enemies.PyModRange` |
| Enemies.PyModRange | src/entities/enemies/WavyEnemy.py:65-73 | Python's `%` by a positive period lands in [0, period), differs from its input by whole periods, and keeps a value already in range |
| Enemies.WavyAltitude | src/entities/enemies/WavyEnemy.py:51-63 | the wavy enemy's height stays within the amplitude of its base line, and with the default amplitude its box stays on screen |
| Enemies.WavyRect | src/entities/enemies/WavyEnemy.py:17-35 | the wavy box has its bottom centre at the given point and the wavy size |
| Enemies.WavyDict | src/entities/enemies/WavyEnemy.py:86-95 | the wavy enemy's dictionary: the base keys and the three wave keys; `Enemies.WavyRoundTrip` states that restoring it gives back the state |
| Enemies.RestoreWavy | src/entities/enemies/WavyEnemy.py:96-109 | restoring a wavy enemy succeeds exactly when the four base keys hold numbers, int or float, and any wave keys present hold numbers; `Enemies.WavyRoundTrip` states what it yields |
| Enemies.WavyRoundTrip | src/entities/enemies/WavyEnemy.py:86-109 | saving a wavy enemy and restoring it gives back the same state |
| Enemies.WavyRestoreDefaults | src/entities/enemies/WavyEnemy.py:96-109 | a base enemy dictionary restores with the timer at 0 and the default amplitude and angular frequency |
| Enemies.WavyRestoresIntSave | src/entities/enemies/WavyEnemy.py:96-109 | a dictionary with int position, health and speed and no wave keys restores those ints as numbers, the timer at 0 and the default wave |
| Enemies.AbstractEnemy.constructor | src/entities/enemies/AbstractEnemy.py:12-25 | a new enemy keeps its kind, box, speed and health |
| Enemies.AbstractEnemy.LimitBounds | src/entities/enemies/AbstractEnemy.py:76-93 | the enemy ends inside the screen, and the out-of-bounds flag is set exactly when it was not inside |
| Enemies.AbstractEnemy.Absorb | src/entities/enemies/AbstractEnemy.py:108-129 | one ability sprite: health drops by its damage, the sprite is touched, and an effect is created exactly when the sprite's hook triggers |
| Enemies.AbstractEnemy.AbsorbNext | src/entities/enemies/AbstractEnemy.py:108-129 | one more sprite of the loop is absorbed, keeping the running damage total and the touched prefix |
| Enemies.AbstractEnemy.AbsorbAbilities | src/entities/enemies/AbstractEnemy.py:108-129 | health drops by the total ability damage, every sprite is touched, and one effect is created per triggering sprite |
| Enemies.AbstractEnemy.ComputeDamage | src/entities/enemies/AbstractEnemy.py:95-129 | health drops by the shot damage plus the ability damage; exactly the touching shots die; every ability sprite is touched |
| Enemies.LinearEnemy.constructor | src/entities/enemies/LinearEnemy.py:11-20 | a new linear enemy is centred at (x, y) with its health and speed |
| Enemies.LinearEnemy.Move | src/entities/enemies/LinearEnemy.py:36-45 | the enemy moves sideways and bounces off the screen edges |
| Enemies.LinearEnemy.Update | src/entities/enemies/AbstractEnemy.py:31-55 | the frame scaled by the speed multiplier: move, clamp inside the screen, and take damage at the clamped box |
| Enemies.WavyEnemy.constructor | src/entities/enemies/WavyEnemy.py:17-35 | a new wavy enemy has default health, speed, amplitude and frequency, and a gun with the wavy shot settings |
| Enemies.WavyEnemy.Move | src/entities/enemies/WavyEnemy.py:51-63 | the enemy moves sideways on its sine wave and bounces off the screen edges |
| Enemies.WavyEnemy.UpdateBehavior | src/entities/enemies/WavyEnemy.py:65-73 | the timer wraps modulo one wave period, in [0, period); a zero frequency raises |
| Enemies.WavyEnemy.Attack | src/entities/enemies/WavyEnemy.py:75-84 | a shot leaves the enemy's centre exactly when its rate limiter fires |
| Enemies.WavyEnemy.MoveAndClamp | src/entities/enemies/AbstractEnemy.py:47-48 | move then clamp: the enemy ends inside the screen |
| Enemies.WavyEnemy.MoveAndDamage | src/entities/enemies/AbstractEnemy.py:47-49 | move, clamp, then take damage at the clamped box |
| Enemies.WavyEnemy.Update | src/entities/enemies/AbstractEnemy.py:31-55 | one frame: move, clamp, damage, and attack only when there is a player to aim at |
| Enemies.WavyEnemy.ToDict | src/entities/enemies/WavyEnemy.py:86-95 | the wavy enemy's dictionary is `Enemies.WavyDict` of its state, which `Enemies.WavyRoundTrip` restores |
| Enemies.WavyEnemy.FromDict | src/entities/enemies/WavyEnemy.py:96-109 | restoring succeeds exactly when the dictionary restores, and the new enemy holds the restored state |
| Enemies.BouncingEnemy.constructor | src/entities/enemies/BouncingEnemy.py:20-37 | a new bouncing enemy starts moving left with a drawn fall time and remembers its starting height |
| Enemies.BouncingEnemy.Move | src/entities/enemies/BouncingEnemy.py:53-95 | the movement step `BounceMove` |
| Enemies.BouncingEnemy.UpdateBehavior | src/entities/enemies/BouncingEnemy.py:97-124 | the timed transitions `BounceBehavior` |
| Enemies.BouncingEnemy.MoveAndClamp | src/entities/enemies/AbstractEnemy.py:47-48 | move then clamp: the enemy ends inside the screen |
| Enemies.BouncingEnemy.Update | src/entities/enemies/AbstractEnemy.py:31-55 | one frame: move, clamp, take damage at the clamped box |
| Enemies.TankEnemy.constructor | src/entities/enemies/TankEnemy.py:12-22 | a new tank is centred at (x, y) with its health and speed and a fresh shot timer |
| Enemies.TankEnemy.Move | src/entities/enemies/TankEnemy.py:38-57 | the tank patrol step `TankStep` |
| Enemies.TankEnemy.Attack | src/entities/enemies/TankEnemy.py:69-96 | a bomb is dropped from the tank's bottom centre exactly when its shot timer fires |
| Enemies.TankEnemy.MoveAndClamp | src/entities/enemies/AbstractEnemy.py:47-48 | move then clamp: the tank ends inside the screen |
| Enemies.TankEnemy.MoveAndDamage | src/entities/enemies/AbstractEnemy.py:47-49 | move, clamp, then take damage at the clamped box |
| Enemies.TankEnemy.Update | src/entities/enemies/AbstractEnemy.py:31-55 | one frame: move, clamp, damage, and a bomb only when there is a player |
| Terrain.Block | src/entities/Terrain.py:9-14 | a block's top-left corner is (x, y) and its size is the cell size rounded up, less than one pixel more |
| Terrain.RowBlocksCount | src/entities/Terrain.py:27-33 | a line yields one block per 'X' |
| Terrain.RowBlocksSound | src/entities/Terrain.py:27-33 | every block of a line is the block of an 'X' at its column |
| Terrain.RowBlocksComplete | src/entities/Terrain.py:27-33 | every 'X' of a line has its block |
| Terrain.RowBlocksMeaning | src/entities/Terrain.py:27-33 | a line's blocks are exactly the blocks of its 'X's, one each |
| Terrain.GridBlocks | src/entities/Terrain.py:27-33 | the blocks of the whole layout, line by line, whose contents are stated by `Terrain.GridBlocksMeaning` |
| Terrain.GridBlocksCount | src/entities/Terrain.py:27-33 | the layout yields one block per 'X' |
| Terrain.GridBlocksSound | src/entities/Terrain.py:27-33 | every block of the layout is the block of an 'X' at its row and column |
| Terrain.GridBlocksComplete | src/entities/Terrain.py:27-33 | every 'X' of the layout has its block |
| Terrain.GridBlocksMeaning | src/entities/Terrain.py:27-33 | the layout's blocks are exactly the blocks of its 'X's, one each |
| Terrain.CellOnScreen | src/entities/Terrain.py:24-31 | every cell of the grid starts on the screen |
| Terrain.BlocksOnScreen | src/entities/Terrain.py:21-33 | for a rectangular layout, every block starts on the screen |
| Terrain.Terrain.constructor | src/entities/Terrain.py:18-33 | the nested loops build exactly the layout's blocks, line by line and left to right |
| Terrain.NewTerrain | src/entities/Terrain.py:21-25 | an empty layout or an empty first line fails; any other layout yields its blocks |
| Play.SpawnAsWritten | src/states/Play.py:60-66 | `spawn_enemy` as written on the group size: below the cap it raises TypeError, at the cap nothing changes; `Play.SpawnAsWrittenFails` states the consequence |
| Play.SpawnRunAsWritten | src/states/Play.py:41-44 | the spawn timer as written, run over frames from the start of play; `Play.SpawnAsWrittenFails` states its outcome |
| Play.SpawnAsWrittenFails | src/states/Play.py:41-66 | from the start of play the spawn loop as written survives exactly the frames before the spawn timer first fires, with the group empty; that first firing frame raises TypeError |
| Play.GroupAfterCount | src/states/Play.py:41-44 | with constant frames, two enemies arrive every k-th frame until the cap: after q·k + r frames the group holds min(2q, MAX_ENEMIES), so it never passes the cap |
| Play.NewEnemy | src/states/Play.py:65-66 | an enemy of the given kind built with its default arguments is valid, of that kind, and stands at its kind's default place at the right edge |
| Play.NewWavyEnemy | src/entities/enemies/WavyEnemy.py:17-35 | the default wavy enemy sits at the right edge, a third of the way down, at full health |
| Play.Play.constructor | src/states/Play.py:14-31 | the spawn timer is 0, the enemy group is empty, and the player is moved to the middle of the bottom edge |
| Play.Play.SpawnEnemy | src/states/Play.py:60-66 | below the cap an enemy of the given kind and then a new wavy enemy join the end of the group, each at its default place; at the cap nothing changes; the group never holds more than MAX_ENEMIES + 1 |
| Play.Play.UpdateSpawn | src/states/Play.py:41-44 | the spawn timer follows the rate limiter; when it fires below the cap, two enemies join, and the earlier enemies are untouched |

## Left out

- Drawing, sprite images, animation frames, colours and the look of the glow effects are not modelled. Two image operations do affect the combat state. The critical shot's sprite is its 24 x 24 glow surface, and the model gives its box that size (`Geometry.CRITICAL_SHOT_SIZE`). The enemies' image flip raises, which the model does not capture, as the lines on `_update_sprite` below say.
- Audio, the HUD and the menu, pause, save and game-over states are left out as presentation.
- JSON file I/O is left out. Save and restore are modelled on in-memory dictionaries (`Geometry.Dict`).
- Trigonometry and square roots are not computed. They are functions of `Geometry.Lib`, known only through the facts in `Lib.Valid`.
- `random.uniform` and the random choice of terrain are parameters (`draw`, the `terrain` argument of `Play.Play.constructor`), because randomness cannot be stated as a function.
- Mouse position and buttons, keys and the clock (`pygame.time.get_ticks`) are parameters.
- pygame's rectangles hold integers and truncate coordinates on assignment. The model keeps real coordinates, so it does not capture sub-pixel truncation.
- `config/Constants.py` lacks some constants the code reads: LASER_COOLDOWN, TANK_ENEMY_SHOOT_FREQUENCY, MISSILE_LIFETIME, HIT_LIFETIME, ABILITY_DEFAULT_SPEED, ABILITY_DEFAULT_DAMAGE, LASER_DAMAGE, LIMIT_WIDTH_LASER, CRITICAL_SHOT_LIFETIME, LASER_SPEED and LASER_TIME_DIVISOR (`abilities/LaserBeam.py` lines 23 and 61), and the TANK_BOMB_* values. These are parameters, because their values are unknown. It also lacks `Colors.GLOW_WHITE`, which the bomb's explosion (`projectiles/BombProjectile.py:83`) and the missile barrage's explosion image (`abilities/MissileBarrage.py:108`) read, `Colors.RED_GLOW`, which the laser's hit-effect image reads (`abilities/LaserBeam.py:133`), and the `Sounds` class that `BombProjectile.py` and `Cyborg.py` import. As written, those two files, and `TankEnemy.py` through its import of the bomb, therefore fail with ImportError. The model builds them as intended.
- `Play.update` as a whole is not modelled. It calls `player.update` with five arguments where six are required, and `enemies.update` with two of five, so it raises TypeError before the spawn timer. Only the spawn timer is modelled, by `Play.Play.UpdateSpawn`.
- `AbstractPlayer._handle_input` passes four arguments to `ProjectileGenerator.generate`, which takes three. `Players.Player.FireGun` models the evident intent: aim from the player's centre.
- `Projectiles.ProjectileGenerator.Generate`: the source passes `is_player_projectile` to `NormalProjectile`, whose constructor does not accept it (a TypeError as written). The model builds the shot as intended.
- Calling the ability generator from the player is not modelled. `Players.Player.HandleInput` returns `usedAbility`, true exactly on the frames the source would call it; the abilities' `Generate` methods model the call itself.
- Image rotation, which grows a rotated sprite's bounding box, is not modelled; sprite sizes stay as constructed.
- Cyborg's `update_weapon` and its rotating gun are left out as drawing. Cyborg's projectile origin is a parameter (`projectileOrigin`).
- The three `Update` members below model the evident intent of `AbstractEnemy._update_sprite`, which is to choose the image. As written, each frame calls `_update_sprite(self._speed)`, and for a speed of 0 or less it flips `original_image`. That attribute is None for every enemy, so the flip raises TypeError. A wavy or tank enemy spawns at the right edge, is clamped, turns left, and so raises on its first frame. A linear enemy raises after its first bounce. The bouncing enemy keeps `_speed` positive and is not affected. On the frame where the source raises, the model goes on with damage and the attack.
- Enemies.LinearEnemy.Update goes on after the linear enemy's first bounce, where the source raises TypeError (as explained above).
- Enemies.WavyEnemy.Update goes on from the first frame, where the source raises TypeError (as explained above).
- Enemies.TankEnemy.Update goes on from the first frame, where the source raises TypeError (as explained above).
- Spawning.SelfCollisionWalk requires a non-zero step. With a zero step the source loops forever on its first shot, which cannot be expressed as a terminating method. The missile barrages walk each missile out with this step, so their Generate and Launch methods require a non-zero missile speed and frame time for the same reason.
- LegacyAbility.MissileBarrage.Generate requires a non-zero missile speed and frame time (zero-step walk, above).
- LegacyAbility.MissileBarrage.Launch requires a non-zero missile speed and frame time (zero-step walk, above).
- AbstractAbilities.MissileBarrage.Generate requires a non-zero missile speed and frame time (zero-step walk, above).
- AbstractAbilities.MissileBarrage.Launch requires a non-zero missile speed and frame time (zero-step walk, above).
- Abilities.MissileBarrage.Generate requires a non-zero missile speed and frame time (zero-step walk, above).
- Abilities.MissileBarrage.Launch requires a non-zero missile speed and frame time (zero-step walk, above).
- Geometry.GetNum refuses text at restore time. Python stores text under `health`, `y_speed` or a counter without complaint and fails only where the value is first used in arithmetic; only under `centerx` and `bottom` does pygame refuse it at once. The same holds for Geometry.GetNumOr.
- Geometry.GetNumOr refuses text at restore time, as Geometry.GetNum does.
- Geometry.AsNumber does not tell an int from a float: both become a real, so the model does not keep the type a later re-save would write.
- Geometry.GetFlag yields the truth value of a stored non-bool, so a re-save writes a bool where Python would write the stored value back.
- Players.ReadCommon reports a KeyError whenever a key is missing, even where Python would first raise a TypeError for text under `centerx` or `bottom`.
- Projectiles.ProjectileAbility.constructor takes a real lifetime. The source also accepts `None`, but then compares it with a number and fails; the `Ability.py` and `AbstractAbility.py` classes, which guard `None`, model that case with an `Option`.
- Sprite group membership is an `alive` flag. Methods that add sprites return the sprites they add rather than changing a group.
- Enemies.AbstractEnemy.Absorb and its callers promise only that effect sprites are fresh and well formed. They do not say which group receives them.
- Enemy methods take a ghost snapshot `before` of the ability sprites, because a view of heap objects cannot be compared across a state change cheaply.
- `AbstractEnemy.update` never calls `_update_behavior`, so as written a wavy enemy's timer never advances and a bouncing enemy never changes phase. The enemies' `Update` methods follow the source; `UpdateBehavior` is modelled as its own method.
- `LinearEnemy._move` takes one argument but `AbstractEnemy.update` passes two, a TypeError as written. `Enemies.LinearEnemy.Update` models the evident intent.
- `LinearEnemy` and `BouncingEnemy` do not define the abstract `_attack`, so they cannot be instantiated as written. The model gives them no attack.
- The `_exploded` test in `AbstractPlayer._compute_damage` never holds, because name mangling stores the attribute as `_BombProjectile__exploded`. The model therefore treats every enemy shot, bomb or not, as one that damages and dies on contact.
- The `compute_shot_angle` calls of `AbstractAbility.py` and the `abilities` package fail as written; the six members below model the evident intent, which is to aim with the shot-angle function. As written, each calls `ProjectileGenerator.compute_shot_angle` (`AbstractAbility.py` lines 207, 351 and 524; `abilities/MissileBarrage.py:50`, `abilities/LaserBeam.py:42`, `abilities/CriticalShot.py:45`). Neither imported `ProjectileGenerator` class has that attribute: one defines the name-mangled `__compute_shot_angle`, the other `_compute_shot_angle`. So each raises AttributeError before it adds a sprite. The `Ability.py` generators call `Ability.compute_shot_angle`, which exists, and they are modelled as written.
- AbstractAbilities.MissileBarrage.Generate fires where the source raises AttributeError at `AbstractAbility.py:207`, before any sprite is added.
- AbstractAbilities.LaserBeam.Generate fires where the source raises AttributeError at `AbstractAbility.py:351`, before any sprite is added.
- AbstractAbilities.CriticalShot.Generate fires where the source raises AttributeError at `AbstractAbility.py:524`, before any sprite is added.
- Abilities.MissileBarrage.Generate fires where the source raises AttributeError at `abilities/MissileBarrage.py:50`, before any sprite is added.
- Abilities.LaserBeam.Generate fires where the source raises AttributeError at `abilities/LaserBeam.py:42`, before any sprite is added.
- Abilities.CriticalShot.Generate fires where the source raises AttributeError at `abilities/CriticalShot.py:45`, before any sprite is added.
- Abilities.CreateExplosion creates the explosion where the source raises AttributeError: `_draw_explosion` reads the missing `Colors.GLOW_WHITE` (`abilities/MissileBarrage.py:108`) before the sprite is built and before `has_exploded` is set, so as written every hit of a missile raises.
- Abilities.CreateHitEffect creates the hit effect where the source raises AttributeError: `__draw_hit_effect` reads the missing `Colors.RED_GLOW` (`abilities/LaserBeam.py:133`) before the sprite is built and before `has_hit` is set, so as written every hit of a segment raises.
- Enemies.AbstractEnemy.Absorb creates an effect when the hook of a missile or laser segment of the `abilities` package triggers, where the source raises AttributeError inside that hook (the two lines above).
- Abilities.LaserBeam.Generate requires a non-zero time divisor. With a zero divisor, `get_ticks() / LASER_TIME_DIVISOR` (`abilities/LaserBeam.py:61`) raises ZeroDivisionError, which the model does not represent.
- As written, no character can be instantiated, because each leaves some of `AbstractPlayer`'s abstract methods (lines 65-147) undefined. Kane and Rain lack `get_time_cooldown_ability` and `get_ready_ability`. Jones also lacks `choose_ability`, since it defines `choose_ability_generator` instead. Cyborg lacks the six stat getters and `get_time_cooldown_ability`, and its module imports the missing `Sounds`. So `Kane()`, `Jones()`, `Rain()` and `Cyborg()` raise TypeError or ImportError, and so does every `from_dict`, through `cls()`. Rain and Cyborg also define `choose_ability(self)`, while `AbstractPlayer.__init__` (line 62) passes it an image.
- Players.Player.constructor builds a character where, as written, the character's constructor raises (as explained above).
- Players.Player.Restored builds the restored player where, as written, `cls()` in `from_dict` raises (as explained above).
- Players.Player.FromDict succeeds on a well-formed dictionary where, as written, `cls()` raises (as explained above).
- Play.Play.SpawnEnemy replaces the `AbstractEnemy()` of `Play.py:65`, which cannot be built, with an enemy of a kind the caller chooses (`first`), built with its default arguments. The source names no concrete class for it, so the model does not guess one.

## Findings

| source | as written | input that shows it | evidently intended | confidence | as-written member | corrected member |
|---|---|---|---|---|---|---|
| src/entities/players/Jones.py:49 | Kane's and Jones's cooldown steps read and add to `self._time_cooldown_ability`, but `AbstractPlayer.__init__` (line 36) only sets the public `time_cooldown_ability` | a Jones player fires the ability once (ready becomes false), then any next frame: AttributeError. This is reachable only once Jones can be built, which as written it cannot (see the `Players.Player.constructor` line under Left out) | the private counter starts at 0, so the ability recharges after ABILITY_COOLDOWN | not executed | Players.CounterCooldownAsWrittenFails | Players.ReadyNeedsCooldown |
| src/entities/players/Cyborg.py:138 | Cyborg's cooldown step adds to `self._ability_downtime`, which `__init__` never sets (only `from_dict` does) | a new Cyborg holds the ability for LASER_DURATION, then the next frame: AttributeError. This is reachable only once Cyborg can be built, which as written it cannot (see the `Players.Player.constructor` line under Left out) | the downtime starts at 0 | not executed | Players.CyborgCooldownAsWrittenFails | Players.DowntimeNeverReset |
| src/states/Play.py:65 | `spawn_enemy` adds `AbstractEnemy()`, which has abstract methods | the first frame on which the spawn timer reaches SPAWN_TIMER: TypeError, so no enemy ever spawns | two enemies join below the cap: one of a concrete kind in place of `AbstractEnemy()`, then the `WavyEnemy()` of line 66; the group never holds more than MAX_ENEMIES + 1 | not executed | Play.SpawnAsWrittenFails | Play.Play.SpawnEnemy |
