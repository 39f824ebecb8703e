# Tower-defense combat and wave engine, in Dafny

This project models the game logic of a small tower-defense game. The
player places towers around a village. Monsters then arrive in scripted
waves and head for the village or for the nearest tower. Towers shoot
projectiles at the monsters. A light that the player aims can frighten
monsters into fleeing. A leaderboard keeps the ten best scores.

Two copies of the game are modelled side by side:

- `Package` is the `src/` package.
- `Monolith` is the older single-file `main.py`.

The two copies share their rules but differ in four constants:

| constant | `Package` | `Monolith` |
|---|---|---|
| tower size | 80 | 40 |
| village size | 120 | 60 |
| light recharge rate | 5 | 10 |
| maximum flee time | 20 | 15 |

They also differ in how a monster updates itself, and in how a wave picks
a spawn point and gives a new monster its first heading. Only `main.py`
has the ranged attack of Morays and Dragons. `main.py` also defines a
Kamikaze splash on death (`Monster.die`), but nothing in either copy calls
it, so no explosion is ever made in play.

How the game is represented:

- **Entities as values.** Towers, monsters and projectiles are datatypes
  that carry an id (`Entities`). The source compares these objects by
  identity. The model does the same with ids: a monster's target, a
  tower's target and a projectile's target are ids into the game's rosters.
- **Classes.** The objects the game updates in place are classes with
  `modifies` clauses on their methods: the game (`Games.Game`), the wave
  manager (`Waves.WaveManager`), the score manager (`Scores.ScoreManager`)
  and each explosion (`Explosions.Explosion`).
- **Distances.** Every distance test is made on squared distances
  (`Common.SqDist`).
- **Parameters.** Wall-clock time, each random draw and the floating-point
  library (`sqrt`, `cos`, `sin`, `atan2`, gathered in `Common.Libm`) are
  parameters.
- **Operations that can raise.** An operation that raises in the source
  returns `ok == false`, and the game tick stops there.
- **Loops.** Each loop of the tick, of the entity updates and of the
  managers is a `method` with invariants. The method is proved equal to a
  specification function, and the properties the game relies on are
  lemmas about that function:
  - the towers' target search, volley and projectile pass (`Towers`);
  - a monster's target choice, projectile pass, visibility query and
    Kamikaze splash (`Monsters`);
  - the wave queue's expansion (`Waves`) and the rank count (`Scores`);
  - the tick's phases, the position check and the stock count-off
    (`Games`).

  Four pure queries of the game are recursive functions instead: the light
  zone test (`Games.InLightZone`), the all-placed test
  (`Games.AllTowersPlaced`), and the two list filters of the tick
  (`Games.Alive`, `Games.Unfinished`).

The package's wave manager passes the game object where a monster expects
its first heading. The model keeps that: the heading is a datatype
`Angle(r) | GameObject`. `Monsters.GameObjectHeadingRaises` shows that
such a monster's first move raises. The `main.py` copy passes the spawn
angle.

## Model

| member | source | states |
|---|---|---|
| Common.PyMod | src/entities/monster.py:309 | Python's float `%` with a positive modulus lies in `[0, m)` |
| Motion.PyModDecomposes | src/score_management.py:158-159 | `a == floor(a / m) * m + a % m`, the identity `format_time` relies on |
| Kinds.TowerStatsOf | src/entities/tower.py:17-40 | every tower kind has attack range < vision range and positive speed, damage and health; only a weak tower takes 3 targets, the others 1 |
| Kinds.MonsterStatsOf | src/entities/monster.py:24-139 | every monster kind but the Varan has a stats entry; the stats are well formed; only Morays and Dragons can shoot |
| Kinds.TargetVillageChance | src/entities/monster.py:176-177 | the village chance is 0.15 exactly for Kamikazes and Dragons and 0.05 for every other kind |
| Kinds.RangedWindows | main.py:690-703 | in `main.py` every shooter's attack range reaches at least twice the tower size, so it has a distance to fire from; with the package's tower size a Moray would have none |
| Combat.Hit | src/entities/monster.py:202-209 | a hit lowers health by `max(0, amount - shield)`: health never rises, a blow the shield covers changes nothing, and the monster is dead iff it was dead or its health is at most 0 |
| Combat.BarrageSpec | src/entities/tower.py:104-113 | successive hits never raise health, leave a dead monster untouched and keep health and the dead flag consistent |
| Combat.BarrageAbsorbed | src/entities/monster.py:202-209 | hits that the shield covers change nothing |
| Combat.BarrageSurvived | src/entities/monster.py:202-209 | a monster that survives its hits has lost exactly the sum of what each hit got past the shield |
| Combat.SplashBounds | main.py:705-714 | the Kamikaze splash is the full damage at the centre, none at the edge of the explosion range, and between the two inside it |
| Entities.Launch | src/entities/projectile.py:6-20 | a new projectile starts at the shooter with the given target, damage and speed, and has not arrived |
| Entities.Advance | src/entities/projectile.py:22-33 | an update moves the projectile by exactly `dx * dt` and `dy * dt` and changes nothing else; it arrives iff it ends within the arrival radius of the target's position; `reached` is only ever set |
| Entities.NewTower | src/entities/tower.py:11-42 | a new tower has its kind's full health, no cooldown, no target and no projectiles, and is neither dead nor firing |
| Entities.DamageTower | src/entities/tower.py:44-49 | the full amount is subtracted (towers have no shield), the tower is dead iff it was dead or its health is at most 0, and the result says whether the health is at most 0 |
| Entities.TowerDeathSticks | src/entities/tower.py:41-49 | a dead tower stays dead whatever damage follows |
| Entities.DamageAllSums | src/entities/tower.py:44-49 | successive blows subtract their sum, and the tower ends dead iff it was dead or some prefix of the blows brought it to 0 |
| Entities.NewMonster | src/entities/monster.py:141-200 | a new monster has its kind's full health and damage, the given heading, no target, no flee state, no cooldown and no projectiles |
| Entities.DamageMonster | src/entities/monster.py:202-209 | `take_damage` changes only health and the dead flag, as `Combat.Hit` describes, and returns whether the health is at most 0 |
| Entities.Heal | src/entities/monster.py:211-213 | healing adds the amount but never goes above the maximum health, and changes nothing else |
| Entities.BoostDamage | src/entities/monster.py:215-217 | a boost adds the amount but never goes above the maximum damage, and changes nothing else |
| Entities.CheckLightFear | main.py:439-445 | `is_fleeing` becomes, and the call returns, whether `intensity * light_fear / 100 > 0.5` |
| Targeting.Nearest | src/entities/tower.py:59-69 | the running minimum with strict `<`: none iff no candidate qualifies; otherwise a qualifying candidate no farther than any other and strictly nearer than every qualifying one before it |
| Targeting.NearestUnique | src/entities/tower.py:59-69 | the first candidate among those at the least distance is the one chosen |
| Targeting.SelectSpec | src/entities/tower.py:71-82 | the filter keeps exactly the qualifying elements |
| Targeting.FirstKIsPrefix | src/entities/tower.py:71-82 | stopping the scan at `k` targets yields the first `k` qualifying elements in roster order |
| Targeting.FirstKBounded | src/entities/tower.py:40 | a weak tower never takes more than its maximum number of targets, and each of them is in vision |
| Motion.AngleDiff | src/entities/monster.py:309 | the wrapped heading error lies in `[-pi, pi)` |
| Motion.TurnProgress | src/entities/monster.py:308-315 | a turn reaches the aim when the error is within the allowance, and otherwise shrinks the error by exactly the allowance |
| Motion.StepLength | src/entities/monster.py:317-319 | with a cosine and sine on the unit circle, a step covers exactly the requested distance |
| Motion.MoveTowardsSpec | src/entities/monster.py:305-319 | `move_towards_target` records the new aim, leaves the heading error at `max(0, error - pi * dt)`, and moves exactly the requested distance |
| Motion.FleeStraightLength | main.py:607-610 | fleeing in `main.py` moves `2 * speed * dt` along the normalised direction to the flee point |
| Motion.FleePoint | src/entities/monster.py:237-243 | the flee point is the position mirrored away from the target, each coordinate clamped into the world |
| Motion.FleePointNotNearer | src/entities/monster.py:237-243 | from inside the world, the flee point is never nearer to the target than the monster |
| Towers.AcquireKeepsValidTarget | src/entities/tower.py:53-56 | a current target still in the roster and in vision is kept, even when a nearer monster is in vision |
| Towers.AcquireNearest | src/entities/tower.py:59-69 | otherwise the tower takes the nearest monster in vision (the first of the nearest on ties), or none iff no monster is in vision |
| Towers.NearestInVision | src/entities/tower.py:59-69 | the loop computes the running minimum that `Targeting.Nearest` specifies |
| Towers.FindTarget | src/entities/tower.py:51-69 | `find_target` returns the acquired target and stores its id as the tower's target |
| Towers.FindTargets | src/entities/tower.py:71-82 | a weak tower returns the first 3 monsters in vision in roster order and keeps its target; any other tower returns its acquired target as a singleton, or nothing |
| Towers.VolleySpec | src/entities/tower.py:92-102 | a volley has one projectile per target in attack range, in target order, each aimed at its monster and carrying the tower's damage |
| Towers.VolleySnoc | src/entities/tower.py:92-100 | one more target adds its projectile to the end of the volley iff it is in attack range |
| Towers.Attack | src/entities/tower.py:84-102 | while cooling down, only the cooldown drops by `dt` and the tower does not fire; otherwise the volley is appended, the tower fires iff some target is in attack range, and the cooldown resets to `1 / attack_speed` iff the target list is non-empty; a target at the tower's centre raises |
| Towers.UpdateProjectiles | src/entities/tower.py:104-113 | the loop over a copy of the projectile list computes the kept projectiles and the damaged roster of the `Resolve` pass |
| Towers.ResolveOneDamage | src/entities/tower.py:107-113 | one projectile changes only its target's health and dead flag, by one hit when it arrives while the target is alive |
| Towers.ResolveDamage | src/entities/tower.py:104-113 | the pass changes nothing of a monster but its health and dead flag; each monster takes, in list order, the hits of the projectiles aimed at it that arrive, each landing only while it is alive |
| Towers.ResolveKept | src/entities/tower.py:104-113 | the kept projectiles are exactly those that neither arrived nor aim at a dead monster, each advanced by one step, in their original order |
| Monsters.StartFleeing | src/entities/monster.py:227-249 | `start_fleeing` changes nothing unless the monster aims at a tower; otherwise it sets the clamped mirrored flee point and `flee_time = MAX_FLEE_TIME * light_fear / 100`, starts fleeing and drops the target |
| Monsters.StartFleeingBounds | src/entities/monster.py:245-246 | the flee time lies in `[0, MAX_FLEE_TIME]`, and the flee point is not nearer to the tower |
| Monsters.Move | src/entities/monster.py:305-319 | a move always records the new aim; it moves the monster iff its heading is an angle, which the package's wave manager does not provide |
| Monsters.UpdateFleeing | src/entities/monster.py:269-285 | the flee timer drops by `dt`; at zero the monster stops fleeing and forgets its flee point and target; before that it keeps its state, and it stays put within 5 of the flee point |
| Monsters.ChooseTargetSpec | src/entities/monster.py:328-346 | the village iff the roll is below the village chance or there are no towers; otherwise the nearest tower, the first one on ties |
| Monsters.ChooseTargetPresent | src/entities/monster.py:328-346 | a chosen tower is in the roster, and a choice is always made |
| Monsters.ChooseNewTarget | src/entities/monster.py:328-346 | the running-minimum loop makes the choice `ChooseTarget` specifies |
| Monsters.HandleAttack | src/entities/monster.py:321-326 | only a tower-aimed monster closer than the tower size hits its tower, by `current_damage * dt * attack_speed`, and drops its target iff that destroys it; the tower stays in the roster |
| Monsters.Retarget | src/entities/monster.py:289-291 | a monster without a target, or whose tower has left the roster, chooses again, and ends aimed at the village or at a tower of the roster; any other monster is unchanged |
| Monsters.UpdateNormalBehavior | src/entities/monster.py:287-303 | the method performs the retarget, approach and melee of `update_normal_behavior` |
| Monsters.Update | src/entities/monster.py:251-267 | a fleeing monster only flees; a frightened one starts fleeing and does nothing else; any other behaves normally |
| Monsters.TowerIndexSameTowers | src/entities/monster.py:289-291 | damaging towers does not change which tower an id finds |
| Monsters.StepKeepsWorld | src/entities/monster.py:251-326 | a package monster's update keeps it calm and its id, only damages towers, damages only the tower it ends up aiming at, and leaves any tower aim pointing into the roster |
| Monsters.NormalKeepsWorld | src/entities/monster.py:287-326 | the normal behaviour never starts a flight, keeps the id, only damages towers, damages only the tower it ends up aiming at, and that tower is in the roster |
| Monsters.GameObjectHeadingRaises | src/managers/wave_manager.py:113 | a monster spawned by the package's wave manager raises on its first move |
| Monsters.FleeMonolith | main.py:577-611 | the flee timer drops by `dt`; once it runs out the monster stops fleeing and the update goes on in the same tick; before that the update ends |
| Monsters.RemoveAt | src/game.py:398 | removing a tower keeps the others in order |
| Monsters.ShotOne | main.py:677-688 | a monster projectile whose tower has left the roster is dropped; on arrival it deals the monster's current damage; a tower destroyed that way leaves the roster, and the monster forgets it if it was its target |
| Monsters.UpdateShots | main.py:676-688 | the loop over a copy of the projectile list computes the `Shots` pass |
| Monsters.ShotsKeepAim | main.py:676-688 | the pass keeps tower ids distinct and only damages or removes towers; the monster changes only its aim, which it keeps or drops, and a kept tower aim stays in the roster |
| Monsters.RemoveAtKeeps | src/game.py:398 | removing a tower keeps ids distinct and every other tower present |
| Monsters.UpdateAtKeeps | src/entities/tower.py:44-49 | damaging a tower in place keeps ids distinct and every tower present |
| Monsters.ShotOneKeepsAim | main.py:677-688 | one monster projectile keeps tower ids distinct, only damages or removes towers, and keeps a tower aim in the roster |
| Monsters.RangedAttack | main.py:690-703 | only a shooter aimed at a tower takes part; while cooling down it only counts down; otherwise it fires one projectile with its current damage iff the tower is between twice the tower size and its attack range, and restarts the cooldown |
| Monsters.UpdateNormalMonolith | main.py:624-703 | the method performs `main.py`'s retarget, approach, projectile pass and ranged attack |
| Monsters.UpdateMonolith | main.py:576-703 | the method performs `main.py`'s `Monster.update`: flee, light check, normal behaviour |
| Monsters.NormalMonolithKeepsWorld | main.py:624-703 | `main.py`'s normal behaviour does not start a flee, keeps tower ids distinct, only damages or removes towers, and keeps a tower aim in the roster |
| Monsters.StepMonolithKeepsWorld | main.py:576-703 | `main.py`'s whole update keeps a calm monster calm, keeps tower ids distinct, only damages or removes towers, and keeps a tower aim in the roster |
| Monsters.IsVisible | src/entities/monster.py:424-436 | visible iff within `MAX_VISIBILITY_RANGE` of the village or within some tower's vision range |
| Monsters.Detonate | main.py:705-714 | a Kamikaze's death damages each tower within the explosion range by its splash, removing none; any other kind changes nothing |
| Monsters.SplashOnBounds | main.py:709-714 | a tower beyond the range is untouched, one inside loses between nothing and the full current damage, and one at the centre loses the full damage |
| Explosions.Explosion.constructor | src/entities/explosion.py:5-12 | a new explosion has time 0 and is not finished |
| Explosions.Explosion.Update | src/entities/explosion.py:14-17 | `update` adds `dt` to the time; `finished` becomes true once the time reaches the duration, and is never reset |
| Explosions.FinishedAfterSpec | src/entities/explosion.py:14-17 | after a series of non-negative steps the time is their sum, and the explosion is finished iff some step was taken and the sum reaches the duration |
| Waves.Repeat | src/managers/wave_manager.py:123-129 | `count` copies of one spawn entry |
| Waves.ExpandSpec | src/managers/wave_manager.py:117-129 | the spawn queue is as long as the sum of the wave's counts, and each entry comes from one of the wave's batches |
| Waves.ScriptFacts | src/managers/wave_manager.py:30-68 | the script has 4 non-empty waves of 8, 7, 6 and 3 monsters, each spawning between the minimum and maximum spawn distance, and a final delay of 0 |
| Waves.SpawnPosition | src/managers/wave_manager.py:70-86 | the spawn angle is the base angle plus a variation; the point lies at the spawn distance from the village along it; the package clamps the point into the world and `main.py` (780-792) does not |
| Waves.SpawnAngleBounds | src/managers/wave_manager.py:75 | for a group factor in `[0, 100]`, the variation lies in `[0, pi]` and the angle stays within it of the base angle; a package spawn point lies inside the world |
| Waves.WaveManager.constructor | src/managers/wave_manager.py:18-27 | a new wave manager is at wave 0, waiting, with an empty queue |
| Waves.WaveManager.PrepareNextWave | src/managers/wave_manager.py:117-129 | the queue becomes the current wave's expansion, and nothing else changes |
| Waves.WaveManager.Update | src/managers/wave_manager.py:88-115 | after the last wave nothing changes; a waiting manager starts the wave once its time has come and spawns nothing that call; a spawning manager pops and spawns the head iff its delay has elapsed, and ends the wave when the queue empties, setting the next wave's time from the delay |
| Waves.WaveManager.Next | src/managers/wave_manager.py:88-115 | the state `update` leaves keeps the wave index within the script, moves it on by at most one, and a started wave has a script wave and a non-empty queue |
| Waves.WaveManager.Spawn | src/managers/wave_manager.py:88-115 | `update` returns a monster iff a wave is running and the head of the queue has waited its delay; the monster has the given id, is calm, untargeted and alive |
| Games.CameraRoundTrip | src/game.py:118-128 | for a nonzero zoom, `screen_to_world` and `world_to_screen` invert each other |
| Games.IsPositionValid | src/game.py:138-152 | a screen point is free iff it is at least the village size from the village and at least the tower size from every other tower, measured on screen |
| Games.AllTowersPlaced | src/game.py:154-156 | every tower is placed iff every count in the stock is 0 |
| Games.InitialStockNotPlaced | src/game.py:56-60 | the initial stock of 1, 2 and 3 towers is not all placed |
| Games.InLightZone | src/game.py:337-349 | the light may be aimed iff the point is within `LIGHT_MAX_RANGE` of the village or within some tower's vision range |
| Games.LightAfterInput | src/game.py:336-359 | the light is on iff the button is pressed, power is left and the cursor is in the light zone, and its position is set iff it is on |
| Games.Trunc | src/game.py:821-822 | Python's `int()` truncates toward zero |
| Games.PixelIndex | src/game.py:821-826 | a pixel index is clamped into `[0, size - 1]` |
| Games.TerrainSpeedMultiplier | src/game.py:810-835 | the multiplier is `0.5 + p / 255 * 0.5` for the pixel's low byte `p`, and lies in `[0.5, 1]` |
| Games.TerrainExtremes | src/game.py:834-835 | a black pixel gives 0.5 and a white one 1.0 |
| Games.DeltaTime | src/game.py:369-370 | a tick lasts between 1 and 20 frames of 1/60 second |
| Games.LightPowerAfter | src/game.py:418-422 | an active light drains to `max(0, p - drain * dt)` and an idle one recharges to `min(max, p + rate * dt)`, so the power stays in `[0, LIGHT_MAX_POWER]` |
| Games.AliveSpec | src/game.py:384 | the sweep keeps exactly the monsters that are not dead, and keeps their ids distinct |
| Games.SurvivorsKeepIds | src/game.py:398 | removing or damaging towers hands out no new id |
| Games.SameTowersKeep | src/entities/monster.py:321-326 | damaging towers in place keeps their ids distinct |
| Games.Melee | src/game.py:389-411 | a tower-aimed monster closer than the tower size hits its tower by `current_damage * dt * attack_speed`, removes it from the roster and forgets it iff the hit destroys it; a village-aimed monster closer than the village size hits the village, and the game is over once its health is at most 0; otherwise nothing changes |
| Games.MeleeKeeps | src/game.py:389-401 | the melee keeps a calm monster calm, keeps tower ids distinct and only damages or removes towers |
| Games.MonsterStepKeeps | src/game.py:387-388 | both builds' monster updates keep the id and calm, keep tower ids distinct, only damage or remove towers, and leave a tower aim in the roster |
| Games.ActKeeps | src/game.py:386-411 | one monster's turn keeps its id and calm, only damages or removes towers, never clears `game_over`, and sets it only when the village's health is at most 0 |
| Games.ActOn | src/game.py:386-411 | the method performs the monster's update and the melee checks of `Act` |
| Games.SurvivorsTransitive | src/game.py:386-411 | towers damaged or removed twice over are towers damaged or removed |
| Games.Unfinished | src/game.py:414 | the sweep keeps exactly the unfinished explosions |
| Games.SameSitesKeep | src/game.py:378-381 | the towers' turns keep tower ids distinct and hand out no new id |
| Games.SameBodiesKeepRoster | src/game.py:378-381 | projectile hits keep monster ids distinct, hand out no new id and keep every monster calm |
| Games.TowerTurnKeeps | src/game.py:378-381 | one tower's turn keeps the tower's place, identity and health, changes only the monsters' health and dead flags, and changes no monster when the attack raises |
| Games.TowerTurnDamage | src/game.py:378-381 | when the attack completes, each monster's health and dead flag are what the hits of this tower's arriving projectiles aimed at it leave, in list order |
| Games.TowerTurn | src/game.py:379-381 | the method performs `find_targets`, `attack` and, unless the attack raised, `update_projectiles`, as `TowerTurnSpec` composes them |
| Games.TowersActBodies | src/game.py:378-381 | the towers' turns, each on the roster the earlier turns left, change only the monsters' health and dead flags |
| Games.TowersActSites | src/game.py:378-381 | the towers' turns keep every tower's place, identity and health, in roster order |
| Games.TowersActStops | src/game.py:378-381 | after a tower's turn raises, the later towers do not act and stay as they were |
| Games.TowersAct | src/game.py:378-381 | the loop over the towers in roster order computes `TowersActSpec`: each tower acts on the monsters as the earlier towers left them, and a turn that raises ends the loop |
| Games.MonstersActIds | src/game.py:386-411 | the monsters' turns keep every monster's id in its place and keep every monster calm |
| Games.MonstersActTowers | src/game.py:386-411 | the monsters' turns only damage or remove towers, and never clear `game_over` |
| Games.MonstersActStops | src/game.py:386-411 | after a monster's turn raises, the later monsters do not act |
| Games.MonsterTurnAt | src/game.py:386-411 | one pass of the monster loop takes the turns on values one monster further |
| Games.MonstersAct | src/game.py:386-411 | the loop over the monsters in roster order computes `MonstersActSpec`: each monster acts on the towers, the village's health and the game-over flag as the earlier monsters left them, and a turn that raises ends the loop |
| Games.TickReady | src/game.py:378-384 | after the towers' turns and the sweep, the survivors are calm with distinct ids and the tower ids stay distinct, as the monster loop needs |
| Games.TickSparesNoDead | src/game.py:378-411 | when the towers' turns complete, the monsters that end the tick are exactly those still alive after the towers' turns, in roster order; a monster killed by a tower this tick takes no turn and is gone |
| Games.AdvanceExplosions | src/game.py:415-416 | every surviving explosion advances by `dt`, as `Explosions.Explosion.Update` describes |
| Towers.SameBodiesKeep | src/entities/tower.py:104-113 | health-only changes compose |
| Games.Game.constructor | src/game.py:39-93 | a new game is in edit mode with the village at the centre at full health, the light charged and off, empty rosters, and the stock of 1 powerful, 2 medium and 3 weak towers |
| Games.Taken | src/game.py:207-209 | taking a tower of a kind lowers the count of every stock entry of that kind by one and leaves the other entries alone |
| Games.TakeStock | src/game.py:207-209 | the loop over `available_towers` computes `Taken` |
| Games.Game.DropNewTower | src/game.py:294-302 | a tower dragged from a non-empty stock entry is placed iff the cursor is above the panel and the spot is free on screen; then it joins the roster at the world point under the cursor with a fresh id and the entry's count drops by one; otherwise nothing changes |
| Games.Game.LoadTower | src/game.py:202-209 | a tower read from the saved map joins the roster with a fresh id and the stock becomes `Taken` of the old stock |
| Games.Game.StartGame | src/game.py:158-168 | starting enters play mode, records the start time, empties the monster roster, and creates a fresh wave manager around the game's village: wave 0, waiting, due at time 0, last spawn at 0 and an empty queue |
| Games.Game.HandleLight | src/game.py:336-359 | the light's state becomes `LightAfterInput`, and nothing else changes |
| Games.Game.SpawnPhase | src/game.py:372-375 | the wave manager's state becomes `Next`; the monster its `update` returns, if any, is appended with the next fresh id; nothing else changes |
| Games.Game.TowerPhase | src/game.py:377-381 | the towers and monsters become `TowersActSpec` of the old ones: no tower or monster moves and only the monsters' health and dead flags change; nothing else changes |
| Games.Game.SweepPhase | src/game.py:384 | the monster roster keeps exactly the monsters that are not dead, in order, before any monster acts |
| Games.Game.MonsterPhase | src/game.py:386-411 | the monsters, towers, village health and game-over flag become `MonstersActSpec` of the old ones; the roster keeps its ids in place, `game_over` is never cleared, and nothing else changes |
| Games.Game.Commit | src/game.py:386-411 | the monster loop's results are stored in the game, and nothing else changes |
| Games.Game.Battle | src/game.py:377-411 | the towers' turns, the sweep and the monsters' turns take the game to `Tick` of its old state; the wave manager, explosions and light are untouched |
| Games.Game.ExplosionPhase | src/game.py:413-416 | finished explosions are dropped before the others advance, so an explosion finishing this tick goes on the next |
| Games.Game.Update | src/game.py:363-422 | outside play or after game over the tick changes nothing; otherwise the wave manager moves to `Next`, a spawned monster gets the next id, and the monsters, towers, village health and game-over flag become `TickAfterSpawn` of the old state; a completed tick drops the finished explosions, advances the others and sets the light power as `LightPowerAfter` says; a tick that raises leaves the explosions and the light power alone; `game_over` is never cleared |
| Games.Game.PlayTick | src/game.py:364-422 | a tick of play has the effect `Update` states when the game is being played |
| Games.Game.SpawnAndBattle | src/game.py:365-411 | the spawn followed by the towers' and monsters' turns takes the game to `TickAfterSpawn` of its old state and the wave manager to `Next` |
| Games.Game.Aftermath | src/game.py:413-422 | finished explosions are dropped, the others advance by `dt`, and the light power becomes `LightPowerAfter`; nothing else changes |
| Games.Game.Die | main.py:705-714 | a Kamikaze's death appends one fresh explosion at its position, of the explosion range and duration, and splashes the towers; other kinds change nothing |
| Scores.Slot | src/score_management.py:85-88 | where a stable descending sort puts a new score: after every entry scoring at least as much |
| Scores.InsertSpec | src/score_management.py:85-88 | inserting keeps every entry and adds the new one, and keeps a sorted board sorted |
| Scores.InsertSorted | src/score_management.py:85-88 | inserting at its slot keeps a sorted board sorted |
| Scores.SortDescSpec | src/score_management.py:88 | the sort yields a non-increasing board with the same entries |
| Scores.SortDescSorted | src/score_management.py:88 | the stable sort leaves a sorted board unchanged |
| Scores.AddedToSpec | src/score_management.py:62-92 | after `add_score` the board is sorted, has `min(old + 1, 10)` entries, every entry comes from the old board or is the new one, and every entry the cut drops scores no more than any entry kept |
| Scores.CapDropsLowest | src/score_management.py:91-92 | cutting a sorted board to ten drops no entry scoring more than an entry kept |
| Scores.CapSpec | src/score_management.py:91-92 | cutting to ten keeps `min(len, 10)` entries, adds none, and keeps a sorted board sorted |
| Scores.AddedToSorted | src/score_management.py:84-92 | on an already sorted board, `add_score` equals inserting the new entry after every entry with the same score and cutting to ten |
| Scores.RankBounds | src/score_management.py:117-123 | a rank lies in `[1, len + 1]`, and a board of fewer than 10 always gives one |
| Scores.SlotCounts | src/score_management.py:85-88 | on a sorted board the new entry's slot is after the higher scores and the ties |
| Scores.SlotPast | src/score_management.py:85-88 | the slot comes after every leading entry scoring at least as much |
| Scores.SlotPrefix | src/score_management.py:85-88 | a last entry scoring less does not move the slot |
| Scores.HighScoreKept | src/score_management.py:106-146 | on a sorted board of at most 10, a score is a high score iff the entry `add_score` makes for it stays on the board, and then it sits at its slot |
| Scores.Digits | src/score_management.py:158-160 | a decimal rendering has at least one digit |
| Scores.DigitsRoundTrip | src/score_management.py:158-160 | reading a rendered number back gives the number |
| Scores.ParseLeadingZero | src/score_management.py:158-160 | zero-padding does not change the value |
| Scores.Pad2RoundTrip | src/score_management.py:158-160 | `:02d` reads back as the number, has at least 2 characters, and exactly 2 below 100 |
| Scores.FormatTimeReadsBack | src/score_management.py:148-160 | for a non-negative time the text is minutes, ':' and seconds, where the minutes are `floor(s / 60)`, the seconds lie in `[0, 60)` and the two give back `floor(s)` |
| Scores.ScoreValueFacts | src/score_management.py:162-186 | only the Varan is missing from the table and scores the default 10; every value lies in `[10, 100]`; only a Dragon scores 100 |
| Scores.ScoreManager.constructor | src/score_management.py:8-16 | the board is the one loaded |
| Scores.ScoreManager.AddScore | src/score_management.py:62-92 | the board becomes `AddedTo` of the old board and the new entry |
| Scores.ScoreManager.GetCurrentPlayerRank | src/score_management.py:106-134 | the counting loop returns `1 + #(higher scores)` when the board has fewer than 10 entries or the score beats the last, and none otherwise |
| Scores.ScoreManager.IsHighScore | src/score_management.py:136-146 | a high score iff a rank is returned |

## Left out

- Drawing, sprites, sounds, window and camera input, and the map and leaderboard files are left out. These are presentation and I/O. The leaderboard is an in-memory sequence, and `add_score`'s date stamp and its return value (the save) are not modelled.
- `sqrt`, `cos`, `sin` and `atan2` are left out. They are fields of a `Libm` value the caller supplies. A few lemmas assume the properties they need of it, such as `cos^2 + sin^2 = 1`.
- Python float rounding is left out. Reals are exact.
- The clock and `random` are left out. Times and rolls are parameters, and each monster's light-fear and target rolls are indexed by its place in the roster. The order in which the source draws them is not modelled.
- Aliasing is left out. Towers, monsters and projectiles are values with ids, not shared objects. A reference to an object the source has dropped becomes an id that no longer resolves.
- The part-way state of a tick that raises is left out. When an operation raises (`ok == false`), the game stops updating, but the model does not describe the state the source leaves half updated.
- Towers.Attack: the model does not compute which tower or monster raises. A target exactly at a tower's centre divides by zero in the source, and the model returns `ok == false` for the whole volley.
- Varan monsters are left out. They have no stats entry, so creating one raises `KeyError`. The monster kinds that can be built (`StatKind`) exclude it.
- The witch heal and the spirit buff are left out. `heal` and `boost_damage` are modelled, but nothing in the tick calls them.
- `LIGHT_RECHARGE_DELAY` is left out. The tick never reads it.
- Moving a placed tower by drag and drop and removing one with a right click (src/game.py:277-281 and 296-298) are left out. Both are editor actions before play, and neither adds a tower. The start of a drag is left out too; `Games.Game.DropNewTower` takes the dragged stock entry as a parameter.
- The old tower class in `main.py` is not modelled separately. It has no `is_firing` flag, and the model uses the package's tower in both builds.
- `src/entities.py` is left out. It is dead code shadowed by the `src/entities/` package.
- Monsters.Detonate / Games.Game.Die: `main.py`'s `Monster.die` is modelled on its own. Nothing in either copy calls it, so the tick never adds an explosion or splashes towers, and the explosion list stays empty in play.
- Games.Game.Update does not promise `game_over ==> village_health <= 0`. The melee damage is `current_damage * dt * attack_speed`, and nothing in the model keeps `dt` or the damage non-negative.
- Scores.HighScoreKept assumes a board of at most 10 entries. A longer board can only come from the file. On such a board `is_high_score` can accept a score whose entry `add_score` then cuts.
- Motion.FleeStraightLength requires the supplied square root to be exact. It then states the exact flee distance.
- Monsters.SplashOnBounds requires the supplied square root to map `[0, range^2]` into `[0, range]` and 0 to 0.
