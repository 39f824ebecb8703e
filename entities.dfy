/** The game's combat entities (src/entities/): projectiles, towers and
    monsters, as values. The Python objects refer to one another (a tower's
    target, a monster's tower, a projectile's target) and are compared by
    identity; here every tower and monster carries an `id` and those
    references are ids into the game's rosters, which the game updates in
    place (module `Game`).

    Every distance test of the game (`sqrt(dx*dx + dy*dy) <= r`) is written
    on squared distances (`SqDist(...) <= r * r`). */
module Entities {
  import opened Common
  import opened Constants
  import opened Kinds
  import opened Combat

  type Point = (real, real)

  /** What a projectile flies at: tower shots at monsters, monster shots
      (single-file build) at towers. */
  datatype Ref = MonsterRef(id: nat) | TowerRef(id: nat)

  /** Squared radius within which a projectile counts as arrived:
      `(PROJECTILE_SIZE * 2) ** 2`. */
  const ARRIVAL_RADIUS_SQ: real := (PROJECTILE_SIZE * 2.0) * (PROJECTILE_SIZE * 2.0)

  /** src/entities/projectile.py: position, fixed velocity `(dx, dy)`,
      payload and the one-way `reached` flag. */
  datatype Projectile = Projectile(
    x: real, y: real, target: Ref, damage: real, speed: real,
    dx: real, dy: real, reached: bool)

  /** `Projectile.__init__`: the velocity is the direction to the target's
      position at launch, scaled to `speed`. Normalising divides by the launch
      distance, so the target must not sit on the launch point. */
  function Launch(startX: real, startY: real, target: Ref, targetX: real, targetY: real,
                  damage: real, speed: real, libm: Libm): (p: Projectile)
    requires libm.SqrtPositive() && SqDist(targetX, targetY, startX, startY) > 0.0
    ensures p.x == startX && p.y == startY && !p.reached
    ensures p.target == target && p.damage == damage && p.speed == speed
  {
    var dx := targetX - startX;
    var dy := targetY - startY;
    var distance := libm.sqrt(dx * dx + dy * dy);
    Projectile(startX, startY, target, damage, speed, dx / distance * speed, dy / distance * speed, false)
  }

  /** `Projectile.update`: one tick along the fixed velocity, then the
      arrival test against where the target is now. */
  function Advance(p: Projectile, dt: real, targetX: real, targetY: real): (r: (Projectile, bool))
    ensures r.0.x == p.x + p.dx * dt && r.0.y == p.y + p.dy * dt
    ensures r.0 == p.(x := r.0.x, y := r.0.y, reached := r.0.reached)
    ensures r.1 <==> SqDist(targetX, targetY, r.0.x, r.0.y) < ARRIVAL_RADIUS_SQ
    ensures r.0.reached == (p.reached || r.1)
  {
    var x := p.x + p.dx * dt;
    var y := p.y + p.dy * dt;
    var arrived := SqDist(targetX, targetY, x, y) < ARRIVAL_RADIUS_SQ;
    (p.(x := x, y := y, reached := p.reached || arrived), arrived)
  }

  /** src/entities/tower.py. The stats of `__init__` follow from the kind. */
  datatype Tower = Tower(
    id: nat, kind: TowerKind, x: real, y: real,
    currentHealth: real, attackCooldown: real,
    target: Option<nat>, projectiles: seq<Projectile>,
    isDead: bool, isFiring: bool)
  {
    function Stats(): TowerStats { TowerStatsOf(kind) }
  }

  /** `Tower.__init__`. */
  function NewTower(id: nat, kind: TowerKind, x: real, y: real): (t: Tower)
    ensures t.id == id && t.kind == kind && t.x == x && t.y == y
    ensures t.currentHealth == TowerStatsOf(kind).maxHealth > 0.0
    ensures t.attackCooldown == 0.0 && t.target == None && t.projectiles == []
    ensures !t.isDead && !t.isFiring
  {
    Tower(id, kind, x, y, TowerStatsOf(kind).maxHealth, 0.0, None, [], false, false)
  }

  /** `Tower.take_damage`: towers have no shield, so the whole amount comes
      off; the result says whether health is now at or below zero. */
  function DamageTower(t: Tower, amount: real): (r: (Tower, bool))
    ensures r.0 == t.(currentHealth := t.currentHealth - amount, isDead := r.0.isDead)
    ensures r.0.isDead <==> t.isDead || r.0.currentHealth <= 0.0
    ensures r.1 <==> r.0.currentHealth <= 0.0
  {
    var h := t.currentHealth - amount;
    (t.(currentHealth := h, isDead := t.isDead || h <= 0.0), h <= 0.0)
  }

  /** Damage on towers only ever sets the dead flag: once dead, a tower stays
      dead through any further damage, and a destroyed tower reports it. */
  lemma {:induction false} TowerDeathSticks(t: Tower, amounts: seq<real>)
    requires t.isDead
    ensures DamageAll(t, amounts).isDead
    decreases |amounts|
  {
    if |amounts| > 0 {
      TowerDeathSticks(t, amounts[..|amounts| - 1]);
    }
  }

  /** A tower after a series of hits. */
  function DamageAll(t: Tower, amounts: seq<real>): Tower
    decreases |amounts|
  {
    if |amounts| == 0 then t
    else DamageTower(DamageAll(t, amounts[..|amounts| - 1]), amounts[|amounts| - 1]).0
  }

  /** The hits add up: after a series of hits health is down by their sum,
      and the tower is dead exactly when it was, or health reached zero at
      some point along the way. */
  lemma {:induction false} DamageAllSums(t: Tower, amounts: seq<real>)
    ensures DamageAll(t, amounts).currentHealth == t.currentHealth - Sum(amounts)
    ensures DamageAll(t, amounts).isDead <==>
      t.isDead || exists k :: 1 <= k <= |amounts| && t.currentHealth - Sum(amounts[..k]) <= 0.0
    decreases |amounts|
  {
    if |amounts| > 0 {
      var n := |amounts| - 1;
      DamageAllSums(t, amounts[..n]);
      assert amounts[..n + 1] == amounts;
      assert forall k :: 1 <= k <= n ==> amounts[..n][..k] == amounts[..k];
    }
  }

  function Sum(s: seq<real>): real
    decreases |s|
  {
    if |s| == 0 then 0.0 else Sum(s[..|s| - 1]) + s[|s| - 1]
  }

  /** Where a monster's heading is stored. The single-file build passes the
      spawn angle; the package's wave scheduler passes the game object
      itself (src/managers/wave_manager.py:113), which is no angle at all. */
  datatype Heading = Angle(radians: real) | GameObject

  /** What a monster is heading for: `current_target` together with
      `current_target_type`. A tower aim records the tower's id and its
      position: towers do not move once play has started. */
  datatype Aim = NoAim | VillageAim | TowerAim(id: nat, x: real, y: real)

  /** The kinds with an entry in the stat table (`Varan` has none, so
      building one raises a KeyError in the game). */
  type StatKind = k: MonsterKind | k != Varan witness Skeleton

  /** src/entities/monster.py (with the ranged attack fields of main.py). */
  datatype Monster = Monster(
    id: nat, kind: StatKind, x: real, y: real,
    direction: Heading, targetDirection: Heading,
    currentHealth: real, currentDamage: real,
    isFleeing: bool, fleeTime: real, fleeTarget: Option<Point>,
    aim: Aim, attackCooldown: real, projectiles: seq<Projectile>,
    isDead: bool)
  {
    function Stats(): (s: MonsterStats)
      ensures WellFormed(s)
    {
      MonsterStatsOf(kind).value
    }

    function VillageChance(): real { TargetVillageChance(kind) }

    /** Only the kinds with ranged stats (Moray and Dragon) shoot. */
    predicate CanShoot() { Stats().ranged.Some? }
  }

  /** `Monster.__init__`. */
  function NewMonster(id: nat, kind: StatKind, x: real, y: real, initialDirection: Heading): (m: Monster)
    ensures m.id == id && m.kind == kind && m.x == x && m.y == y
    ensures m.direction == initialDirection && m.targetDirection == initialDirection
    ensures m.currentHealth == m.Stats().maxHealth && m.currentDamage == m.Stats().maxDamage
    ensures !m.isFleeing && m.fleeTime == 0.0 && m.fleeTarget == None && m.aim == NoAim
    ensures m.attackCooldown == 0.0 && m.projectiles == [] && !m.isDead
  {
    var s := MonsterStatsOf(kind).value;
    Monster(id, kind, x, y, initialDirection, initialDirection, s.maxHealth, s.maxDamage,
            false, 0.0, None, NoAim, 0.0, [], false)
  }

  function VitalOf(m: Monster): Vital
  {
    Vital(m.currentHealth, m.isDead)
  }

  /** `Monster.take_damage`: the shielded hit of `Combat.Hit`; the result
      says whether the monster is now at or below zero health. */
  function DamageMonster(m: Monster, amount: real): (r: (Monster, bool))
    ensures r.0 == m.(currentHealth := r.0.currentHealth, isDead := r.0.isDead)
    ensures VitalOf(r.0) == Hit(VitalOf(m), m.Stats().shield, amount)
    ensures r.1 <==> r.0.currentHealth <= 0.0
  {
    var h := m.currentHealth - Max(0.0, amount - m.Stats().shield);
    (m.(currentHealth := h, isDead := m.isDead || h <= 0.0), h <= 0.0)
  }

  /** `Monster.heal`: never above the maximum, and the full amount when it
      fits. */
  function Heal(m: Monster, amount: real): (r: Monster)
    ensures r == m.(currentHealth := r.currentHealth)
    ensures r.currentHealth <= m.Stats().maxHealth
    ensures m.currentHealth + amount <= m.Stats().maxHealth ==> r.currentHealth == m.currentHealth + amount
    ensures m.currentHealth + amount > m.Stats().maxHealth ==> r.currentHealth == m.Stats().maxHealth
  {
    m.(currentHealth := Min(m.Stats().maxHealth, m.currentHealth + amount))
  }

  /** `Monster.boost_damage`: never above `max_damage`. */
  function BoostDamage(m: Monster, amount: real): (r: Monster)
    ensures r == m.(currentDamage := r.currentDamage)
    ensures r.currentDamage <= m.Stats().maxDamage
    ensures m.currentDamage + amount <= m.Stats().maxDamage ==> r.currentDamage == m.currentDamage + amount
    ensures m.currentDamage + amount > m.Stats().maxDamage ==> r.currentDamage == m.Stats().maxDamage
  {
    m.(currentDamage := Min(m.Stats().maxDamage, m.currentDamage + amount))
  }

  /** `Monster.check_light_fear` (never called by the tick): sets the
      fleeing flag from the light intensity alone and reports it; it neither
      picks a flee point nor clears the target. */
  function CheckLightFear(m: Monster, intensity: real): (r: (Monster, bool))
    ensures r.0 == m.(isFleeing := r.1)
    ensures r.1 <==> intensity * (m.Stats().lightFear / 100.0) > 0.5
  {
    var fleeing := intensity * (m.Stats().lightFear / 100.0) > 0.5;
    (m.(isFleeing := fleeing), fleeing)
  }

  /** Position of the tower with id `id` in a roster, if any. */
  function TowerIndex(ts: seq<Tower>, id: nat): (r: Option<nat>)
    ensures r.Some? ==> r.value < |ts| && ts[r.value].id == id
    ensures r.Some? ==> forall i :: 0 <= i < r.value ==> ts[i].id != id
    ensures r.None? <==> forall i :: 0 <= i < |ts| ==> ts[i].id != id
    decreases |ts|
  {
    if |ts| == 0 then None
    else if ts[0].id == id then Some(0)
    else match TowerIndex(ts[1..], id)
      case None => None
      case Some(i) => Some(i + 1)
  }

  /** Position of the monster with id `id` in a roster, if any. */
  function MonsterIndex(ms: seq<Monster>, id: nat): (r: Option<nat>)
    ensures r.Some? ==> r.value < |ms| && ms[r.value].id == id
    ensures r.Some? ==> forall i :: 0 <= i < r.value ==> ms[i].id != id
    ensures r.None? <==> forall i :: 0 <= i < |ms| ==> ms[i].id != id
    decreases |ms|
  {
    if |ms| == 0 then None
    else if ms[0].id == id then Some(0)
    else match MonsterIndex(ms[1..], id)
      case None => None
      case Some(i) => Some(i + 1)
  }

  /** `x in towers`: Python compares the objects by identity, which is the
      id here. */
  predicate TowerPresent(ts: seq<Tower>, id: nat)
  {
    TowerIndex(ts, id).Some?
  }

  predicate UniqueTowerIds(ts: seq<Tower>)
  {
    forall i, j :: 0 <= i < j < |ts| ==> ts[i].id != ts[j].id
  }

  predicate UniqueMonsterIds(ms: seq<Monster>)
  {
    forall i, j :: 0 <= i < j < |ms| ==> ms[i].id != ms[j].id
  }

  /** With distinct ids, the index of an id is the one position holding it. */
  lemma MonsterIndexUnique(ms: seq<Monster>, k: nat)
    requires UniqueMonsterIds(ms) && k < |ms|
    ensures MonsterIndex(ms, ms[k].id) == Some(k)
  {
  }

  lemma TowerIndexUnique(ts: seq<Tower>, k: nat)
    requires UniqueTowerIds(ts) && k < |ts|
    ensures TowerIndex(ts, ts[k].id) == Some(k)
  {
  }
}
