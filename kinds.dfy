/** Tower and monster kinds with their stat tables (the `Tower` constructor
    in src/entities/tower.py and `Monster.MONSTER_STATS` in
    src/entities/monster.py; main.py carries the same numbers). */
module Kinds {
  import opened Common
  import opened Constants

  datatype TowerKind = Powerful | Medium | Weak

  datatype TowerStats = TowerStats(
    visionRange: real,
    attackRange: real,
    attackSpeed: real,
    damage: real,
    maxHealth: real,
    maxTargets: nat)

  /** The per-kind tower table; only the weak (yellow) tower spreads its
      fire over up to three targets. */
  function TowerStatsOf(k: TowerKind): (s: TowerStats)
    ensures 0.0 < s.attackRange < s.visionRange
    ensures s.attackSpeed > 0.0 && s.damage > 0.0 && s.maxHealth > 0.0
    ensures s.maxTargets == (if k == Weak then 3 else 1)
  {
    match k
    case Powerful => TowerStats(200.0, 180.0, 2.0, 50.0, 300.0, 1)
    case Medium => TowerStats(150.0, 130.0, 1.5, 30.0, 200.0, 1)
    case Weak => TowerStats(100.0, 80.0, 1.0, 15.0, 100.0, 3)
  }

  /** The twelve monster kinds of the enumeration; `Varan` has no stat entry. */
  datatype MonsterKind =
    | Skeleton | Wolf | Moray | Varan | SmallSpirit | FireSkeleton | Witch
    | Kamikaze | GiantWolf | GiantSkeleton | RoyalMoray | Dragon

  /** Extra stats of the kinds that shoot. */
  datatype Ranged = Ranged(attackRange: real, projectileSpeed: real)

  datatype MonsterStats = MonsterStats(
    maxHealth: real,
    maxDamage: real,
    speed: real,
    shield: real,
    attackSpeed: real,
    lightFear: real,
    groupFactor: real,
    ranged: Option<Ranged>)

  predicate WellFormed(s: MonsterStats)
  {
    && s.maxHealth > 0.0 && s.maxDamage > 0.0 && s.speed > 0.0
    && s.shield >= 0.0 && s.attackSpeed > 0.0
    && 0.0 <= s.lightFear <= 100.0
    && 0.0 <= s.groupFactor <= 100.0
    && (s.ranged.Some? ==> s.ranged.value.attackRange > 0.0 && s.ranged.value.projectileSpeed > 0.0)
  }

  /** Looking a kind up in the stat table: `Varan` is missing, so building a
      Varan raises a KeyError in the game. Only Moray and Dragon have the
      ranged entries. */
  function MonsterStatsOf(k: MonsterKind): (r: Option<MonsterStats>)
    ensures r.None? <==> k == Varan
    ensures r.Some? ==> WellFormed(r.value)
    ensures r.Some? ==> (r.value.ranged.Some? <==> k == Moray || k == Dragon)
  {
    match k
    case Skeleton => Some(MonsterStats(100.0, 10.0, 2.0, 0.0, 1.0, 70.0, 80.0, None))
    case Wolf => Some(MonsterStats(150.0, 15.0, 3.0, 5.0, 1.5, 60.0, 70.0, None))
    case Moray => Some(MonsterStats(200.0, 20.0, 2.5, 10.0, 1.2, 50.0, 40.0, Some(Ranged(100.0, 300.0))))
    case Varan => None
    case SmallSpirit => Some(MonsterStats(80.0, 30.0, 4.0, 0.0, 1.0, 90.0, 90.0, None))
    case FireSkeleton => Some(MonsterStats(250.0, 25.0, 2.0, 15.0, 1.3, 40.0, 60.0, None))
    case Witch => Some(MonsterStats(300.0, 20.0, 1.5, 20.0, 2.0, 30.0, 20.0, None))
    case Kamikaze => Some(MonsterStats(100.0, 150.0, 5.0, 0.0, 1.0, 20.0, 50.0, None))
    case GiantWolf => Some(MonsterStats(400.0, 40.0, 2.5, 25.0, 1.2, 25.0, 30.0, None))
    case GiantSkeleton => Some(MonsterStats(500.0, 45.0, 1.5, 30.0, 0.8, 20.0, 40.0, None))
    case RoyalMoray => Some(MonsterStats(600.0, 50.0, 2.0, 35.0, 1.5, 15.0, 10.0, None))
    case Dragon => Some(MonsterStats(1000.0, 100.0, 3.0, 50.0, 2.0, 5.0, 5.0, Some(Ranged(150.0, 400.0))))
  }

  /** Kamikazes and dragons go straight for the village more often. */
  function TargetVillageChance(k: MonsterKind): (c: real)
    ensures 0.0 < c < 1.0
    ensures c == 0.15 <==> k == Kamikaze || k == Dragon
    ensures c != 0.15 ==> c == 0.05
  {
    if k == Kamikaze || k == Dragon then 0.15 else 0.05
  }

  /** In the single-file build the ranged attack fires only between twice
      the tower size and the attack range; that window is non-empty for both
      shooters there, while the package's larger towers would leave the
      Moray no distance at which to fire. */
  lemma RangedWindows()
    ensures forall k :: MonsterStatsOf(k).Some? && MonsterStatsOf(k).value.ranged.Some? ==>
      2.0 * TowerSize(Monolith) <= MonsterStatsOf(k).value.ranged.value.attackRange
    ensures MonsterStatsOf(Moray).value.ranged.value.attackRange < 2.0 * TowerSize(Package)
  {
  }
}
