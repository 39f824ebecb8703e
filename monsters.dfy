/** Monster behaviour: the Normal/Fleeing state machine of
    src/entities/monster.py and, for the single-file build, the monster
    update of main.py with its ranged attack and monster projectiles, and the
    Kamikaze splash of `die`.

    Each operation takes the monster and the tower roster as values and
    returns their new versions; `ok == false` means the game raised at that
    point (the tick stops there and the state is as far as it got). Random
    rolls and the floating-point library are parameters. */
module Monsters {
  import opened Common
  import opened Constants
  import opened Kinds
  import opened Combat
  import opened Targeting
  import opened Motion
  import opened Entities

  /** `distance > 5`, squared: a monster closer than this to where it is
      going stays put. */
  const NEAR_SQ: real := 25.0

  /** The light frightens: it is on, has a position and power left, the
      monster is strictly inside its radius, and the roll (`random()`) falls
      under the monster's light fear. */
  predicate Frightened(m: Monster, light: Option<Point>, lightActive: bool, lightPower: real, roll: real)
  {
    && lightActive && light.Some? && lightPower > 0.0
    && SqDist(light.value.0, light.value.1, m.x, m.y) < LIGHT_RADIUS * LIGHT_RADIUS
    && roll * 100.0 < m.Stats().lightFear
  }

  /** A fleeing monster has given up its target, as `start_fleeing` leaves
      it; every monster starts out in this state. */
  predicate Calm(m: Monster)
  {
    m.isFleeing ==> m.aim == NoAim
  }

  /** `start_fleeing`. Only a monster aimed at a tower has a `current_target`
      (the village is aimed at with `current_target = None`), so for every
      other monster it changes nothing. A tower-aimed monster runs to its
      position mirrored away from the tower, clamped into the world, for a
      time proportional to its light fear, and drops its target. */
  function StartFleeing(m: Monster, build: Build): (r: Monster)
    ensures !m.aim.TowerAim? ==> r == m
    ensures m.aim.TowerAim? ==>
      && r == m.(isFleeing := true, fleeTarget := r.fleeTarget, fleeTime := r.fleeTime, aim := NoAim)
      && r.fleeTarget == Some(FleePoint(m.x, m.y, m.aim.x, m.aim.y))
      && r.fleeTime == MaxFleeTime(build) * (m.Stats().lightFear / 100.0)
    ensures Calm(r) <==> Calm(m) || m.aim.TowerAim?
  {
    if m.aim.TowerAim? then
      m.(fleeTarget := Some(FleePoint(m.x, m.y, m.aim.x, m.aim.y)),
         fleeTime := MaxFleeTime(build) * (m.Stats().lightFear / 100.0),
         isFleeing := true, aim := NoAim)
    else m
  }

  /** The flee lasts between none and the whole maximum flee time, and the
      flee point is no nearer to the tower than the monster, whenever the
      monster is inside the world. */
  lemma StartFleeingBounds(m: Monster, build: Build)
    requires m.aim.TowerAim?
    ensures 0.0 <= StartFleeing(m, build).fleeTime <= MaxFleeTime(build)
    ensures 0.0 <= m.x <= WORLD_SIZE && 0.0 <= m.y <= WORLD_SIZE ==>
      var p := StartFleeing(m, build).fleeTarget.value;
      SqDist(p.0, p.1, m.aim.x, m.aim.y) >= SqDist(m.x, m.y, m.aim.x, m.aim.y)
  {
    var f := m.Stats().lightFear / 100.0;
    assert 0.0 <= f <= 1.0;
    ProductMonotone(f, 1.0, MaxFleeTime(build));
    if 0.0 <= m.x <= WORLD_SIZE && 0.0 <= m.y <= WORLD_SIZE {
      FleePointNotNearer(m.x, m.y, m.aim.x, m.aim.y);
    }
  }

  function PoseOf(m: Monster): Pose
    requires m.direction.Angle?
  {
    Pose(m.x, m.y, m.direction.radians, if m.targetDirection.Angle? then m.targetDirection.radians else 0.0)
  }

  /** `move_towards_target` with its flee multiplier. The new aim is stored
      first; turning then needs the heading to be an angle, and the game
      object a package monster was built with is none (`ok == false`). */
  function Move(m: Monster, dx: real, dy: real, dt: real, multiplier: real, libm: Libm): (r: (Monster, bool))
    ensures r.1 <==> m.direction.Angle?
    ensures r.0.targetDirection == Angle(libm.atan2(dy, dx))
    ensures !r.1 ==> r.0 == m.(targetDirection := r.0.targetDirection)
    ensures r.1 ==>
      var p := MoveTowards(libm, PoseOf(m), dx, dy, dt, m.Stats().speed * multiplier * dt);
      r.0 == m.(x := p.x, y := p.y, direction := Angle(p.direction), targetDirection := r.0.targetDirection)
  {
    if m.direction.GameObject? then (m.(targetDirection := Angle(libm.atan2(dy, dx))), false)
    else
      var p := MoveTowards(libm, PoseOf(m), dx, dy, dt, m.Stats().speed * multiplier * dt);
      (m.(x := p.x, y := p.y, direction := Angle(p.direction), targetDirection := Angle(p.targetDirection)), true)
  }

  /** `update_fleeing`. The flee timer runs down; once it reaches zero the
      monster stops fleeing, forgets the flee point and its target, and does
      nothing else this tick. Before that it runs (at twice its speed) to the
      flee point unless it is already within 5 of it. A monster marked as
      fleeing without a flee point raises. */
  function UpdateFleeing(m: Monster, dt: real, libm: Libm): (r: (Monster, bool))
    ensures r.0.fleeTime == m.fleeTime - dt
    ensures r.0.fleeTime <= 0.0 ==>
      r.1 && r.0 == m.(fleeTime := r.0.fleeTime, isFleeing := false, fleeTarget := None, aim := NoAim)
    ensures r.0.fleeTime > 0.0 ==>
      && r.0.isFleeing == m.isFleeing && r.0.aim == m.aim && r.0.fleeTarget == m.fleeTarget
      && r.0.currentHealth == m.currentHealth && r.0.projectiles == m.projectiles
    ensures r.0.fleeTime > 0.0 && m.fleeTarget.None? ==> !r.1
    ensures r.0.fleeTime > 0.0 && m.fleeTarget.Some?
              && SqDist(m.fleeTarget.value.0, m.fleeTarget.value.1, m.x, m.y) <= NEAR_SQ ==>
      r.1 && r.0 == m.(fleeTime := r.0.fleeTime)
  {
    var t := m.fleeTime - dt;
    if t <= 0.0 then (m.(fleeTime := t, isFleeing := false, fleeTarget := None, aim := NoAim), true)
    else if m.fleeTarget.None? then (m.(fleeTime := t), false)
    else
      var (fx, fy) := m.fleeTarget.value;
      if SqDist(fx, fy, m.x, m.y) > NEAR_SQ then Move(m.(fleeTime := t), fx - m.x, fy - m.y, dt, 2.0, libm)
      else (m.(fleeTime := t), true)
  }

  /** `not current_target or (tower aim and tower not in towers)`: the
      village aim keeps `current_target` at None, so a village-aimed monster
      chooses again on every tick. */
  predicate NeedsTarget(m: Monster, towers: seq<Tower>)
  {
    !m.aim.TowerAim? || !TowerPresent(towers, m.aim.id)
  }

  function TowerDists(towers: seq<Tower>, x: real, y: real): (d: seq<real>)
    ensures |d| == |towers|
    ensures forall i :: 0 <= i < |towers| ==> d[i] == SqDist(towers[i].x, towers[i].y, x, y)
  {
    seq(|towers|, i requires 0 <= i < |towers| => SqDist(towers[i].x, towers[i].y, x, y))
  }

  function AllTrue(n: nat): (ok: seq<bool>)
    ensures |ok| == n && forall i :: 0 <= i < n ==> ok[i]
  {
    seq(n, _ => true)
  }

  function AimAt(t: Tower): Aim
  {
    TowerAim(t.id, t.x, t.y)
  }

  /** `choose_new_target`: the village when the roll falls under the
      monster's village chance, otherwise the nearest tower, falling back to
      the village when there is none. */
  function ChooseTarget(m: Monster, towers: seq<Tower>, roll: real): Aim
  {
    if roll < m.VillageChance() then VillageAim
    else match Nearest(TowerDists(towers, m.x, m.y), AllTrue(|towers|))
      case None => VillageAim
      case Some(k) => AimAt(towers[k])
  }

  /** The choice, spelled out: the village on a low roll or an empty roster,
      otherwise a tower of the roster at its own position that no other
      tower beats on distance and that is strictly nearer than every tower
      before it. */
  lemma ChooseTargetSpec(m: Monster, towers: seq<Tower>, roll: real)
    ensures roll < m.VillageChance() ==> ChooseTarget(m, towers, roll) == VillageAim
    ensures roll >= m.VillageChance() && |towers| == 0 ==> ChooseTarget(m, towers, roll) == VillageAim
    ensures roll >= m.VillageChance() && |towers| > 0 ==>
      exists k :: 0 <= k < |towers| && ChooseTarget(m, towers, roll) == AimAt(towers[k])
        && (forall i :: 0 <= i < |towers| ==>
              SqDist(towers[k].x, towers[k].y, m.x, m.y) <= SqDist(towers[i].x, towers[i].y, m.x, m.y))
        && (forall i :: 0 <= i < k ==>
              SqDist(towers[k].x, towers[k].y, m.x, m.y) < SqDist(towers[i].x, towers[i].y, m.x, m.y))
  {
    if roll >= m.VillageChance() && |towers| > 0 {
      var k := Nearest(TowerDists(towers, m.x, m.y), AllTrue(|towers|)).value;
      assert ChooseTarget(m, towers, roll) == AimAt(towers[k]);
    }
  }

  /** A chosen tower is in the roster. */
  lemma ChooseTargetPresent(m: Monster, towers: seq<Tower>, roll: real)
    ensures ChooseTarget(m, towers, roll).TowerAim? ==> TowerPresent(towers, ChooseTarget(m, towers, roll).id)
    ensures ChooseTarget(m, towers, roll) != NoAim
  {
  }

  /** `choose_new_target`'s loop: a running minimum with strict `<`. */
  method ChooseNewTarget(m: Monster, towers: seq<Tower>, roll: real) returns (aim: Aim)
    ensures aim == ChooseTarget(m, towers, roll)
  {
    if roll < m.VillageChance() {
      return VillageAim;
    }
    ghost var d := TowerDists(towers, m.x, m.y);
    ghost var ok := AllTrue(|towers|);
    var closest: Option<nat> := None;
    var closestDist := 0.0;
    for i := 0 to |towers|
      invariant closest == Nearest(d[..i], ok[..i])
      invariant closest.Some? ==> closest.value < i && closestDist == d[closest.value]
    {
      NearestStep(d, ok, i);
      var dist := SqDist(towers[i].x, towers[i].y, m.x, m.y);
      if closest.None? || dist < closestDist {
        closest := Some(i);
        closestDist := dist;
      }
    }
    assert d[..|towers|] == d && ok[..|towers|] == ok;
    aim := if closest.Some? then AimAt(towers[closest.value]) else VillageAim;
  }

  /** Melee damage over one tick: `current_damage * dt * attack_speed`. */
  function MeleeDamage(m: Monster, dt: real): real
  {
    m.currentDamage * dt * m.Stats().attackSpeed
  }

  /** `handle_attack`, given the squared distance measured before the move:
      a tower-aimed monster closer than the tower size damages its tower,
      and drops its target when that destroys it. The tower stays in the
      roster. */
  function HandleAttack(m: Monster, towers: seq<Tower>, distSq: real, dt: real): (r: (Monster, seq<Tower>))
    ensures |r.1| == |towers|
    ensures !(m.aim.TowerAim? && distSq < TowerSize(Package) * TowerSize(Package)) ==> r == (m, towers)
    ensures m.aim.TowerAim? && distSq < TowerSize(Package) * TowerSize(Package) && TowerPresent(towers, m.aim.id) ==>
      var k := TowerIndex(towers, m.aim.id).value;
      var (t, destroyed) := DamageTower(towers[k], MeleeDamage(m, dt));
      && r.1 == towers[k := t]
      && r.0 == (if destroyed then m.(aim := NoAim) else m)
  {
    if m.aim.TowerAim? && distSq < TowerSize(Package) * TowerSize(Package) then
      match TowerIndex(towers, m.aim.id)
      case None => (m, towers)
      case Some(k) =>
        var (t, destroyed) := DamageTower(towers[k], MeleeDamage(m, dt));
        (if destroyed then m.(aim := NoAim) else m, towers[k := t])
    else (m, towers)
  }

  /** Where the monster is heading: its tower, or the village. */
  function Destination(m: Monster, villageX: real, villageY: real): Point
  {
    if m.aim.TowerAim? then (m.aim.x, m.aim.y) else (villageX, villageY)
  }

  /** The retargeting step shared by both builds. */
  function Retarget(m: Monster, towers: seq<Tower>, roll: real): (r: Monster)
    ensures r == m.(aim := r.aim)
    ensures r.aim != NoAim && (r.aim.TowerAim? ==> TowerPresent(towers, r.aim.id))
    ensures !NeedsTarget(m, towers) ==> r == m
  {
    ChooseTargetPresent(m, towers, roll);
    if NeedsTarget(m, towers) then m.(aim := ChooseTarget(m, towers, roll)) else m
  }

  /** Moving to the destination unless within 5 of it. */
  function Approach(m: Monster, dest: Point, dt: real, libm: Libm): (r: (Monster, bool))
  {
    if SqDist(dest.0, dest.1, m.x, m.y) > NEAR_SQ then Move(m, dest.0 - m.x, dest.1 - m.y, dt, 1.0, libm)
    else (m, true)
  }

  /** `update_normal_behavior`: retarget if needed, approach, then
      `handle_attack` with the distance measured before moving. */
  function NormalBehavior(m: Monster, towers: seq<Tower>, villageX: real, villageY: real,
                          dt: real, roll: real, libm: Libm): (Monster, seq<Tower>, bool)
  {
    var m1 := Retarget(m, towers, roll);
    var dest := Destination(m1, villageX, villageY);
    var (m2, ok) := Approach(m1, dest, dt, libm);
    if !ok then (m2, towers, false)
    else
      var (m3, towers') := HandleAttack(m2, towers, SqDist(dest.0, dest.1, m1.x, m1.y), dt);
      (m3, towers', true)
  }

  /** `Monster.update` of the package: a fleeing monster only flees; a
      frightened one starts fleeing (a no-op unless it aims at a tower) and
      does nothing else; any other behaves normally. */
  function Step(m: Monster, towers: seq<Tower>, villageX: real, villageY: real, dt: real,
                light: Option<Point>, lightActive: bool, lightPower: real,
                fearRoll: real, targetRoll: real, libm: Libm): (Monster, seq<Tower>, bool)
  {
    if m.isFleeing then
      var (m', ok) := UpdateFleeing(m, dt, libm);
      (m', towers, ok)
    else if Frightened(m, light, lightActive, lightPower, fearRoll) then
      (StartFleeing(m, Package), towers, true)
    else NormalBehavior(m, towers, villageX, villageY, dt, targetRoll, libm)
  }

  /** `update_normal_behavior`, with the loop of `choose_new_target`. */
  method UpdateNormalBehavior(m: Monster, towers: seq<Tower>, villageX: real, villageY: real,
                              dt: real, roll: real, libm: Libm)
    returns (m': Monster, towers': seq<Tower>, ok: bool)
    ensures (m', towers', ok) == NormalBehavior(m, towers, villageX, villageY, dt, roll, libm)
  {
    m' := m;
    if NeedsTarget(m, towers) {
      var aim := ChooseNewTarget(m, towers, roll);
      m' := m.(aim := aim);
    }
    assert m' == Retarget(m, towers, roll);
    var dest := Destination(m', villageX, villageY);
    var distSq := SqDist(dest.0, dest.1, m'.x, m'.y);
    var m2;
    var moved := Approach(m', dest, dt, libm);
    m2, ok := moved.0, moved.1;
    if !ok {
      return m2, towers, false;
    }
    var attacked := HandleAttack(m2, towers, distSq, dt);
    m', towers' := attacked.0, attacked.1;
  }

  /** `Monster.update` of the package. */
  method Update(m: Monster, towers: seq<Tower>, villageX: real, villageY: real, dt: real,
                light: Option<Point>, lightActive: bool, lightPower: real,
                fearRoll: real, targetRoll: real, libm: Libm)
    returns (m': Monster, towers': seq<Tower>, ok: bool)
    ensures (m', towers', ok)
      == Step(m, towers, villageX, villageY, dt, light, lightActive, lightPower, fearRoll, targetRoll, libm)
  {
    if m.isFleeing {
      var fled := UpdateFleeing(m, dt, libm);
      m', ok := fled.0, fled.1;
      return m', towers, ok;
    }
    if Frightened(m, light, lightActive, lightPower, fearRoll) {
      return StartFleeing(m, Package), towers, true;
    }
    m', towers', ok := UpdateNormalBehavior(m, towers, villageX, villageY, dt, targetRoll, libm);
  }

  /** `t'` is `t` but for its health and dead flag. */
  predicate SameTower(t: Tower, t': Tower)
  {
    && t'.id == t.id && t'.kind == t.kind && t'.x == t.x && t'.y == t.y
    && t'.attackCooldown == t.attackCooldown && t'.target == t.target
    && t'.projectiles == t.projectiles && t'.isFiring == t.isFiring
  }

  /** Two tower rosters that differ only in health and dead flags. */
  predicate SameTowers(ts: seq<Tower>, ts': seq<Tower>)
  {
    && |ts'| == |ts|
    && forall k :: 0 <= k < |ts| ==> SameTower(ts[k], ts'[k])
  }

  lemma {:induction false} TowerIndexSameTowers(ts: seq<Tower>, ts': seq<Tower>, id: nat)
    requires SameTowers(ts, ts')
    ensures TowerIndex(ts', id) == TowerIndex(ts, id)
    decreases |ts|
  {
    if |ts| > 0 && ts[0].id != id {
      assert SameTowers(ts[1..], ts'[1..]) by {
        forall k | 0 <= k < |ts| - 1
          ensures SameTower(ts[1..][k], ts'[1..][k])
        {
          assert SameTower(ts[k + 1], ts'[k + 1]);
        }
      }
      TowerIndexSameTowers(ts[1..], ts'[1..], id);
    }
  }

  /** What the package update does to the world around the monster. It
      never removes a tower, moves one or changes anything of a tower but its
      health; only the tower the monster ends up aimed at (or was aimed at
      before destroying it) can be damaged. A calm monster stays calm, and
      when it ends the tick aimed at a tower, that tower is in the roster. */
  lemma StepKeepsWorld(m: Monster, towers: seq<Tower>, villageX: real, villageY: real, dt: real,
                       light: Option<Point>, lightActive: bool, lightPower: real,
                       fearRoll: real, targetRoll: real, libm: Libm)
    requires Calm(m)
    ensures var (m', towers', ok) := Step(m, towers, villageX, villageY, dt, light, lightActive, lightPower, fearRoll, targetRoll, libm);
      && SameTowers(towers, towers')
      && Calm(m') && m'.id == m.id
      && (m'.aim.TowerAim? ==> TowerPresent(towers', m'.aim.id))
      && (forall k :: 0 <= k < |towers| && towers'[k] != towers[k] ==>
            !m.isFleeing && m'.isFleeing == false && (m'.aim.TowerAim? ==> m'.aim.id == towers[k].id))
  {
    if !m.isFleeing && !Frightened(m, light, lightActive, lightPower, fearRoll) {
      NormalKeepsWorld(m, towers, villageX, villageY, dt, targetRoll, libm);
    }
  }

  /** The normal behaviour keeps the monster calm and out of flight, and
      only damages the tower it ends up aimed at, which is in the roster. */
  lemma NormalKeepsWorld(m: Monster, towers: seq<Tower>, villageX: real, villageY: real, dt: real,
                         roll: real, libm: Libm)
    requires !m.isFleeing
    ensures var (m', towers', ok) := NormalBehavior(m, towers, villageX, villageY, dt, roll, libm);
      && SameTowers(towers, towers')
      && !m'.isFleeing && m'.id == m.id
      && (m'.aim.TowerAim? ==> TowerPresent(towers', m'.aim.id))
      && (forall k :: 0 <= k < |towers| && towers'[k] != towers[k] ==>
            m'.aim.TowerAim? ==> m'.aim.id == towers[k].id)
  {
    var m1 := Retarget(m, towers, roll);
    var dest := Destination(m1, villageX, villageY);
    var (m2, ok2) := Approach(m1, dest, dt, libm);
    ApproachKeeps(m1, dest, dt, libm);
    if ok2 {
      HandleAttackKeeps(m2, towers, SqDist(dest.0, dest.1, m1.x, m1.y), dt);
    }
  }

  /** A moving monster keeps its aim, identity and flight. */
  lemma ApproachKeeps(m: Monster, dest: Point, dt: real, libm: Libm)
    ensures var r := Approach(m, dest, dt, libm).0;
      r.aim == m.aim && r.id == m.id && r.isFleeing == m.isFleeing
  {
  }

  /** `handle_attack` only damages the tower the monster aims at, keeps the
      monster's identity and flight, and leaves any tower aim on a tower of
      the roster. */
  lemma HandleAttackKeeps(m: Monster, towers: seq<Tower>, distSq: real, dt: real)
    requires m.aim.TowerAim? ==> TowerPresent(towers, m.aim.id)
    ensures var r := HandleAttack(m, towers, distSq, dt);
      && SameTowers(towers, r.1)
      && r.0.id == m.id && r.0.isFleeing == m.isFleeing
      && (r.0.aim.TowerAim? ==> r.0.aim == m.aim && TowerPresent(r.1, r.0.aim.id))
      && (forall k :: 0 <= k < |towers| && r.1[k] != towers[k] ==> r.0.aim.TowerAim? ==> r.0.aim.id == towers[k].id)
  {
    var r := HandleAttack(m, towers, distSq, dt);
    if r.1 != towers {
      var k := TowerIndex(towers, m.aim.id).value;
      assert SameTowers(towers, r.1);
      TowerIndexSameTowers(towers, r.1, m.aim.id);
    }
  }

  /** A package monster built with the game object as its heading raises on
      its first move: whenever the normal behaviour has more than 5 to cover,
      the update fails. */
  lemma GameObjectHeadingRaises(m: Monster, towers: seq<Tower>, villageX: real, villageY: real, dt: real, roll: real, libm: Libm)
    requires m.direction == GameObject
    requires var m1 := Retarget(m, towers, roll);
      var dest := Destination(m1, villageX, villageY);
      SqDist(dest.0, dest.1, m1.x, m1.y) > NEAR_SQ
    ensures !NormalBehavior(m, towers, villageX, villageY, dt, roll, libm).2
  {
  }

  // ---------------------------------------------------------------------
  // The single-file build (main.py `Monster.update`)
  // ---------------------------------------------------------------------

  /** main.py's flee branch. The result's third component says whether the
      update goes on: when the flee timer runs out the monster stops
      fleeing and carries on to the light check and normal behaviour in the
      same tick; otherwise it runs straight at the flee point at twice its
      speed (turning its heading as it goes) and the update ends. */
  function FleeMonolith(m: Monster, dt: real, libm: Libm): (r: (Monster, bool, bool))
    requires libm.SqrtPositive()
    ensures r.0.fleeTime == m.fleeTime - dt
    ensures r.2 <==> r.0.fleeTime <= 0.0
    ensures r.2 ==> r.1 && r.0 == m.(fleeTime := r.0.fleeTime, isFleeing := false, fleeTarget := None, aim := NoAim)
    ensures !r.2 ==> r.0.aim == m.aim && r.0.isFleeing == m.isFleeing && r.0.fleeTarget == m.fleeTarget
  {
    var t := m.fleeTime - dt;
    if t <= 0.0 then (m.(fleeTime := t, isFleeing := false, fleeTarget := None, aim := NoAim), true, true)
    else if m.fleeTarget.None? then (m.(fleeTime := t), false, false)
    else
      var (fx, fy) := m.fleeTarget.value;
      var dx := fx - m.x;
      var dy := fy - m.y;
      if SqDist(fx, fy, m.x, m.y) <= NEAR_SQ then (m.(fleeTime := t), true, false)
      else if m.direction.GameObject? then (m.(fleeTime := t, targetDirection := Angle(libm.atan2(dy, dx))), false, false)
      else
        var p := FleeStraight(libm, PoseOf(m), dx, dy, dt, m.Stats().speed * 2.0);
        (m.(fleeTime := t, x := p.x, y := p.y, direction := Angle(p.direction), targetDirection := Angle(p.targetDirection)),
         true, false)
  }

  /** Removing the tower at position `k`. */
  function RemoveAt(ts: seq<Tower>, k: nat): (r: seq<Tower>)
    requires k < |ts|
    ensures |r| == |ts| - 1
    ensures forall i :: 0 <= i < k ==> r[i] == ts[i]
    ensures forall i :: k <= i < |r| ==> r[i] == ts[i + 1]
  {
    ts[..k] + ts[k + 1..]
  }

  function TowerTarget(p: Projectile, towers: seq<Tower>): (r: Option<nat>)
    ensures r.Some? ==> r.value < |towers|
  {
    if p.target.TowerRef? then TowerIndex(towers, p.target.id) else None
  }

  /** One monster projectile's turn (main.py): it is dropped when its tower
      has left the roster; it advances against its tower; on arrival it
      deals the monster's current damage (not its own payload) and is
      dropped; a tower destroyed that way leaves the roster, and the monster
      forgets it if it was its target. */
  function ShotOne(p: Projectile, m: Monster, towers: seq<Tower>, dt: real): (r: (Option<Projectile>, Monster, seq<Tower>))
    ensures r.1 == m.(aim := r.1.aim)
    ensures r.1.aim == m.aim || (r.1.aim == NoAim && m.aim.TowerAim? && p.target == TowerRef(m.aim.id))
    ensures TowerTarget(p, towers).None? ==> r == (None, m, towers)
    ensures TowerTarget(p, towers).Some? ==>
      var k := TowerTarget(p, towers).value;
      var (q, arrived) := Advance(p, dt, towers[k].x, towers[k].y);
      var (t, destroyed) := DamageTower(towers[k], m.currentDamage);
      && (!arrived ==> r == (Some(q), m, towers))
      && (arrived && !destroyed ==> r == (None, m, towers[k := t]))
      && (arrived && destroyed ==> r.0 == None && r.2 == RemoveAt(towers, k))
  {
    match TowerTarget(p, towers)
    case None => (None, m, towers)
    case Some(k) =>
      var (q, arrived) := Advance(p, dt, towers[k].x, towers[k].y);
      if !arrived then (Some(q), m, towers)
      else
        var (t, destroyed) := DamageTower(towers[k], m.currentDamage);
        if destroyed then
          (None, if m.aim.TowerAim? && m.aim.id == towers[k].id then m.(aim := NoAim) else m, RemoveAt(towers, k))
        else (None, m, towers[k := t])
  }

  /** The whole pass over the monster's projectiles, in list order. */
  function Shots(ps: seq<Projectile>, m: Monster, towers: seq<Tower>, dt: real): (seq<Projectile>, Monster, seq<Tower>)
    decreases |ps|
  {
    if |ps| == 0 then ([], m, towers)
    else
      var n := |ps| - 1;
      var (kept, m1, towers1) := Shots(ps[..n], m, towers, dt);
      var (q, m2, towers2) := ShotOne(ps[n], m1, towers1, dt);
      (kept + (if q.Some? then [q.value] else []), m2, towers2)
  }

  lemma ShotsStep(ps: seq<Projectile>, m: Monster, towers: seq<Tower>, dt: real, i: nat)
    requires i < |ps|
    ensures var (kept, m1, towers1) := Shots(ps[..i], m, towers, dt);
      var (q, m2, towers2) := ShotOne(ps[i], m1, towers1, dt);
      Shots(ps[..i + 1], m, towers, dt) == (kept + (if q.Some? then [q.value] else []), m2, towers2)
  {
    assert ps[..i + 1][..i] == ps[..i];
  }

  /** main.py's loop over `self.projectiles[:]`. */
  method UpdateShots(m: Monster, towers: seq<Tower>, dt: real) returns (m': Monster, towers': seq<Tower>)
    ensures var (kept, m1, towers1) := Shots(m.projectiles, m, towers, dt);
      m' == m1.(projectiles := kept) && towers' == towers1
  {
    var ps := m.projectiles;
    var kept: seq<Projectile> := [];
    m' := m;
    towers' := towers;
    for i := 0 to |ps|
      invariant (kept, m', towers') == Shots(ps[..i], m, towers, dt)
    {
      ShotsStep(ps, m, towers, dt, i);
      ghost var step := ShotOne(ps[i], m', towers', dt);
      ghost var before := kept;
      var p := ps[i];
      var k := if p.target.TowerRef? then TowerIndex(towers', p.target.id) else None;
      assert k == TowerTarget(p, towers');
      if k.Some? {
        var tower := towers'[k.value];
        var (q, arrived) := Advance(p, dt, tower.x, tower.y);
        if arrived {
          var (hit, destroyed) := DamageTower(tower, m'.currentDamage);
          if destroyed {
            assert step.0 == None && step.2 == RemoveAt(towers', k.value);
            towers' := towers'[..k.value] + towers'[k.value + 1..];
            if m'.aim.TowerAim? && m'.aim.id == tower.id {
              m' := m'.(aim := NoAim);
            }
          } else {
            assert step == (None, m', towers'[k.value := hit]);
            towers' := towers'[k.value := hit];
          }
        } else {
          assert step == (Some(q), m', towers');
          kept := kept + [q];
        }
      }
      assert kept == before + (if step.0.Some? then [step.0.value] else []);
      assert m' == step.1;
      assert towers' == step.2;
    }
    assert ps[..|ps|] == ps;
    m' := m'.(projectiles := kept);
  }

  /** Every tower of `ts'` is a tower of `ts` with its identity, kind and
      position: towers are only damaged or
      removed. */
  predicate Survivors(ts: seq<Tower>, ts': seq<Tower>)
  {
    forall j :: 0 <= j < |ts'| ==> SurvivorOf(ts, ts'[j])
  }

  /** `t` is a tower of `ts`, perhaps damaged. */
  predicate SurvivorOf(ts: seq<Tower>, t: Tower)
  {
    exists i :: 0 <= i < |ts| && SameTower(ts[i], t)
  }

  lemma SurvivorsReflexive(ts: seq<Tower>)
    ensures Survivors(ts, ts)
  {
    forall j | 0 <= j < |ts|
      ensures SurvivorOf(ts, ts[j])
    {
      var i := j;
      assert 0 <= i < |ts| && SameTower(ts[i], ts[j]);
    }
  }

  /** The pass keeps the roster's ids distinct, only damages or removes
      towers, keeps the monster but for its aim, and leaves a monster aimed
      at a tower of the roster aimed at one: it forgets a tower exactly when
      one of its projectiles destroys it. */
  lemma {:induction false} ShotsKeepAim(ps: seq<Projectile>, m: Monster, towers: seq<Tower>, dt: real)
    requires UniqueTowerIds(towers)
    requires m.aim.TowerAim? ==> TowerPresent(towers, m.aim.id)
    ensures var (kept, m', towers') := Shots(ps, m, towers, dt);
      && UniqueTowerIds(towers')
      && Survivors(towers, towers')
      && m' == m.(aim := m'.aim)
      && (m'.aim == m.aim || m'.aim == NoAim)
      && (m'.aim.TowerAim? ==> TowerPresent(towers', m'.aim.id))
    decreases |ps|
  {
    if |ps| > 0 {
      var n := |ps| - 1;
      ShotsKeepAim(ps[..n], m, towers, dt);
      var (kept, m1, towers1) := Shots(ps[..n], m, towers, dt);
      ShotOneKeepsAim(ps[n], m1, towers1, dt);
      var towers2 := ShotOne(ps[n], m1, towers1, dt).2;
      forall j | 0 <= j < |towers2|
        ensures SurvivorOf(towers, towers2[j])
      {
        assert SurvivorOf(towers1, towers2[j]);
        var i1 :| 0 <= i1 < |towers1| && SameTower(towers1[i1], towers2[j]);
        assert SurvivorOf(towers, towers1[i1]);
        var i0 :| 0 <= i0 < |towers| && SameTower(towers[i0], towers1[i1]);
        assert SameTower(towers[i0], towers2[j]);
      }
    } else {
      SurvivorsReflexive(towers);
    }
  }

  /** Taking a tower out keeps the others, their ids distinct, and every
      other id present. */
  lemma RemoveAtKeeps(ts: seq<Tower>, k: nat, id: nat)
    requires k < |ts| && UniqueTowerIds(ts)
    ensures Survivors(ts, RemoveAt(ts, k)) && UniqueTowerIds(RemoveAt(ts, k))
    ensures TowerPresent(ts, id) && id != ts[k].id ==> TowerPresent(RemoveAt(ts, k), id)
  {
    var r := RemoveAt(ts, k);
    forall j | 0 <= j < |r|
      ensures SurvivorOf(ts, r[j])
    {
      var i := if j < k then j else j + 1;
      assert SameTower(ts[i], r[j]);
    }
    if TowerPresent(ts, id) && id != ts[k].id {
      var a := TowerIndex(ts, id).value;
      var b := if a < k then a else a - 1;
      assert r[b].id == id;
    }
  }

  /** Replacing a tower by a damaged version of itself keeps the roster. */
  lemma UpdateAtKeeps(ts: seq<Tower>, k: nat, t: Tower, id: nat)
    requires k < |ts| && UniqueTowerIds(ts) && SameTower(ts[k], t)
    ensures Survivors(ts, ts[k := t]) && UniqueTowerIds(ts[k := t])
    ensures TowerPresent(ts, id) ==> TowerPresent(ts[k := t], id)
  {
    var r := ts[k := t];
    forall j | 0 <= j < |r|
      ensures SurvivorOf(ts, r[j])
    {
      assert SameTower(ts[j], r[j]);
    }
    if TowerPresent(ts, id) {
      var a := TowerIndex(ts, id).value;
      assert r[a].id == id;
    }
  }

  lemma ShotOneKeepsAim(p: Projectile, m: Monster, towers: seq<Tower>, dt: real)
    requires UniqueTowerIds(towers)
    requires m.aim.TowerAim? ==> TowerPresent(towers, m.aim.id)
    ensures var (q, m', towers') := ShotOne(p, m, towers, dt);
      && UniqueTowerIds(towers')
      && Survivors(towers, towers')
      && (m'.aim.TowerAim? ==> TowerPresent(towers', m'.aim.id))
  {
    var (q, m', towers') := ShotOne(p, m, towers, dt);
    var id := if m.aim.TowerAim? then m.aim.id else 0;
    match TowerTarget(p, towers)
    case None =>
      SurvivorsReflexive(towers);
    case Some(k) =>
      var (_, arrived) := Advance(p, dt, towers[k].x, towers[k].y);
      var (t, destroyed) := DamageTower(towers[k], m.currentDamage);
      if !arrived {
        SurvivorsReflexive(towers);
      } else if destroyed {
        RemoveAtKeeps(towers, k, id);
      } else {
        UpdateAtKeeps(towers, k, t, id);
      }
  }

  /** main.py's ranged attack. Only a shooter (Moray, Dragon) aimed at a
      tower takes part; while cooling down it only counts down; ready, it
      fires one projectile at its tower, with its current damage and its
      projectile speed, iff the tower is at least twice the tower size away
      and within its attack range, and then restarts the cooldown. */
  function RangedAttack(m: Monster, dt: real, libm: Libm): (r: Monster)
    requires libm.SqrtPositive()
    ensures r == m.(projectiles := r.projectiles, attackCooldown := r.attackCooldown)
    ensures !(m.CanShoot() && m.aim.TowerAim?) ==> r == m
    ensures m.CanShoot() && m.aim.TowerAim? && m.attackCooldown > 0.0 ==>
      r == m.(attackCooldown := m.attackCooldown - dt)
    ensures m.CanShoot() && m.aim.TowerAim? && m.attackCooldown <= 0.0 ==>
      var d := SqDist(m.aim.x, m.aim.y, m.x, m.y);
      var reach := m.Stats().ranged.value.attackRange;
      var lo := 2.0 * TowerSize(Monolith);
      if lo * lo <= d <= reach * reach then
        && r == m.(projectiles := r.projectiles, attackCooldown := 1.0 / m.Stats().attackSpeed)
        && |r.projectiles| == |m.projectiles| + 1 && r.projectiles[..|m.projectiles|] == m.projectiles
        && var p := r.projectiles[|m.projectiles|];
           p.target == TowerRef(m.aim.id) && p.x == m.x && p.y == m.y && !p.reached
           && p.damage == m.currentDamage && p.speed == m.Stats().ranged.value.projectileSpeed
      else r == m
  {
    if !(m.CanShoot() && m.aim.TowerAim?) then m
    else if m.attackCooldown > 0.0 then m.(attackCooldown := m.attackCooldown - dt)
    else
      var d := SqDist(m.aim.x, m.aim.y, m.x, m.y);
      var ranged := m.Stats().ranged.value;
      var lo := 2.0 * TowerSize(Monolith);
      if lo * lo <= d <= ranged.attackRange * ranged.attackRange then
        var p := Launch(m.x, m.y, TowerRef(m.aim.id), m.aim.x, m.aim.y, m.currentDamage, ranged.projectileSpeed, libm);
        m.(projectiles := m.projectiles + [p], attackCooldown := 1.0 / m.Stats().attackSpeed)
      else m
  }

  /** main.py's normal behaviour: retarget, approach, the monster's
      projectiles, then the ranged attack with the distance after moving.
      There is no melee here: the game's tick applies it. */
  function NormalMonolith(m: Monster, towers: seq<Tower>, villageX: real, villageY: real,
                          dt: real, roll: real, libm: Libm): (Monster, seq<Tower>, bool)
    requires libm.SqrtPositive()
  {
    var m1 := Retarget(m, towers, roll);
    var (m2, ok) := Approach(m1, Destination(m1, villageX, villageY), dt, libm);
    if !ok then (m2, towers, false)
    else
      var (kept, m3, towers3) := Shots(m2.projectiles, m2, towers, dt);
      (RangedAttack(m3.(projectiles := kept), dt, libm), towers3, true)
  }

  /** main.py `Monster.update`. */
  function StepMonolith(m: Monster, towers: seq<Tower>, villageX: real, villageY: real, dt: real,
                        light: Option<Point>, lightActive: bool, lightPower: real,
                        fearRoll: real, targetRoll: real, libm: Libm): (Monster, seq<Tower>, bool)
    requires libm.SqrtPositive()
  {
    var (m1, ok, goOn) := if m.isFleeing then FleeMonolith(m, dt, libm) else (m, true, true);
    if !goOn then (m1, towers, ok)
    else if Frightened(m1, light, lightActive, lightPower, fearRoll) then
      (StartFleeing(m1, Monolith), towers, true)
    else NormalMonolith(m1, towers, villageX, villageY, dt, targetRoll, libm)
  }

  /** main.py's normal behaviour, with its loops. */
  method UpdateNormalMonolith(m: Monster, towers: seq<Tower>, villageX: real, villageY: real,
                              dt: real, roll: real, libm: Libm)
    returns (m': Monster, towers': seq<Tower>, ok: bool)
    requires libm.SqrtPositive()
    ensures (m', towers', ok) == NormalMonolith(m, towers, villageX, villageY, dt, roll, libm)
  {
    m' := m;
    if NeedsTarget(m, towers) {
      var aim := ChooseNewTarget(m, towers, roll);
      m' := m.(aim := aim);
    }
    assert m' == Retarget(m, towers, roll);
    var moved := Approach(m', Destination(m', villageX, villageY), dt, libm);
    m', ok := moved.0, moved.1;
    if !ok {
      return m', towers, false;
    }
    m', towers' := UpdateShots(m', towers, dt);
    m' := RangedAttack(m', dt, libm);
  }

  /** main.py `Monster.update`, with its loops. */
  method UpdateMonolith(m: Monster, towers: seq<Tower>, villageX: real, villageY: real, dt: real,
                        light: Option<Point>, lightActive: bool, lightPower: real,
                        fearRoll: real, targetRoll: real, libm: Libm)
    returns (m': Monster, towers': seq<Tower>, ok: bool)
    requires libm.SqrtPositive()
    ensures (m', towers', ok)
      == StepMonolith(m, towers, villageX, villageY, dt, light, lightActive, lightPower, fearRoll, targetRoll, libm)
  {
    m' := m;
    if m.isFleeing {
      var fled := FleeMonolith(m, dt, libm);
      m', ok := fled.0, fled.1;
      if !fled.2 {
        return m', towers, ok;
      }
    }
    if Frightened(m', light, lightActive, lightPower, fearRoll) {
      return StartFleeing(m', Monolith), towers, true;
    }
    m', towers', ok := UpdateNormalMonolith(m', towers, villageX, villageY, dt, targetRoll, libm);
  }

  /** The normal behaviour of the single-file build, for a monster that is
      not fleeing: it does not start fleeing, towers are only damaged or
      removed, and a tower aim afterwards names a tower of the roster. */
  lemma NormalMonolithKeepsWorld(m: Monster, towers: seq<Tower>, villageX: real, villageY: real,
                                 dt: real, roll: real, libm: Libm)
    requires libm.SqrtPositive() && !m.isFleeing && UniqueTowerIds(towers)
    ensures var (m', towers', ok) := NormalMonolith(m, towers, villageX, villageY, dt, roll, libm);
      && !m'.isFleeing && m'.id == m.id
      && UniqueTowerIds(towers')
      && Survivors(towers, towers')
      && (m'.aim.TowerAim? ==> TowerPresent(towers', m'.aim.id))
  {
    SurvivorsReflexive(towers);
    var m1 := Retarget(m, towers, roll);
    var (m2, ok) := Approach(m1, Destination(m1, villageX, villageY), dt, libm);
    if ok {
      assert m2.aim == m1.aim && !m2.isFleeing;
      ShotsKeepAim(m2.projectiles, m2, towers, dt);
      var (kept, m3, towers3) := Shots(m2.projectiles, m2, towers, dt);
      var m4 := RangedAttack(m3.(projectiles := kept), dt, libm);
      assert NormalMonolith(m, towers, villageX, villageY, dt, roll, libm) == (m4, towers3, true);
      assert m4.aim == m3.aim && m4.isFleeing == m3.isFleeing;
    }
  }

  /** What the single-file update does to the world around the monster: a
      calm monster stays calm; towers are only damaged or removed and the
      roster's ids stay distinct; a monster ending the tick aimed at a tower
      is aimed at a tower of the roster. */
  lemma StepMonolithKeepsWorld(m: Monster, towers: seq<Tower>, villageX: real, villageY: real, dt: real,
                               light: Option<Point>, lightActive: bool, lightPower: real,
                               fearRoll: real, targetRoll: real, libm: Libm)
    requires libm.SqrtPositive() && Calm(m) && UniqueTowerIds(towers)
    ensures var (m', towers', ok) := StepMonolith(m, towers, villageX, villageY, dt, light, lightActive, lightPower, fearRoll, targetRoll, libm);
      && Calm(m') && m'.id == m.id
      && UniqueTowerIds(towers')
      && Survivors(towers, towers')
      && (m'.aim.TowerAim? ==> TowerPresent(towers', m'.aim.id))
  {
    var fled := if m.isFleeing then FleeMonolith(m, dt, libm) else (m, true, true);
    var m1 := fled.0;
    SurvivorsReflexive(towers);
    if !fled.2 {
      assert StepMonolith(m, towers, villageX, villageY, dt, light, lightActive, lightPower, fearRoll, targetRoll, libm)
        == (m1, towers, fled.1);
    } else if Frightened(m1, light, lightActive, lightPower, fearRoll) {
      assert StepMonolith(m, towers, villageX, villageY, dt, light, lightActive, lightPower, fearRoll, targetRoll, libm)
        == (StartFleeing(m1, Monolith), towers, true);
    } else {
      assert StepMonolith(m, towers, villageX, villageY, dt, light, lightActive, lightPower, fearRoll, targetRoll, libm)
        == NormalMonolith(m1, towers, villageX, villageY, dt, targetRoll, libm);
      NormalMonolithKeepsWorld(m1, towers, villageX, villageY, dt, targetRoll, libm);
    }
  }

  // ---------------------------------------------------------------------
  // Queries and the Kamikaze splash
  // ---------------------------------------------------------------------

  /** `is_visible`: within sight of the village, or inside some tower's
      vision range. */
  method IsVisible(m: Monster, villageX: real, villageY: real, towers: seq<Tower>) returns (visible: bool)
    ensures visible <==>
      || SqDist(m.x, m.y, villageX, villageY) <= MAX_VISIBILITY_RANGE * MAX_VISIBILITY_RANGE
      || exists i :: 0 <= i < |towers| &&
           SqDist(m.x, m.y, towers[i].x, towers[i].y) <= towers[i].Stats().visionRange * towers[i].Stats().visionRange
  {
    if SqDist(m.x, m.y, villageX, villageY) <= MAX_VISIBILITY_RANGE * MAX_VISIBILITY_RANGE {
      return true;
    }
    for i := 0 to |towers|
      invariant forall j :: 0 <= j < i ==>
        SqDist(m.x, m.y, towers[j].x, towers[j].y) > towers[j].Stats().visionRange * towers[j].Stats().visionRange
    {
      var vision := towers[i].Stats().visionRange;
      if SqDist(m.x, m.y, towers[i].x, towers[i].y) <= vision * vision {
        return true;
      }
    }
    return false;
  }

  /** The splash a tower takes from a Kamikaze's death, if it is in range. */
  function SplashOn(m: Monster, t: Tower, libm: Libm): Tower
  {
    var d := SqDist(t.x, t.y, m.x, m.y);
    if d <= KAMIKAZE_EXPLOSION_RANGE * KAMIKAZE_EXPLOSION_RANGE
    then DamageTower(t, Splash(m.currentDamage, libm.sqrt(d))).0
    else t
  }

  /** main.py `Monster.die`, the part on the towers: a Kamikaze damages every
      tower within the explosion range by its current damage scaled down
      linearly with the distance; towers are not removed, and other kinds
      change nothing. (The explosion it adds is the game's part.) */
  method Detonate(m: Monster, towers: seq<Tower>, libm: Libm) returns (towers': seq<Tower>)
    ensures m.kind != Kamikaze ==> towers' == towers
    ensures m.kind == Kamikaze ==>
      |towers'| == |towers| && forall i :: 0 <= i < |towers| ==> towers'[i] == SplashOn(m, towers[i], libm)
  {
    if m.kind != Kamikaze {
      return towers;
    }
    towers' := towers;
    for i := 0 to |towers|
      invariant |towers'| == |towers|
      invariant forall j :: 0 <= j < i ==> towers'[j] == SplashOn(m, towers[j], libm)
      invariant forall j :: i <= j < |towers| ==> towers'[j] == towers[j]
    {
      var d := SqDist(towers[i].x, towers[i].y, m.x, m.y);
      if d <= KAMIKAZE_EXPLOSION_RANGE * KAMIKAZE_EXPLOSION_RANGE {
        var (hit, _) := DamageTower(towers[i], Splash(m.currentDamage, libm.sqrt(d)));
        towers' := towers'[i := hit];
      }
    }
  }

  /** With a square root that maps `[0, range^2]` into `[0, range]`, a tower
      in range loses between nothing and the full current damage, the full
      damage when it stands at the centre; a tower out of range is
      untouched. */
  lemma SplashOnBounds(m: Monster, t: Tower, libm: Libm)
    requires m.currentDamage >= 0.0
    requires var d := SqDist(t.x, t.y, m.x, m.y);
      d <= KAMIKAZE_EXPLOSION_RANGE * KAMIKAZE_EXPLOSION_RANGE ==> 0.0 <= libm.sqrt(d) <= KAMIKAZE_EXPLOSION_RANGE
    requires libm.sqrt(0.0) == 0.0
    ensures SqDist(t.x, t.y, m.x, m.y) > KAMIKAZE_EXPLOSION_RANGE * KAMIKAZE_EXPLOSION_RANGE ==> SplashOn(m, t, libm) == t
    ensures SqDist(t.x, t.y, m.x, m.y) <= KAMIKAZE_EXPLOSION_RANGE * KAMIKAZE_EXPLOSION_RANGE ==>
      t.currentHealth - m.currentDamage <= SplashOn(m, t, libm).currentHealth <= t.currentHealth
    ensures t.x == m.x && t.y == m.y ==> SplashOn(m, t, libm).currentHealth == t.currentHealth - m.currentDamage
  {
    var d := SqDist(t.x, t.y, m.x, m.y);
    if d <= KAMIKAZE_EXPLOSION_RANGE * KAMIKAZE_EXPLOSION_RANGE {
      SplashBounds(m.currentDamage, libm.sqrt(d));
    }
    if t.x == m.x && t.y == m.y {
      assert d == 0.0;
      SplashBounds(m.currentDamage, 0.0);
    }
  }
}
