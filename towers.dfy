/** Tower behaviour (src/entities/tower.py): target acquisition, firing and
    the resolution of the tower's projectiles. Each operation takes the tower
    and the monster roster as values and returns their new versions; the
    game stores them back into its rosters. */
module Towers {
  import opened Common
  import opened Constants
  import opened Kinds
  import opened Combat
  import opened Targeting
  import opened Entities

  /** Squared distance from every monster of the roster to `(x, y)`. */
  function MonsterDists(ms: seq<Monster>, x: real, y: real): (d: seq<real>)
    ensures |d| == |ms|
    ensures forall i :: 0 <= i < |ms| ==> d[i] == SqDist(ms[i].x, ms[i].y, x, y)
  {
    seq(|ms|, i requires 0 <= i < |ms| => SqDist(ms[i].x, ms[i].y, x, y))
  }

  predicate InVision(t: Tower, m: Monster)
  {
    SqDist(m.x, m.y, t.x, t.y) <= t.Stats().visionRange * t.Stats().visionRange
  }

  predicate InAttackRange(t: Tower, m: Monster)
  {
    SqDist(m.x, m.y, t.x, t.y) <= t.Stats().attackRange * t.Stats().attackRange
  }

  function VisionFlags(t: Tower, ms: seq<Monster>): (ok: seq<bool>)
    ensures |ok| == |ms| && forall i :: 0 <= i < |ms| ==> (ok[i] <==> InVision(t, ms[i]))
  {
    seq(|ms|, i requires 0 <= i < |ms| => InVision(t, ms[i]))
  }

  function RangeFlags(t: Tower, ms: seq<Monster>): (ok: seq<bool>)
    ensures |ok| == |ms| && forall i :: 0 <= i < |ms| ==> (ok[i] <==> InAttackRange(t, ms[i]))
  {
    seq(|ms|, i requires 0 <= i < |ms| => InAttackRange(t, ms[i]))
  }

  /** The current target, when it is still in the roster and in vision. */
  function KeptTarget(t: Tower, ms: seq<Monster>): Option<nat>
  {
    if t.target.None? then None
    else match MonsterIndex(ms, t.target.value)
      case None => None
      case Some(k) => if InVision(t, ms[k]) then Some(k) else None
  }

  /** What `find_target` settles on, as a roster index: the kept target,
      otherwise the nearest monster in vision. */
  function Acquire(t: Tower, ms: seq<Monster>): (r: Option<nat>)
    ensures r.Some? ==> r.value < |ms|
  {
    if KeptTarget(t, ms).Some? then KeptTarget(t, ms)
    else Nearest(MonsterDists(ms, t.x, t.y), VisionFlags(t, ms))
  }

  function IdOf(ms: seq<Monster>, r: Option<nat>): Option<nat>
    requires r.Some? ==> r.value < |ms|
  {
    if r.Some? then Some(ms[r.value].id) else None
  }

  /** A target still in the roster and in vision is kept, even when another
      monster is nearer. */
  lemma AcquireKeepsValidTarget(t: Tower, ms: seq<Monster>, k: nat)
    requires k < |ms| && t.target == Some(ms[k].id) && InVision(t, ms[k])
    requires UniqueMonsterIds(ms)
    ensures Acquire(t, ms) == Some(k)
  {
    MonsterIndexUnique(ms, k);
  }

  /** Otherwise the choice is the nearest monster in vision, the earliest of
      equally near ones, and nothing when no monster is in vision. */
  lemma AcquireNearest(t: Tower, ms: seq<Monster>)
    requires KeptTarget(t, ms).None?
    ensures Acquire(t, ms).None? <==> forall i :: 0 <= i < |ms| ==> !InVision(t, ms[i])
    ensures Acquire(t, ms).Some? ==>
      var k := Acquire(t, ms).value;
      && k < |ms| && InVision(t, ms[k])
      && (forall i :: 0 <= i < |ms| && InVision(t, ms[i]) ==>
            SqDist(ms[k].x, ms[k].y, t.x, t.y) <= SqDist(ms[i].x, ms[i].y, t.x, t.y))
      && (forall i :: 0 <= i < k && InVision(t, ms[i]) ==>
            SqDist(ms[k].x, ms[k].y, t.x, t.y) < SqDist(ms[i].x, ms[i].y, t.x, t.y))
  {
  }

  /** `find_target`: keep a valid target, otherwise the running minimum over
      the roster; the result is stored as the tower's target. */
  method FindTarget(t: Tower, ms: seq<Monster>) returns (t': Tower, r: Option<nat>)
    ensures r == Acquire(t, ms)
    ensures r.Some? ==> r.value < |ms|
    ensures t' == t.(target := IdOf(ms, r))
  {
    if t.target.Some? {
      var k := MonsterIndex(ms, t.target.value);
      if k.Some? && InVision(t, ms[k.value]) {
        assert KeptTarget(t, ms) == k;
        return t, k;
      }
    }
    assert KeptTarget(t, ms).None?;
    r := NearestInVision(t, ms);
    t' := t.(target := IdOf(ms, r));
  }

  /** The running minimum of `find_target`, strict `<` so that the earliest
      of equally near monsters wins. */
  method NearestInVision(t: Tower, ms: seq<Monster>) returns (closest: Option<nat>)
    ensures closest == Nearest(MonsterDists(ms, t.x, t.y), VisionFlags(t, ms))
  {
    ghost var d := MonsterDists(ms, t.x, t.y);
    ghost var ok := VisionFlags(t, ms);
    closest := None;
    var closestDist := 0.0;
    for i := 0 to |ms|
      invariant closest == Nearest(d[..i], ok[..i])
      invariant closest.Some? ==> closest.value < i && closestDist == d[closest.value]
    {
      var dist := SqDist(ms[i].x, ms[i].y, t.x, t.y);
      var take := InVision(t, ms[i]) && (closest.None? || dist < closestDist);
      NearestLoopStep(d, ok, i, closest, closestDist);
      assert take == (ok[i] && (closest.None? || d[i] < closestDist));
      if take {
        closest := Some(i);
        closestDist := dist;
      }
    }
    assert d[..|ms|] == d && ok[..|ms|] == ok;
  }

  /** `find_targets`: a WEAK tower takes the first monsters in vision, in
      roster order, up to its `max_targets` of 3, and leaves its stored
      target alone; the other kinds take the single `find_target` result. */
  method FindTargets(t: Tower, ms: seq<Monster>) returns (t': Tower, targets: seq<Monster>)
    ensures t.kind != Weak ==> t' == t.(target := IdOf(ms, Acquire(t, ms)))
    ensures t.kind != Weak ==> targets == (if Acquire(t, ms).Some? then [ms[Acquire(t, ms).value]] else [])
    ensures t.kind == Weak ==> t' == t
    ensures t.kind == Weak ==>
      var inVision := Select(ms, VisionFlags(t, ms));
      targets == inVision[..MinNat(3, |inVision|)]
  {
    if t.kind != Weak {
      var r;
      t', r := FindTarget(t, ms);
      targets := if r.Some? then [ms[r.value]] else [];
      return;
    }
    t' := t;
    ghost var ok := VisionFlags(t, ms);
    targets := [];
    for i := 0 to |ms|
      invariant targets == FirstK(ms[..i], ok[..i], t.Stats().maxTargets)
    {
      FirstKStep(ms, ok, t.Stats().maxTargets, i);
      if InVision(t, ms[i]) && |targets| < t.Stats().maxTargets {
        targets := targets + [ms[i]];
      }
    }
    assert ms[..|ms|] == ms && ok[..|ms|] == ok;
    FirstKIsPrefix(ms, ok, 3);
  }

  /** What `find_targets` settles on: the tower, with the target it stores,
      and the targets it returns. */
  function Found(t: Tower, ms: seq<Monster>): (Tower, seq<Monster>)
  {
    if t.kind != Weak then
      var r := Acquire(t, ms);
      (t.(target := IdOf(ms, r)), if r.Some? then [ms[r.value]] else [])
    else
      var inVision := Select(ms, VisionFlags(t, ms));
      (t, inVision[..MinNat(3, |inVision|)])
  }

  /** No target stands on the tower itself: launching at a target normalises
      by the distance to it. */
  predicate ClearOfTower(t: Tower, targets: seq<Monster>)
  {
    forall i :: 0 <= i < |targets| ==> SqDist(targets[i].x, targets[i].y, t.x, t.y) > 0.0
  }

  function Shot(t: Tower, m: Monster, libm: Libm): Projectile
    requires libm.SqrtPositive() && SqDist(m.x, m.y, t.x, t.y) > 0.0
  {
    Launch(t.x, t.y, MonsterRef(m.id), m.x, m.y, t.Stats().damage, PROJECTILE_SPEED, libm)
  }

  /** The projectiles one volley adds: one per target in attack range, in
      target order. */
  function Volley(t: Tower, targets: seq<Monster>, libm: Libm): seq<Projectile>
    requires libm.SqrtPositive() && ClearOfTower(t, targets)
    decreases |targets|
  {
    if |targets| == 0 then []
    else
      var n := |targets| - 1;
      Volley(t, targets[..n], libm) + (if InAttackRange(t, targets[n]) then [Shot(t, targets[n], libm)] else [])
  }

  /** The volley is exactly the targets in attack range, each launched from
      the tower with the tower's damage at the projectile speed. */
  lemma {:induction false} VolleySpec(t: Tower, targets: seq<Monster>, libm: Libm)
    requires libm.SqrtPositive() && ClearOfTower(t, targets)
    ensures var shot := Select(targets, RangeFlags(t, targets));
      var v := Volley(t, targets, libm);
      && |v| == |shot|
      && forall j :: 0 <= j < |v| ==>
           && v[j].target == MonsterRef(shot[j].id) && v[j].damage == t.Stats().damage
           && v[j].x == t.x && v[j].y == t.y && v[j].speed == PROJECTILE_SPEED && !v[j].reached
    decreases |targets|
  {
    if |targets| > 0 {
      var n := |targets| - 1;
      VolleySpec(t, targets[..n], libm);
      assert RangeFlags(t, targets)[..n] == RangeFlags(t, targets[..n]);
      assert targets[..n][..n] == targets[..n];
      SelectStep(targets, RangeFlags(t, targets), n);
      assert targets[..n + 1] == targets && RangeFlags(t, targets)[..n + 1] == RangeFlags(t, targets);
    }
  }

  /** The volley of one more target extends the volley of the others. */
  lemma VolleySnoc(t: Tower, targets: seq<Monster>, m: Monster, libm: Libm)
    requires libm.SqrtPositive() && ClearOfTower(t, targets + [m])
    ensures ClearOfTower(t, targets) && SqDist(m.x, m.y, t.x, t.y) > 0.0
    ensures Volley(t, targets + [m], libm)
      == Volley(t, targets, libm) + (if InAttackRange(t, m) then [Shot(t, m, libm)] else [])
  {
    assert (targets + [m])[..|targets|] == targets;
    assert (targets + [m])[|targets|] == m;
    assert forall i :: 0 <= i < |targets| ==> targets[i] == (targets + [m])[i];
  }

  /** `attack`. While cooling down it only counts the cooldown down. Ready,
      it launches the volley, fires iff some target was in attack range, and
      restarts the cooldown iff the target list is non-empty, whether or not
      anything was in range. `ok` is false when a target stands on the tower
      (the launch divides by zero). */
  method Attack(t: Tower, targets: seq<Monster>, dt: real, libm: Libm) returns (t': Tower, ok: bool)
    requires libm.SqrtPositive()
    ensures ok <==> t.attackCooldown > 0.0 || ClearOfTower(t, targets)
    ensures ok && t.attackCooldown > 0.0 ==>
      t' == t.(attackCooldown := t.attackCooldown - dt, isFiring := false)
    ensures ok && t.attackCooldown <= 0.0 ==>
      && t' == t.(projectiles := t.projectiles + Volley(t, targets, libm),
                  isFiring := t'.isFiring, attackCooldown := t'.attackCooldown)
      && (t'.isFiring <==> exists i :: 0 <= i < |targets| && InAttackRange(t, targets[i]))
      && t'.attackCooldown == (if |targets| > 0 then 1.0 / t.Stats().attackSpeed else t.attackCooldown)
  {
    if t.attackCooldown > 0.0 {
      return t.(attackCooldown := t.attackCooldown - dt, isFiring := false), true;
    }
    var launched: seq<Projectile> := [];
    var firing := false;
    for i := 0 to |targets|
      invariant ClearOfTower(t, targets[..i])
      invariant launched == Volley(t, targets[..i], libm)
      invariant firing <==> exists j :: 0 <= j < i && InAttackRange(t, targets[j])
    {
      var dist := SqDist(targets[i].x, targets[i].y, t.x, t.y);
      if dist == 0.0 {
        // within any attack range: the launch divides by zero
        return t.(projectiles := t.projectiles + launched, isFiring := firing), false;
      }
      if InAttackRange(t, targets[i]) {
        launched := launched + [Shot(t, targets[i], libm)];
        firing := true;
      }
      assert targets[..i + 1] == targets[..i] + [targets[i]];
      VolleySnoc(t, targets[..i], targets[i], libm);
    }
    assert targets[..|targets|] == targets;
    var cooldown := if |targets| > 0 then 1.0 / t.Stats().attackSpeed else t.attackCooldown;
    t' := t.(projectiles := t.projectiles + launched, isFiring := firing, attackCooldown := cooldown);
    ok := true;
  }

  /** What `attack` does when it does not raise: a tower still cooling
      down counts down and stops firing; a ready one fires its volley, fires
      iff some target is in range, and restarts its cooldown iff it had
      targets. The flag is false when a target stands on the tower, where
      the launch divides by zero. */
  ghost function Fired(t: Tower, targets: seq<Monster>, dt: real, libm: Libm): (Tower, bool)
    requires libm.SqrtPositive()
  {
    if t.attackCooldown > 0.0 then (t.(attackCooldown := t.attackCooldown - dt, isFiring := false), true)
    else if !ClearOfTower(t, targets) then (t, false)
    else
      (t.(projectiles := t.projectiles + Volley(t, targets, libm),
          isFiring := exists i :: 0 <= i < |targets| && InAttackRange(t, targets[i]),
          attackCooldown := if |targets| > 0 then 1.0 / t.Stats().attackSpeed else t.attackCooldown),
       true)
  }

  /** Roster index of the monster a projectile flies at, if it is still in
      the roster. */
  function TargetIndex(p: Projectile, ms: seq<Monster>): (r: Option<nat>)
    ensures r.Some? ==> r.value < |ms|
  {
    if p.target.MonsterRef? then MonsterIndex(ms, p.target.id) else None
  }

  /** The projectile lands this tick: its target is in the roster and the
      advanced projectile is within the arrival radius of it. */
  predicate Arrives(p: Projectile, ms: seq<Monster>, dt: real)
  {
    var k := TargetIndex(p, ms);
    k.Some? && Advance(p, dt, ms[k.value].x, ms[k.value].y).1
  }

  function Advanced(p: Projectile, ms: seq<Monster>, dt: real): Projectile
  {
    var k := TargetIndex(p, ms);
    if k.Some? then Advance(p, dt, ms[k.value].x, ms[k.value].y).0 else p
  }

  /** One projectile's turn in `update_projectiles`: it advances against its
      target's current position; on arrival it hits a target that is not yet
      dead and is dropped; otherwise it is dropped iff its target is dead. A
      target no longer in the roster was swept from it as dead. */
  function ResolveOne(p: Projectile, ms: seq<Monster>, dt: real): (Option<Projectile>, seq<Monster>)
  {
    match TargetIndex(p, ms)
    case None => (None, ms)
    case Some(k) =>
      var (q, arrived) := Advance(p, dt, ms[k].x, ms[k].y);
      if arrived then (None, if ms[k].isDead then ms else ms[k := DamageMonster(ms[k], p.damage).0])
      else if ms[k].isDead then (None, ms)
      else (Some(q), ms)
  }

  /** The whole pass, projectile by projectile in list order: the projectiles
      kept and the roster after the hits. */
  function Resolve(ps: seq<Projectile>, ms: seq<Monster>, dt: real): (seq<Projectile>, seq<Monster>)
    decreases |ps|
  {
    if |ps| == 0 then ([], ms)
    else
      var n := |ps| - 1;
      var (kept, ms1) := Resolve(ps[..n], ms, dt);
      var (q, ms2) := ResolveOne(ps[n], ms1, dt);
      (kept + (if q.Some? then [q.value] else []), ms2)
  }

  lemma ResolveStep(ps: seq<Projectile>, ms: seq<Monster>, dt: real, i: nat)
    requires i < |ps|
    ensures var (kept, ms1) := Resolve(ps[..i], ms, dt);
      var (q, ms2) := ResolveOne(ps[i], ms1, dt);
      Resolve(ps[..i + 1], ms, dt) == (kept + (if q.Some? then [q.value] else []), ms2)
  {
    assert ps[..i + 1][..i] == ps[..i];
  }

  /** `update_projectiles`, iterating over the list as it was and building
      the list of projectiles still in flight. */
  method UpdateProjectiles(t: Tower, ms: seq<Monster>, dt: real) returns (t': Tower, ms': seq<Monster>)
    ensures t' == t.(projectiles := Resolve(t.projectiles, ms, dt).0)
    ensures ms' == Resolve(t.projectiles, ms, dt).1
  {
    var ps := t.projectiles;
    var kept: seq<Projectile> := [];
    ms' := ms;
    for i := 0 to |ps|
      invariant (kept, ms') == Resolve(ps[..i], ms, dt)
    {
      ResolveStep(ps, ms, dt, i);
      ghost var step := ResolveOne(ps[i], ms', dt);
      ghost var before := kept;
      var p := ps[i];
      var k := if p.target.MonsterRef? then MonsterIndex(ms', p.target.id) else None;
      assert k == TargetIndex(p, ms');
      if k.Some? {
        var target := ms'[k.value];
        var (q, arrived) := Advance(p, dt, target.x, target.y);
        if arrived {
          if !target.isDead {
            var (hit, _) := DamageMonster(target, p.damage);
            ms' := ms'[k.value := hit];
          }
        } else if !target.isDead {
          kept := kept + [q];
        }
      }
      assert ms' == step.1;
      assert kept == before + (if step.0.Some? then [step.0.value] else []);
    }
    assert ps[..|ps|] == ps;
    t' := t.(projectiles := kept);
  }

  /** Two rosters that differ only in health and dead flags. */
  predicate SameBodies(ms: seq<Monster>, ms': seq<Monster>)
  {
    && |ms'| == |ms|
    && forall k :: 0 <= k < |ms| ==>
         ms'[k] == ms[k].(currentHealth := ms'[k].currentHealth, isDead := ms'[k].isDead)
  }

  lemma {:induction false} MonsterIndexSameBodies(ms: seq<Monster>, ms': seq<Monster>, id: nat)
    requires SameBodies(ms, ms')
    ensures MonsterIndex(ms', id) == MonsterIndex(ms, id)
    decreases |ms|
  {
    if |ms| > 0 && ms[0].id != id {
      assert SameBodies(ms[1..], ms'[1..]) by {
        forall k | 0 <= k < |ms| - 1
          ensures ms'[1..][k] == ms[1..][k].(currentHealth := ms'[1..][k].currentHealth, isDead := ms'[1..][k].isDead)
        {
          assert ms'[k + 1] == ms[k + 1].(currentHealth := ms'[k + 1].currentHealth, isDead := ms'[k + 1].isDead);
        }
      }
      MonsterIndexSameBodies(ms[1..], ms'[1..], id);
    }
  }

  /** Damage the pass delivers to the monster with id `id`, in list order:
      the payload of every projectile aimed at it that arrives. */
  function HitsOn(ps: seq<Projectile>, ms: seq<Monster>, dt: real, id: nat): seq<real>
    decreases |ps|
  {
    if |ps| == 0 then []
    else
      var n := |ps| - 1;
      HitsOn(ps[..n], ms, dt, id)
        + (if ps[n].target == MonsterRef(id) && Arrives(ps[n], ms, dt) then [ps[n].damage] else [])
  }

  /** Health and dead flags aside, a roster twice changed that way is once
      changed that way. */
  lemma SameBodiesKeep(ms: seq<Monster>, ms1: seq<Monster>, ms2: seq<Monster>)
    requires SameBodies(ms, ms1) && SameBodies(ms1, ms2)
    ensures SameBodies(ms, ms2)
  {
  }

  /** One projectile's turn changes only health and dead flags, and only
      its target's: one hit, when it arrives and the target is still alive. */
  lemma ResolveOneDamage(p: Projectile, ms: seq<Monster>, ms1: seq<Monster>, dt: real)
    requires UniqueMonsterIds(ms) && SameBodies(ms, ms1)
    ensures var ms2 := ResolveOne(p, ms1, dt).1;
      && SameBodies(ms1, ms2)
      && forall k :: 0 <= k < |ms1| ==>
           VitalOf(ms2[k]) == (if p.target == MonsterRef(ms[k].id) && Arrives(p, ms, dt) && !ms1[k].isDead
                               then Hit(VitalOf(ms1[k]), ms[k].Stats().shield, p.damage)
                               else VitalOf(ms1[k]))
  {
    if p.target.MonsterRef? {
      MonsterIndexSameBodies(ms, ms1, p.target.id);
    }
    assert TargetIndex(p, ms1) == TargetIndex(p, ms);
    var ms2 := ResolveOne(p, ms1, dt).1;
    forall k | 0 <= k < |ms1|
      ensures VitalOf(ms2[k]) == (if p.target == MonsterRef(ms[k].id) && Arrives(p, ms, dt) && !ms1[k].isDead
                                  then Hit(VitalOf(ms1[k]), ms[k].Stats().shield, p.damage)
                                  else VitalOf(ms1[k]))
    {
      MonsterIndexUnique(ms, k);
    }
  }

  /** The pass moves no monster and changes nothing of a monster but its
      health and dead flag; each monster's health and flag are those of its
      barrage: every arriving projectile aimed at it, in list order, each
      landing only while it is not yet dead. */
  lemma {:induction false} ResolveDamage(ps: seq<Projectile>, ms: seq<Monster>, dt: real)
    requires UniqueMonsterIds(ms)
    ensures SameBodies(ms, Resolve(ps, ms, dt).1)
    ensures forall k :: 0 <= k < |ms| ==>
      VitalOf(Resolve(ps, ms, dt).1[k]) == Barrage(VitalOf(ms[k]), ms[k].Stats().shield, HitsOn(ps, ms, dt, ms[k].id))
    decreases |ps|
  {
    if |ps| > 0 {
      var n := |ps| - 1;
      ResolveDamage(ps[..n], ms, dt);
      var ms1 := Resolve(ps[..n], ms, dt).1;
      ResolveOneDamage(ps[n], ms, ms1, dt);
      var ms2 := ResolveOne(ps[n], ms1, dt).1;
      assert Resolve(ps, ms, dt).1 == ms2;
      SameBodiesKeep(ms, ms1, ms2);
      forall k | 0 <= k < |ms|
        ensures VitalOf(ms2[k]) == Barrage(VitalOf(ms[k]), ms[k].Stats().shield, HitsOn(ps, ms, dt, ms[k].id))
      {
        var prev := HitsOn(ps[..n], ms, dt, ms[k].id);
        var hits := HitsOn(ps, ms, dt, ms[k].id);
        if ps[n].target == MonsterRef(ms[k].id) && Arrives(ps[n], ms, dt) {
          assert hits == prev + [ps[n].damage];
          assert hits[..|hits| - 1] == prev;
        } else {
          assert hits == prev;
        }
      }
    }
  }

  /** Whether the `i`-th projectile is still in flight after the pass: its
      target is in the roster, it has not arrived, and its target was not
      dead when its turn came (after the hits of the projectiles before it). */
  predicate StaysInFlight(ps: seq<Projectile>, ms: seq<Monster>, dt: real, i: nat)
    requires i < |ps|
  {
    var k := TargetIndex(ps[i], ms);
    && k.Some?
    && !Arrives(ps[i], ms, dt)
    && !Barrage(VitalOf(ms[k.value]), ms[k.value].Stats().shield, HitsOn(ps[..i], ms, dt, ms[k.value].id)).dead
  }

  function InFlightFlags(ps: seq<Projectile>, ms: seq<Monster>, dt: real): (ok: seq<bool>)
    ensures |ok| == |ps| && forall i :: 0 <= i < |ps| ==> (ok[i] <==> StaysInFlight(ps, ms, dt, i))
  {
    seq(|ps|, i requires 0 <= i < |ps| => StaysInFlight(ps, ms, dt, i))
  }

  function AdvancedAll(ps: seq<Projectile>, ms: seq<Monster>, dt: real): (r: seq<Projectile>)
    ensures |r| == |ps| && forall i :: 0 <= i < |ps| ==> r[i] == Advanced(ps[i], ms, dt)
  {
    seq(|ps|, i requires 0 <= i < |ps| => Advanced(ps[i], ms, dt))
  }

  /** The `n`-th projectile's turn keeps it exactly when it stays in flight,
      advanced. */
  lemma ResolveOneKept(ps: seq<Projectile>, ms: seq<Monster>, dt: real, n: nat)
    requires UniqueMonsterIds(ms) && n < |ps|
    ensures var q := ResolveOne(ps[n], Resolve(ps[..n], ms, dt).1, dt).0;
      && (q.Some? <==> StaysInFlight(ps, ms, dt, n))
      && (q.Some? ==> q.value == Advanced(ps[n], ms, dt))
  {
    var ms1 := Resolve(ps[..n], ms, dt).1;
    ResolveDamage(ps[..n], ms, dt);
    var p := ps[n];
    if p.target.MonsterRef? {
      MonsterIndexSameBodies(ms, ms1, p.target.id);
    }
    assert TargetIndex(p, ms1) == TargetIndex(p, ms);
  }

  lemma InFlightPrefix(ps: seq<Projectile>, ms: seq<Monster>, dt: real, n: nat)
    requires n <= |ps|
    ensures InFlightFlags(ps, ms, dt)[..n] == InFlightFlags(ps[..n], ms, dt)
    ensures AdvancedAll(ps, ms, dt)[..n] == AdvancedAll(ps[..n], ms, dt)
  {
    forall i | 0 <= i < n
      ensures StaysInFlight(ps[..n], ms, dt, i) <==> StaysInFlight(ps, ms, dt, i)
    {
      assert ps[..n][..i] == ps[..i];
    }
  }

  /** The projectiles kept are, in their original order, the advanced
      versions of exactly those that stay in flight. */
  lemma {:induction false} ResolveKept(ps: seq<Projectile>, ms: seq<Monster>, dt: real)
    requires UniqueMonsterIds(ms)
    ensures Resolve(ps, ms, dt).0 == Select(AdvancedAll(ps, ms, dt), InFlightFlags(ps, ms, dt))
    decreases |ps|
  {
    if |ps| > 0 {
      var n := |ps| - 1;
      ResolveKept(ps[..n], ms, dt);
      ResolveOneKept(ps, ms, dt, n);
      InFlightPrefix(ps, ms, dt, n);
      var adv := AdvancedAll(ps, ms, dt);
      var flags := InFlightFlags(ps, ms, dt);
      SelectStep(adv, flags, n);
      assert adv[..n + 1] == adv && flags[..n + 1] == flags;
    }
  }
}
