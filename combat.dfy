/** Damage arithmetic on values: a monster's shielded `take_damage`
    (src/entities/monster.py), the sequence of hits a tower's projectiles
    deliver in one `update_projectiles` pass (src/entities/tower.py), and the
    Kamikaze splash of main.py `Monster.die`. */
module Combat {
  import opened Common
  import opened Constants

  /** Health with its one-way dead flag. */
  datatype Vital = Vital(health: real, dead: bool)

  /** The flag agrees with the health, as it does for every monster that has
      only ever been damaged. */
  predicate Consistent(v: Vital)
  {
    v.dead <==> v.health <= 0.0
  }

  /** One shielded hit: the shield absorbs up to its value, the rest comes
      off the health, and the flag is raised once health reaches zero. */
  function Hit(v: Vital, shield: real, amount: real): (r: Vital)
    ensures r.health <= v.health
    ensures v.health - r.health == Max(0.0, amount - shield)
    ensures amount <= shield ==> r.health == v.health
    ensures r.dead <==> v.dead || r.health <= 0.0
  {
    var h := v.health - Max(0.0, amount - shield);
    Vital(h, v.dead || h <= 0.0)
  }

  /** The hits that reach one monster in one pass of a tower's projectile
      list, in list order; a hit is skipped once the monster is dead. */
  function Barrage(v: Vital, shield: real, amounts: seq<real>): Vital
    decreases |amounts|
  {
    if |amounts| == 0 then v
    else
      var prev := Barrage(v, shield, amounts[..|amounts| - 1]);
      if prev.dead then prev else Hit(prev, shield, amounts[|amounts| - 1])
  }

  /** A barrage never heals, never revives, leaves a dead monster exactly as
      it was, keeps the flag in step with the health, and when it kills it
      stops there: no later hit lands. */
  lemma {:induction false} BarrageSpec(v: Vital, shield: real, amounts: seq<real>)
    ensures Barrage(v, shield, amounts).health <= v.health
    ensures v.dead ==> Barrage(v, shield, amounts).dead
    ensures v.dead ==> Barrage(v, shield, amounts) == v
    ensures Consistent(v) ==> Consistent(Barrage(v, shield, amounts))
    decreases |amounts|
  {
    if |amounts| > 0 {
      BarrageSpec(v, shield, amounts[..|amounts| - 1]);
    }
  }

  /** Hits the shield fully absorbs change nothing. */
  lemma {:induction false} BarrageAbsorbed(v: Vital, shield: real, amounts: seq<real>)
    requires Consistent(v)
    requires forall i :: 0 <= i < |amounts| ==> amounts[i] <= shield
    ensures Barrage(v, shield, amounts) == v
    decreases |amounts|
  {
    if |amounts| > 0 {
      BarrageAbsorbed(v, shield, amounts[..|amounts| - 1]);
    }
  }

  /** When no hit kills, the monster takes the sum of the shielded amounts. */
  function Absorbed(shield: real, amounts: seq<real>): (t: real)
    ensures t >= 0.0
    decreases |amounts|
  {
    if |amounts| == 0 then 0.0
    else Absorbed(shield, amounts[..|amounts| - 1]) + Max(0.0, amounts[|amounts| - 1] - shield)
  }

  lemma {:induction false} BarrageSurvived(v: Vital, shield: real, amounts: seq<real>)
    requires !Barrage(v, shield, amounts).dead
    ensures Barrage(v, shield, amounts).health == v.health - Absorbed(shield, amounts)
    decreases |amounts|
  {
    if |amounts| > 0 {
      var prev := Barrage(v, shield, amounts[..|amounts| - 1]);
      assert !prev.dead;
      BarrageSurvived(v, shield, amounts[..|amounts| - 1]);
    }
  }

  /** The Kamikaze splash at distance `dist` (main.py `die`):
      `damage * (1 - dist / range)`. */
  function Splash(damage: real, dist: real): real
  {
    damage * (1.0 - dist / KAMIKAZE_EXPLOSION_RANGE)
  }

  /** Full damage at the centre, none at the rim, and in between never more
      than full nor less than none. */
  lemma SplashBounds(damage: real, dist: real)
    requires damage >= 0.0
    ensures Splash(damage, 0.0) == damage
    ensures Splash(damage, KAMIKAZE_EXPLOSION_RANGE) == 0.0
    ensures 0.0 <= dist <= KAMIKAZE_EXPLOSION_RANGE ==> 0.0 <= Splash(damage, dist) <= damage
  {
    if 0.0 <= dist <= KAMIKAZE_EXPLOSION_RANGE && damage > 0.0 {
      var f := 1.0 - dist / KAMIKAZE_EXPLOSION_RANGE;
      assert 0.0 <= f <= 1.0;
      if f > 0.0 {
        ProductPositive(damage, f);
      }
      ProductMonotone(f, 1.0, damage);
    }
  }
}
