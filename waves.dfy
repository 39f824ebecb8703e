/** The wave manager of src/managers/wave_manager.py and of main.py: a fixed
    script of four waves, a queue of monsters still to spawn, and a clock.
    The manager is an object the game updates in place; the random rolls are
    parameters in [0, 1] and the trigonometric functions come from `Libm`. */
module Waves {
  import opened Common
  import opened Constants
  import opened Kinds
  import opened Entities

  /** `WaveMonster`: `count` monsters of one kind, `spawnDelay` apart. */
  datatype WaveMonster = WaveMonster(kind: StatKind, count: nat, spawnDelay: real)

  /** `Wave`: its monsters, how far from the village they appear, and the
      pause before the next wave. */
  datatype Wave = Wave(monsters: seq<WaveMonster>, spawnDistance: real, waveDelay: real)

  /** One entry of `monsters_to_spawn`: `(type, spawn_delay, group_factor)`. */
  datatype Pending = Pending(kind: StatKind, delay: real, groupFactor: real)

  /** The four waves of the script. */
  const SCRIPT: seq<Wave> := [
    Wave([WaveMonster(Skeleton, 5, 1.0), WaveMonster(Wolf, 3, 2.0)], MIN_SPAWN_DISTANCE, 10.0),
    Wave([WaveMonster(Moray, 3, 2.0), WaveMonster(SmallSpirit, 4, 1.5)], MIN_SPAWN_DISTANCE + 100.0, 15.0),
    Wave([WaveMonster(FireSkeleton, 2, 3.0), WaveMonster(Witch, 1, 0.0), WaveMonster(Kamikaze, 3, 1.0)],
         MAX_SPAWN_DISTANCE - 100.0, 20.0),
    Wave([WaveMonster(Dragon, 1, 0.0), WaveMonster(GiantSkeleton, 2, 5.0)], MAX_SPAWN_DISTANCE, 0.0)
  ]

  function Entry(w: WaveMonster): Pending
  {
    Pending(w.kind, w.spawnDelay, MonsterStatsOf(w.kind).value.groupFactor)
  }

  function Repeat(p: Pending, n: nat): (r: seq<Pending>)
    ensures |r| == n && forall i :: 0 <= i < n ==> r[i] == p
  {
    seq(n, _ => p)
  }

  /** The queue `prepare_next_wave` builds: each wave monster's entry,
      `count` times, in script order. */
  function Expand(ms: seq<WaveMonster>): seq<Pending>
    decreases |ms|
  {
    if |ms| == 0 then [] else Expand(ms[..|ms| - 1]) + Repeat(Entry(ms[|ms| - 1]), ms[|ms| - 1].count)
  }

  function TotalCount(ms: seq<WaveMonster>): nat
    decreases |ms|
  {
    if |ms| == 0 then 0 else TotalCount(ms[..|ms| - 1]) + ms[|ms| - 1].count
  }

  /** The queue holds one entry per monster to spawn, and every entry is
      that of a monster of the wave, with its kind, delay and the kind's
      group factor. */
  lemma {:induction false} ExpandSpec(ms: seq<WaveMonster>)
    ensures |Expand(ms)| == TotalCount(ms)
    ensures forall j :: 0 <= j < |Expand(ms)| ==> exists i :: 0 <= i < |ms| && Expand(ms)[j] == Entry(ms[i])
    decreases |ms|
  {
    if |ms| > 0 {
      var n := |ms| - 1;
      ExpandSpec(ms[..n]);
      var e := Expand(ms);
      forall j | 0 <= j < |e|
        ensures exists i :: 0 <= i < |ms| && e[j] == Entry(ms[i])
      {
        if j < |Expand(ms[..n])| {
          var i :| 0 <= i < n && Expand(ms[..n])[j] == Entry(ms[..n][i]);
          assert e[j] == Entry(ms[i]);
        } else {
          assert e[j] == Entry(ms[n]);
        }
      }
    }
  }

  lemma TotalCountPair(a: WaveMonster, b: WaveMonster)
    ensures TotalCount([a, b]) == a.count + b.count
  {
    assert TotalCount([a]) == a.count by {
      assert [a][..0] == [];
    }
    assert [a, b][..1] == [a];
  }

  lemma TotalCountTriple(a: WaveMonster, b: WaveMonster, c: WaveMonster)
    ensures TotalCount([a, b, c]) == a.count + b.count + c.count
  {
    assert [a, b, c][..2] == [a, b];
    TotalCountPair(a, b);
  }

  /** The script: four waves of 8, 7, 6 and 3 monsters, each wave spawning
      between the minimum and maximum spawn distance, the last with no
      pause after it. */
  lemma ScriptFacts()
    ensures |SCRIPT| == 4
    ensures |Expand(SCRIPT[0].monsters)| == 8 && |Expand(SCRIPT[1].monsters)| == 7
    ensures |Expand(SCRIPT[2].monsters)| == 6 && |Expand(SCRIPT[3].monsters)| == 3
    ensures forall w :: 0 <= w < |SCRIPT| ==> |Expand(SCRIPT[w].monsters)| > 0
    ensures forall w :: 0 <= w < |SCRIPT| ==>
      MIN_SPAWN_DISTANCE <= SCRIPT[w].spawnDistance <= MAX_SPAWN_DISTANCE
    ensures SCRIPT[3].waveDelay == 0.0
  {
    var m0, m1, m2, m3 := SCRIPT[0].monsters, SCRIPT[1].monsters, SCRIPT[2].monsters, SCRIPT[3].monsters;
    ExpandSpec(m0);
    ExpandSpec(m1);
    ExpandSpec(m2);
    ExpandSpec(m3);
    TotalCountPair(m0[0], m0[1]);
    TotalCountPair(m1[0], m1[1]);
    TotalCountTriple(m2[0], m2[1], m2[2]);
    TotalCountPair(m3[0], m3[1]);
  }

  /** Every wave of the script has a monster to spawn. */
  lemma WaveNonEmpty(w: nat)
    requires w < |SCRIPT|
    ensures |Expand(SCRIPT[w].monsters)| > 0
  {
    ScriptFacts();
  }

  /** `random.uniform(lo, hi)` with the roll `u` in [0, 1]. */
  function Uniform(lo: real, hi: real, u: real): real
  {
    lo + (hi - lo) * u
  }

  /** How much the spawn angle may stray from the base angle: none for a
      group factor of 100, half a turn for 0. */
  function AngleVariation(groupFactor: real): real
  {
    (1.0 - groupFactor / 100.0) * PI
  }

  /** `get_spawn_position`: a random base angle, varied by at most the
      kind's angle variation, at `distance` from the village. The package
      clamps the point into the world; main.py does not. */
  function SpawnPosition(build: Build, villageX: real, villageY: real, distance: real, groupFactor: real,
                         baseRoll: real, offsetRoll: real, libm: Libm): (r: (real, real, real))
    ensures var v := AngleVariation(groupFactor);
      r.2 == Uniform(0.0, 2.0 * PI, baseRoll) + Uniform(-v, v, offsetRoll)
    ensures build == Monolith ==>
      r.0 == villageX + libm.cos(r.2) * distance && r.1 == villageY + libm.sin(r.2) * distance
    ensures build == Package ==>
      && r.0 == Clamp(villageX + libm.cos(r.2) * distance, 0.0, WORLD_SIZE)
      && r.1 == Clamp(villageY + libm.sin(r.2) * distance, 0.0, WORLD_SIZE)
  {
    var v := AngleVariation(groupFactor);
    var angle := Uniform(0.0, 2.0 * PI, baseRoll) + Uniform(-v, v, offsetRoll);
    var x := villageX + libm.cos(angle) * distance;
    var y := villageY + libm.sin(angle) * distance;
    if build == Package then (Max(0.0, Min(x, WORLD_SIZE)), Max(0.0, Min(y, WORLD_SIZE)), angle)
    else (x, y, angle)
  }

  /** With rolls in [0, 1] and a group factor in [0, 100], the variation is
      between none and half a turn and the angle stays within it of the base
      angle; a package spawn point is inside the world. */
  lemma SpawnAngleBounds(build: Build, villageX: real, villageY: real, distance: real, groupFactor: real,
                         baseRoll: real, offsetRoll: real, libm: Libm)
    requires 0.0 <= groupFactor <= 100.0 && 0.0 <= baseRoll <= 1.0 && 0.0 <= offsetRoll <= 1.0
    ensures 0.0 <= AngleVariation(groupFactor) <= PI
    ensures var base := Uniform(0.0, 2.0 * PI, baseRoll);
      var v := AngleVariation(groupFactor);
      var r := SpawnPosition(build, villageX, villageY, distance, groupFactor, baseRoll, offsetRoll, libm);
      && 0.0 <= base <= 2.0 * PI
      && base - v <= r.2 <= base + v
    ensures build == Package ==>
      var r := SpawnPosition(build, villageX, villageY, distance, groupFactor, baseRoll, offsetRoll, libm);
      0.0 <= r.0 <= WORLD_SIZE && 0.0 <= r.1 <= WORLD_SIZE
  {
    AngleVariationBounds(groupFactor);
    var v := AngleVariation(groupFactor);
    UniformBounds(0.0, 2.0 * PI, baseRoll);
    UniformBounds(-v, v, offsetRoll);
  }

  /** A roll in [0, 1] lands between the bounds. */
  lemma UniformBounds(lo: real, hi: real, u: real)
    requires lo <= hi && 0.0 <= u <= 1.0
    ensures lo <= Uniform(lo, hi, u) <= hi
  {
    if lo < hi && u > 0.0 {
      ProductMonotone(u, 1.0, hi - lo);
    }
  }

  lemma AngleVariationBounds(groupFactor: real)
    requires 0.0 <= groupFactor <= 100.0
    ensures 0.0 <= AngleVariation(groupFactor) <= PI
  {
    var f := 1.0 - groupFactor / 100.0;
    assert 0.0 <= f <= 1.0;
    if f > 0.0 {
      ProductMonotone(f, 1.0, PI);
    }
  }

  /** The heading a new monster gets: the spawn angle in main.py; the
      package passes the game object in its place. */
  function SpawnHeading(build: Build, angle: real): Heading
  {
    if build == Package then GameObject else Angle(angle)
  }

  /** The wave manager's variable state, as a value. */
  datatype WaveState = WaveState(currentWave: nat, waveStarted: bool, lastSpawnTime: real,
                                 monstersToSpawn: seq<Pending>, nextWaveTime: real)

  class WaveManager {
    const build: Build
    const villageX: real
    const villageY: real
    var currentWave: nat
    var waveStarted: bool
    var lastSpawnTime: real
    var monstersToSpawn: seq<Pending>
    var nextWaveTime: real

    /** A started wave has a script wave and something left to spawn. */
    predicate Valid()
      reads this
    {
      && currentWave <= |SCRIPT|
      && (waveStarted ==> currentWave < |SCRIPT| && |monstersToSpawn| > 0)
    }

    function State(): WaveState
      reads this
    {
      WaveState(currentWave, waveStarted, lastSpawnTime, monstersToSpawn, nextWaveTime)
    }

    /** The state `update` leaves at `currentTime`: past the script nothing
        changes; a waiting manager starts the wave once it is due; a started
        one spawns the head of its queue once that has waited its delay, and
        after the last monster waits for the next wave. */
    function Next(currentTime: real): (r: WaveState)
      reads this
      requires Valid()
      ensures r.currentWave <= |SCRIPT|
      ensures r.waveStarted ==> r.currentWave < |SCRIPT| && |r.monstersToSpawn| > 0
      ensures r.currentWave == currentWave || r.currentWave == currentWave + 1
    {
      if currentWave >= |SCRIPT| then State()
      else if !waveStarted then
        if currentTime >= nextWaveTime then
          WaveNonEmpty(currentWave);
          State().(waveStarted := true, monstersToSpawn := Expand(SCRIPT[currentWave].monsters))
        else State()
      else if currentTime - lastSpawnTime < monstersToSpawn[0].delay then State()
      else if |monstersToSpawn| > 1 then
        State().(monstersToSpawn := monstersToSpawn[1..], lastSpawnTime := currentTime)
      else WaveState(currentWave + 1, false, currentTime, monstersToSpawn[1..], currentTime + SCRIPT[currentWave].waveDelay)
    }

    /** The monster `update` returns at `currentTime`, with identity `id`:
        the head of a started wave's queue once it is due, at the wave's
        spawn distance; it joins calm and at full health. */
    function Spawn(currentTime: real, id: nat, baseRoll: real, offsetRoll: real, libm: Libm): (r: Option<Monster>)
      reads this
      requires Valid()
      ensures r.Some? ==> r.value.id == id && !r.value.isFleeing && r.value.aim == NoAim && !r.value.isDead
      ensures r.Some? <==> waveStarted && currentTime - lastSpawnTime >= monstersToSpawn[0].delay
    {
      if currentWave >= |SCRIPT| || !waveStarted || currentTime - lastSpawnTime < monstersToSpawn[0].delay then None
      else
        var head := monstersToSpawn[0];
        var pos := SpawnPosition(build, villageX, villageY, SCRIPT[currentWave].spawnDistance,
                                 head.groupFactor, baseRoll, offsetRoll, libm);
        Some(NewMonster(id, head.kind, pos.0, pos.1, SpawnHeading(build, pos.2)))
    }

    /** `WaveManager.__init__`: before the first wave, due at time 0. */
    constructor(build: Build, villageX: real, villageY: real)
      ensures Valid()
      ensures this.build == build && this.villageX == villageX && this.villageY == villageY
      ensures currentWave == 0 && !waveStarted && lastSpawnTime == 0.0
      ensures monstersToSpawn == [] && nextWaveTime == 0.0
    {
      this.build := build;
      this.villageX := villageX;
      this.villageY := villageY;
      currentWave := 0;
      waveStarted := false;
      lastSpawnTime := 0.0;
      monstersToSpawn := [];
      nextWaveTime := 0.0;
    }

    /** `prepare_next_wave`: the queue of the current wave, built by the two
        nested loops of the source. */
    method PrepareNextWave()
      requires currentWave < |SCRIPT|
      modifies this
      ensures currentWave == old(currentWave) && waveStarted == old(waveStarted)
      ensures monstersToSpawn == Expand(SCRIPT[currentWave].monsters)
      ensures lastSpawnTime == old(lastSpawnTime) && nextWaveTime == old(nextWaveTime)
    {
      var ms := SCRIPT[currentWave].monsters;
      monstersToSpawn := [];
      for i := 0 to |ms|
        invariant monstersToSpawn == Expand(ms[..i])
        invariant currentWave == old(currentWave) && waveStarted == old(waveStarted)
        invariant lastSpawnTime == old(lastSpawnTime) && nextWaveTime == old(nextWaveTime)
      {
        var e := Entry(ms[i]);
        ghost var before := monstersToSpawn;
        for c := 0 to ms[i].count
          invariant monstersToSpawn == before + Repeat(e, c)
          invariant currentWave == old(currentWave) && waveStarted == old(waveStarted)
          invariant lastSpawnTime == old(lastSpawnTime) && nextWaveTime == old(nextWaveTime)
        {
          monstersToSpawn := monstersToSpawn + [e];
          assert Repeat(e, c) + [e] == Repeat(e, c + 1);
        }
        assert ms[..i + 1][..i] == ms[..i];
      }
      assert ms[..|ms|] == ms;
    }

    /** `WaveManager.update`. Past the last wave nothing happens. Between
        waves, once the clock reaches the next wave's time, the wave starts
        and its queue is built (nothing spawns on that call). During a wave,
        once the head of the queue has waited its delay since the last
        spawn, it leaves the queue and spawns at `distance` from the
        village; the wave ends with its last monster, and the next one is
        due after the wave's pause. `id` is the identity the game gives the
        new monster. */
    method Update(currentTime: real, id: nat, baseRoll: real, offsetRoll: real, libm: Libm)
      returns (spawned: Option<Monster>)
      requires Valid()
      modifies this
      ensures Valid()
      ensures State() == old(Next(currentTime))
      ensures spawned == old(Spawn(currentTime, id, baseRoll, offsetRoll, libm))
      ensures old(currentWave) >= |SCRIPT| ==> spawned == None && unchanged(this)
      ensures old(currentWave) < |SCRIPT| && !old(waveStarted) ==>
        && spawned == None
        && (currentTime >= old(nextWaveTime) ==>
              waveStarted && monstersToSpawn == Expand(SCRIPT[currentWave].monsters)
              && currentWave == old(currentWave) && lastSpawnTime == old(lastSpawnTime)
              && nextWaveTime == old(nextWaveTime))
        && (currentTime < old(nextWaveTime) ==> unchanged(this))
      ensures old(waveStarted) && currentTime - old(lastSpawnTime) < old(monstersToSpawn)[0].delay ==>
        spawned == None && unchanged(this)
      ensures old(waveStarted) && currentTime - old(lastSpawnTime) >= old(monstersToSpawn)[0].delay ==>
        var head := old(monstersToSpawn)[0];
        var w := SCRIPT[old(currentWave)];
        var pos := SpawnPosition(build, villageX, villageY, w.spawnDistance, head.groupFactor, baseRoll, offsetRoll, libm);
        && spawned == Some(NewMonster(id, head.kind, pos.0, pos.1, SpawnHeading(build, pos.2)))
        && monstersToSpawn == old(monstersToSpawn)[1..]
        && lastSpawnTime == currentTime
        && (|monstersToSpawn| > 0 ==>
              waveStarted && currentWave == old(currentWave) && nextWaveTime == old(nextWaveTime))
        && (|monstersToSpawn| == 0 ==>
              !waveStarted && currentWave == old(currentWave) + 1 && nextWaveTime == currentTime + w.waveDelay)
    {
      if currentWave >= |SCRIPT| {
        return None;
      }
      if !waveStarted {
        if currentTime >= nextWaveTime {
          waveStarted := true;
          PrepareNextWave();
          WaveNonEmpty(currentWave);
        }
        return None;
      }
      if currentTime - lastSpawnTime >= monstersToSpawn[0].delay {
        var head := monstersToSpawn[0];
        monstersToSpawn := monstersToSpawn[1..];
        var pos := SpawnPosition(build, villageX, villageY, SCRIPT[currentWave].spawnDistance,
                                 head.groupFactor, baseRoll, offsetRoll, libm);
        lastSpawnTime := currentTime;
        if |monstersToSpawn| == 0 {
          waveStarted := false;
          currentWave := currentWave + 1;
          nextWaveTime := currentTime + SCRIPT[currentWave - 1].waveDelay;
        }
        return Some(NewMonster(id, head.kind, pos.0, pos.1, SpawnHeading(build, pos.2)));
      }
      return None;
    }
  }
}
