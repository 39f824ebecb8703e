/** The game object of src/game.py (and of main.py): the rosters, the
    village, the light, the explosions and the tick that drives them, plus
    the small pure queries the editor and the input handler use. */
module Games {
  import opened Common
  import opened Constants
  import opened Kinds
  import opened Combat
  import opened Targeting
  import opened Entities
  import opened Towers
  import opened Monsters
  import opened Waves
  import opened Explosions

  datatype GameMode = Edit | Play

  // ---------------------------------------------------------------------
  // Camera transforms
  // ---------------------------------------------------------------------

  /** The camera: what it looks at, the zoom and the screen point the world
      is zoomed around. */
  datatype Camera = Camera(cameraX: real, cameraY: real, zoom: real, centerX: real, centerY: real)

  /** `world_to_screen`. */
  function WorldToScreen(c: Camera, x: real, y: real): Point
  {
    ((x - c.cameraX) * c.zoom + c.centerX, (y - c.cameraY) * c.zoom + c.centerY)
  }

  /** `screen_to_world`; the zoom is never zero (it starts at 1 and is
      clamped away from zero by the input handler). */
  function ScreenToWorld(c: Camera, sx: real, sy: real): Point
    requires c.zoom != 0.0
  {
    ((sx - c.centerX) / c.zoom + c.cameraX, (sy - c.centerY) / c.zoom + c.cameraY)
  }

  lemma ScaleRoundTrip(a: real, z: real)
    requires z != 0.0
    ensures a * z / z == a && a / z * z == a
  {
  }

  /** The two transforms are inverse to each other, both ways round. */
  lemma CameraRoundTrip(c: Camera, x: real, y: real)
    requires c.zoom != 0.0
    ensures var s := WorldToScreen(c, x, y); ScreenToWorld(c, s.0, s.1) == (x, y)
    ensures var w := ScreenToWorld(c, x, y); WorldToScreen(c, w.0, w.1) == (x, y)
  {
    var s := WorldToScreen(c, x, y);
    ScaleRoundTrip(x - c.cameraX, c.zoom);
    ScaleRoundTrip(y - c.cameraY, c.zoom);
    assert (s.0 - c.centerX) / c.zoom == x - c.cameraX;
    assert (s.1 - c.centerY) / c.zoom == y - c.cameraY;
    assert ScreenToWorld(c, s.0, s.1).0 == x;
    assert ScreenToWorld(c, s.0, s.1).1 == y;
    var w := ScreenToWorld(c, x, y);
    ScaleRoundTrip(x - c.centerX, c.zoom);
    ScaleRoundTrip(y - c.centerY, c.zoom);
    assert (w.0 - c.cameraX) * c.zoom == x - c.centerX;
    assert (w.1 - c.cameraY) * c.zoom == y - c.centerY;
    assert WorldToScreen(c, w.0, w.1).0 == x;
    assert WorldToScreen(c, w.0, w.1).1 == y;
  }

  // ---------------------------------------------------------------------
  // Editor and input queries
  // ---------------------------------------------------------------------

  /** A screen point clear of the village by the village size and of every
      tower but `ignore` by the tower size, in screen units. */
  predicate PositionFree(build: Build, c: Camera, x: real, y: real, villageX: real, villageY: real,
                         towers: seq<Tower>, ignore: Option<nat>)
  {
    && (var v := WorldToScreen(c, villageX, villageY);
        SqDist(x, y, v.0, v.1) >= VillageSize(build) * VillageSize(build))
    && forall i :: 0 <= i < |towers| && ignore != Some(towers[i].id) ==>
         var s := WorldToScreen(c, towers[i].x, towers[i].y);
         SqDist(x, y, s.0, s.1) >= TowerSize(build) * TowerSize(build)
  }

  /** `is_position_valid`: a screen point is free for a tower when it is not
      within the village size of the village's screen point nor within the
      tower size of any other tower's screen point (`ignore` names the tower
      being dragged). The test is made in screen units, as the source does. */
  method IsPositionValid(build: Build, c: Camera, x: real, y: real, villageX: real, villageY: real,
                         towers: seq<Tower>, ignore: Option<nat>) returns (valid: bool)
    ensures valid <==> PositionFree(build, c, x, y, villageX, villageY, towers, ignore)
  {
    var v := WorldToScreen(c, villageX, villageY);
    if SqDist(x, y, v.0, v.1) < VillageSize(build) * VillageSize(build) {
      return false;
    }
    for i := 0 to |towers|
      invariant forall j :: 0 <= j < i && ignore != Some(towers[j].id) ==>
        var s := WorldToScreen(c, towers[j].x, towers[j].y);
        SqDist(x, y, s.0, s.1) >= TowerSize(build) * TowerSize(build)
    {
      if ignore == Some(towers[i].id) {
        continue;
      }
      var s := WorldToScreen(c, towers[i].x, towers[i].y);
      if SqDist(x, y, s.0, s.1) < TowerSize(build) * TowerSize(build) {
        return false;
      }
    }
    return true;
  }

  /** An entry of `available_towers`: how many of a kind are left to place. */
  datatype Stock = Stock(kind: TowerKind, count: int)

  /** The stock a game starts with: one powerful, two medium, three weak. */
  const INITIAL_STOCK: seq<Stock> := [Stock(Powerful, 1), Stock(Medium, 2), Stock(Weak, 3)]

  /** `all_towers_placed`. */
  function AllTowersPlaced(stock: seq<Stock>): (r: bool)
    ensures r <==> forall i :: 0 <= i < |stock| ==> stock[i].count == 0
    decreases |stock|
  {
    |stock| == 0 || (stock[0].count == 0 && AllTowersPlaced(stock[1..]))
  }

  /** The stock after a tower of kind `kind` is taken: every entry of that
      kind loses one, the others are as they were. */
  function Taken(stock: seq<Stock>, kind: TowerKind): (r: seq<Stock>)
    ensures |r| == |stock|
    ensures forall i :: 0 <= i < |stock| ==>
      r[i] == if stock[i].kind == kind then stock[i].(count := stock[i].count - 1) else stock[i]
    decreases |stock|
  {
    if |stock| == 0 then []
    else
      var head := if stock[0].kind == kind then stock[0].(count := stock[0].count - 1) else stock[0];
      [head] + Taken(stock[1..], kind)
  }

  /** The loop over `available_towers` that counts a loaded tower off its
      kind's entry. */
  method TakeStock(stock: seq<Stock>, kind: TowerKind) returns (r: seq<Stock>)
    ensures r == Taken(stock, kind)
  {
    r := stock;
    for i := 0 to |stock|
      invariant |r| == |stock|
      invariant forall j :: 0 <= j < i ==> r[j] == Taken(stock, kind)[j]
      invariant forall j :: i <= j < |stock| ==> r[j] == stock[j]
    {
      if r[i].kind == kind {
        r := r[i := r[i].(count := r[i].count - 1)];
      }
    }
  }

  lemma InitialStockNotPlaced()
    ensures !AllTowersPlaced(INITIAL_STOCK)
  {
    assert INITIAL_STOCK[0].count != 0;
  }

  /** The light's valid zone in `handle_input`: within the light's maximum
      range of the village, or within some tower's vision range. */
  function InLightZone(wx: real, wy: real, villageX: real, villageY: real, towers: seq<Tower>): (r: bool)
    ensures r <==>
      || SqDist(wx, wy, villageX, villageY) <= LIGHT_MAX_RANGE * LIGHT_MAX_RANGE
      || exists i :: 0 <= i < |towers| &&
           SqDist(wx, wy, towers[i].x, towers[i].y) <= towers[i].Stats().visionRange * towers[i].Stats().visionRange
    decreases |towers|
  {
    if SqDist(wx, wy, villageX, villageY) <= LIGHT_MAX_RANGE * LIGHT_MAX_RANGE then true
    else if |towers| == 0 then false
    else
      var t := towers[0];
      var hit := SqDist(wx, wy, t.x, t.y) <= t.Stats().visionRange * t.Stats().visionRange;
      assert forall i :: 1 <= i < |towers| ==> towers[i] == towers[1..][i - 1];
      hit || InLightZone(wx, wy, villageX, villageY, towers[1..])
  }

  // ---------------------------------------------------------------------
  // Terrain
  // ---------------------------------------------------------------------

  /** Python's `int()` on a float: truncation toward zero. */
  function Trunc(r: real): (i: int)
    ensures r >= 0.0 ==> i == r.Floor
    ensures r < 0.0 ==> i == -((-r).Floor)
    ensures -1.0 < r < 1.0 ==> i == 0
  {
    if r >= 0.0 then r.Floor else -((-r).Floor)
  }

  /** A world coordinate's pixel index in a mask of `size` pixels, clamped
      into the mask. */
  function PixelIndex(v: real, size: nat): (i: int)
    requires size > 0
    ensures 0 <= i < size
    ensures 0 <= Trunc(v * size as real / WORLD_SIZE) < size ==> i == Trunc(v * size as real / WORLD_SIZE)
  {
    Max(0.0, Min(Trunc(v * size as real / WORLD_SIZE) as real, (size - 1) as real)).Floor
  }

  /** `get_terrain_speed_multiplier`: the low byte of the mask's pixel,
      mapped linearly from black (0.5) to white (1.0). The mask has been
      scaled to at least one pixel each way, so the clamped index is always
      inside it and the `IndexError` fallback is never taken. */
  function TerrainSpeedMultiplier(x: real, y: real, width: nat, height: nat, pixel: (int, int) -> int): (r: real)
    requires width > 0 && height > 0
    ensures 0.5 <= r <= 1.0
    ensures r == 0.5 + ((pixel(PixelIndex(x, width), PixelIndex(y, height)) % 256) as real / 255.0) * 0.5
  {
    var p := pixel(PixelIndex(x, width), PixelIndex(y, height)) % 256;
    0.5 + (p as real / 255.0) * 0.5
  }

  /** Black maps to half speed and white to full speed. */
  lemma TerrainExtremes(x: real, y: real, width: nat, height: nat, pixel: (int, int) -> int)
    requires width > 0 && height > 0
    ensures pixel(PixelIndex(x, width), PixelIndex(y, height)) % 256 == 0 ==>
      TerrainSpeedMultiplier(x, y, width, height, pixel) == 0.5
    ensures pixel(PixelIndex(x, width), PixelIndex(y, height)) % 256 == 255 ==>
      TerrainSpeedMultiplier(x, y, width, height, pixel) == 1.0
  {
  }

  // ---------------------------------------------------------------------
  // The tick's pieces on values
  // ---------------------------------------------------------------------

  /** `delta_time`: one frame at the current game speed. */
  function DeltaTime(index: nat): (dt: real)
    requires index < |TIME_ACCELERATIONS|
    ensures 1.0 / FPS <= dt <= 20.0 / FPS
  {
    (1.0 / FPS) * TIME_ACCELERATIONS[index]
  }

  /** The light power after a tick: drained while the light is on, down to
      zero; recharged while off, up to the maximum. */
  function LightPowerAfter(build: Build, power: real, active: bool, dt: real): (p: real)
    requires 0.0 <= power <= LIGHT_MAX_POWER && dt >= 0.0
    ensures 0.0 <= p <= LIGHT_MAX_POWER
    ensures active ==> p <= power
    ensures active && power - LIGHT_DRAIN_RATE * dt >= 0.0 ==> p == power - LIGHT_DRAIN_RATE * dt
    ensures active && power - LIGHT_DRAIN_RATE * dt < 0.0 ==> p == 0.0
    ensures !active ==> p >= power
    ensures !active && power + LightRechargeRate(build) * dt <= LIGHT_MAX_POWER ==> p == power + LightRechargeRate(build) * dt
    ensures !active && power + LightRechargeRate(build) * dt > LIGHT_MAX_POWER ==> p == LIGHT_MAX_POWER
  {
    if active then Max(0.0, power - LIGHT_DRAIN_RATE * dt)
    else Min(LIGHT_MAX_POWER, power + LightRechargeRate(build) * dt)
  }

  /** The light after the input handler: on at the cursor iff the cursor is
      in the valid zone and power is left; off otherwise. */
  function LightAfterInput(pressed: bool, cursor: Point, villageX: real, villageY: real,
                           towers: seq<Tower>, power: real): (r: (bool, Option<Point>))
    ensures r.0 <==> pressed && power > 0.0 && InLightZone(cursor.0, cursor.1, villageX, villageY, towers)
    ensures r.1 == (if r.0 then Some(cursor) else None)
  {
    if pressed && InLightZone(cursor.0, cursor.1, villageX, villageY, towers) && power > 0.0
    then (true, Some(cursor)) else (false, None)
  }

  function AliveFlags(ms: seq<Monster>): (ok: seq<bool>)
    ensures |ok| == |ms| && forall i :: 0 <= i < |ms| ==> (ok[i] <==> !ms[i].isDead)
  {
    seq(|ms|, i requires 0 <= i < |ms| => !ms[i].isDead)
  }

  /** The sweep of dead monsters: the living ones, in roster order. */
  function Alive(ms: seq<Monster>): seq<Monster>
  {
    Select(ms, AliveFlags(ms))
  }

  /** The sweep keeps exactly the living monsters and keeps their ids
      distinct. */
  lemma {:induction false} AliveSpec(ms: seq<Monster>)
    ensures forall m :: m in Alive(ms) <==> m in ms && !m.isDead
    ensures UniqueMonsterIds(ms) ==> UniqueMonsterIds(Alive(ms))
    decreases |ms|
  {
    SelectSpec(ms, AliveFlags(ms));
    if |ms| > 0 {
      var n := |ms| - 1;
      assert AliveFlags(ms)[..n] == AliveFlags(ms[..n]);
      AliveSpec(ms[..n]);
      assert Alive(ms) == Alive(ms[..n]) + (if ms[n].isDead then [] else [ms[n]]);
      if UniqueMonsterIds(ms) && !ms[n].isDead {
        var prev := Alive(ms[..n]);
        forall j | 0 <= j < |prev|
          ensures prev[j].id != ms[n].id
        {
          assert prev[j] in ms[..n];
          var i :| 0 <= i < n && ms[..n][i] == prev[j];
        }
      }
    }
  }

  /** Every id in the roster is below `bound`. */
  predicate TowerIdsBelow(ts: seq<Tower>, bound: nat)
  {
    forall i :: 0 <= i < |ts| ==> ts[i].id < bound
  }

  lemma SurvivorsKeepIds(ts: seq<Tower>, ts': seq<Tower>, bound: nat)
    requires Survivors(ts, ts') && TowerIdsBelow(ts, bound)
    ensures TowerIdsBelow(ts', bound)
  {
    forall j | 0 <= j < |ts'|
      ensures ts'[j].id < bound
    {
      assert SurvivorOf(ts, ts'[j]);
      var i :| 0 <= i < |ts| && SameTower(ts[i], ts'[j]);
    }
  }

  lemma SameTowersKeep(ts: seq<Tower>, ts': seq<Tower>)
    requires SameTowers(ts, ts')
    ensures UniqueTowerIds(ts) ==> UniqueTowerIds(ts')
    ensures Survivors(ts, ts')
  {
    forall j | 0 <= j < |ts'|
      ensures SurvivorOf(ts, ts'[j])
    {
      var i := j;
      assert 0 <= i < |ts| && SameTower(ts[i], ts'[j]);
    }
  }

  /** The melee and village checks of `Game.update`, after a monster's own
      update: a monster aimed at a tower closer than the tower size damages
      it and, if that destroys it, the tower leaves the roster and the
      monster forgets it; a monster aimed at the village closer than the
      village size damages the village, and the game is over once the
      village's health is down to zero. */
  function Melee(build: Build, m: Monster, towers: seq<Tower>, villageX: real, villageY: real,
                 villageHealth: real, gameOver: bool, dt: real): (r: (Monster, seq<Tower>, real, bool))
    requires m.aim.TowerAim? ==> TowerPresent(towers, m.aim.id)
    ensures r.0 == m || (r.0 == m.(aim := NoAim) && m.aim.TowerAim?)
    ensures !m.aim.TowerAim? ==> r.1 == towers
    ensures !m.aim.VillageAim? ==> r.2 == villageHealth && r.3 == gameOver
    ensures m.aim.VillageAim? ==>
      && (SqDist(villageX, villageY, m.x, m.y) < VillageSize(build) * VillageSize(build) ==>
            r.2 == villageHealth - MeleeDamage(m, dt) && r.3 == (gameOver || r.2 <= 0.0))
      && (SqDist(villageX, villageY, m.x, m.y) >= VillageSize(build) * VillageSize(build) ==>
            r.2 == villageHealth && r.3 == gameOver)
    ensures m.aim.TowerAim? ==>
      var k := TowerIndex(towers, m.aim.id).value;
      var (t, destroyed) := DamageTower(towers[k], MeleeDamage(m, dt));
      if SqDist(m.aim.x, m.aim.y, m.x, m.y) >= TowerSize(build) * TowerSize(build) then r.0 == m && r.1 == towers
      else if destroyed then r.0 == m.(aim := NoAim) && r.1 == RemoveAt(towers, k)
      else r.0 == m && r.1 == towers[k := t]
  {
    if m.aim.TowerAim? then
      var k := TowerIndex(towers, m.aim.id).value;
      if SqDist(m.aim.x, m.aim.y, m.x, m.y) < TowerSize(build) * TowerSize(build) then
        var (t, destroyed) := DamageTower(towers[k], MeleeDamage(m, dt));
        if destroyed then (m.(aim := NoAim), RemoveAt(towers, k), villageHealth, gameOver)
        else (m, towers[k := t], villageHealth, gameOver)
      else (m, towers, villageHealth, gameOver)
    else if m.aim.VillageAim? && SqDist(villageX, villageY, m.x, m.y) < VillageSize(build) * VillageSize(build) then
      var h := villageHealth - MeleeDamage(m, dt);
      (m, towers, h, gameOver || h <= 0.0)
    else (m, towers, villageHealth, gameOver)
  }

  /** The melee keeps a calm monster calm, only damages or removes towers,
      and keeps the tower ids distinct. */
  lemma MeleeKeeps(build: Build, m: Monster, towers: seq<Tower>, villageX: real, villageY: real,
                   villageHealth: real, gameOver: bool, dt: real)
    requires m.aim.TowerAim? ==> TowerPresent(towers, m.aim.id)
    requires Calm(m) && UniqueTowerIds(towers)
    ensures var r := Melee(build, m, towers, villageX, villageY, villageHealth, gameOver, dt);
      Calm(r.0) && r.0.id == m.id && UniqueTowerIds(r.1) && Survivors(towers, r.1)
  {
    var r := Melee(build, m, towers, villageX, villageY, villageHealth, gameOver, dt);
    if m.aim.TowerAim? {
      var k := TowerIndex(towers, m.aim.id).value;
      var (t, destroyed) := DamageTower(towers[k], MeleeDamage(m, dt));
      if SqDist(m.aim.x, m.aim.y, m.x, m.y) >= TowerSize(build) * TowerSize(build) {
        assert r.1 == towers;
        SurvivorsReflexive(towers);
      } else if destroyed {
        assert r.1 == RemoveAt(towers, k);
        RemoveAtKeeps(towers, k, 0);
      } else {
        assert r.1 == towers[k := t];
        UpdateAtKeeps(towers, k, t, 0);
      }
    } else {
      assert r.1 == towers;
      SurvivorsReflexive(towers);
    }
  }

  /** The monster update of the build being modelled. */
  function MonsterStep(build: Build, m: Monster, towers: seq<Tower>, villageX: real, villageY: real, dt: real,
                       light: Option<Point>, lightActive: bool, lightPower: real,
                       fearRoll: real, targetRoll: real, libm: Libm): (Monster, seq<Tower>, bool)
    requires libm.SqrtPositive()
  {
    if build == Package then Step(m, towers, villageX, villageY, dt, light, lightActive, lightPower, fearRoll, targetRoll, libm)
    else StepMonolith(m, towers, villageX, villageY, dt, light, lightActive, lightPower, fearRoll, targetRoll, libm)
  }

  /** Both builds' monster updates keep the monster's id, keep a calm
      monster calm, only damage or remove towers, and leave a tower aim
      pointing into the roster, which is what the melee check relies on. */
  lemma MonsterStepKeeps(build: Build, m: Monster, towers: seq<Tower>, villageX: real, villageY: real, dt: real,
                         light: Option<Point>, lightActive: bool, lightPower: real,
                         fearRoll: real, targetRoll: real, libm: Libm)
    requires libm.SqrtPositive() && Calm(m) && UniqueTowerIds(towers)
    ensures var (m', towers', _) := MonsterStep(build, m, towers, villageX, villageY, dt, light, lightActive, lightPower, fearRoll, targetRoll, libm);
      && m'.id == m.id && Calm(m')
      && UniqueTowerIds(towers') && Survivors(towers, towers')
      && (m'.aim.TowerAim? ==> TowerPresent(towers', m'.aim.id))
  {
    if build == Package {
      StepKeepsWorld(m, towers, villageX, villageY, dt, light, lightActive, lightPower, fearRoll, targetRoll, libm);
      var (m', towers', _) := Step(m, towers, villageX, villageY, dt, light, lightActive, lightPower, fearRoll, targetRoll, libm);
      SameTowersKeep(towers, towers');
    } else {
      StepMonolithKeepsWorld(m, towers, villageX, villageY, dt, light, lightActive, lightPower, fearRoll, targetRoll, libm);
    }
  }

  /** The random draws of one tick: the spawn angle's two rolls, and each
      monster's light-fear and village rolls by its place in the roster. */
  datatype Rolls = Rolls(spawnBase: real, spawnOffset: real, fear: nat -> real, target: nat -> real)

  /** Explosions not yet finished, in order. */
  function Unfinished(es: seq<Explosion>): (r: seq<Explosion>)
    reads set e | e in es
    ensures forall i :: 0 <= i < |r| ==> r[i] in es && !r[i].finished
    ensures forall i :: 0 <= i < |es| && !es[i].finished ==> es[i] in r
    ensures Distinct(es) ==> Distinct(r)
    decreases |es|
  {
    if |es| == 0 then []
    else
      var n := |es| - 1;
      var prev := Unfinished(es[..n]);
      assert forall e :: e in es[..n] ==> e in es;
      if es[n].finished then prev else prev + [es[n]]
  }

  predicate Distinct(es: seq<Explosion>)
  {
    forall i, j :: 0 <= i < j < |es| ==> es[i] != es[j]
  }

  /** A tower keeps its place, identity and health through its own turn. */
  predicate SameSite(t: Tower, t': Tower)
  {
    && t'.id == t.id && t'.kind == t.kind && t'.x == t.x && t'.y == t.y
    && t'.currentHealth == t.currentHealth && t'.isDead == t.isDead
  }

  predicate SameSites(ts: seq<Tower>, ts': seq<Tower>)
  {
    |ts'| == |ts| && forall i :: 0 <= i < |ts| ==> SameSite(ts[i], ts'[i])
  }

  lemma SameSitesSnoc(ts: seq<Tower>, ts': seq<Tower>, t: Tower, t': Tower)
    requires SameSites(ts, ts') && SameSite(t, t')
    ensures SameSites(ts + [t], ts' + [t'])
  {
  }

  lemma SameSitesKeep(ts: seq<Tower>, ts': seq<Tower>, bound: nat)
    requires SameSites(ts, ts')
    ensures UniqueTowerIds(ts) ==> UniqueTowerIds(ts')
    ensures TowerIdsBelow(ts, bound) ==> TowerIdsBelow(ts', bound)
  {
  }

  /** Health and dead flags aside the roster is unchanged, so its ids stay
      distinct and below the bound, and every monster stays calm. */
  lemma SameBodiesKeepRoster(ms: seq<Monster>, ms': seq<Monster>, bound: nat)
    requires SameBodies(ms, ms')
    ensures UniqueMonsterIds(ms) ==> UniqueMonsterIds(ms')
    ensures MonsterRoster(ms, bound) ==> MonsterRoster(ms', bound)
    ensures AllCalm(ms) ==> AllCalm(ms')
  {
    forall i | 0 <= i < |ms'|
      ensures ms'[i].id == ms[i].id && ms'[i].isFleeing == ms[i].isFleeing && ms'[i].aim == ms[i].aim
    {
      assert ms'[i] == ms[i].(currentHealth := ms'[i].currentHealth, isDead := ms'[i].isDead);
    }
  }

  /** One tower's turn in `Game.update` on values: `find_targets`,
      `attack` and, unless the attack raised, `update_projectiles`; the
      tower, the monsters and whether the turn completed. */
  ghost function TowerTurnSpec(t: Tower, ms: seq<Monster>, dt: real, libm: Libm): (Tower, seq<Monster>, bool)
    requires libm.SqrtPositive()
  {
    var (found, targets) := Found(t, ms);
    var (fired, fine) := Fired(found, targets, dt, libm);
    if !fine then (found, ms, false)
    else
      var (kept, ms') := Resolve(fired.projectiles, ms, dt);
      (fired.(projectiles := kept), ms', true)
  }

  /** A tower's turn keeps its place, identity and health, changes only the
      monsters' health and dead flags, and changes no monster when the
      attack raises. */
  lemma TowerTurnKeeps(t: Tower, ms: seq<Monster>, dt: real, libm: Libm)
    requires libm.SqrtPositive() && UniqueMonsterIds(ms)
    ensures var (t', ms', ok) := TowerTurnSpec(t, ms, dt, libm);
      && SameSite(t, t') && SameBodies(ms, ms')
      && (!ok ==> ms' == ms)
  {
    var (found, targets) := Found(t, ms);
    var (fired, fine) := Fired(found, targets, dt, libm);
    if fine {
      ResolveDamage(fired.projectiles, ms, dt);
    }
  }

  /** Whatever its turn does, a tower keeps its place, identity and health. */
  lemma TowerTurnSite(t: Tower, ms: seq<Monster>, dt: real, libm: Libm)
    requires libm.SqrtPositive()
    ensures SameSite(t, TowerTurnSpec(t, ms, dt, libm).0)
  {
  }

  /** When the attack completes, each monster's health and dead flag are
      what the barrage of the tower's projectiles that land on it leaves. */
  lemma TowerTurnDamage(t: Tower, ms: seq<Monster>, dt: real, libm: Libm)
    requires libm.SqrtPositive() && UniqueMonsterIds(ms)
    requires TowerTurnSpec(t, ms, dt, libm).2
    ensures var ms' := TowerTurnSpec(t, ms, dt, libm).1;
      var shots := Fired(Found(t, ms).0, Found(t, ms).1, dt, libm).0.projectiles;
      |ms'| == |ms| && forall k :: 0 <= k < |ms| ==>
        VitalOf(ms'[k]) == Barrage(VitalOf(ms[k]), ms[k].Stats().shield, HitsOn(shots, ms, dt, ms[k].id))
  {
    var (found, targets) := Found(t, ms);
    var (fired, fine) := Fired(found, targets, dt, libm);
    ResolveDamage(fired.projectiles, ms, dt);
  }

  /** One tower's turn, computed the way the game does it. */
  method TowerTurn(t: Tower, ms: seq<Monster>, dt: real, libm: Libm) returns (t': Tower, ms': seq<Monster>, ok: bool)
    requires libm.SqrtPositive() && UniqueMonsterIds(ms)
    ensures (t', ms', ok) == TowerTurnSpec(t, ms, dt, libm)
  {
    var found, targets := FindTargets(t, ms);
    assert (found, targets) == Found(t, ms);
    var fired, fine := Attack(found, targets, dt, libm);
    assert fine == Fired(found, targets, dt, libm).1;
    if !fine {
      return found, ms, false;
    }
    assert fired == Fired(found, targets, dt, libm).0;
    t', ms' := UpdateProjectiles(fired, ms, dt);
    ok := true;
  }

  /** The towers' turns in roster order on values, each on the monsters as
      the earlier turns left them; after a turn that raises, the remaining
      towers are as they were. */
  ghost function TowersActSpec(ts: seq<Tower>, ms: seq<Monster>, dt: real, libm: Libm): (seq<Tower>, seq<Monster>, bool)
    requires libm.SqrtPositive()
    decreases |ts|
  {
    if |ts| == 0 then ([], ms, true)
    else
      var n := |ts| - 1;
      var (done, ms1, ok) := TowersActSpec(ts[..n], ms, dt, libm);
      if !ok then (done + [ts[n]], ms1, false)
      else
        var (t', ms2, fine) := TowerTurnSpec(ts[n], ms1, dt, libm);
        (done + [t'], ms2, fine)
  }

  /** The towers' turns change only the monsters' health and dead flags. */
  lemma {:induction false} TowersActBodies(ts: seq<Tower>, ms: seq<Monster>, dt: real, libm: Libm)
    requires libm.SqrtPositive() && UniqueMonsterIds(ms)
    ensures SameBodies(ms, TowersActSpec(ts, ms, dt, libm).1)
    decreases |ts|
  {
    if |ts| > 0 {
      var n := |ts| - 1;
      TowersActBodies(ts[..n], ms, dt, libm);
      var (done, ms1, ok) := TowersActSpec(ts[..n], ms, dt, libm);
      if ok {
        assert UniqueMonsterIds(ms1) by {
          SameBodiesKeepRoster(ms, ms1, 0);
        }
        TowerTurnKeeps(ts[n], ms1, dt, libm);
        SameBodiesKeep(ms, ms1, TowerTurnSpec(ts[n], ms1, dt, libm).1);
      }
    }
  }

  /** The towers' turns move no tower and keep the towers' identity and
      health. */
  lemma {:induction false} TowersActSites(ts: seq<Tower>, ms: seq<Monster>, dt: real, libm: Libm)
    requires libm.SqrtPositive()
    ensures SameSites(ts, TowersActSpec(ts, ms, dt, libm).0)
    decreases |ts|
  {
    if |ts| > 0 {
      var n := |ts| - 1;
      TowersActSites(ts[..n], ms, dt, libm);
      var (done, ms1, ok) := TowersActSpec(ts[..n], ms, dt, libm);
      var t' := ts[n];
      if ok {
        t' := TowerTurnSpec(ts[n], ms1, dt, libm).0;
        TowerTurnSite(ts[n], ms1, dt, libm);
      }
      assert TowersActSpec(ts, ms, dt, libm).0 == done + [t'];
      assert ts == ts[..n] + [ts[n]];
      SameSitesSnoc(ts[..n], done, ts[n], t');
    }
  }

  lemma TowersActStep(ts: seq<Tower>, ms: seq<Monster>, dt: real, libm: Libm, i: nat)
    requires libm.SqrtPositive() && i < |ts| && TowersActSpec(ts[..i], ms, dt, libm).2
    ensures var (done, ms1, _) := TowersActSpec(ts[..i], ms, dt, libm);
      var (t', ms2, fine) := TowerTurnSpec(ts[i], ms1, dt, libm);
      TowersActSpec(ts[..i + 1], ms, dt, libm) == (done + [t'], ms2, fine)
  {
    assert ts[..i + 1][..i] == ts[..i];
  }

  /** Once a tower's turn has raised, the later towers are left as they
      were and the monsters as that turn left them. */
  lemma {:induction false} TowersActStops(ts: seq<Tower>, ms: seq<Monster>, dt: real, libm: Libm, j: nat)
    requires libm.SqrtPositive() && j <= |ts|
    requires !TowersActSpec(ts[..j], ms, dt, libm).2
    ensures TowersActSpec(ts, ms, dt, libm)
      == (TowersActSpec(ts[..j], ms, dt, libm).0 + ts[j..], TowersActSpec(ts[..j], ms, dt, libm).1, false)
    decreases |ts|
  {
    if j == |ts| {
      assert ts[..j] == ts;
      var q := TowersActSpec(ts, ms, dt, libm);
      assert ts[j..] == [] && q.0 + [] == q.0;
    } else {
      var n := |ts| - 1;
      assert ts[..n][..j] == ts[..j];
      TowersActStops(ts[..n], ms, dt, libm, j);
      var r := TowersActSpec(ts[..n], ms, dt, libm);
      assert !r.2;
      var q := TowersActSpec(ts[..j], ms, dt, libm);
      assert TowersActSpec(ts, ms, dt, libm) == (r.0 + [ts[n]], r.1, false);
      assert r == (q.0 + ts[..n][j..], q.1, false);
      assert ts[..n][j..] + [ts[n]] == ts[j..];
      assert r.0 + [ts[n]] == q.0 + ts[j..];
    }
  }

  /** The towers' turn, in roster order, on the rosters as values; stops at
      the first tower whose attack raises. */
  method TowersAct(ts: seq<Tower>, ms: seq<Monster>, dt: real, libm: Libm) returns (ts': seq<Tower>, ms': seq<Monster>, ok: bool)
    requires libm.SqrtPositive() && UniqueMonsterIds(ms)
    ensures (ts', ms', ok) == TowersActSpec(ts, ms, dt, libm)
  {
    var done: seq<Tower> := [];
    ms' := ms;
    var i := 0;
    while i < |ts|
      invariant 0 <= i <= |ts|
      invariant (done, ms', true) == TowersActSpec(ts[..i], ms, dt, libm)
    {
      assert UniqueMonsterIds(ms') by {
        TowersActBodies(ts[..i], ms, dt, libm);
        SameBodiesKeepRoster(ms, ms', 0);
      }
      var t, ms1, fine := TowerTurn(ts[i], ms', dt, libm);
      assert (done + [t], ms1, fine) == TowersActSpec(ts[..i + 1], ms, dt, libm) by {
        TowersActStep(ts, ms, dt, libm, i);
      }
      done, ms' := done + [t], ms1;
      if !fine {
        TowersActStops(ts, ms, dt, libm, i + 1);
        return done + ts[i + 1..], ms', false;
      }
      i := i + 1;
    }
    assert ts[..i] == ts;
    return done, ms', true;
  }

  /** One monster's turn on values: its own update and, if that did not
      raise, the melee and village checks; the result is the monster, the
      towers, the village health, the game-over flag and whether the turn
      completed. */
  function Act(build: Build, m: Monster, towers: seq<Tower>, villageX: real, villageY: real,
               villageHealth: real, gameOver: bool, dt: real,
               light: Option<Point>, lightActive: bool, lightPower: real,
               fearRoll: real, targetRoll: real, libm: Libm): (Monster, seq<Tower>, real, bool, bool)
    requires libm.SqrtPositive() && Calm(m) && UniqueTowerIds(towers)
  {
    MonsterStepKeeps(build, m, towers, villageX, villageY, dt, light, lightActive, lightPower, fearRoll, targetRoll, libm);
    var (m1, towers1, fine) := MonsterStep(build, m, towers, villageX, villageY, dt, light, lightActive, lightPower,
                                           fearRoll, targetRoll, libm);
    if !fine then (m1, towers1, villageHealth, gameOver, false)
    else
      var r := Melee(build, m1, towers1, villageX, villageY, villageHealth, gameOver, dt);
      (r.0, r.1, r.2, r.3, true)
  }

  /** A turn keeps the monster's id and calm, only damages or removes
      towers, keeps the tower ids distinct, and never ends a game or starts
      one other than by bringing the village's health down to zero. */
  lemma ActKeeps(build: Build, m: Monster, towers: seq<Tower>, villageX: real, villageY: real,
                 villageHealth: real, gameOver: bool, dt: real,
                 light: Option<Point>, lightActive: bool, lightPower: real,
                 fearRoll: real, targetRoll: real, libm: Libm)
    requires libm.SqrtPositive() && Calm(m) && UniqueTowerIds(towers)
    ensures var r := Act(build, m, towers, villageX, villageY, villageHealth, gameOver, dt,
                         light, lightActive, lightPower, fearRoll, targetRoll, libm);
      && r.0.id == m.id && Calm(r.0)
      && UniqueTowerIds(r.1) && Survivors(towers, r.1)
      && (gameOver ==> r.3)
      && (r.3 ==> gameOver || r.2 <= 0.0)
  {
    MonsterStepKeeps(build, m, towers, villageX, villageY, dt, light, lightActive, lightPower, fearRoll, targetRoll, libm);
    var (m1, towers1, fine) := MonsterStep(build, m, towers, villageX, villageY, dt, light, lightActive, lightPower,
                                           fearRoll, targetRoll, libm);
    if fine {
      MeleeKeeps(build, m1, towers1, villageX, villageY, villageHealth, gameOver, dt);
      var r := Melee(build, m1, towers1, villageX, villageY, villageHealth, gameOver, dt);
      SurvivorsTransitive(towers, towers1, r.1);
    }
  }

  lemma SurvivorsTransitive(ts: seq<Tower>, ts1: seq<Tower>, ts2: seq<Tower>)
    requires Survivors(ts, ts1) && Survivors(ts1, ts2)
    ensures Survivors(ts, ts2)
  {
    forall j | 0 <= j < |ts2|
      ensures SurvivorOf(ts, ts2[j])
    {
      assert SurvivorOf(ts1, ts2[j]);
      var i1 :| 0 <= i1 < |ts1| && SameTower(ts1[i1], ts2[j]);
      assert SurvivorOf(ts, ts1[i1]);
      var i0 :| 0 <= i0 < |ts| && SameTower(ts[i0], ts1[i1]);
      assert SameTower(ts[i0], ts2[j]);
    }
  }

  /** `Act` computed the way the game does it: the build's monster update
      method, then the melee checks. */
  method ActOn(build: Build, m: Monster, towers: seq<Tower>, villageX: real, villageY: real,
               villageHealth: real, gameOver: bool, dt: real,
               light: Option<Point>, lightActive: bool, lightPower: real,
               fearRoll: real, targetRoll: real, libm: Libm)
    returns (m': Monster, towers': seq<Tower>, health': real, over': bool, ok: bool)
    requires libm.SqrtPositive() && Calm(m) && UniqueTowerIds(towers)
    ensures (m', towers', health', over', ok)
      == Act(build, m, towers, villageX, villageY, villageHealth, gameOver, dt,
             light, lightActive, lightPower, fearRoll, targetRoll, libm)
    ensures m'.id == m.id && Calm(m') && UniqueTowerIds(towers') && Survivors(towers, towers')
    ensures gameOver ==> over'
    ensures over' ==> gameOver || health' <= 0.0
  {
    ActKeeps(build, m, towers, villageX, villageY, villageHealth, gameOver, dt,
             light, lightActive, lightPower, fearRoll, targetRoll, libm);
    var m1, towers1;
    if build == Package {
      m1, towers1, ok := Monsters.Update(m, towers, villageX, villageY, dt, light, lightActive, lightPower,
                                         fearRoll, targetRoll, libm);
    } else {
      m1, towers1, ok := UpdateMonolith(m, towers, villageX, villageY, dt, light, lightActive, lightPower,
                                        fearRoll, targetRoll, libm);
    }
    if !ok {
      return m1, towers1, villageHealth, gameOver, false;
    }
    MonsterStepKeeps(build, m, towers, villageX, villageY, dt, light, lightActive, lightPower, fearRoll, targetRoll, libm);
    var r := Melee(build, m1, towers1, villageX, villageY, villageHealth, gameOver, dt);
    m', towers', health', over' := r.0, r.1, r.2, r.3;
  }

  /** A roster whose monsters keep their ids, in place, and are all calm
      keeps its ids distinct and below the bound. */
  lemma SameIdsKeepRoster(ms: seq<Monster>, ms': seq<Monster>, bound: nat)
    requires |ms'| == |ms| && forall k :: 0 <= k < |ms| ==> ms'[k].id == ms[k].id && Calm(ms'[k])
    requires MonsterRoster(ms, bound)
    ensures MonsterRoster(ms', bound)
  {
  }

  /** Distinct ids, all below `bound`, and every monster calm. */
  predicate MonsterRoster(ms: seq<Monster>, bound: nat)
  {
    && UniqueMonsterIds(ms)
    && forall i :: 0 <= i < |ms| ==> ms[i].id < bound && Calm(ms[i])
  }

  /** Every monster of the roster is calm. */
  predicate AllCalm(ms: seq<Monster>)
  {
    forall i :: 0 <= i < |ms| ==> Calm(ms[i])
  }

  /** The monsters' turns on values: the first `n` monsters of the roster
      act in roster order, each with its own rolls, on the towers, the
      village's health and the game-over flag as the earlier turns left
      them, and each is replaced in its slot; after a turn that raises the
      rest do not act. */
  ghost function MonstersActSpec(build: Build, ms: seq<Monster>, ts: seq<Tower>, villageX: real, villageY: real,
                                 health: real, over: bool, dt: real,
                                 light: Option<Point>, lightActive: bool, lightPower: real,
                                 rolls: Rolls, libm: Libm, n: nat): (r: (seq<Monster>, seq<Tower>, real, bool, bool))
    requires libm.SqrtPositive() && n <= |ms| && AllCalm(ms) && UniqueTowerIds(ts)
    ensures |r.0| == |ms| && UniqueTowerIds(r.1)
    ensures forall k :: n <= k < |ms| ==> r.0[k] == ms[k]
    decreases n
  {
    if n == 0 then (ms, ts, health, over, true)
    else
      var (ms1, ts1, h1, o1, ok1) := MonstersActSpec(build, ms, ts, villageX, villageY, health, over, dt,
                                                     light, lightActive, lightPower, rolls, libm, n - 1);
      if !ok1 then (ms1, ts1, h1, o1, false)
      else
        assert UniqueTowerIds(Act(build, ms1[n - 1], ts1, villageX, villageY, h1, o1, dt,
                                  light, lightActive, lightPower, rolls.fear(n - 1), rolls.target(n - 1), libm).1) by {
          ActKeeps(build, ms1[n - 1], ts1, villageX, villageY, h1, o1, dt, light, lightActive, lightPower,
                   rolls.fear(n - 1), rolls.target(n - 1), libm);
        }
        var (m, ts2, h2, o2, ok2) := Act(build, ms1[n - 1], ts1, villageX, villageY, h1, o1, dt,
                                         light, lightActive, lightPower, rolls.fear(n - 1), rolls.target(n - 1), libm);
        (ms1[n - 1 := m], ts2, h2, o2, ok2)
  }

  /** The monsters' turns keep every monster's id and calm. */
  lemma {:induction false} MonstersActIds(build: Build, ms: seq<Monster>, ts: seq<Tower>, villageX: real, villageY: real,
                                          health: real, over: bool, dt: real,
                                          light: Option<Point>, lightActive: bool, lightPower: real,
                                          rolls: Rolls, libm: Libm, n: nat)
    requires libm.SqrtPositive() && n <= |ms| && AllCalm(ms) && UniqueTowerIds(ts)
    ensures var r := MonstersActSpec(build, ms, ts, villageX, villageY, health, over, dt,
                                     light, lightActive, lightPower, rolls, libm, n).0;
      forall k :: 0 <= k < |ms| ==> r[k].id == ms[k].id && Calm(r[k])
    decreases n
  {
    hide Act;
    if n > 0 {
      MonstersActIds(build, ms, ts, villageX, villageY, health, over, dt, light, lightActive, lightPower, rolls, libm, n - 1);
      var (ms1, ts1, h1, o1, ok1) := MonstersActSpec(build, ms, ts, villageX, villageY, health, over, dt,
                                                     light, lightActive, lightPower, rolls, libm, n - 1);
      assert forall k :: 0 <= k < |ms| ==> ms1[k].id == ms[k].id && Calm(ms1[k]);
      if ok1 {
        var m := Act(build, ms1[n - 1], ts1, villageX, villageY, h1, o1, dt,
                     light, lightActive, lightPower, rolls.fear(n - 1), rolls.target(n - 1), libm).0;
        assert m.id == ms1[n - 1].id && Calm(m) by {
          ActKeeps(build, ms1[n - 1], ts1, villageX, villageY, h1, o1, dt, light, lightActive, lightPower,
                   rolls.fear(n - 1), rolls.target(n - 1), libm);
        }
        assert MonstersActSpec(build, ms, ts, villageX, villageY, health, over, dt,
                               light, lightActive, lightPower, rolls, libm, n).0 == ms1[n - 1 := m];
      }
    }
  }

  /** The monsters' turns only damage or remove towers, and never clear the
      game-over flag. */
  lemma {:induction false} MonstersActTowers(build: Build, ms: seq<Monster>, ts: seq<Tower>, villageX: real, villageY: real,
                                             health: real, over: bool, dt: real,
                                             light: Option<Point>, lightActive: bool, lightPower: real,
                                             rolls: Rolls, libm: Libm, n: nat)
    requires libm.SqrtPositive() && n <= |ms| && AllCalm(ms) && UniqueTowerIds(ts)
    ensures var r := MonstersActSpec(build, ms, ts, villageX, villageY, health, over, dt,
                                     light, lightActive, lightPower, rolls, libm, n);
      Survivors(ts, r.1) && (over ==> r.3)
    decreases n
  {
    hide Act;
    if n == 0 {
      SurvivorsReflexive(ts);
    } else {
      MonstersActTowers(build, ms, ts, villageX, villageY, health, over, dt, light, lightActive, lightPower, rolls, libm, n - 1);
      var (ms1, ts1, h1, o1, ok1) := MonstersActSpec(build, ms, ts, villageX, villageY, health, over, dt,
                                                     light, lightActive, lightPower, rolls, libm, n - 1);
      assert Survivors(ts, ts1) && (over ==> o1);
      if ok1 {
        var r := Act(build, ms1[n - 1], ts1, villageX, villageY, h1, o1, dt,
                     light, lightActive, lightPower, rolls.fear(n - 1), rolls.target(n - 1), libm);
        assert Survivors(ts1, r.1) && (o1 ==> r.3) by {
          ActKeeps(build, ms1[n - 1], ts1, villageX, villageY, h1, o1, dt, light, lightActive, lightPower,
                   rolls.fear(n - 1), rolls.target(n - 1), libm);
        }
        SurvivorsTransitive(ts, ts1, r.1);
      }
    }
  }

  /** One more monster's turn, when the earlier ones completed. */
  lemma MonstersActStep(build: Build, ms: seq<Monster>, ts: seq<Tower>, villageX: real, villageY: real,
                        health: real, over: bool, dt: real,
                        light: Option<Point>, lightActive: bool, lightPower: real,
                        rolls: Rolls, libm: Libm, n: nat)
    requires libm.SqrtPositive() && n < |ms| && AllCalm(ms) && UniqueTowerIds(ts)
    requires MonstersActSpec(build, ms, ts, villageX, villageY, health, over, dt,
                             light, lightActive, lightPower, rolls, libm, n).4
    ensures var (ms1, ts1, h1, o1, _) := MonstersActSpec(build, ms, ts, villageX, villageY, health, over, dt,
                                                         light, lightActive, lightPower, rolls, libm, n);
      && ms1[n] == ms[n] && Calm(ms[n])
      && var (m, ts2, h2, o2, ok2) := Act(build, ms[n], ts1, villageX, villageY, h1, o1, dt,
                                          light, lightActive, lightPower, rolls.fear(n), rolls.target(n), libm);
         MonstersActSpec(build, ms, ts, villageX, villageY, health, over, dt, light, lightActive, lightPower, rolls, libm, n + 1)
           == (ms1[n := m], ts2, h2, o2, ok2)
  {
    hide Act;
  }

  /** A turn after one that raised changes nothing. */
  lemma MonstersActHalts(build: Build, ms: seq<Monster>, ts: seq<Tower>, villageX: real, villageY: real,
                         health: real, over: bool, dt: real,
                         light: Option<Point>, lightActive: bool, lightPower: real,
                         rolls: Rolls, libm: Libm, n: nat)
    requires libm.SqrtPositive() && 0 < n <= |ms| && AllCalm(ms) && UniqueTowerIds(ts)
    requires !MonstersActSpec(build, ms, ts, villageX, villageY, health, over, dt,
                              light, lightActive, lightPower, rolls, libm, n - 1).4
    ensures MonstersActSpec(build, ms, ts, villageX, villageY, health, over, dt, light, lightActive, lightPower, rolls, libm, n)
         == MonstersActSpec(build, ms, ts, villageX, villageY, health, over, dt, light, lightActive, lightPower, rolls, libm, n - 1)
  {
    hide Act;
  }

  /** Once a monster's turn has raised, the later monsters do not act. */
  lemma {:induction false} MonstersActStops(build: Build, ms: seq<Monster>, ts: seq<Tower>, villageX: real, villageY: real,
                                            health: real, over: bool, dt: real,
                                            light: Option<Point>, lightActive: bool, lightPower: real,
                                            rolls: Rolls, libm: Libm, j: nat, n: nat)
    requires libm.SqrtPositive() && j <= n <= |ms| && AllCalm(ms) && UniqueTowerIds(ts)
    requires !MonstersActSpec(build, ms, ts, villageX, villageY, health, over, dt,
                              light, lightActive, lightPower, rolls, libm, j).4
    ensures MonstersActSpec(build, ms, ts, villageX, villageY, health, over, dt, light, lightActive, lightPower, rolls, libm, n)
         == MonstersActSpec(build, ms, ts, villageX, villageY, health, over, dt, light, lightActive, lightPower, rolls, libm, j)
    decreases n
  {
    hide Act;
    if n > j {
      MonstersActStops(build, ms, ts, villageX, villageY, health, over, dt, light, lightActive, lightPower, rolls, libm, j, n - 1);
      MonstersActHalts(build, ms, ts, villageX, villageY, health, over, dt, light, lightActive, lightPower, rolls, libm, n);
    }
  }

  /** One turn of `MonstersAct`'s loop: monster `n` acts on what the first
      `n` turns left, which is one more step of the turns on values. */
  method MonsterTurnAt(build: Build, ms: seq<Monster>, ts: seq<Tower>, villageX: real, villageY: real,
                       health: real, over: bool, dt: real,
                       light: Option<Point>, lightActive: bool, lightPower: real, rolls: Rolls, libm: Libm,
                       n: nat, ms1: seq<Monster>, ts1: seq<Tower>, h1: real, o1: bool)
    returns (ms2: seq<Monster>, ts2: seq<Tower>, h2: real, o2: bool, ok: bool)
    requires libm.SqrtPositive() && n < |ms| && AllCalm(ms) && UniqueTowerIds(ts)
    requires (ms1, ts1, h1, o1, true)
      == MonstersActSpec(build, ms, ts, villageX, villageY, health, over, dt,
                         light, lightActive, lightPower, rolls, libm, n)
    ensures (ms2, ts2, h2, o2, ok)
      == MonstersActSpec(build, ms, ts, villageX, villageY, health, over, dt,
                         light, lightActive, lightPower, rolls, libm, n + 1)
  {
    hide Act;
    MonstersActStep(build, ms, ts, villageX, villageY, health, over, dt, light, lightActive, lightPower, rolls, libm, n);
    var m;
    m, ts2, h2, o2, ok := ActOn(build, ms1[n], ts1, villageX, villageY, h1, o1, dt,
                                light, lightActive, lightPower, rolls.fear(n), rolls.target(n), libm);
    ms2 := ms1[n := m];
  }

  /** The monsters' turns, in roster order, on the rosters as values; stops
      at the first monster whose turn raises. */
  method MonstersAct(build: Build, ms: seq<Monster>, ts: seq<Tower>, villageX: real, villageY: real,
                     health: real, over: bool, dt: real,
                     light: Option<Point>, lightActive: bool, lightPower: real, rolls: Rolls, libm: Libm)
    returns (ms': seq<Monster>, ts': seq<Tower>, health': real, over': bool, ok: bool)
    requires libm.SqrtPositive() && AllCalm(ms) && UniqueTowerIds(ts)
    ensures (ms', ts', health', over', ok)
      == MonstersActSpec(build, ms, ts, villageX, villageY, health, over, dt,
                         light, lightActive, lightPower, rolls, libm, |ms|)
  {
    hide Act;
    ms', ts', health', over', ok := ms, ts, health, over, true;
    var i := 0;
    while i < |ms| && ok
      invariant i <= |ms|
      invariant (ms', ts', health', over', ok)
        == MonstersActSpec(build, ms, ts, villageX, villageY, health, over, dt,
                           light, lightActive, lightPower, rolls, libm, i)
    {
      ms', ts', health', over', ok := MonsterTurnAt(build, ms, ts, villageX, villageY, health, over, dt,
                                                    light, lightActive, lightPower, rolls, libm,
                                                    i, ms', ts', health', over');
      i := i + 1;
    }
    if !ok {
      MonstersActStops(build, ms, ts, villageX, villageY, health, over, dt,
                       light, lightActive, lightPower, rolls, libm, i, |ms|);
    }
  }

  /** After the towers' turns and the sweep, the survivors are a calm roster
      with distinct ids and the towers' ids are still distinct. */
  lemma TickReady(ts: seq<Tower>, ms: seq<Monster>, dt: real, libm: Libm)
    requires libm.SqrtPositive() && UniqueMonsterIds(ms) && AllCalm(ms) && UniqueTowerIds(ts)
    ensures var (ts1, ms1, _) := TowersActSpec(ts, ms, dt, libm);
      UniqueMonsterIds(ms1) && UniqueMonsterIds(Alive(ms1)) && AllCalm(Alive(ms1)) && UniqueTowerIds(ts1)
  {
    var (ts1, ms1, _) := TowersActSpec(ts, ms, dt, libm);
    TowersActBodies(ts, ms, dt, libm);
    TowersActSites(ts, ms, dt, libm);
    SameSitesKeep(ts, ts1, 0);
    SameBodiesKeepRoster(ms, ms1, 0);
    AliveSpec(ms1);
    forall k | 0 <= k < |Alive(ms1)|
      ensures Calm(Alive(ms1)[k])
    {
      assert Alive(ms1)[k] in ms1;
    }
  }

  /** One tick of play on values, after the spawn: the towers' turns, the
      sweep of the dead, then the turns of the monsters still alive. The
      result is the monsters, the towers, the village's health, the
      game-over flag and whether the tick completed. */
  ghost function Tick(build: Build, ms: seq<Monster>, ts: seq<Tower>, villageX: real, villageY: real,
                      health: real, over: bool, dt: real,
                      light: Option<Point>, lightActive: bool, lightPower: real,
                      rolls: Rolls, libm: Libm): (seq<Monster>, seq<Tower>, real, bool, bool)
    requires libm.SqrtPositive() && UniqueMonsterIds(ms) && AllCalm(ms) && UniqueTowerIds(ts)
  {
    var (ts1, ms1, ok1) := TowersActSpec(ts, ms, dt, libm);
    if !ok1 then (ms1, ts1, health, over, false)
    else
      assert AllCalm(Alive(ms1)) && UniqueTowerIds(ts1) by {
        TickReady(ts, ms, dt, libm);
      }
      MonstersActSpec(build, Alive(ms1), ts1, villageX, villageY, health, over, dt,
                      light, lightActive, lightPower, rolls, libm, |Alive(ms1)|)
  }

  /** The roster with the spawned monster, if any, at its end. */
  function Joined(ms: seq<Monster>, spawn: Option<Monster>): seq<Monster>
  {
    ms + if spawn.Some? then [spawn.value] else []
  }

  /** A calm newcomer whose id is the next one to hand out keeps the roster
      a roster, with the bound one higher. */
  lemma JoinedRoster(ms: seq<Monster>, spawn: Option<Monster>, bound: nat)
    requires MonsterRoster(ms, bound) && (spawn.Some? ==> spawn.value.id == bound && Calm(spawn.value))
    ensures MonsterRoster(Joined(ms, spawn), bound + 1)
  {
  }

  /** A whole tick of play on values: the spawn joins the roster, then
      `Tick`. */
  ghost function TickAfterSpawn(build: Build, ms: seq<Monster>, spawn: Option<Monster>, bound: nat, ts: seq<Tower>,
                                villageX: real, villageY: real, health: real, over: bool, dt: real,
                                light: Option<Point>, lightActive: bool, lightPower: real,
                                rolls: Rolls, libm: Libm): (seq<Monster>, seq<Tower>, real, bool, bool)
    requires libm.SqrtPositive() && MonsterRoster(ms, bound) && UniqueTowerIds(ts)
    requires spawn.Some? ==> spawn.value.id == bound && Calm(spawn.value)
  {
    assert MonsterRoster(Joined(ms, spawn), bound + 1) by {
      JoinedRoster(ms, spawn, bound);
    }
    Tick(build, Joined(ms, spawn), ts, villageX, villageY, health, over, dt, light, lightActive, lightPower, rolls, libm)
  }

  /** A monster killed by a tower this tick takes no turn and is gone when
      the tick completes; exactly the monsters still alive after the
      towers' turns take theirs, in roster order. */
  lemma TickSparesNoDead(build: Build, ms: seq<Monster>, ts: seq<Tower>, villageX: real, villageY: real,
                         health: real, over: bool, dt: real,
                         light: Option<Point>, lightActive: bool, lightPower: real,
                         rolls: Rolls, libm: Libm)
    requires libm.SqrtPositive() && UniqueMonsterIds(ms) && AllCalm(ms) && UniqueTowerIds(ts)
    ensures var (_, ms1, ok1) := TowersActSpec(ts, ms, dt, libm);
      var r := Tick(build, ms, ts, villageX, villageY, health, over, dt, light, lightActive, lightPower, rolls, libm);
      ok1 ==>
        && |r.0| == |Alive(ms1)|
        && (forall k :: 0 <= k < |r.0| ==> r.0[k].id == Alive(ms1)[k].id)
        && (forall j, k :: 0 <= j < |ms1| && 0 <= k < |r.0| && ms1[j].isDead ==> r.0[k].id != ms1[j].id)
  {
    hide Act;
    var (ts1, ms1, ok1) := TowersActSpec(ts, ms, dt, libm);
    if ok1 {
      TickReady(ts, ms, dt, libm);
      AliveSpec(ms1);
      var alive := Alive(ms1);
      MonstersActIds(build, alive, ts1, villageX, villageY, health, over, dt,
                     light, lightActive, lightPower, rolls, libm, |alive|);
      var r := MonstersActSpec(build, alive, ts1, villageX, villageY, health, over, dt,
                               light, lightActive, lightPower, rolls, libm, |alive|);
      assert Tick(build, ms, ts, villageX, villageY, health, over, dt, light, lightActive, lightPower, rolls, libm) == r;
      forall j, k | 0 <= j < |ms1| && 0 <= k < |r.0| && ms1[j].isDead
        ensures r.0[k].id != ms1[j].id
      {
        assert alive[k] in ms1 && !alive[k].isDead;
        var i :| 0 <= i < |ms1| && ms1[i] == alive[k];
      }
    }
  }

  /** Each explosion of the list advances by `dt`, once. */
  method AdvanceExplosions(es: seq<Explosion>, dt: real)
    requires Distinct(es)
    modifies set e | e in es
    ensures forall i :: 0 <= i < |es| ==>
      es[i].time == old(es[i].time) + dt
      && es[i].finished == (old(es[i].finished) || es[i].time >= es[i].duration)
  {
    for i := 0 to |es|
      invariant forall j :: 0 <= j < i ==>
        es[j].time == old(es[j].time) + dt
        && es[j].finished == (old(es[j].finished) || es[j].time >= es[j].duration)
      invariant forall j :: i <= j < |es| ==> es[j].time == old(es[j].time) && es[j].finished == old(es[j].finished)
    {
      es[i].Update(dt);
    }
  }

  class Game {
    const build: Build
    const villageX: real
    const villageY: real
    var mode: GameMode
    var towers: seq<Tower>
    var monsters: seq<Monster>
    var explosions: seq<Explosion>
    var waveManager: WaveManager
    var villageHealth: real
    var gameOver: bool
    var lightPower: real
    var lightActive: bool
    var lightPosition: Option<Point>
    var timeAccelerationIndex: nat
    var gameStartTime: real
    /** The next identity to hand out; the source compares objects by
        identity, the model by these ids. */
    var nextId: nat
    /** `available_towers`: how many towers of each kind are left to place. */
    var stock: seq<Stock>

    /** The rosters: distinct ids, all handed out already, and every monster
        calm. */
    predicate Roster()
      reads this
    {
      && UniqueTowerIds(towers) && TowerIdsBelow(towers, nextId)
      && MonsterRoster(monsters, nextId)
    }

    predicate Valid()
      reads this, waveManager
    {
      && Roster()
      && waveManager.Valid() && waveManager.build == build
      && waveManager.villageX == villageX && waveManager.villageY == villageY
      && timeAccelerationIndex < |TIME_ACCELERATIONS|
      && 0.0 <= lightPower <= LIGHT_MAX_POWER
      && Distinct(explosions)
    }

    /** `Game.__init__`, without the window, sounds and saved map: editing,
        the village at the centre of the world at full health, the light
        charged and off, and the initial stock to place. */
    constructor(build: Build)
      ensures Valid() && fresh(waveManager)
      ensures this.build == build && mode == Edit
      ensures villageX == WORLD_SIZE / 2.0 && villageY == WORLD_SIZE / 2.0
      ensures towers == [] && monsters == [] && explosions == []
      ensures villageHealth == VILLAGE_MAX_HEALTH && !gameOver
      ensures lightPower == LIGHT_MAX_POWER && !lightActive && lightPosition == None
      ensures timeAccelerationIndex == 0 && stock == INITIAL_STOCK
    {
      this.build := build;
      villageX := WORLD_SIZE / 2.0;
      villageY := WORLD_SIZE / 2.0;
      mode := Edit;
      towers := [];
      monsters := [];
      explosions := [];
      waveManager := new WaveManager(build, WORLD_SIZE / 2.0, WORLD_SIZE / 2.0);
      villageHealth := VILLAGE_MAX_HEALTH;
      gameOver := false;
      lightPower := LIGHT_MAX_POWER;
      lightActive := false;
      lightPosition := None;
      timeAccelerationIndex := 0;
      gameStartTime := 0.0;
      nextId := 0;
      stock := INITIAL_STOCK;
    }

    /** The end of a drag from the tower panel: the tower of stock entry `k`
        (an entry can only be dragged while some are left) is placed at the
        world point under the cursor when the cursor is above the panel and
        the spot is free on screen, and the entry's count drops by one;
        otherwise nothing changes. */
    method DropNewTower(k: nat, c: Camera, sx: real, sy: real) returns (placed: bool)
      requires Valid() && k < |stock| && stock[k].count > 0 && c.zoom != 0.0
      modifies this
      ensures Valid()
      ensures placed <==> sy < WINDOW_HEIGHT - TOWER_PANEL_HEIGHT
                          && PositionFree(build, c, sx, sy, villageX, villageY, old(towers), None)
      ensures placed ==>
        && towers == old(towers) + [NewTower(old(nextId), old(stock)[k].kind, ScreenToWorld(c, sx, sy).0,
                                             ScreenToWorld(c, sx, sy).1)]
        && nextId == old(nextId) + 1
        && stock == old(stock)[k := old(stock)[k].(count := old(stock)[k].count - 1)]
      ensures !placed ==> towers == old(towers) && nextId == old(nextId) && stock == old(stock)
      ensures monsters == old(monsters) && explosions == old(explosions) && waveManager == old(waveManager)
      ensures mode == old(mode) && villageHealth == old(villageHealth) && gameOver == old(gameOver)
      ensures lightPower == old(lightPower) && lightActive == old(lightActive) && lightPosition == old(lightPosition)
      ensures timeAccelerationIndex == old(timeAccelerationIndex) && gameStartTime == old(gameStartTime)
    {
      placed := false;
      if sy < WINDOW_HEIGHT - TOWER_PANEL_HEIGHT {
        placed := IsPositionValid(build, c, sx, sy, villageX, villageY, towers, None);
      }
      if placed {
        var w := ScreenToWorld(c, sx, sy);
        towers := towers + [NewTower(nextId, stock[k].kind, w.0, w.1)];
        nextId := nextId + 1;
        stock := stock[k := stock[k].(count := stock[k].count - 1)];
      }
    }

    /** A tower read from the saved map joins the roster with a fresh id,
        and every stock entry of its kind counts it off. */
    method LoadTower(kind: TowerKind, x: real, y: real)
      requires Valid()
      modifies this
      ensures Valid()
      ensures towers == old(towers) + [NewTower(old(nextId), kind, x, y)] && nextId == old(nextId) + 1
      ensures stock == Taken(old(stock), kind)
      ensures monsters == old(monsters) && explosions == old(explosions) && waveManager == old(waveManager)
      ensures mode == old(mode) && villageHealth == old(villageHealth) && gameOver == old(gameOver)
      ensures lightPower == old(lightPower) && lightActive == old(lightActive) && lightPosition == old(lightPosition)
      ensures timeAccelerationIndex == old(timeAccelerationIndex) && gameStartTime == old(gameStartTime)
    {
      towers := towers + [NewTower(nextId, kind, x, y)];
      nextId := nextId + 1;
      stock := TakeStock(stock, kind);
    }

    /** `start_game`: play mode, a fresh wave manager, the clock started at
        `now`, no monsters. */
    method StartGame(now: real)
      requires Valid()
      modifies this
      ensures Valid() && fresh(waveManager)
      ensures mode == Play && gameStartTime == now && monsters == []
      ensures waveManager.currentWave == 0 && !waveManager.waveStarted && waveManager.nextWaveTime == 0.0
      ensures waveManager.lastSpawnTime == 0.0 && waveManager.monstersToSpawn == []
      ensures waveManager.villageX == villageX && waveManager.villageY == villageY
      ensures towers == old(towers) && explosions == old(explosions) && nextId == old(nextId)
      ensures villageHealth == old(villageHealth) && gameOver == old(gameOver)
      ensures lightPower == old(lightPower) && lightActive == old(lightActive) && lightPosition == old(lightPosition)
      ensures timeAccelerationIndex == old(timeAccelerationIndex) && stock == old(stock)
    {
      mode := Play;
      waveManager := new WaveManager(build, villageX, villageY);
      gameStartTime := now;
      monsters := [];
    }

    /** The light part of `handle_input`. */
    method HandleLight(pressed: bool, cursor: Point)
      requires Valid()
      modifies this
      ensures Valid()
      ensures (lightActive, lightPosition) == LightAfterInput(pressed, cursor, villageX, villageY, towers, lightPower)
      ensures towers == old(towers) && monsters == old(monsters) && explosions == old(explosions)
      ensures waveManager == old(waveManager) && nextId == old(nextId) && mode == old(mode)
      ensures villageHealth == old(villageHealth) && gameOver == old(gameOver) && lightPower == old(lightPower)
      ensures timeAccelerationIndex == old(timeAccelerationIndex) && stock == old(stock) && gameStartTime == old(gameStartTime)
    {
      lightActive, lightPosition := LightAfterInput(pressed, cursor, villageX, villageY, towers, lightPower).0,
                                    LightAfterInput(pressed, cursor, villageX, villageY, towers, lightPower).1;
    }

    /** Spawning: the wave manager's monster, if any, joins the roster with a
        fresh id. */
    method SpawnPhase(currentTime: real, rolls: Rolls, libm: Libm)
      requires Valid()
      modifies this, waveManager
      ensures Valid()
      ensures var spawned := old(waveManager.Spawn(currentTime, nextId, rolls.spawnBase, rolls.spawnOffset, libm));
        && monsters == old(monsters) + (if spawned.Some? then [spawned.value] else [])
        && nextId == old(nextId) + (if spawned.Some? then 1 else 0)
      ensures waveManager.State() == old(waveManager.Next(currentTime))
      ensures towers == old(towers) && explosions == old(explosions) && waveManager == old(waveManager)
      ensures mode == old(mode) && villageHealth == old(villageHealth) && gameOver == old(gameOver)
      ensures lightPower == old(lightPower) && lightActive == old(lightActive) && lightPosition == old(lightPosition)
      ensures timeAccelerationIndex == old(timeAccelerationIndex) && stock == old(stock) && gameStartTime == old(gameStartTime)
    {
      var spawned := waveManager.Update(currentTime, nextId, rolls.spawnBase, rolls.spawnOffset, libm);
      if spawned.Some? {
        monsters := monsters + [spawned.value];
        nextId := nextId + 1;
      }
    }

    /** The towers' turn, in roster order: each picks its targets among the
        monsters as they stand (monsters hit earlier this tick included),
        fires, and resolves its projectiles. Only the monsters' health and
        dead flags change; the towers keep their place, identity and health.
        `ok == false`: a tower fired at a monster standing on it. */
    method TowerPhase(dt: real, libm: Libm) returns (ok: bool)
      requires Valid() && libm.SqrtPositive()
      modifies this
      ensures Valid()
      ensures (towers, monsters, ok) == TowersActSpec(old(towers), old(monsters), dt, libm)
      ensures SameBodies(old(monsters), monsters)
      ensures SameSites(old(towers), towers)
      ensures explosions == old(explosions) && waveManager == old(waveManager) && nextId == old(nextId)
      ensures mode == old(mode) && villageHealth == old(villageHealth) && gameOver == old(gameOver)
      ensures lightPower == old(lightPower) && lightActive == old(lightActive) && lightPosition == old(lightPosition)
      ensures timeAccelerationIndex == old(timeAccelerationIndex) && stock == old(stock) && gameStartTime == old(gameStartTime)
    {
      var ts, ms;
      ts, ms, ok := TowersAct(towers, monsters, dt, libm);
      TowersActBodies(towers, monsters, dt, libm);
      TowersActSites(towers, monsters, dt, libm);
      SameSitesKeep(towers, ts, nextId);
      SameBodiesKeepRoster(monsters, ms, nextId);
      towers := ts;
      monsters := ms;
    }

    /** The sweep of dead monsters, after every tower has acted: a monster
        killed this tick neither moves nor attacks. */
    method SweepPhase()
      requires Valid()
      modifies this
      ensures Valid()
      ensures monsters == Alive(old(monsters))
      ensures forall m :: m in monsters <==> m in old(monsters) && !m.isDead
      ensures towers == old(towers) && explosions == old(explosions) && waveManager == old(waveManager)
      ensures nextId == old(nextId) && mode == old(mode) && villageHealth == old(villageHealth) && gameOver == old(gameOver)
      ensures lightPower == old(lightPower) && lightActive == old(lightActive) && lightPosition == old(lightPosition)
      ensures timeAccelerationIndex == old(timeAccelerationIndex) && stock == old(stock) && gameStartTime == old(gameStartTime)
    {
      AliveSpec(monsters);
      ghost var before := monsters;
      monsters := Alive(monsters);
      forall i | 0 <= i < |monsters|
        ensures monsters[i].id < nextId && Calm(monsters[i])
      {
        assert monsters[i] in before;
      }
    }

    /** The monsters' turn, in roster order: each monster acts on the towers,
        the village's health and the game-over flag as the earlier monsters
        left them; a turn that raises ends the phase. */
    method MonsterPhase(dt: real, rolls: Rolls, libm: Libm) returns (ok: bool)
      requires Valid() && libm.SqrtPositive()
      modifies this
      ensures Valid()
      ensures (monsters, towers, villageHealth, gameOver, ok)
        == MonstersActSpec(build, old(monsters), old(towers), villageX, villageY, old(villageHealth), old(gameOver), dt,
                           old(lightPosition), old(lightActive), old(lightPower), rolls, libm, |old(monsters)|)
      ensures |monsters| == |old(monsters)|
      ensures forall j :: 0 <= j < |monsters| ==> monsters[j].id == old(monsters)[j].id
      ensures old(gameOver) ==> gameOver
      ensures explosions == old(explosions) && waveManager == old(waveManager) && nextId == old(nextId)
      ensures mode == old(mode) && lightPower == old(lightPower) && lightActive == old(lightActive)
      ensures lightPosition == old(lightPosition)
      ensures timeAccelerationIndex == old(timeAccelerationIndex) && stock == old(stock) && gameStartTime == old(gameStartTime)
    {
      hide Act;
      var ms, ts, health, over;
      ms, ts, health, over, ok := MonstersAct(build, monsters, towers, villageX, villageY, villageHealth, gameOver, dt,
                                              lightPosition, lightActive, lightPower, rolls, libm);
      assert && |ms| == |monsters| && (forall j :: 0 <= j < |ms| ==> ms[j].id == monsters[j].id)
             && MonsterRoster(ms, nextId) && UniqueTowerIds(ts) && TowerIdsBelow(ts, nextId) && (gameOver ==> over) by {
        MonstersActIds(build, monsters, towers, villageX, villageY, villageHealth, gameOver, dt,
                       lightPosition, lightActive, lightPower, rolls, libm, |monsters|);
        MonstersActTowers(build, monsters, towers, villageX, villageY, villageHealth, gameOver, dt,
                          lightPosition, lightActive, lightPower, rolls, libm, |monsters|);
        SurvivorsKeepIds(towers, ts, nextId);
        SameIdsKeepRoster(monsters, ms, nextId);
      }
      Commit(ms, ts, health, over);
    }

    /** Stores the monsters' turn: the roster, the towers, the village's
        health and the game-over flag. */
    method Commit(ms: seq<Monster>, ts: seq<Tower>, health: real, over: bool)
      requires Valid() && MonsterRoster(ms, nextId) && UniqueTowerIds(ts) && TowerIdsBelow(ts, nextId)
      modifies this
      ensures Valid()
      ensures monsters == ms && towers == ts && villageHealth == health && gameOver == over
      ensures explosions == old(explosions) && waveManager == old(waveManager) && nextId == old(nextId)
      ensures mode == old(mode) && lightPower == old(lightPower) && lightActive == old(lightActive)
      ensures lightPosition == old(lightPosition)
      ensures timeAccelerationIndex == old(timeAccelerationIndex) && stock == old(stock) && gameStartTime == old(gameStartTime)
    {
      monsters, towers, villageHealth, gameOver := ms, ts, health, over;
    }

    /** The fighting part of a tick: the towers' turn, the sweep of the
        dead and the monsters' turn, as `Tick` says; a turn that raises ends
        it. */
    method Battle(dt: real, rolls: Rolls, libm: Libm) returns (ok: bool)
      requires Valid() && libm.SqrtPositive()
      modifies this
      ensures Valid()
      ensures (monsters, towers, villageHealth, gameOver, ok)
        == Tick(build, old(monsters), old(towers), villageX, villageY, old(villageHealth), old(gameOver), dt,
                old(lightPosition), old(lightActive), old(lightPower), rolls, libm)
      ensures explosions == old(explosions) && waveManager == old(waveManager) && nextId == old(nextId)
      ensures mode == old(mode) && lightPower == old(lightPower) && lightActive == old(lightActive)
      ensures lightPosition == old(lightPosition)
      ensures timeAccelerationIndex == old(timeAccelerationIndex) && stock == old(stock) && gameStartTime == old(gameStartTime)
    {
      hide Act;
      ghost var ms0, ts0, health, over := monsters, towers, villageHealth, gameOver;
      ok := TowerPhase(dt, libm);
      if !ok {
        return;
      }
      SweepPhase();
      ok := MonsterPhase(dt, rolls, libm);
      assert (monsters, towers, villageHealth, gameOver, ok)
          == Tick(build, ms0, ts0, villageX, villageY, health, over, dt,
                  lightPosition, lightActive, lightPower, rolls, libm) by {
        TickReady(ts0, ms0, dt, libm);
      }
    }

    /** Finished explosions are dropped first, then the others advance; one
        that finishes now is dropped on the next tick. */
    method ExplosionPhase(dt: real)
      requires Valid()
      modifies this, set e | e in explosions
      ensures Valid()
      ensures explosions == old(Unfinished(explosions))
      ensures forall i :: 0 <= i < |explosions| ==>
        var e := explosions[i]; e.time == old(e.time) + dt && e.finished == (e.time >= e.duration)
      ensures towers == old(towers) && monsters == old(monsters) && waveManager == old(waveManager)
      ensures nextId == old(nextId) && mode == old(mode) && villageHealth == old(villageHealth) && gameOver == old(gameOver)
      ensures lightPower == old(lightPower) && lightActive == old(lightActive) && lightPosition == old(lightPosition)
      ensures timeAccelerationIndex == old(timeAccelerationIndex) && stock == old(stock) && gameStartTime == old(gameStartTime)
    {
      explosions := Unfinished(explosions);
      AdvanceExplosions(explosions, dt);
    }

    /** `Game.update`: nothing unless playing and not over; otherwise a tick
        of play. `ok == false` means the tick raised and stopped part way. */
    method Update(now: real, rolls: Rolls, libm: Libm) returns (ok: bool)
      requires Valid() && libm.SqrtPositive()
      modifies this, waveManager, set e | e in explosions
      ensures Valid()
      ensures old(mode) != Play || old(gameOver) ==> ok && unchanged(this) && unchanged(waveManager)
      ensures old(gameOver) ==> gameOver
      ensures old(mode) == Play && !old(gameOver) ==>
        var spawned := old(waveManager.Spawn(now - gameStartTime, nextId, rolls.spawnBase, rolls.spawnOffset, libm));
        && waveManager.State() == old(waveManager.Next(now - gameStartTime))
        && nextId == old(nextId) + (if spawned.Some? then 1 else 0)
        && (monsters, towers, villageHealth, gameOver, ok)
           == TickAfterSpawn(build, old(monsters), spawned, old(nextId), old(towers),
                             villageX, villageY, old(villageHealth), false, DeltaTime(old(timeAccelerationIndex)),
                             old(lightPosition), old(lightActive), old(lightPower), rolls, libm)
      ensures ok && old(mode) == Play && !old(gameOver) ==>
        && explosions == old(Unfinished(explosions))
        && (forall i :: 0 <= i < |explosions| ==>
              var e := explosions[i];
              e.time == old(e.time) + DeltaTime(old(timeAccelerationIndex)) && e.finished == (e.time >= e.duration))
        && lightPower == LightPowerAfter(build, old(lightPower), old(lightActive), DeltaTime(old(timeAccelerationIndex)))
      ensures !ok ==> explosions == old(explosions) && lightPower == old(lightPower)
      ensures mode == old(mode) && lightActive == old(lightActive) && lightPosition == old(lightPosition)
      ensures timeAccelerationIndex == old(timeAccelerationIndex) && stock == old(stock)
    {
      hide Act;
      if mode != Play || gameOver {
        return true;
      }
      ok := PlayTick(now, rolls, libm);
    }

    /** A tick of play: spawn, the towers' and monsters' turns, then the
        explosions and the light; the tick stops at a turn that raises. */
    method PlayTick(now: real, rolls: Rolls, libm: Libm) returns (ok: bool)
      requires Valid() && libm.SqrtPositive() && mode == Play && !gameOver
      modifies this, waveManager, set e | e in explosions
      ensures Valid()
      ensures var spawned := old(waveManager.Spawn(now - gameStartTime, nextId, rolls.spawnBase, rolls.spawnOffset, libm));
        && waveManager.State() == old(waveManager.Next(now - gameStartTime))
        && nextId == old(nextId) + (if spawned.Some? then 1 else 0)
        && (monsters, towers, villageHealth, gameOver, ok)
           == TickAfterSpawn(build, old(monsters), spawned, old(nextId), old(towers),
                             villageX, villageY, old(villageHealth), false, DeltaTime(old(timeAccelerationIndex)),
                             old(lightPosition), old(lightActive), old(lightPower), rolls, libm)
      ensures ok ==>
        && explosions == old(Unfinished(explosions))
        && (forall i :: 0 <= i < |explosions| ==>
              var e := explosions[i];
              e.time == old(e.time) + DeltaTime(old(timeAccelerationIndex)) && e.finished == (e.time >= e.duration))
        && lightPower == LightPowerAfter(build, old(lightPower), old(lightActive), DeltaTime(old(timeAccelerationIndex)))
      ensures !ok ==> explosions == old(explosions) && lightPower == old(lightPower)
      ensures mode == old(mode) && lightActive == old(lightActive) && lightPosition == old(lightPosition)
      ensures timeAccelerationIndex == old(timeAccelerationIndex) && stock == old(stock)
    {
      hide Act;
      var dt := DeltaTime(timeAccelerationIndex);
      ghost var unfinished := Unfinished(explosions);
      ok := SpawnAndBattle(now - gameStartTime, dt, rolls, libm);
      assert Unfinished(explosions) == unfinished;
      if ok {
        ghost var state := waveManager.State();
        Aftermath(dt);
        assert waveManager.State() == state;
      }
    }

    /** The first part of a tick of play: the spawn, then the fight on the
        roster the spawn left. */
    method SpawnAndBattle(currentTime: real, dt: real, rolls: Rolls, libm: Libm) returns (ok: bool)
      requires Valid() && libm.SqrtPositive()
      modifies this, waveManager
      ensures Valid()
      ensures var spawned := old(waveManager.Spawn(currentTime, nextId, rolls.spawnBase, rolls.spawnOffset, libm));
        && waveManager.State() == old(waveManager.Next(currentTime))
        && nextId == old(nextId) + (if spawned.Some? then 1 else 0)
        && (monsters, towers, villageHealth, gameOver, ok)
           == TickAfterSpawn(build, old(monsters), spawned, old(nextId), old(towers),
                             villageX, villageY, old(villageHealth), old(gameOver), dt,
                             old(lightPosition), old(lightActive), old(lightPower), rolls, libm)
      ensures explosions == old(explosions) && waveManager == old(waveManager)
      ensures mode == old(mode) && lightPower == old(lightPower) && lightActive == old(lightActive)
      ensures lightPosition == old(lightPosition)
      ensures timeAccelerationIndex == old(timeAccelerationIndex) && stock == old(stock) && gameStartTime == old(gameStartTime)
    {
      hide Act;
      ghost var ms0 := monsters;
      ghost var spawned := waveManager.Spawn(currentTime, nextId, rolls.spawnBase, rolls.spawnOffset, libm);
      SpawnPhase(currentTime, rolls, libm);
      assert monsters == Joined(ms0, spawned);
      ghost var state := waveManager.State();
      ok := Battle(dt, rolls, libm);
      assert waveManager.State() == state;
    }

    /** The end of a tick that did not raise: the explosions advance and the
        light charges or drains. */
    method Aftermath(dt: real)
      requires Valid() && dt >= 0.0
      modifies this, set e | e in explosions
      ensures Valid()
      ensures explosions == old(Unfinished(explosions))
      ensures forall i :: 0 <= i < |explosions| ==>
        var e := explosions[i]; e.time == old(e.time) + dt && e.finished == (e.time >= e.duration)
      ensures lightPower == LightPowerAfter(build, old(lightPower), old(lightActive), dt)
      ensures towers == old(towers) && monsters == old(monsters) && waveManager == old(waveManager)
      ensures nextId == old(nextId) && mode == old(mode) && villageHealth == old(villageHealth) && gameOver == old(gameOver)
      ensures lightActive == old(lightActive) && lightPosition == old(lightPosition)
      ensures timeAccelerationIndex == old(timeAccelerationIndex) && stock == old(stock) && gameStartTime == old(gameStartTime)
    {
      ExplosionPhase(dt);
      lightPower := LightPowerAfter(build, lightPower, lightActive, dt);
    }

    /** main.py `Monster.die`: a Kamikaze's death adds one explosion at its
        position, of the explosion range and the standard duration, and
        splashes the towers around it; other monsters change nothing. */
    method Die(m: Monster, libm: Libm)
      requires Valid()
      modifies this
      ensures Valid()
      ensures m.kind != Kamikaze ==> unchanged(this)
      ensures m.kind == Kamikaze ==>
        && |explosions| == |old(explosions)| + 1 && explosions[..|old(explosions)|] == old(explosions)
        && fresh(explosions[|old(explosions)|])
        && var e := explosions[|old(explosions)|];
           e.x == m.x && e.y == m.y && e.maxRadius == KAMIKAZE_EXPLOSION_RANGE
           && e.duration == EXPLOSION_DURATION && e.time == 0.0 && !e.finished
      ensures m.kind == Kamikaze ==>
        |towers| == |old(towers)| && forall i :: 0 <= i < |towers| ==> towers[i] == SplashOn(m, old(towers)[i], libm)
      ensures monsters == old(monsters) && waveManager == old(waveManager) && nextId == old(nextId)
      ensures mode == old(mode) && villageHealth == old(villageHealth) && gameOver == old(gameOver)
    {
      if m.kind != Kamikaze {
        return;
      }
      var e := new Explosion(m.x, m.y, KAMIKAZE_EXPLOSION_RANGE, EXPLOSION_DURATION);
      explosions := explosions + [e];
      ghost var before := towers;
      towers := Detonate(m, towers, libm);
      assert forall i :: 0 <= i < |towers| ==> SameTower(before[i], towers[i]);
      assert forall i :: 0 <= i < |towers| ==> towers[i].id == before[i].id;
    }
  }

}
