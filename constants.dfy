/** The game's tuning constants (src/constants.py). The older single-file
    build (main.py) uses different values for four of them; `Build` selects
    which copy of the game is being modelled. */
module Constants {

  /** `Package` is the `src/` package, `Monolith` the single-file main.py. */
  datatype Build = Package | Monolith

  const FPS: real := 60.0
  const WINDOW_HEIGHT: real := 768.0
  /** The height of the tower panel at the bottom of the window. */
  const TOWER_PANEL_HEIGHT: real := 100.0
  const WORLD_SIZE: real := 3000.0
  const MIN_SPAWN_DISTANCE: real := 800.0
  const MAX_SPAWN_DISTANCE: real := 1200.0
  const VILLAGE_MAX_HEALTH: real := 1000.0

  const PROJECTILE_SPEED: real := 400.0
  const PROJECTILE_SIZE: real := 6.0

  const KAMIKAZE_EXPLOSION_RANGE: real := 100.0
  const EXPLOSION_DURATION: real := 0.5
  const EXPLOSION_MAX_RADIUS: real := 50.0

  const LIGHT_MAX_RANGE: real := 500.0
  const LIGHT_MAX_POWER: real := 100.0
  const LIGHT_DRAIN_RATE: real := 15.0
  const LIGHT_RADIUS: real := 200.0

  const MAX_VISIBILITY_RANGE: real := 800.0

  /** `math.pi` as a double. */
  const PI: real := 3.141592653589793

  /** The game-speed multipliers the player cycles through. */
  const TIME_ACCELERATIONS: seq<real> := [1.0, 5.0, 10.0, 15.0, 20.0]

  /** Window centre used by the camera transforms (1024x768 window). */
  const CENTER_X: real := 512.0
  const CENTER_Y: real := 384.0

  function TowerSize(b: Build): real
  {
    if b == Package then 80.0 else 40.0
  }

  function VillageSize(b: Build): real
  {
    if b == Package then 120.0 else 60.0
  }

  function LightRechargeRate(b: Build): real
  {
    if b == Package then 5.0 else 10.0
  }

  function MaxFleeTime(b: Build): real
  {
    if b == Package then 20.0 else 15.0
  }
}
