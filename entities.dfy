/**
 * Entities of the Tolya runner: the playfield and physics constants, the
 * player and obstacle records, the per-tick inputs, and the session record
 * that one tick of the game loop transforms.
 *
 * Positions and velocities are `real` pixels (pixels per tick); the game's
 * JavaScript numbers are treated as exact.
 */
module Entities {

  // ---- Constants of the game ----

  const GRAVITY: real := 0.6
  const JUMP_FORCE_NORMAL: real := -12.0
  const JUMP_FORCE_POWERED: real := -18.0
  const MOVEMENT_SPEED: real := 5.0
  const GROUND_HEIGHT: real := 50.0
  const GAME_WIDTH: real := 800.0
  const GAME_HEIGHT: real := 400.0
  const TOLYA_WIDTH: real := 40.0
  const TOLYA_HEIGHT: real := 60.0
  const BED_WIDTH: real := 60.0
  const BASE_BED_HEIGHT: real := 40.0
  const GIANT_BED_HEIGHT: real := 250.0
  const GIANT_BED_WIDTH: real := 300.0
  const MINIBOSS_WIDTH: real := 100.0
  const MINIBOSS_HEIGHT: real := 70.0
  const OBSTACLE_SPEED_NORMAL: real := 6.0
  const OBSTACLE_SPEED_FAST: real := 7.0
  const OBSTACLE_SPEED_MAX: real := 8.0
  const WIN_SCORE: nat := 50
  const MINIBOSS_SCORE_TRIGGER: nat := 25
  const MAX_SPEED_SCORE_TRIGGER: nat := 40

  // Literals that the loop uses inline.

  /** Top of the ground band: every obstacle stands on it. */
  const FLOOR_LINE: real := GAME_HEIGHT - GROUND_HEIGHT
  /** The y the player is snapped to when standing on the ground. */
  const GROUND_Y: real := GAME_HEIGHT - GROUND_HEIGHT - TOLYA_HEIGHT
  const START_X: real := 50.0
  const MUSHROOM_SIZE: real := 40.0
  /** A mushroom can spawn only when the score is strictly above this. */
  const MUSHROOM_SCORE_TRIGGER: nat := 25
  /** Passes while powered after which the power-up wears off. */
  const MUSHROOM_POWER_PASSES: nat := 5
  const MINIBOSS_COUNT: nat := 3
  const MINIBOSS_SPACING: real := 350.0
  /** Frame counter value after a miniboss group: a longer pause. */
  const MINIBOSS_COOLDOWN: int := -150
  const DWELL_NORMAL: int := 60
  const DWELL_FAST: int := 40
  const BED_HEIGHT_SPREAD: real := 20.0
  const BED_VARIANTS: real := 3.0
  /** Entities whose right edge is at or left of this x are dropped. */
  const OFFSCREEN_LIMIT: real := -100.0

  // Probabilities of the spawn policy; a draw below the value means "yes".
  const SPAWN_CHANCE: real := 0.02
  const MINIBOSS_CHANCE: real := 0.25
  const MUSHROOM_CHANCE: real := 0.10
  const GIANT_CHANCE: real := 0.01
  const TREE_CHANCE: real := 0.01

  // Background trees.
  const TREE_SIZE: real := 100.0
  const TREE_SINK: real := 10.0
  const TREE_TYPES: real := 2.0

  // ---- Records ----

  datatype Option<T> = None | Some(value: T)

  datatype GameState = Menu | Playing | Won | Lost

  /** Which obstacle ended the game ('normal', 'giant_bed', 'miniboss'). */
  datatype LossReason = NormalLoss | GiantBedLoss | MinibossLoss

  datatype Direction = Left | Right

  /**
   * The player. Width and height are always TOLYA_WIDTH and TOLYA_HEIGHT,
   * so they are constants here rather than fields.
   */
  datatype Player = Player(x: real, y: real, vy: real, isJumping: bool, direction: Direction)

  /** An obstacle; the three flags are the source's discriminant. */
  datatype Obstacle = Obstacle(
    x: real, y: real, width: real, height: real,
    id: int, passed: bool, variant: int,
    isGiant: bool, isMiniboss: bool, isMushroom: bool)

  /** A decorative tree scrolling behind the play. */
  datatype BackgroundObj = BackgroundObj(x: real, y: real, width: real, height: real, id: real, treeType: int)

  /** The held keys: right arrow, left arrow, and up arrow or space. */
  datatype Keys = Keys(left: bool, right: bool, jump: bool)

  const NO_KEYS: Keys := Keys(false, false, false)

  /**
   * The results of the ten Math.random() calls a tick may make, one field
   * per call site, each in [0, 1).
   */
  datatype Draws = Draws(
    spawn: real, miniboss: real, mushroom: real, giant: real,
    height: real, variant: real,
    tree: real, treeScale: real, treeId: real, treeType: real)

  predicate UnitDraw(r: real) { 0.0 <= r < 1.0 }

  predicate ValidDraws(d: Draws) {
    UnitDraw(d.spawn) && UnitDraw(d.miniboss) && UnitDraw(d.mushroom) && UnitDraw(d.giant)
    && UnitDraw(d.height) && UnitDraw(d.variant)
    && UnitDraw(d.tree) && UnitDraw(d.treeScale) && UnitDraw(d.treeId) && UnitDraw(d.treeType)
  }

  /**
   * The session state that one tick reads and writes: the authoritative
   * values the game keeps in its refs, plus the loss reason, the high score
   * and the warning banner flag it keeps as React state.
   */
  datatype World = World(
    state: GameState, lossReason: LossReason, showWarning: bool,
    score: nat, highScore: nat,
    tolya: Player, obstacles: seq<Obstacle>, bgObjects: seq<BackgroundObj>,
    frameCount: int,
    isMinibossActive: bool, hasSpawnedMiniboss: bool,
    hasMushroomPower: bool, hasSpawnedMushroom: bool, mushroomPowerCounter: nat)

  // ---- Geometry ----

  datatype Box = Box(x: real, y: real, width: real, height: real)

  function PlayerBox(p: Player): Box { Box(p.x, p.y, TOLYA_WIDTH, TOLYA_HEIGHT) }

  function ObstacleBox(o: Obstacle): Box { Box(o.x, o.y, o.width, o.height) }

  /** Axis-aligned overlap with strict inequalities: touching edges do not collide. */
  predicate Overlaps(a: Box, b: Box) {
    a.x < b.x + b.width && a.x + a.width > b.x &&
    a.y < b.y + b.height && a.y + a.height > b.y
  }

  // ---- Obstacle kinds ----

  datatype Kind = NormalBed | GiantBed | MinibossBed | Mushroom

  /** The kind, read from the flags in the order the collision code reads them. */
  function KindOf(o: Obstacle): Kind {
    if o.isMushroom then Mushroom
    else if o.isGiant then GiantBed
    else if o.isMiniboss then MinibossBed
    else NormalBed
  }

  /**
   * What the spawner guarantees of every obstacle it creates: exactly one
   * kind, the size and variant that kind fixes, standing on the floor line.
   * Nothing here mentions x or passed, the two attributes that change later.
   */
  predicate WellFormed(o: Obstacle) {
    o.y == FLOOR_LINE - o.height &&
    match KindOf(o)
    case NormalBed =>
      o.width == BED_WIDTH && BASE_BED_HEIGHT <= o.height < BASE_BED_HEIGHT + BED_HEIGHT_SPREAD
      && o.height == o.height.Floor as real && 0 <= o.variant < 3
    case GiantBed =>
      !o.isMiniboss && o.width == GIANT_BED_WIDTH && o.height == GIANT_BED_HEIGHT && 0 <= o.variant < 3
    case MinibossBed =>
      o.width == MINIBOSS_WIDTH && o.height == MINIBOSS_HEIGHT && o.variant == 0
    case Mushroom =>
      !o.isGiant && !o.isMiniboss && o.width == MUSHROOM_SIZE && o.height == MUSHROOM_SIZE && o.variant == 0
  }

  /**
   * `b` is what `a` becomes after moving `dx` to the left: every attribute
   * but x and passed is kept, and a set passed flag is never cleared.
   */
  predicate Descends(a: Obstacle, b: Obstacle, dx: real) {
    b == a.(x := a.x - dx, passed := b.passed) && (a.passed ==> b.passed)
  }

  predicate OnScreen(o: Obstacle) { o.x + o.width > OFFSCREEN_LIMIT }

  predicate TreeOnScreen(b: BackgroundObj) { b.x + b.width > OFFSCREEN_LIMIT }
}
