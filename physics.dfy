/**
 * The physics integrator: the speed tier, horizontal input with clamping,
 * the jump, and gravity with the ground clamp. Gravity is applied after
 * the move (y += vy, then vy += GRAVITY), as the game does.
 */
module Physics {
  import opened Entities

  /** Scroll speed of the obstacles for a score: a step function of three tiers. */
  function SpeedFor(score: nat): (speed: real)
    ensures score < MINIBOSS_SCORE_TRIGGER <==> speed == OBSTACLE_SPEED_NORMAL
    ensures MINIBOSS_SCORE_TRIGGER <= score < MAX_SPEED_SCORE_TRIGGER <==> speed == OBSTACLE_SPEED_FAST
    ensures MAX_SPEED_SCORE_TRIGGER <= score <==> speed == OBSTACLE_SPEED_MAX
  {
    if score >= MAX_SPEED_SCORE_TRIGGER then OBSTACLE_SPEED_MAX
    else if score >= MINIBOSS_SCORE_TRIGGER then OBSTACLE_SPEED_FAST
    else OBSTACLE_SPEED_NORMAL
  }

  /** Minimum number of frames between spawn attempts at a scroll speed. */
  function MinSpawnTime(speed: real): (frames: int)
    ensures frames == DWELL_FAST || frames == DWELL_NORMAL
  {
    if speed >= OBSTACLE_SPEED_FAST then DWELL_FAST else DWELL_NORMAL
  }

  /** A higher score never slows the scroll, nor lengthens the dwell time. */
  lemma SpeedMonotone(a: nat, b: nat)
    requires a <= b
    ensures SpeedFor(a) <= SpeedFor(b)
    ensures MinSpawnTime(SpeedFor(b)) <= MinSpawnTime(SpeedFor(a))
  {
  }

  /** The dwell time is 40 frames from the miniboss trigger on, 60 before. */
  lemma DwellTimeByScore(score: nat)
    ensures MinSpawnTime(SpeedFor(score)) == if score >= MINIBOSS_SCORE_TRIGGER then DWELL_FAST else DWELL_NORMAL
  {
  }

  /** Horizontal clamp to [0, GAME_WIDTH - TOLYA_WIDTH]. */
  function ClampX(x: real): (r: real)
    ensures 0.0 <= r <= GAME_WIDTH - TOLYA_WIDTH
    ensures 0.0 <= x <= GAME_WIDTH - TOLYA_WIDTH ==> r == x
    ensures x < 0.0 ==> r == 0.0
    ensures x > GAME_WIDTH - TOLYA_WIDTH ==> r == GAME_WIDTH - TOLYA_WIDTH
  {
    var x1 := if x < 0.0 then 0.0 else x;
    if x1 + TOLYA_WIDTH > GAME_WIDTH then GAME_WIDTH - TOLYA_WIDTH else x1
  }

  function JumpForce(powered: bool): real {
    if powered then JUMP_FORCE_POWERED else JUMP_FORCE_NORMAL
  }

  /** Net horizontal displacement the held keys ask for: both may apply. */
  function Displacement(keys: Keys): real {
    (if keys.right then MOVEMENT_SPEED else 0.0) - (if keys.left then MOVEMENT_SPEED else 0.0)
  }

  /**
   * One tick of the player's motion under the held keys; `powered` is
   * whether the mushroom power-up is active.
   */
  function PlayerStep(p: Player, keys: Keys, powered: bool): (r: Player)
    ensures 0.0 <= r.x <= GAME_WIDTH - TOLYA_WIDTH
    ensures r.x == ClampX(p.x + Displacement(keys))
    ensures r.direction == if keys.left then Left else if keys.right then Right else p.direction
    ensures r.y <= GROUND_Y
    ensures r.y == GROUND_Y ==> r.vy == 0.0 && !r.isJumping
  {
    Fall(Launch(Steer(p, keys), keys, powered))
  }

  /** Horizontal input, right then left, then the clamp to the playfield. */
  function Steer(p: Player, keys: Keys): Player {
    var right := if keys.right then p.(x := p.x + MOVEMENT_SPEED, direction := Right) else p;
    var moved := if keys.left then right.(x := right.x - MOVEMENT_SPEED, direction := Left) else right;
    moved.(x := ClampX(moved.x))
  }

  /** The jump impulse, when the jump key is held and no jump is under way. */
  function Launch(p: Player, keys: Keys, powered: bool): Player {
    if keys.jump && !p.isJumping then p.(vy := JumpForce(powered), isJumping := true) else p
  }

  /** Gravity after the move, then the ground clamp. */
  function Fall(p: Player): Player {
    var fallen := p.(y := p.y + p.vy, vy := p.vy + GRAVITY);
    if fallen.y >= GROUND_Y then fallen.(y := GROUND_Y, vy := 0.0, isJumping := false) else fallen
  }

  /**
   * The vertical state consistent with the ground clamp: airborne exactly
   * when above the ground line, and at rest when on it.
   */
  predicate Settled(p: Player) {
    p.y <= GROUND_Y && (p.isJumping <==> p.y < GROUND_Y) && (!p.isJumping ==> p.vy == 0.0)
  }

  /** Every tick keeps the player settled. */
  lemma SettledPreserved(p: Player, keys: Keys, powered: bool)
    requires Settled(p)
    ensures Settled(PlayerStep(p, keys, powered))
  {
  }

  /**
   * A jump starts exactly when the jump key is held on the ground; its
   * impulse is -18 when powered and -12 otherwise.
   */
  lemma JumpStart(p: Player, keys: Keys, powered: bool)
    requires Settled(p)
    ensures var r := PlayerStep(p, keys, powered);
      (r.isJumping && !p.isJumping <==> keys.jump && !p.isJumping) &&
      (keys.jump && !p.isJumping ==>
         r.y == p.y + JumpForce(powered) && r.vy == JumpForce(powered) + GRAVITY)
  {
  }

  /** A grounded player with no input stays where it is. */
  lemma RestsOnGround(p: Player, powered: bool)
    requires Settled(p) && !p.isJumping && 0.0 <= p.x <= GAME_WIDTH - TOLYA_WIDTH
    ensures PlayerStep(p, NO_KEYS, powered) == p
  {
  }

  /** The player after each of the keys in `ks`, applied in order. */
  function Run(p: Player, ks: seq<Keys>, powered: bool): Player
    decreases |ks|
  {
    if ks == [] then p else PlayerStep(Run(p, ks[..|ks| - 1], powered), ks[|ks| - 1], powered)
  }

  /** Any number of idle ticks leave a grounded player unchanged. */
  lemma {:induction false} IdleRun(p: Player, ks: seq<Keys>, powered: bool)
    requires Settled(p) && !p.isJumping && 0.0 <= p.x <= GAME_WIDTH - TOLYA_WIDTH
    requires forall i :: 0 <= i < |ks| ==> ks[i] == NO_KEYS
    ensures Run(p, ks, powered) == p
    decreases |ks|
  {
    if ks != [] {
      IdleRun(p, ks[..|ks| - 1], powered);
      RestsOnGround(p, powered);
    }
  }

  /** Ticks from the jump to the landing: 41 normally, 61 when powered. */
  function AirTime(powered: bool): (n: nat)
    ensures n > 1
    ensures 0.3 * ((n - 1) as real) == -JumpForce(powered)
  {
    if powered then 61 else 41
  }

  /** Vertical velocity k ticks after a jump. */
  function FlightVelocity(powered: bool, k: nat): real {
    JumpForce(powered) + GRAVITY * (k as real)
  }

  /** Height reached k ticks after a jump, relative to the ground line (negative is up). */
  function FlightOffset(powered: bool, k: nat): real
    decreases k
  {
    if k == 0 then 0.0 else FlightOffset(powered, k - 1) + FlightVelocity(powered, k - 1)
  }

  /** The flight is the parabola J*t + 0.3*t*(t - 1). */
  lemma {:induction false} FlightOffsetClosedForm(powered: bool, k: nat)
    ensures var t := k as real;
      FlightOffset(powered, k) == JumpForce(powered) * t + 0.3 * t * (t - 1.0)
    decreases k
  {
    if k > 0 {
      FlightOffsetClosedForm(powered, k - 1);
      var t := k as real;
      var s := t - 1.0;
      assert 0.3 * s * (s - 1.0) + 0.6 * s == 0.3 * t * (t - 1.0);
    }
  }

  /** Strictly above the ground for every tick of the flight but the last. */
  lemma {:induction false} FlightAboveGround(powered: bool, k: nat)
    requires 1 <= k < AirTime(powered)
    ensures FlightOffset(powered, k) < 0.0
  {
    FlightOffsetClosedForm(powered, k);
    var t := k as real;
    var j := JumpForce(powered);
    var b := j + 0.3 * (t - 1.0);
    assert j * t + 0.3 * t * (t - 1.0) == t * b;
    NegativeProduct(t, b, FlightOffset(powered, k));
  }

  /** Back on the ground line at tick AirTime. */
  lemma FlightLands(powered: bool)
    ensures FlightOffset(powered, AirTime(powered)) == 0.0
  {
    FlightOffsetClosedForm(powered, AirTime(powered));
  }

  lemma NegativeProduct(a: real, b: real, c: real)
    requires a > 0.0 && b < 0.0 && c == a * b
    ensures c < 0.0
  {
  }

  /** The player k ticks after a jump from the ground, before the landing. */
  lemma {:induction false} Airborne(p: Player, ks: seq<Keys>, powered: bool, k: nat)
    requires p.y == GROUND_Y && !p.isJumping
    requires 1 <= k <= |ks| && ks[0].jump
    requires k < AirTime(powered)
    ensures var q := Run(p, ks[..k], powered);
      q.isJumping && q.y == GROUND_Y + FlightOffset(powered, k) && q.vy == FlightVelocity(powered, k)
    decreases k
  {
    FlightAboveGround(powered, k);
    if k == 1 {
      assert ks[..1][..0] == [];
      assert ks[..1][0] == ks[0];
    } else {
      Airborne(p, ks, powered, k - 1);
      assert ks[..k][..k - 1] == ks[..k - 1];
      assert ks[..k][k - 1] == ks[k - 1];
    }
  }

  /**
   * After a jump the player is airborne for AirTime - 1 ticks and lands back
   * exactly on the ground line, at rest, on tick AirTime.
   */
  lemma JumpLands(p: Player, ks: seq<Keys>, powered: bool)
    requires p.y == GROUND_Y && !p.isJumping
    requires |ks| >= AirTime(powered) && ks[0].jump
    ensures forall k :: 1 <= k < AirTime(powered) ==>
      Run(p, ks[..k], powered).isJumping && Run(p, ks[..k], powered).y < GROUND_Y
    ensures var q := Run(p, ks[..AirTime(powered)], powered);
      q.y == GROUND_Y && q.vy == 0.0 && !q.isJumping
  {
    forall k | 1 <= k < AirTime(powered)
      ensures Run(p, ks[..k], powered).isJumping && Run(p, ks[..k], powered).y < GROUND_Y
    {
      Airborne(p, ks, powered, k);
      FlightAboveGround(powered, k);
    }
    var n := AirTime(powered);
    Airborne(p, ks, powered, n - 1);
    FlightLands(powered);
    assert ks[..n][..n - 1] == ks[..n - 1];
  }
}
