/**
 * The game component as an object: its refs are fields, and the game
 * loop, the physics update and the session reset change them, in the
 * order the game does. Each method is proved to leave the state the
 * value-level step of the Session module computes, so every property
 * proved there holds of the object. The loops of the physics update (the
 * push of the miniboss group, the scroll, the collision scan) run on the
 * lists and counters as local values, which the methods of the class
 * then store.
 */
module Simulation {
  import opened Entities
  import opened Sequences
  import opened Physics
  import opened Spawner
  import opened Movement
  import opened Collision
  import opened Session

  /** A scan result with `pre` put in front of what it keeps. */
  function Prepend(pre: seq<Obstacle>, r: ScanResult): ScanResult {
    r.(kept := pre + r.kept)
  }

  /** The miniboss group pushed one by one, 350 pixels apart. */
  method PushMinibosses(s: seq<Obstacle>, now: int) returns (r: seq<Obstacle>)
    ensures r == s + MinibossGroup(now)
    ensures |r| == |s| + MINIBOSS_COUNT && r[..|s|] == s
  {
    r := s;
    for i := 0 to MINIBOSS_COUNT
      invariant r == s + MinibossGroup(now)[..i]
    {
      r := r + [MinibossAt(i, now)];
    }
    assert MinibossGroup(now)[..MINIBOSS_COUNT] == MinibossGroup(now);
  }

  /** Every obstacle moved `dx` to the left, one at a time. */
  method ScrollEach(s: seq<Obstacle>, dx: real) returns (r: seq<Obstacle>)
    ensures r == ScrollObstacles(s, dx)
  {
    r := s;
    for j := 0 to |r|
      invariant |r| == |s|
      invariant forall k :: 0 <= k < j ==> r[k] == s[k].(x := s[k].x - dx)
      invariant forall k :: j <= k < |s| ==> r[k] == s[k]
    {
      r := r[j := r[j].(x := r[j].x - dx)];
    }
  }

  /** Every tree moved `dx` to the left, one at a time. */
  method ScrollEachTree(s: seq<BackgroundObj>, dx: real) returns (r: seq<BackgroundObj>)
    ensures r == ScrollTrees(s, dx)
  {
    r := s;
    for j := 0 to |r|
      invariant |r| == |s|
      invariant forall k :: 0 <= k < j ==> r[k] == s[k].(x := s[k].x - dx)
      invariant forall k :: j <= k < |s| ==> r[k] == s[k]
    {
      r := r[j := r[j].(x := r[j].x - dx)];
    }
  }

  /**
   * The collision loop: a touched mushroom is spliced out and the index
   * stays; the first other touched obstacle ends the loop with its loss
   * reason; an obstacle got past for the first time is marked and scores,
   * and while powered it counts towards the end of the power-up.
   */
  method DetectCollisions(p: Player, s: seq<Obstacle>, st: ScanState) returns (r: ScanResult)
    ensures r == Scan(p, s, st)
  {
    var list := s;
    var cur := st;
    var i := 0;
    while i < |list|
      invariant 0 <= i <= |list|
      invariant Scan(p, s, st) == Prepend(list[..i], Scan(p, list[i..], cur))
      decreases |list| - i
    {
      var obs := list[i];
      if Hits(p, obs) {
        if obs.isMushroom {
          ScanAtPickUp(p, list, i, cur);
          cur := cur.(active := true, counter := 0);
          list := list[..i] + list[i + 1..];
          continue;
        }
        ScanAtLethal(p, list, i, cur);
        return ScanResult(list, cur, Some(ReasonOf(obs)));
      }
      if !obs.passed && p.x > obs.x + obs.width {
        ScanAtPass(p, list, i, cur);
        list := list[i := obs.(passed := true)];
        var counter := cur.counter;
        var active := cur.active;
        if active && !obs.isMushroom {
          counter := counter + 1;
          if counter >= MUSHROOM_POWER_PASSES {
            active := false;
          }
        }
        cur := ScanState(cur.score + 1, active, counter);
      } else {
        ScanAtSkip(p, list, i, cur);
      }
      i := i + 1;
    }
    ScanAtEnd(p, list, cur);
    r := ScanResult(list, cur, None);
  }

  /**
   * The player's per-frame update, statement by statement: horizontal
   * input, the clamp, the jump impulse, gravity and the ground clamp.
   */
  method StepPlayer(p: Player, keys: Keys, powered: bool) returns (t: Player)
    ensures t == PlayerStep(p, keys, powered)
  {
    t := p;
    if keys.right {
      t := t.(x := t.x + MOVEMENT_SPEED, direction := Right);
    }
    if keys.left {
      t := t.(x := t.x - MOVEMENT_SPEED, direction := Left);
    }
    if t.x < 0.0 {
      t := t.(x := 0.0);
    }
    if t.x + TOLYA_WIDTH > GAME_WIDTH {
      t := t.(x := GAME_WIDTH - TOLYA_WIDTH);
    }
    assert t == Steer(p, keys);
    if keys.jump && !t.isJumping {
      t := t.(vy := if powered then JUMP_FORCE_POWERED else JUMP_FORCE_NORMAL, isJumping := true);
    }
    assert t == Launch(Steer(p, keys), keys, powered);
    t := t.(y := t.y + t.vy);
    t := t.(vy := t.vy + GRAVITY);
    if t.y >= GROUND_Y {
      t := t.(y := GROUND_Y, vy := 0.0, isJumping := false);
    }
  }

  /** The trees of one frame: the 1% spawn, the half-speed scroll and the cleanup. */
  method AdvanceTrees(bg: seq<BackgroundObj>, speed: real, d: Draws, now: int) returns (r: seq<BackgroundObj>)
    ensures r == BackgroundStep(bg, speed, d, now)
  {
    var spawned := bg;
    if d.tree < TREE_CHANCE {
      spawned := spawned + [TreeFor(d, now)];
    }
    var scrolled := ScrollEachTree(spawned, speed * 0.5);
    r := Filter(scrolled, TreeOnScreen);
    BackgroundStepIs(bg, speed, d, now, spawned);
  }

  lemma BackgroundStepIs(bg: seq<BackgroundObj>, speed: real, d: Draws, now: int, spawned: seq<BackgroundObj>)
    requires spawned == if d.tree < TREE_CHANCE then bg + [TreeFor(d, now)] else bg
    ensures BackgroundStep(bg, speed, d, now) == Filter(ScrollTrees(spawned, speed * 0.5), TreeOnScreen)
  {
  }

  class Game {
    var state: GameState
    var lossReason: LossReason
    var showWarning: bool
    var score: nat
    var highScore: nat
    var tolya: Player
    var obstacles: seq<Obstacle>
    var bgObjects: seq<BackgroundObj>
    var frameCount: int
    var isMinibossActive: bool
    var hasSpawnedMiniboss: bool
    var hasMushroomPower: bool
    var hasSpawnedMushroom: bool
    var mushroomPowerCounter: nat

    /** The state of the object as a value. */
    function Snapshot(): World
      reads this
    {
      World(state, lossReason, showWarning, score, highScore, tolya, obstacles, bgObjects, frameCount,
            isMinibossActive, hasSpawnedMiniboss, hasMushroomPower, hasSpawnedMushroom, mushroomPowerCounter)
    }

    predicate Valid()
      reads this
    {
      Inv(Snapshot())
    }

    /** The component as first rendered: the menu. */
    constructor()
      ensures Snapshot() == InitialWorld() && Valid()
    {
      state := Menu;
      lossReason := NormalLoss;
      showWarning := false;
      score := 0;
      highScore := 0;
      tolya := Player(START_X, 0.0, 0.0, false, Right);
      obstacles := [];
      bgObjects := [];
      frameCount := 0;
      isMinibossActive := false;
      hasSpawnedMiniboss := false;
      hasMushroomPower := false;
      hasSpawnedMushroom := false;
      mushroomPowerCounter := 0;
      InitialInv();
    }

    /** startGame: a new session; the high score and the trees stay. */
    method StartGame()
      modifies this
      ensures Snapshot() == StartState(old(Snapshot())) && Valid()
    {
      ghost var w0 := Snapshot();
      ResetSession();
      ResetPowerUps();
      assert Snapshot() == StartState(w0);
      StartInv(w0);
    }

    /** The game state, the score and the frame counter reset, the player back at the start, no obstacles. */
    method ResetSession()
      modifies this
      ensures Snapshot() == old(Snapshot()).(state := Playing, lossReason := NormalLoss, score := 0, frameCount := 0,
                                             tolya := Player(START_X, GROUND_Y, 0.0, false, Right), obstacles := [])
    {
      state, lossReason, score, frameCount := Playing, NormalLoss, 0, 0;
      tolya, obstacles := Player(START_X, GROUND_Y, 0.0, false, Right), [];
    }

    /** The miniboss and mushroom refs and the warning cleared. */
    method ResetPowerUps()
      modifies this
      ensures Snapshot() == old(Snapshot()).(isMinibossActive := false, hasSpawnedMiniboss := false,
                                             showWarning := false, hasMushroomPower := false,
                                             hasSpawnedMushroom := false, mushroomPowerCounter := 0)
    {
      isMinibossActive, hasSpawnedMiniboss, showWarning := false, false, false;
      hasMushroomPower, hasSpawnedMushroom, mushroomPowerCounter := false, false, 0;
    }

    /** One animation frame: the game loop run on a valid object leaves it valid. */
    method Frame(keys: Keys, d: Draws, now: int)
      requires Valid() && ValidDraws(d)
      modifies this
      ensures Snapshot() == TickStep(old(Snapshot()), keys, d, now) && Valid()
    {
      ghost var w0 := Snapshot();
      GameLoop(keys, d, now);
      TickInv(w0, keys, d, now);
    }

    /** gameLoop: one tick, doing nothing unless a game is being played. */
    method GameLoop(keys: Keys, d: Draws, now: int)
      modifies this
      ensures Snapshot() == TickStep(old(Snapshot()), keys, d, now)
    {
      ghost var w0 := Snapshot();
      if state != Playing {
        return;
      }
      if score >= WIN_SCORE {
        state := Won;
        return;
      }
      if score >= MINIBOSS_SCORE_TRIGGER && !isMinibossActive {
        isMinibossActive := true;
        if !hasSpawnedMiniboss {
          showWarning := true;
        }
      }
      assert Snapshot() == ArmMiniboss(w0);
      UpdatePhysics(keys, d, now);
    }

    /** updatePhysics: the player's move, the spawns, the scroll, and the collision scan. */
    method UpdatePhysics(keys: Keys, d: Draws, now: int)
      modifies this
      ensures Snapshot() == PhysicsStep(old(Snapshot()), keys, d, now)
    {
      var currentSpeed := OBSTACLE_SPEED_NORMAL;
      if score >= MAX_SPEED_SCORE_TRIGGER {
        currentSpeed := OBSTACLE_SPEED_MAX;
      } else if score >= MINIBOSS_SCORE_TRIGGER {
        currentSpeed := OBSTACLE_SPEED_FAST;
      }
      assert currentSpeed == SpeedFor(score);
      MovePlayer(keys);
      SpawnObstacles(currentSpeed, d, now);
      UpdateBackground(currentSpeed, d, now);
      UpdateObstacles(currentSpeed);
      Collide();
    }

    /** Horizontal input, the clamp, the jump, gravity and the ground clamp. */
    method MovePlayer(keys: Keys)
      modifies this
      ensures Snapshot() == old(Snapshot()).(tolya := PlayerStep(old(tolya), keys, hasMushroomPower))
    {
      var t := StepPlayer(tolya, keys, hasMushroomPower);
      tolya := t;
    }

    /** The frame counter and the spawn attempt. */
    method SpawnObstacles(currentSpeed: real, d: Draws, now: int)
      modifies this
      ensures Snapshot() == SpawnStep(old(Snapshot()), currentSpeed, d, now)
    {
      var fc := frameCount + 1;
      var list := obstacles;
      var minibossDone := hasSpawnedMiniboss;
      var mushroomDone := hasSpawnedMushroom;
      var minSpawnTime := if currentSpeed >= OBSTACLE_SPEED_FAST then DWELL_FAST else DWELL_NORMAL;
      if fc > minSpawnTime && d.spawn < SPAWN_CHANCE {
        if isMinibossActive && !minibossDone && d.miniboss < MINIBOSS_CHANCE {
          minibossDone := true;
          list := PushMinibosses(list, now);
          fc := MINIBOSS_COOLDOWN;
        } else {
          var canSpawnMushroom := score > MUSHROOM_SCORE_TRIGGER && !mushroomDone;
          if canSpawnMushroom && d.mushroom < MUSHROOM_CHANCE {
            list := list + [MushroomAt(now)];
            mushroomDone := true;
          } else {
            list := list + [BedFor(d, now)];
          }
        }
        if fc > 0 {
          fc := 0;
        }
      }
      frameCount, obstacles, hasSpawnedMiniboss, hasSpawnedMushroom := fc, list, minibossDone, mushroomDone;
    }

    /** The trees: the spawn roll, the half-speed scroll, and the cleanup. */
    method UpdateBackground(currentSpeed: real, d: Draws, now: int)
      modifies this
      ensures Snapshot() == old(Snapshot()).(bgObjects := BackgroundStep(old(bgObjects), currentSpeed, d, now))
    {
      var bg := AdvanceTrees(bgObjects, currentSpeed, d, now);
      bgObjects := bg;
    }

    /** The obstacles: the scroll, then the cleanup. */
    method UpdateObstacles(currentSpeed: real)
      modifies this
      ensures Snapshot() == ScrollStep(old(Snapshot()), currentSpeed)
    {
      var moved := ScrollEach(obstacles, currentSpeed);
      obstacles := Filter(moved, OnScreen);
    }

    /** The collision scan, its score and power-up stored, and the loss when it found one. */
    method Collide()
      modifies this
      ensures Snapshot() == CollisionStep(old(Snapshot()))
    {
      var r := DetectCollisions(tolya, obstacles, ScanState(score, hasMushroomPower, mushroomPowerCounter));
      StoreScan(r);
    }

    /** What the loop leaves: the list, the score and the power-up; on a loss the reason, the state and the high score. */
    method StoreScan(r: ScanResult)
      modifies this
      ensures Snapshot() == ApplyScan(old(Snapshot()), r)
    {
      obstacles, score, hasMushroomPower, mushroomPowerCounter := r.kept, r.st.score, r.st.active, r.st.counter;
      if r.loss.Some? {
        lossReason := r.loss.value;
        state := Lost;
        if score > highScore {
          highScore := score;
        }
      }
    }
  }

  // ---- One iteration of the collision loop against the scan ----

  lemma ScanAtPickUp(p: Player, s: seq<Obstacle>, i: nat, st: ScanState)
    requires i < |s| && Hits(p, s[i]) && s[i].isMushroom
    ensures var t := s[..i] + s[i + 1..];
      Prepend(s[..i], Scan(p, s[i..], st)) == Prepend(t[..i], Scan(p, t[i..], st.(active := true, counter := 0)))
  {
    var t := s[..i] + s[i + 1..];
    assert s[i..][0] == s[i] && s[i..][1..] == s[i + 1..];
    assert t[..i] == s[..i] && t[i..] == s[i + 1..];
  }

  lemma ScanAtLethal(p: Player, s: seq<Obstacle>, i: nat, st: ScanState)
    requires i < |s| && Hits(p, s[i]) && !s[i].isMushroom
    ensures Prepend(s[..i], Scan(p, s[i..], st)) == ScanResult(s, st, Some(ReasonOf(s[i])))
  {
    assert s[i..][0] == s[i];
    assert s[..i] + s[i..] == s;
  }

  lemma ScanAtPass(p: Player, s: seq<Obstacle>, i: nat, st: ScanState)
    requires i < |s| && !Hits(p, s[i]) && !s[i].passed && p.x > s[i].x + s[i].width
    ensures var t := s[i := s[i].(passed := true)];
      Prepend(s[..i], Scan(p, s[i..], st)) == Prepend(t[..i + 1], Scan(p, t[i + 1..], Pass(s[i], st)))
  {
    var t := s[i := s[i].(passed := true)];
    assert s[i..][0] == s[i] && s[i..][1..] == s[i + 1..];
    assert t[..i + 1] == s[..i] + [s[i].(passed := true)] && t[i + 1..] == s[i + 1..];
  }

  lemma ScanAtSkip(p: Player, s: seq<Obstacle>, i: nat, st: ScanState)
    requires i < |s| && !Hits(p, s[i]) && !(!s[i].passed && p.x > s[i].x + s[i].width)
    ensures Prepend(s[..i], Scan(p, s[i..], st)) == Prepend(s[..i + 1], Scan(p, s[i + 1..], st))
  {
    assert s[i..][0] == s[i] && s[i..][1..] == s[i + 1..];
    assert s[..i + 1] == s[..i] + [s[i]];
  }

  lemma ScanAtEnd(p: Player, s: seq<Obstacle>, st: ScanState)
    ensures Prepend(s[..|s|], Scan(p, s[|s|..], st)) == ScanResult(s, st, None)
  {
    assert s[..|s|] == s && s[|s|..] == [];
  }
}
