/**
 * The spawner: the frame-gated obstacle policy (a miniboss group, a
 * mushroom, a giant bed or a normal bed) and the background trees.
 */
module Spawner {
  import opened Entities
  import opened Sequences
  import opened Lineage
  import Physics

  /** The i-th miniboss of the group, 350 pixels behind the one before. */
  function MinibossAt(i: nat, now: int): (o: Obstacle)
    ensures WellFormed(o) && KindOf(o) == MinibossBed && !o.passed
    ensures o.x == GAME_WIDTH + (i as real) * MINIBOSS_SPACING && o.id == now + i
  {
    Obstacle(GAME_WIDTH + (i as real) * MINIBOSS_SPACING, FLOOR_LINE - MINIBOSS_HEIGHT,
             MINIBOSS_WIDTH, MINIBOSS_HEIGHT, now + i, false, 0, false, true, false)
  }

  function MinibossGroup(now: int): (g: seq<Obstacle>)
    ensures |g| == MINIBOSS_COUNT
  {
    [MinibossAt(0, now), MinibossAt(1, now), MinibossAt(2, now)]
  }

  /** The mushroom: 40 by 40, standing on the floor line at the right edge. */
  function MushroomAt(now: int): (o: Obstacle)
    ensures WellFormed(o) && KindOf(o) == Mushroom && !o.passed && o.x == GAME_WIDTH
  {
    Obstacle(GAME_WIDTH, FLOOR_LINE - MUSHROOM_SIZE, MUSHROOM_SIZE, MUSHROOM_SIZE,
             now, false, 0, false, false, true)
  }

  /** A giant bed with probability 1%, otherwise a normal bed 40 to 59 pixels high. */
  function BedFor(d: Draws, now: int): (o: Obstacle)
    ensures o.x == GAME_WIDTH && !o.passed && !o.isMiniboss && !o.isMushroom
    ensures o.isGiant <==> d.giant < GIANT_CHANCE
    ensures ValidDraws(d) ==> WellFormed(o)
  {
    var isGiant := d.giant < GIANT_CHANCE;
    var randomHeightAdd := (d.height * BED_HEIGHT_SPREAD).Floor;
    var height := if isGiant then GIANT_BED_HEIGHT else BASE_BED_HEIGHT + randomHeightAdd as real;
    var width := if isGiant then GIANT_BED_WIDTH else BED_WIDTH;
    Obstacle(GAME_WIDTH, FLOOR_LINE - height, width, height, now, false,
             (d.variant * BED_VARIANTS).Floor, isGiant, false, false)
  }

  /** Whether this tick's spawn attempt is made and succeeds. */
  predicate SpawnGate(w: World, speed: real, d: Draws) {
    w.frameCount + 1 > Physics.MinSpawnTime(speed) && d.spawn < SPAWN_CHANCE
  }

  predicate MinibossRoll(w: World, d: Draws) {
    w.isMinibossActive && !w.hasSpawnedMiniboss && d.miniboss < MINIBOSS_CHANCE
  }

  predicate MushroomRoll(w: World, d: Draws) {
    w.score > MUSHROOM_SCORE_TRIGGER && !w.hasSpawnedMushroom && d.mushroom < MUSHROOM_CHANCE
  }

  /** What the attempt appends, when it succeeds. */
  function Spawned(w: World, d: Draws, now: int): seq<Obstacle> {
    if MinibossRoll(w, d) then MinibossGroup(now)
    else if MushroomRoll(w, d) then [MushroomAt(now)]
    else [BedFor(d, now)]
  }

  /**
   * The spawn step of a tick: advance the frame counter, and when the gate
   * opens append a group of three minibosses (once per game, after the
   * trigger), else a mushroom (once per game, above score 25), else a bed.
   */
  function SpawnStep(w: World, speed: real, d: Draws, now: int): (r: World)
    // only the obstacle list, the frame counter and the two one-shot flags change
    ensures r == w.(obstacles := r.obstacles, frameCount := r.frameCount,
                    hasSpawnedMiniboss := r.hasSpawnedMiniboss, hasSpawnedMushroom := r.hasSpawnedMushroom)
    // obstacles are appended, never altered
    ensures r.obstacles == w.obstacles + if SpawnGate(w, speed, d) then Spawned(w, d, now) else []
    ensures !SpawnGate(w, speed, d) ==> r.frameCount == w.frameCount + 1
    ensures SpawnGate(w, speed, d) ==> r.frameCount <= 0
    // the miniboss group: once, after the trigger, then a cooldown of 150 frames
    ensures r.hasSpawnedMiniboss == (w.hasSpawnedMiniboss || (SpawnGate(w, speed, d) && MinibossRoll(w, d)))
    ensures SpawnGate(w, speed, d) && MinibossRoll(w, d) ==> r.frameCount == MINIBOSS_COOLDOWN
    // the mushroom: once, above score 25, never on a tick that spawns minibosses
    ensures r.hasSpawnedMushroom ==
      (w.hasSpawnedMushroom || (SpawnGate(w, speed, d) && !MinibossRoll(w, d) && MushroomRoll(w, d)))
  {
    var fc := w.frameCount + 1;
    if fc > Physics.MinSpawnTime(speed) && d.spawn < SPAWN_CHANCE then
      var after :=
        if w.isMinibossActive && !w.hasSpawnedMiniboss && d.miniboss < MINIBOSS_CHANCE then
          w.(hasSpawnedMiniboss := true, obstacles := w.obstacles + MinibossGroup(now),
             frameCount := MINIBOSS_COOLDOWN)
        else
          var canSpawnMushroom := w.score > MUSHROOM_SCORE_TRIGGER && !w.hasSpawnedMushroom;
          if canSpawnMushroom && d.mushroom < MUSHROOM_CHANCE then
            w.(obstacles := w.obstacles + [MushroomAt(now)], hasSpawnedMushroom := true, frameCount := fc)
          else
            w.(obstacles := w.obstacles + [BedFor(d, now)], frameCount := fc);
      after.(frameCount := if after.frameCount > 0 then 0 else after.frameCount)
    else
      w.(frameCount := fc)
  }

  /** Every obstacle the spawner makes is well-formed and not yet passed. */
  lemma SpawnedWellFormed(w: World, d: Draws, now: int)
    requires ValidDraws(d)
    ensures forall o :: o in Spawned(w, d, now) ==> WellFormed(o) && !o.passed
  {
  }

  /**
   * Minibosses and mushrooms in what is spawned: three minibosses exactly
   * when the miniboss roll wins, one mushroom exactly when the mushroom
   * roll wins instead, none otherwise.
   */
  lemma SpawnedCounts(w: World, d: Draws, now: int)
    ensures CountKind(Spawned(w, d, now), MinibossBed) == if MinibossRoll(w, d) then MINIBOSS_COUNT else 0
    ensures CountKind(Spawned(w, d, now), Mushroom) ==
      if !MinibossRoll(w, d) && MushroomRoll(w, d) then 1 else 0
  {
    var g := MinibossGroup(now);
    assert g[1..][1..][1..] == [];
    assert CountKind(g[1..][1..], MinibossBed) == 1;
    assert CountKind(g[1..], MinibossBed) == 2;
    assert CountKind(g[1..][1..], Mushroom) == 0;
    var b := [BedFor(d, now)];
    assert b[1..] == [];
    var m := [MushroomAt(now)];
    assert m[1..] == [];
  }

  /** The miniboss group spawns at x = 800, 1150 and 1500. */
  lemma MinibossPositions(now: int)
    ensures [MinibossGroup(now)[0].x, MinibossGroup(now)[1].x, MinibossGroup(now)[2].x] == [800.0, 1150.0, 1500.0]
  {
  }

  // ---- Background trees ----

  /** A tree of random scale in [0.5, 1), sunk 10 pixels into the ground band. */
  function TreeFor(d: Draws, now: int): (b: BackgroundObj)
    ensures b.x == GAME_WIDTH && b.width == b.height
    ensures b.y + b.height == FLOOR_LINE + TREE_SINK
    ensures UnitDraw(d.treeScale) ==> TREE_SIZE * 0.5 <= b.width < TREE_SIZE
  {
    var scale := 0.5 + d.treeScale * 0.5;
    BackgroundObj(GAME_WIDTH, FLOOR_LINE - TREE_SIZE * scale + TREE_SINK, TREE_SIZE * scale, TREE_SIZE * scale,
                  now as real + d.treeId, (d.treeType * TREE_TYPES).Floor)
  }

  /** Every tree moved `dx` to the left. */
  function ScrollTrees(s: seq<BackgroundObj>, dx: real): (r: seq<BackgroundObj>)
    ensures |r| == |s|
    ensures forall i :: 0 <= i < |s| ==> r[i] == s[i].(x := s[i].x - dx)
    decreases |s|
  {
    if s == [] then [] else [s[0].(x := s[0].x - dx)] + ScrollTrees(s[1..], dx)
  }

  /** Trees: a 1% spawn at the right edge, a half-speed scroll, and the cleanup. */
  function BackgroundStep(bg: seq<BackgroundObj>, speed: real, d: Draws, now: int): (r: seq<BackgroundObj>)
    ensures forall i :: 0 <= i < |r| ==> TreeOnScreen(r[i])
    ensures |r| <= |bg| + 1
  {
    var spawned := if d.tree < TREE_CHANCE then bg + [TreeFor(d, now)] else bg;
    Filter(ScrollTrees(spawned, speed * 0.5), TreeOnScreen)
  }

  /** A tree that stays on screen moved exactly half the obstacle speed. */
  lemma TreesScrollAtHalfSpeed(bg: seq<BackgroundObj>, speed: real, d: Draws, now: int, i: nat)
    requires i < |bg| && TreeOnScreen(bg[i].(x := bg[i].x - speed * 0.5))
    ensures bg[i].(x := bg[i].x - speed * 0.5) in BackgroundStep(bg, speed, d, now)
  {
    var spawned := if d.tree < TREE_CHANCE then bg + [TreeFor(d, now)] else bg;
    assert spawned[i] == bg[i];
    var scrolled := ScrollTrees(spawned, speed * 0.5);
    assert scrolled[i] == bg[i].(x := bg[i].x - speed * 0.5);
    FilterMembers(scrolled, TreeOnScreen, scrolled[i]);
  }
}
