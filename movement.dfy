/**
 * Obstacle movement: every obstacle scrolls left by the current speed,
 * then those whose right edge is at or left of x = -100 are dropped.
 */
module Movement {
  import opened Entities
  import opened Sequences
  import opened Lineage

  /** Every obstacle moved `dx` to the left, nothing else about it changed. */
  function ScrollObstacles(s: seq<Obstacle>, dx: real): (r: seq<Obstacle>)
    ensures |r| == |s|
    ensures forall i :: 0 <= i < |s| ==> r[i].x == s[i].x - dx && r[i] == s[i].(x := r[i].x)
    decreases |s|
  {
    if s == [] then [] else [s[0].(x := s[0].x - dx)] + ScrollObstacles(s[1..], dx)
  }

  /** The scroll and the cleanup of one tick. */
  function ScrollStep(w: World, speed: real): (r: World)
    ensures r == w.(obstacles := r.obstacles)
    ensures forall i :: 0 <= i < |r.obstacles| ==> OnScreen(r.obstacles[i])
  {
    w.(obstacles := Filter(ScrollObstacles(w.obstacles, speed), OnScreen))
  }

  /** The scroll and cleanup only move obstacles by the speed and drop some, in order. */
  lemma ScrollStepEmbeds(w: World, speed: real)
    ensures Embeds(w.obstacles, ScrollStep(w, speed).obstacles, speed)
  {
    var moved := ScrollObstacles(w.obstacles, speed);
    EmbedsPointwise(w.obstacles, moved, speed);
    EmbedsFilter(moved, OnScreen);
    EmbedsTransitive(w.obstacles, moved, Filter(moved, OnScreen), speed, 0.0);
    assert speed + 0.0 == speed;
  }

  /** Every obstacle still on screen after moving is kept. */
  lemma ScrollStepKeepsOnScreen(w: World, speed: real, i: nat)
    requires i < |w.obstacles|
    requires OnScreen(w.obstacles[i].(x := w.obstacles[i].x - speed))
    ensures w.obstacles[i].(x := w.obstacles[i].x - speed) in ScrollStep(w, speed).obstacles
  {
    var moved := ScrollObstacles(w.obstacles, speed);
    assert moved[i] == w.obstacles[i].(x := w.obstacles[i].x - speed);
    FilterMembers(moved, OnScreen, moved[i]);
  }

  /** Running the cleanup a second time removes nothing. */
  lemma CleanupIdempotent(w: World, speed: real)
    ensures Filter(ScrollStep(w, speed).obstacles, OnScreen) == ScrollStep(w, speed).obstacles
  {
    FilterIdempotent(ScrollObstacles(w.obstacles, speed), OnScreen);
  }
}
