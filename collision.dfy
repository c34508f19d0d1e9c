/**
 * Collision and scoring: one scan of the obstacle list in spawn order. A
 * mushroom the player touches is picked up and removed; the first other
 * obstacle the player touches ends the game and the scan; every obstacle
 * the player has got past for the first time scores one point, and while
 * the power-up is on each such non-mushroom pass counts towards its end.
 */
module Collision {
  import opened Entities
  import opened Sequences
  import opened Lineage

  /** Collision symmetry: the overlap test does not depend on the order of its boxes. */
  lemma OverlapsSymmetric(a: Box, b: Box)
    ensures Overlaps(a, b) <==> Overlaps(b, a)
  {
  }

  predicate Hits(p: Player, o: Obstacle) { Overlaps(PlayerBox(p), ObstacleBox(o)) }

  predicate PicksUp(p: Player, o: Obstacle) { Hits(p, o) && o.isMushroom }

  predicate Lethal(p: Player, o: Obstacle) { Hits(p, o) && !o.isMushroom }

  /** Not yet counted, and its right edge strictly behind the player's x. */
  predicate Scores(p: Player, o: Obstacle) { !o.passed && p.x > o.x + o.width }

  /** A touched obstacle cannot also be scored on the same tick. */
  lemma HitsDoNotScore(p: Player, o: Obstacle)
    requires Hits(p, o)
    ensures !Scores(p, o)
  {
  }

  /** The loss reason of a lethal obstacle (giant bed first, then miniboss): it names the obstacle's kind. */
  function ReasonOf(o: Obstacle): (r: LossReason)
    ensures !o.isMushroom ==>
      (r == GiantBedLoss <==> KindOf(o) == GiantBed) &&
      (r == MinibossLoss <==> KindOf(o) == MinibossBed) &&
      (r == NormalLoss <==> KindOf(o) == NormalBed)
  {
    if o.isGiant then GiantBedLoss else if o.isMiniboss then MinibossLoss else NormalLoss
  }

  /** The score and the power-up as the scan threads them. */
  datatype ScanState = ScanState(score: nat, active: bool, counter: nat)

  datatype ScanResult = ScanResult(kept: seq<Obstacle>, st: ScanState, loss: Option<LossReason>)

  /** Score a pass; while powered, a non-mushroom pass counts towards the end of the power-up. */
  function Pass(o: Obstacle, st: ScanState): (r: ScanState)
    ensures r.score == st.score + 1
    ensures r.active ==> st.active
    ensures !st.active || o.isMushroom ==> r.counter == st.counter && r.active == st.active
    ensures st.active && !o.isMushroom ==>
      r.counter == st.counter + 1 && (r.active <==> r.counter < MUSHROOM_POWER_PASSES)
  {
    if st.active && !o.isMushroom then
      var c := st.counter + 1;
      ScanState(st.score + 1, if c >= MUSHROOM_POWER_PASSES then false else st.active, c)
    else
      st.(score := st.score + 1)
  }

  /** The scan from the front of `s`, starting from `st`. */
  function Scan(p: Player, s: seq<Obstacle>, st: ScanState): (r: ScanResult)
    ensures st.score <= r.st.score <= st.score + |s|
    ensures |r.kept| <= |s|
    decreases |s|
  {
    if s == [] then ScanResult([], st, None)
    else
      var o := s[0];
      if Hits(p, o) then
        if o.isMushroom then Scan(p, s[1..], st.(active := true, counter := 0))
        else ScanResult(s, st, Some(ReasonOf(o)))
      else if Scores(p, o) then
        var rest := Scan(p, s[1..], Pass(o, st));
        rest.(kept := [o.(passed := true)] + rest.kept)
      else
        var rest := Scan(p, s[1..], st);
        rest.(kept := [o] + rest.kept)
  }

  // ---- Reference definitions the scan is proved against ----

  /** Index of the first lethal obstacle in spawn order, or |s| if there is none. */
  function FirstLethal(p: Player, s: seq<Obstacle>): (k: nat)
    ensures k <= |s|
    ensures k < |s| ==> Lethal(p, s[k])
    ensures forall i :: 0 <= i < k ==> !Lethal(p, s[i])
    decreases |s|
  {
    if s == [] then 0 else if Lethal(p, s[0]) then 0 else 1 + FirstLethal(p, s[1..])
  }

  /** How many obstacles of `s` score. */
  function CountScoring(p: Player, s: seq<Obstacle>): (n: nat)
    ensures n <= |s|
    decreases |s|
  {
    if s == [] then 0 else (if Scores(p, s[0]) then 1 else 0) + CountScoring(p, s[1..])
  }

  /** The test that keeps an obstacle through the scan: it is not a touched mushroom. */
  function NotPickedUp(p: Player): Obstacle -> bool {
    o => !PicksUp(p, o)
  }

  /** Every obstacle with its passed flag set if it scores. */
  function MarkAll(p: Player, s: seq<Obstacle>): (r: seq<Obstacle>)
    ensures |r| == |s|
    ensures forall i :: 0 <= i < |s| ==> r[i] == s[i].(passed := s[i].passed || Scores(p, s[i]))
    decreases |s|
  {
    if s == [] then [] else [s[0].(passed := s[0].passed || Scores(p, s[0]))] + MarkAll(p, s[1..])
  }

  /** The loss is decided by the first lethal obstacle in spawn order, and only by it. */
  lemma {:induction false} ScanLoss(p: Player, s: seq<Obstacle>, st: ScanState)
    ensures var k := FirstLethal(p, s);
      Scan(p, s, st).loss == if k < |s| then Some(ReasonOf(s[k])) else None
    decreases |s|
  {
    if s != [] && !Lethal(p, s[0]) {
      var o := s[0];
      if Hits(p, o) {
        ScanLoss(p, s[1..], st.(active := true, counter := 0));
      } else if Scores(p, o) {
        ScanLoss(p, s[1..], Pass(o, st));
      } else {
        ScanLoss(p, s[1..], st);
      }
    }
  }

  /**
   * The score rises by exactly one for each obstacle before the first
   * lethal one that scores; nothing after a lethal hit is counted.
   */
  lemma {:induction false} ScanScore(p: Player, s: seq<Obstacle>, st: ScanState)
    ensures var k := FirstLethal(p, s);
      Scan(p, s, st).st.score == st.score + CountScoring(p, s[..k])
    decreases |s|
  {
    var k := FirstLethal(p, s);
    if s != [] && !Lethal(p, s[0]) {
      var o := s[0];
      assert s[..k][0] == o && s[..k][1..] == s[1..][..k - 1];
      if Hits(p, o) {
        ScanScore(p, s[1..], st.(active := true, counter := 0));
      } else if Scores(p, o) {
        ScanScore(p, s[1..], Pass(o, st));
      } else {
        ScanScore(p, s[1..], st);
      }
    } else {
      assert s[..k] == [];
    }
  }

  /**
   * What the scan leaves in the list: before the first lethal obstacle,
   * every obstacle but the touched mushrooms, marked passed if it scored;
   * from the lethal one on, the list as it was.
   */
  lemma {:induction false} ScanKept(p: Player, s: seq<Obstacle>, st: ScanState)
    ensures var k := FirstLethal(p, s);
      Scan(p, s, st).kept == MarkAll(p, Filter(s[..k], NotPickedUp(p))) + s[k..]
    decreases |s|
  {
    var k := FirstLethal(p, s);
    if s == [] {
    } else if Lethal(p, s[0]) {
      assert s[..k] == [];
    } else {
      ScanKept(p, s[1..], NextState(p, s[0], st));
      ScanKeptCons(p, s, st);
    }
  }

  /** The scan state after a non-lethal obstacle. */
  function NextState(p: Player, o: Obstacle, st: ScanState): ScanState {
    if PicksUp(p, o) then st.(active := true, counter := 0)
    else if Scores(p, o) then Pass(o, st) else st
  }

  /** The step of ScanKept: a non-lethal head in front of what the rest of the scan keeps. */
  lemma ScanKeptCons(p: Player, s: seq<Obstacle>, st: ScanState)
    requires s != [] && !Lethal(p, s[0])
    requires var k := FirstLethal(p, s[1..]);
      Scan(p, s[1..], NextState(p, s[0], st)).kept == MarkAll(p, Filter(s[1..][..k], NotPickedUp(p))) + s[1..][k..]
    ensures var k := FirstLethal(p, s);
      Scan(p, s, st).kept == MarkAll(p, Filter(s[..k], NotPickedUp(p))) + s[k..]
  {
    var k := FirstLethal(p, s);
    var o := s[0];
    var t := s[1..];
    var k' := FirstLethal(p, t);
    assert k == k' + 1;
    var pre := t[..k'];
    assert s[..k] == [o] + pre;
    assert s[k..] == t[k'..];
    var f := MarkAll(p, Filter(pre, NotPickedUp(p)));
    KeptCons(p, o, pre);
    ScanHead(p, s, st);
    var head := if PicksUp(p, o) then [] else [o.(passed := o.passed || Scores(p, o))];
    ConcatAssociative(head, f, t[k'..]);
  }

  /** One unfolding of the scan over a non-lethal head. */
  lemma ScanHead(p: Player, s: seq<Obstacle>, st: ScanState)
    requires s != [] && !Lethal(p, s[0])
    ensures Scan(p, s, st).kept ==
      (if PicksUp(p, s[0]) then [] else [s[0].(passed := s[0].passed || Scores(p, s[0]))])
      + Scan(p, s[1..], NextState(p, s[0], st)).kept
  {
    var o := s[0];
    if PicksUp(p, o) {
      assert [] + Scan(p, s[1..], NextState(p, o, st)).kept == Scan(p, s[1..], NextState(p, o, st)).kept;
    } else if Scores(p, o) {
      assert o.(passed := o.passed || Scores(p, o)) == o.(passed := true);
    }
  }

  /** One obstacle in front of the survivors of the scan. */
  lemma KeptCons(p: Player, o: Obstacle, pre: seq<Obstacle>)
    requires !Lethal(p, o)
    ensures MarkAll(p, Filter([o] + pre, NotPickedUp(p))) ==
      (if PicksUp(p, o) then [] else [o.(passed := o.passed || Scores(p, o))]) + MarkAll(p, Filter(pre, NotPickedUp(p)))
  {
    assert ([o] + pre)[0] == o;
    assert ([o] + pre)[1..] == pre;
    var f := Filter(pre, NotPickedUp(p));
    if !PicksUp(p, o) {
      assert Filter([o] + pre, NotPickedUp(p)) == [o] + f;
      assert ([o] + f)[1..] == f;
    }
  }

  /** The scan only drops obstacles and sets passed flags: nothing moves or changes kind. */
  lemma {:induction false} ScanEmbeds(p: Player, s: seq<Obstacle>, st: ScanState)
    ensures Embeds(s, Scan(p, s, st).kept, 0.0)
    decreases |s|
  {
    if s != [] {
      var o := s[0];
      var r := Scan(p, s, st);
      if Hits(p, o) {
        if o.isMushroom {
          ScanEmbeds(p, s[1..], st.(active := true, counter := 0));
        } else {
          EmbedsReflexive(s);
        }
      } else {
        var st' := if Scores(p, o) then Pass(o, st) else st;
        ScanEmbeds(p, s[1..], st');
        assert r.kept[1..] == Scan(p, s[1..], st').kept;
        assert Descends(o, r.kept[0], 0.0);
      }
    }
  }

  /**
   * The power-up: it can come on only by touching a mushroom, and while on
   * its counter stays below five.
   */
  lemma {:induction false} ScanPower(p: Player, s: seq<Obstacle>, st: ScanState)
    requires st.active ==> st.counter < MUSHROOM_POWER_PASSES
    ensures var r := Scan(p, s, st).st;
      (r.active ==> r.counter < MUSHROOM_POWER_PASSES) &&
      (r.active && !st.active ==> exists i :: 0 <= i < |s| && PicksUp(p, s[i]))
    decreases |s|
  {
    if s != [] {
      var o := s[0];
      if Hits(p, o) {
        if o.isMushroom {
          ScanPower(p, s[1..], st.(active := true, counter := 0));
        }
      } else {
        var st' := if Scores(p, o) then Pass(o, st) else st;
        ScanPower(p, s[1..], st');
        var r := Scan(p, s, st).st;
        if r.active && !st.active {
          var i :| 0 <= i < |s[1..]| && PicksUp(p, s[1..][i]);
          assert PicksUp(p, s[i + 1]);
        }
      }
    }
  }

  /** Obstacles the player neither touches nor gets past leave the scan as they are. */
  predicate Untouched(p: Player, o: Obstacle) { !Hits(p, o) && !Scores(p, o) }

  /** A stretch of untouched obstacles is kept as it is, with no score, no power-up change and no loss. */
  lemma {:induction false} ScanUntouched(p: Player, s: seq<Obstacle>, st: ScanState)
    requires forall i :: 0 <= i < |s| ==> Untouched(p, s[i])
    ensures Scan(p, s, st) == ScanResult(s, st, None)
    decreases |s|
  {
    if s != [] {
      ScanUntouched(p, s[1..], st);
      assert [s[0]] + s[1..] == s;
    }
  }

  /**
   * Picking up a mushroom among obstacles the player neither touches nor
   * passes: it alone is removed, the power-up is on with a fresh counter,
   * the score is unchanged and there is no loss.
   */
  lemma {:induction false} PickUpOnly(p: Player, pre: seq<Obstacle>, m: Obstacle, post: seq<Obstacle>, st: ScanState)
    requires PicksUp(p, m)
    requires forall i :: 0 <= i < |pre| ==> Untouched(p, pre[i])
    requires forall i :: 0 <= i < |post| ==> Untouched(p, post[i])
    ensures Scan(p, pre + [m] + post, st) == ScanResult(pre + post, ScanState(st.score, true, 0), None)
    decreases |pre|
  {
    var s := pre + [m] + post;
    if pre == [] {
      assert s[0] == m && s[1..] == post;
      ScanUntouched(p, post, st.(active := true, counter := 0));
    } else {
      assert s[0] == pre[0] && s[1..] == pre[1..] + [m] + post;
      PickUpOnly(p, pre[1..], m, post, st);
      assert [pre[0]] + (pre[1..] + post) == pre + post;
    }
  }

  // ---- The high score ----

  /**
   * The high score after a loss: raised to the score when the score beats it.
   */
  function HighScoreAfterLoss(highScore: nat, score: nat): (r: nat)
    ensures r >= highScore && r >= score
    ensures r == highScore || r == score
  {
    if score > highScore then score else highScore
  }

  /**
   * The same update as the game's loop makes it: the comparison is against
   * the high score the loop captured when it was created, which is the
   * initial 0, not against the current high score.
   */
  function HighScoreAsWritten(captured: nat, highScore: nat, score: nat): nat {
    if score > captured then score else highScore
  }

  /** With the captured 0, a later and lower losing score replaces a higher high score. */
  lemma StaleHighScoreDrops()
    ensures HighScoreAsWritten(0, 10, 3) == 3
    ensures HighScoreAfterLoss(10, 3) == 10
  {
  }

  /** The collision step of a tick: the scan, then the loss transition when it found one. */
  function CollisionStep(w: World): (r: World)
    ensures r.tolya == w.tolya && r.bgObjects == w.bgObjects && r.frameCount == w.frameCount
    ensures r.score >= w.score
    ensures r.state == w.state || r.state == Lost
    ensures r.highScore >= w.highScore
    ensures r.isMinibossActive == w.isMinibossActive && r.hasSpawnedMiniboss == w.hasSpawnedMiniboss
    ensures r.hasSpawnedMushroom == w.hasSpawnedMushroom && r.showWarning == w.showWarning
  {
    ApplyScan(w, Scan(w.tolya, w.obstacles, ScanState(w.score, w.hasMushroomPower, w.mushroomPowerCounter)))
  }

  /** The world after a scan: its list, score and power-up stored, and the loss when it found one. */
  function ApplyScan(w: World, res: ScanResult): World {
    var base := w.(obstacles := res.kept, score := res.st.score,
                   hasMushroomPower := res.st.active, mushroomPowerCounter := res.st.counter);
    match res.loss
    case None => base
    case Some(reason) =>
      base.(state := Lost, lossReason := reason, highScore := HighScoreAfterLoss(w.highScore, res.st.score))
  }
}
