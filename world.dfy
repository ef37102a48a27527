/** One tick of Game.update on values: the phases in the order the source
    runs them, the invariant init establishes and every tick keeps, and what a
    tick promises about distance, the highest point, the registry and game over. */
module Simulation {
  import opened Config
  import opened Platforms
  import opened Physics
  import opened Registry
  import opened Difficulty

  /** The state Game.update reads and writes. */
  datatype World = World(
    player: PlayerState, platforms: seq<PlatformState>, distance: int,
    speedMultiplier: real, isRunning: bool, cameraOffsetY: real, highestY: real)

  /** A bound on how far above a platform's top the player can get after it
      bounces off it: its height plus jumpForce^2 / (2 * gravity), the
      continuous-time rise, which the discrete rise of 138 stays below. */
  const Clearance: real := PlayerHeight + JumpForce * JumpForce / (2.0 * Gravity)

  /** 30 + 12 * 12 / (2 * 0.5). */
  lemma ClearanceValue()
    ensures Clearance == 174.0
  {
  }

  /** The geometry a tick keeps: a non-empty ladder of platforms, the player
      inside the wrap bounds and no faster than the terminal speed, the player's
      Reach bound at most Clearance above the top platform, and the camera
      never scrolled so far that the top platform is below the middle of the
      screen by more than Clearance. */
  predicate Arranged(w: World)
  {
    && |w.platforms| > 0
    && Ladder(w.platforms)
    && -PlayerWidth <= w.player.x <= CanvasWidth
    && w.player.velocityY <= MaxVelocityY
    && Reach(w.player) >= Top(w.platforms).y - Clearance
    && Top(w.platforms).y + w.cameraOffsetY <= CanvasHeight / 2.0 + Clearance
    && w.distance >= 0
  }

  /** The invariant between ticks: the geometry, at least 15 platforms, and the
      multiplier that updateDifficulty last computed from the distance. */
  predicate WellFormed(w: World)
  {
    && Arranged(w)
    && |w.platforms| >= MinPlatforms
    && w.speedMultiplier == Multiplier(w.distance)
  }

  // The phases of Game.update, lines 218-262 of game.js.

  function MovePlayer(w: World, left: bool, right: bool): World
  {
    w.(player := PlayerStep(w.player, left, right))
  }

  function MovePlatforms(w: World): World
  {
    w.(platforms := Advance(w.platforms))
  }

  function Collide(w: World): World
  {
    w.(player := Resolve(w.player, w.platforms))
  }

  /** The camera follows a player above the middle of the screen, and the
      distance is ratcheted to a tenth of the camera offset, rounded down. */
  function FollowCamera(w: World): World
  {
    if w.player.y < CanvasHeight / 2.0 then
      var offset := CanvasHeight / 2.0 - w.player.y;
      var climbed := (offset / 10.0).Floor;
      w.(cameraOffsetY := offset, distance := if w.distance >= climbed then w.distance else climbed)
    else w
  }

  function TrackHighest(w: World): World
  {
    if w.player.y < w.highestY then w.(highestY := w.player.y) else w
  }

  function Evict(w: World): World
  {
    w.(platforms := Survivors(w.platforms, w.cameraOffsetY))
  }

  function Replenish(w: World, draws: seq<Draw>): World
    requires |w.platforms| > 0 && |w.platforms| + |draws| >= MinPlatforms
  {
    w.(platforms := TopUp(w.platforms, w.speedMultiplier, draws))
  }

  function UpdateDifficulty(w: World): World
  {
    w.(speedMultiplier := Multiplier(w.distance))
  }

  /** gameOver, reduced to its effect on the state. */
  function CheckGameOver(w: World): World
  {
    if w.player.y - w.highestY > CanvasHeight then w.(isRunning := false) else w
  }

  /** Physics, platform motion, collisions, camera and highest point. */
  function Prelude(w: World, left: bool, right: bool): World
  {
    TrackHighest(FollowCamera(Collide(MovePlatforms(MovePlayer(w, left, right)))))
  }

  // Each phase keeps the geometry.

  lemma MovePlayerKeeps(w: World, left: bool, right: bool)
    requires Arranged(w)
    ensures Arranged(MovePlayer(w, left, right))
  {
    StepKeepsReach(w.player, left, right);
  }

  lemma MovePlatformsKeeps(w: World)
    requires Arranged(w)
    ensures Arranged(MovePlatforms(w)) && |MovePlatforms(w).platforms| == |w.platforms|
  {
    var ps := Advance(w.platforms);
    AdvanceKeepsHeights(w.platforms);
    assert Top(ps).y == Top(w.platforms).y;
    assert Ladder(ps) by {
      forall i | 0 <= i < |ps| ensures Stacked(ps, i) {
        assert Stacked(w.platforms, i);
      }
    }
  }

  /** Whatever the collision pass does, the player's Reach bound stays within
      Clearance of the top platform: a landing puts it exactly Clearance above
      a platform, and no platform is above the top one. */
  lemma CollideKeeps(w: World)
    requires Arranged(w)
    ensures Arranged(Collide(w))
  {
    var s := w.player;
    ResolveCases(s, w.platforms);
    if Resolve(s, w.platforms) != s {
      var i :| 0 <= i < |w.platforms| && Resolve(s, w.platforms) == LandOn(s, w.platforms[i].y);
      LadderDescends(w.platforms);
      assert w.platforms[i].y >= Top(w.platforms).y;
    }
  }

  lemma FollowCameraKeeps(w: World)
    requires Arranged(w)
    ensures Arranged(FollowCamera(w))
    ensures FollowCamera(w).distance >= w.distance
  {
    ReachBelowPlayer(w.player);
  }

  /** The top platform is never evicted, so the registry is never empty when
      generateNewPlatform reads its last element. */
  lemma EvictKeeps(w: World)
    requires Arranged(w)
    ensures Arranged(Evict(w)) && Top(Evict(w).platforms) == Top(w.platforms)
  {
    assert OnScreen(Top(w.platforms), w.cameraOffsetY);
    EvictionKeepsTop(w.platforms, w.cameraOffsetY);
  }

  lemma ReplenishKeeps(w: World, draws: seq<Draw>)
    requires Arranged(w) && |w.platforms| + |draws| >= MinPlatforms
    ensures Arranged(Replenish(w, draws)) && |Replenish(w, draws).platforms| >= MinPlatforms
  {
    TopUpShape(w.platforms, w.speedMultiplier, draws);
  }

  lemma PreludeKeeps(w: World, left: bool, right: bool)
    requires Arranged(w)
    ensures Arranged(Prelude(w, left, right))
    ensures |Prelude(w, left, right).platforms| == |w.platforms|
    ensures Prelude(w, left, right).distance >= w.distance
  {
    var w1 := MovePlayer(w, left, right);
    MovePlayerKeeps(w, left, right);
    var w2 := MovePlatforms(w1);
    MovePlatformsKeeps(w1);
    var w3 := Collide(w2);
    CollideKeeps(w2);
    FollowCameraKeeps(w3);
  }

  /** Eviction after the prelude leaves at least the top platform, so the
      top-up always has a last element to build on. */
  lemma PreludeLeavesTop(w: World, left: bool, right: bool)
    requires Arranged(w)
    ensures |Evict(Prelude(w, left, right)).platforms| > 0
  {
    PreludeKeeps(w, left, right);
    EvictKeeps(Prelude(w, left, right));
  }

  /** Game.update. A stopped game is left alone; a running one goes through
      the nine phases in the source's order. */
  function Tick(w: World, left: bool, right: bool, draws: seq<Draw>): World
    requires WellFormed(w) && |draws| >= MinPlatforms - 1
  {
    if !w.isRunning then w
    else
      PreludeLeavesTop(w, left, right);
      CheckGameOver(UpdateDifficulty(Replenish(Evict(Prelude(w, left, right)), draws)))
  }

  /** What a running tick leaves in each field, phase by phase. */
  lemma TickUnfold(w: World, left: bool, right: bool, draws: seq<Draw>)
    requires WellFormed(w) && |draws| >= MinPlatforms - 1 && w.isRunning
    ensures var m := Prelude(w, left, right);
      var r := Tick(w, left, right, draws);
      && Arranged(m) && m.platforms == Advance(w.platforms)
      && m.speedMultiplier == w.speedMultiplier
      && m.player == Resolve(PlayerStep(w.player, left, right), Advance(w.platforms))
      && Arranged(Evict(m)) && Top(Evict(m).platforms) == Top(m.platforms)
      && r.player == m.player && r.cameraOffsetY == m.cameraOffsetY
      && r.distance == m.distance && r.highestY == m.highestY
      && r.platforms == TopUp(Evict(m).platforms, w.speedMultiplier, draws)
      && r.speedMultiplier == Multiplier(m.distance)
      && r.isRunning == !(m.player.y - m.highestY > CanvasHeight)
  {
    var m := Prelude(w, left, right);
    PreludeKeeps(w, left, right);
    EvictKeeps(m);
    var e := Evict(m);
    var t := Replenish(e, draws);
    var u := UpdateDifficulty(t);
    assert Tick(w, left, right, draws) == CheckGameOver(u);
  }

  /** A running tick as its last four phases after the prelude; eviction
      leaves at least one platform for the top-up to build on, and the result
      is well formed. */
  lemma TickPhases(w: World, left: bool, right: bool, draws: seq<Draw>)
    requires WellFormed(w) && |draws| >= MinPlatforms - 1 && w.isRunning
    ensures |Evict(Prelude(w, left, right)).platforms| > 0
    ensures Tick(w, left, right, draws) ==
              CheckGameOver(UpdateDifficulty(Replenish(Evict(Prelude(w, left, right)), draws)))
    ensures WellFormed(Tick(w, left, right, draws))
  {
    PreludeLeavesTop(w, left, right);
    TickKeepsWellFormed(w, left, right, draws);
  }

  /** The registry part of a running tick: the moved array is filtered at the
      new camera offset, and the survivors are topped up. */
  lemma TickPlatforms(w: World, left: bool, right: bool, draws: seq<Draw>)
    requires WellFormed(w) && |draws| >= MinPlatforms - 1 && w.isRunning
    ensures var moved := Advance(w.platforms);
      var c := Tick(w, left, right, draws).cameraOffsetY;
      && Ladder(moved) && |moved| > 0 && OnScreen(Top(moved), c)
      && |Survivors(moved, c)| > 0
      && Tick(w, left, right, draws).platforms == TopUp(Survivors(moved, c), w.speedMultiplier, draws)
  {
    TickUnfold(w, left, right, draws);
    EvictionKeepsTop(Advance(w.platforms), Tick(w, left, right, draws).cameraOffsetY);
  }

  /** update changes nothing while the game is not running. */
  lemma TickIdle(w: World, left: bool, right: bool, draws: seq<Draw>)
    requires WellFormed(w) && |draws| >= MinPlatforms - 1 && !w.isRunning
    ensures Tick(w, left, right, draws) == w
  {
  }

  /** Every tick keeps the invariant; in particular the array holds at least
      15 platforms, in strictly decreasing y, after each tick. */
  lemma TickKeepsWellFormed(w: World, left: bool, right: bool, draws: seq<Draw>)
    requires WellFormed(w) && |draws| >= MinPlatforms - 1
    ensures WellFormed(Tick(w, left, right, draws))
    ensures |Tick(w, left, right, draws).platforms| >= MinPlatforms
    ensures forall i, j :: 0 <= i < j < |Tick(w, left, right, draws).platforms| ==>
              Tick(w, left, right, draws).platforms[i].y > Tick(w, left, right, draws).platforms[j].y
  {
    var r := Tick(w, left, right, draws);
    if w.isRunning {
      var m := Prelude(w, left, right);
      PreludeKeeps(w, left, right);
      EvictKeeps(m);
      ReplenishKeeps(Evict(m), draws);
    }
    LadderDescends(r.platforms);
  }

  /** The distance never goes down, and when it goes up it is the camera
      offset divided by ten, rounded down. */
  lemma TickRatchetsDistance(w: World, left: bool, right: bool, draws: seq<Draw>)
    requires WellFormed(w) && |draws| >= MinPlatforms - 1
    ensures var r := Tick(w, left, right, draws);
      && r.distance >= w.distance
      && (r.distance > w.distance ==>
            r.distance as real <= r.cameraOffsetY / 10.0 < r.distance as real + 1.0)
  {
    if w.isRunning {
      PreludeKeeps(w, left, right);
    }
  }

  /** The highest-point marker never moves down, and after a tick it is at or
      above the player. */
  lemma TickTracksHighest(w: World, left: bool, right: bool, draws: seq<Draw>)
    requires WellFormed(w) && |draws| >= MinPlatforms - 1 && w.isRunning
    ensures var r := Tick(w, left, right, draws);
      r.highestY <= w.highestY && r.highestY <= r.player.y
      && (r.highestY == w.highestY || r.highestY == r.player.y)
  {
  }

  /** A running game stops exactly when the player is more than one canvas
      height below the highest point reached. */
  lemma TickGameOver(w: World, left: bool, right: bool, draws: seq<Draw>)
    requires WellFormed(w) && |draws| >= MinPlatforms - 1 && w.isRunning
    ensures var r := Tick(w, left, right, draws);
      r.isRunning <==> !(r.player.y - r.highestY > CanvasHeight)
  {
  }

  /** Collisions are checked against the moved array in order and the first
      platform that catches the player bounces it: with no platform catching
      the physics step the player stays where that step put it, and otherwise
      it lands on the first one that does. At most one landing per tick. */
  lemma TickLandsOnFirstHit(w: World, left: bool, right: bool, draws: seq<Draw>)
    requires WellFormed(w) && |draws| >= MinPlatforms - 1 && w.isRunning
    ensures var s := PlayerStep(w.player, left, right);
      var moved := Advance(w.platforms);
      var p := Tick(w, left, right, draws).player;
      (forall j :: 0 <= j < |moved| ==> !Collides(s, moved[j])) ==> p == s
    ensures var s := PlayerStep(w.player, left, right);
      var moved := Advance(w.platforms);
      var p := Tick(w, left, right, draws).player;
      forall i ::
        0 <= i < |moved| && Collides(s, moved[i]) && (forall j :: 0 <= j < i ==> !Collides(s, moved[j]))
        ==> p == LandOn(s, moved[i].y)
  {
    var s := PlayerStep(w.player, left, right);
    var moved := Advance(w.platforms);
    TickUnfold(w, left, right, draws);
    if forall j :: 0 <= j < |moved| ==> !Collides(s, moved[j]) {
      ResolveNoHit(s, moved);
    }
    forall i | 0 <= i < |moved| && Collides(s, moved[i]) &&
        (forall j :: 0 <= j < i ==> !Collides(s, moved[j]))
      ensures Tick(w, left, right, draws).player == LandOn(s, moved[i].y)
    {
      ResolveFirstHit(s, moved, i);
    }
  }

  /** The tick's registry is the moved array with a prefix evicted (the
      platforms now below the screen) and new platforms appended up to 15,
      each one gap above the one before, built at the multiplier the tick
      started with. */
  lemma TickRegistry(w: World, left: bool, right: bool, draws: seq<Draw>)
    requires WellFormed(w) && |draws| >= MinPlatforms - 1 && w.isRunning
    ensures var moved := Advance(w.platforms);
      var r := Tick(w, left, right, draws);
      var n := |Survivors(moved, r.cameraOffsetY)|;
      && 0 < n <= |moved|
      && (forall i :: 0 <= i < |moved| - n ==> !OnScreen(moved[i], r.cameraOffsetY))
      && |r.platforms| == (if n >= MinPlatforms then n else MinPlatforms)
      && r.platforms[..n] == moved[|moved| - n..]
      && (forall i :: n <= i < |r.platforms| ==>
            r.platforms[i] == Spawn(r.platforms[i - 1], w.speedMultiplier, draws[i - n]))
  {
    var moved := Advance(w.platforms);
    var r := Tick(w, left, right, draws);
    TickPlatforms(w, left, right, draws);
    var kept := Survivors(moved, r.cameraOffsetY);
    EvictThenTopUp(moved, r.cameraOffsetY, w.speedMultiplier, draws);
    assert r.platforms == TopUp(kept, w.speedMultiplier, draws);
  }

  /** Below distance 1000 a game with no moving platform creates none. */
  lemma TickStaticBelowThreshold(w: World, left: bool, right: bool, draws: seq<Draw>)
    requires WellFormed(w) && |draws| >= MinPlatforms - 1
    requires w.distance < Milestones[1]
    requires forall i :: 0 <= i < |w.platforms| ==> !w.platforms[i].isMoving
    ensures var r := Tick(w, left, right, draws);
      forall i :: 0 <= i < |r.platforms| ==> !r.platforms[i].isMoving
  {
    if w.isRunning {
      var moved := Advance(w.platforms);
      var r := Tick(w, left, right, draws);
      TickRegistry(w, left, right, draws);
      MovingThresholdDistance(w.distance);
      var n := |Survivors(moved, r.cameraOffsetY)|;
      forall i | 0 <= i < |r.platforms| ensures !r.platforms[i].isMoving {
        if i < n {
          assert r.platforms[i] == r.platforms[..n][i] == moved[|moved| - n + i];
          assert moved[|moved| - n + i] == PlatformStep(w.platforms[|moved| - n + i]);
        } else {
          assert w.speedMultiplier < MovingThreshold;
          assert r.platforms[i] == Spawn(r.platforms[i - 1], w.speedMultiplier, draws[i - n]);
        }
      }
    }
  }
}
