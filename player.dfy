/** The player (class Player of game.js): one physics step, the landing test
    and the landing itself, first as values, then as the object the game
    mutates. */
module Physics {
  import opened Config
  import opened Platforms

  /** The mutable fields of a Player object; width and height are constants. */
  datatype PlayerState = PlayerState(x: real, y: real, velocityX: real, velocityY: real, isOnGround: bool)

  /** Player.update with the direction keys reduced to two flags: `left` is
      ArrowLeft or a held, `right` is ArrowRight or d held. */
  function PlayerStep(s: PlayerState, left: bool, right: bool): (r: PlayerState)
    // the horizontal velocity is set, not accumulated; left wins a tie
    ensures r.velocityX == (if left then -MoveSpeed else if right then MoveSpeed else 0.0)
    // gravity, capped at the terminal speed
    ensures r.velocityY == (if s.velocityY + Gravity > MaxVelocityY then MaxVelocityY else s.velocityY + Gravity)
    ensures r.velocityY <= MaxVelocityY
    // an Euler step; nobody stands on anything after it
    ensures r.y == s.y + r.velocityY && !r.isOnGround
    // horizontal wrap-around
    ensures s.x + r.velocityX < -PlayerWidth ==> r.x == CanvasWidth
    ensures s.x + r.velocityX > CanvasWidth ==> r.x == -PlayerWidth
    ensures -PlayerWidth <= s.x + r.velocityX <= CanvasWidth ==> r.x == s.x + r.velocityX
    ensures -PlayerWidth <= s.x <= CanvasWidth ==> -PlayerWidth <= r.x <= CanvasWidth
  {
    var vx := if left then -MoveSpeed else if right then MoveSpeed else 0.0;
    var vy0 := s.velocityY + Gravity;
    var vy := if vy0 > MaxVelocityY then MaxVelocityY else vy0;
    var x0 := s.x + vx;
    var x := if x0 < -PlayerWidth then CanvasWidth else if x0 > CanvasWidth then -PlayerWidth else x0;
    PlayerState(x, s.y + vy, vx, vy, false)
  }

  /** A bound on how high the player can still rise: its y minus
      v * v / (2 * gravity), the peak of the continuous-time trajectory. The
      source's discrete steps (speed first, then position) peak lower, so the
      player never rises above this y; each uncapped step adds 0.25 to it, moving
      it down the screen. */
  function Reach(s: PlayerState): real
  {
    s.y - s.velocityY * s.velocityY / (2.0 * Gravity)
  }

  /** The bound is never below the player. */
  lemma ReachBelowPlayer(s: PlayerState)
    ensures Reach(s) <= s.y
  {
    assert s.velocityY * s.velocityY >= 0.0;
  }

  /** For a player at rest the bound is where it is. */
  lemma ReachAtRest(s: PlayerState)
    requires s.velocityY == 0.0
    ensures Reach(s) == s.y
  {
  }

  /** A physics step never moves the bound up the screen (it never lowers
      Reach), with or without the terminal-speed cap; so the player never
      rises above it. */
  lemma StepKeepsReach(s: PlayerState, left: bool, right: bool)
    ensures Reach(PlayerStep(s, left, right)) >= Reach(s)
  {
    var v := s.velocityY;
    var r := PlayerStep(s, left, right);
    if v + Gravity > MaxVelocityY {
      assert v > 14.5;
      assert v * v >= 14.5 * v;
      assert v * v > 210.0;
      assert Reach(r) == s.y + 15.0 - 225.0;
    } else {
      assert (v + 0.5) * (v + 0.5) == v * v + v + 0.25;
      assert Reach(r) == Reach(s) + 0.25;
    }
  }

  /** Player.checkCollision: true only while falling, when the player's bottom
      edge was at or above the platform's top before this step, is now between
      the platform's top and bottom edges, and the two overlap horizontally. */
  predicate Collides(s: PlayerState, p: PlatformState)
    ensures Collides(s, p) ==> s.velocityY > 0.0
    ensures Collides(s, p) ==> s.y + PlayerHeight - s.velocityY <= p.y <= s.y + PlayerHeight <= p.y + p.height
    ensures Collides(s, p) ==> p.x - PlayerWidth < s.x < p.x + p.width
  {
    if s.velocityY <= 0.0 then false
    else
      var wasAbove := s.y + PlayerHeight - s.velocityY <= p.y;
      var isNowOn := s.y + PlayerHeight >= p.y && s.y + PlayerHeight <= p.y + p.height;
      var horizontalOverlap := s.x + PlayerWidth > p.x && s.x < p.x + p.width;
      wasAbove && isNowOn && horizontalOverlap
  }

  /** Player.land: the player's bottom edge is put on the platform's top edge
      and it bounces up at the jump speed. */
  function LandOn(s: PlayerState, platformY: real): (r: PlayerState)
    ensures r.y + PlayerHeight == platformY
    ensures r.velocityY == -JumpForce && r.isOnGround
    ensures r.x == s.x && r.velocityX == s.velocityX
    ensures Reach(r) == platformY - PlayerHeight - JumpForce * JumpForce / (2.0 * Gravity)
  {
    s.(y := platformY - PlayerHeight, velocityY := -JumpForce, isOnGround := true)
  }

  /** A landed player is rising, so no platform can catch it again. */
  lemma NoCollisionAfterLanding(s: PlayerState, platformY: real, p: PlatformState)
    ensures !Collides(LandOn(s, platformY), p)
  {
  }

  /** One iteration of the collision pass of Game.update. */
  function Touch(s: PlayerState, p: PlatformState): PlayerState
  {
    if Collides(s, p) then LandOn(s, p.y) else s
  }

  /** The whole collision pass: every platform, in array order. */
  function Resolve(s: PlayerState, ps: seq<PlatformState>): PlayerState
    decreases |ps|
  {
    if ps == [] then s else Resolve(Touch(s, ps[0]), ps[1..])
  }

  /** Extending the pass by one platform is one more Touch at the end. */
  lemma {:induction false} ResolveSnoc(s: PlayerState, ps: seq<PlatformState>, p: PlatformState)
    ensures Resolve(s, ps + [p]) == Touch(Resolve(s, ps), p)
    decreases |ps|
  {
    if ps == [] {
      assert [p][1..] == [];
    } else {
      assert (ps + [p])[1..] == ps[1..] + [p];
      ResolveSnoc(Touch(s, ps[0]), ps[1..], p);
    }
  }

  /** After a landing the rest of the pass leaves the player where it is. */
  lemma {:induction false} ResolveAfterLanding(s: PlayerState, platformY: real, ps: seq<PlatformState>)
    ensures Resolve(LandOn(s, platformY), ps) == LandOn(s, platformY)
    decreases |ps|
  {
    if ps != [] {
      NoCollisionAfterLanding(s, platformY, ps[0]);
      ResolveAfterLanding(s, platformY, ps[1..]);
    }
  }

  /** A pass in which no platform catches the player changes nothing. */
  lemma {:induction false} ResolveNoHit(s: PlayerState, ps: seq<PlatformState>)
    requires forall j :: 0 <= j < |ps| ==> !Collides(s, ps[j])
    ensures Resolve(s, ps) == s
    decreases |ps|
  {
    if ps != [] {
      ResolveNoHit(s, ps[1..]);
    }
  }

  /** At most one landing per tick: the pass lands the player on the first
      platform that catches it and on no other. */
  lemma {:induction false} ResolveFirstHit(s: PlayerState, ps: seq<PlatformState>, i: nat)
    requires i < |ps| && Collides(s, ps[i])
    requires forall j :: 0 <= j < i ==> !Collides(s, ps[j])
    ensures Resolve(s, ps) == LandOn(s, ps[i].y)
    decreases i
  {
    if i == 0 {
      ResolveAfterLanding(s, ps[0].y, ps[1..]);
    } else {
      ResolveFirstHit(s, ps[1..], i - 1);
    }
  }

  /** Either no platform caught the player, or it stands on one of them. */
  lemma {:induction false} ResolveCases(s: PlayerState, ps: seq<PlatformState>)
    ensures Resolve(s, ps) == s || exists i :: 0 <= i < |ps| && Resolve(s, ps) == LandOn(s, ps[i].y)
    decreases |ps|
  {
    if ps != [] {
      if Collides(s, ps[0]) {
        ResolveFirstHit(s, ps, 0);
      } else {
        ResolveCases(s, ps[1..]);
        if Resolve(s, ps) != s {
          var i :| 0 <= i < |ps[1..]| && Resolve(s, ps[1..]) == LandOn(s, ps[1..][i].y);
          assert Resolve(s, ps) == LandOn(s, ps[i + 1].y);
        }
      }
    }
  }

  /** The player object. */
  class Player {
    var x: real
    var y: real
    const width: real := PlayerWidth
    const height: real := PlayerHeight
    var velocityX: real
    var velocityY: real
    var isOnGround: bool

    function Model(): PlayerState
      reads this
    {
      PlayerState(x, y, velocityX, velocityY, isOnGround)
    }

    constructor (x0: real, y0: real)
      ensures Model() == PlayerState(x0, y0, 0.0, 0.0, false)
    {
      x := x0;
      y := y0;
      velocityX := 0.0;
      velocityY := 0.0;
      isOnGround := false;
    }

    method Update(left: bool, right: bool)
      modifies this
      ensures Model() == PlayerStep(old(Model()), left, right)
    {
      if left {
        velocityX := -MoveSpeed;
      } else if right {
        velocityX := MoveSpeed;
      } else {
        velocityX := 0.0;
      }
      velocityY := velocityY + Gravity;
      if velocityY > MaxVelocityY {
        velocityY := MaxVelocityY;
      }
      x := x + velocityX;
      y := y + velocityY;
      if x < -width {
        x := CanvasWidth;
      } else if x > CanvasWidth {
        x := -width;
      }
      isOnGround := false;
    }

    method CheckCollision(platform: Platform) returns (hit: bool)
      ensures hit == Collides(Model(), platform.Model())
      ensures hit ==> velocityY > 0.0
    {
      if velocityY <= 0.0 {
        return false;
      }
      var wasAbove := y + height - velocityY <= platform.y;
      var isNowOn := y + height >= platform.y && y + height <= platform.y + platform.height;
      var horizontalOverlap := x + width > platform.x && x < platform.x + platform.width;
      hit := wasAbove && isNowOn && horizontalOverlap;
    }

    method Land(platformY: real)
      modifies this
      ensures Model() == LandOn(old(Model()), platformY)
    {
      y := platformY - height;
      velocityY := -JumpForce;
      isOnGround := true;
    }
  }
}
