/** The platform registry: how Game builds new platforms above the topmost
    one, the ordering the platform array keeps, eviction of platforms that
    scrolled off the screen and the top-up back to the minimum live count. */
module Registry {
  import opened Config
  import opened Platforms

  /** The Math.random() draws made while one platform is created: the gap to
      the platform below, the horizontal position, the moving-platform coin and
      the constructor's direction draw. */
  datatype Draw = Draw(gap: Unit, x: Unit, moving: Unit, direction: Unit)

  /** A gap drawn uniformly from [minGap, maxGap). */
  function GapOf(d: Draw): (g: real)
    ensures MinGap <= g < MaxGap
  {
    d.gap * (MaxGap - MinGap) + MinGap
  }

  /** A horizontal position drawn uniformly from [0, canvas width - platform width). */
  function SpawnX(d: Draw): (x: real)
    ensures 0.0 <= x < CanvasWidth - PlatformWidth
  {
    d.x * (CanvasWidth - PlatformWidth)
  }

  /** The last platform of the array, the topmost one. */
  function Top(ps: seq<PlatformState>): PlatformState
    requires |ps| > 0
  {
    ps[|ps| - 1]
  }

  /** The starting platform generateInitialPlatforms pushes first: static,
      centred horizontally, at initialY. */
  function StartPlatform(d: Draw): (p: PlatformState)
    ensures PlatformOk(p) && !p.isMoving && p.y == InitialY
    ensures p.x + p.width / 2.0 == CanvasWidth / 2.0
  {
    NewPlatform(CanvasWidth / 2.0 - PlatformWidth / 2.0, InitialY, PlatformWidth, false, d.direction)
  }

  /** A platform one drawn gap above `below`, at a drawn position. */
  function Above(below: PlatformState, isMoving: bool, d: Draw): (p: PlatformState)
    ensures PlatformOk(p) && p.isMoving == isMoving
    ensures MinGap <= below.y - p.y < MaxGap
  {
    NewPlatform(SpawnX(d), below.y - GapOf(d), PlatformWidth, isMoving, d.direction)
  }

  /** generateNewPlatform: a platform above the current top one; it moves only
      when the multiplier is at least 1.6 and the coin comes up below 0.3. */
  function Spawn(top: PlatformState, speedMultiplier: real, d: Draw): (p: PlatformState)
    ensures PlatformOk(p) && MinGap <= top.y - p.y < MaxGap
    ensures p.isMoving <==> speedMultiplier >= MovingThreshold && d.moving < MovingChance
  {
    Above(top, speedMultiplier >= MovingThreshold && d.moving < MovingChance, d)
  }

  /** The registry's shape: every platform well built and, along the array,
      each platform one gap in [minGap, maxGap) above the one before it. */
  predicate Ladder(ps: seq<PlatformState>)
  {
    forall i :: 0 <= i < |ps| ==> Stacked(ps, i)
  }

  /** Platform i of the array is well built and, unless it is the first, one
      gap in [minGap, maxGap) above platform i - 1. */
  predicate Stacked(ps: seq<PlatformState>, i: nat)
    requires i < |ps|
  {
    PlatformOk(ps[i]) && (i > 0 ==> MinGap <= ps[i - 1].y - ps[i].y < MaxGap)
  }

  /** Along a ladder, platform j is at least (j - i) minimum gaps above
      platform i. */
  lemma {:induction false} LadderSpan(ps: seq<PlatformState>, i: nat, j: nat)
    requires Ladder(ps) && i <= j < |ps|
    ensures ps[i].y - ps[j].y >= (j - i) as real * MinGap
    decreases j - i
  {
    if i < j {
      LadderSpan(ps, i, j - 1);
      assert Stacked(ps, j);
    }
  }

  /** Along a ladder y strictly decreases, so the last platform is the topmost. */
  lemma LadderDescends(ps: seq<PlatformState>)
    requires Ladder(ps)
    ensures forall i, j :: 0 <= i < j < |ps| ==> ps[i].y > ps[j].y
    ensures forall i :: 0 <= i < |ps| ==> ps[i].y >= Top(ps).y
  {
    forall i, j | 0 <= i < j < |ps| ensures ps[i].y > ps[j].y {
      LadderSpan(ps, i, j);
    }
  }

  /** Whether a platform survives the eviction filter of Game.update: its
      screen position is above the bottom of the canvas plus the margin. */
  predicate OnScreen(p: PlatformState, cameraOffsetY: real)
  {
    p.y + cameraOffsetY < CanvasHeight + EvictionMargin
  }

  /** The eviction filter, platforms in array order. */
  function Survivors(ps: seq<PlatformState>, cameraOffsetY: real): (r: seq<PlatformState>)
    ensures |r| <= |ps|
  {
    if ps == [] then []
    else
      var last := ps[|ps| - 1];
      Survivors(ps[..|ps| - 1], cameraOffsetY) + (if OnScreen(last, cameraOffsetY) then [last] else [])
  }

  /** The filter keeps a sequence whose platforms all survive. */
  lemma {:induction false} SurvivorsAll(ps: seq<PlatformState>, cameraOffsetY: real)
    requires forall i :: 0 <= i < |ps| ==> OnScreen(ps[i], cameraOffsetY)
    ensures Survivors(ps, cameraOffsetY) == ps
  {
    if ps != [] {
      SurvivorsAll(ps[..|ps| - 1], cameraOffsetY);
    }
  }

  /** The filter drops a sequence none of whose platforms survive. */
  lemma {:induction false} SurvivorsNone(ps: seq<PlatformState>, cameraOffsetY: real)
    requires forall i :: 0 <= i < |ps| ==> !OnScreen(ps[i], cameraOffsetY)
    ensures Survivors(ps, cameraOffsetY) == []
  {
    if ps != [] {
      SurvivorsNone(ps[..|ps| - 1], cameraOffsetY);
    }
  }

  /** On a ladder, eviction removes a prefix: the platforms it drops are the
      leading ones below the screen, and the rest survive in order. */
  lemma {:induction false} EvictionDropsPrefix(ps: seq<PlatformState>, cameraOffsetY: real)
    requires Ladder(ps)
    ensures var k := |ps| - |Survivors(ps, cameraOffsetY)|;
      && Survivors(ps, cameraOffsetY) == ps[k..]
      && (forall i :: 0 <= i < k ==> !OnScreen(ps[i], cameraOffsetY))
      && (forall i :: k <= i < |ps| ==> OnScreen(ps[i], cameraOffsetY))
  {
    if ps != [] {
      var init := ps[..|ps| - 1];
      var last := ps[|ps| - 1];
      if OnScreen(last, cameraOffsetY) {
        assert Ladder(init) by {
          forall i | 0 <= i < |init| ensures Stacked(init, i) {
            assert Stacked(ps, i);
          }
        }
        EvictionDropsPrefix(init, cameraOffsetY);
        var k := |init| - |Survivors(init, cameraOffsetY)|;
        assert ps[k..] == init[k..] + [last];
      } else {
        LadderDescends(ps);
        SurvivorsNone(ps, cameraOffsetY);
      }
    }
  }

  /** When the top platform is on screen, eviction leaves a ladder with the
      same top platform. */
  lemma EvictionKeepsTop(ps: seq<PlatformState>, cameraOffsetY: real)
    requires Ladder(ps) && |ps| > 0 && OnScreen(Top(ps), cameraOffsetY)
    ensures var r := Survivors(ps, cameraOffsetY);
      |r| > 0 && Top(r) == Top(ps) && Ladder(r)
  {
    EvictionDropsPrefix(ps, cameraOffsetY);
    var k := |ps| - |Survivors(ps, cameraOffsetY)|;
    var r := ps[k..];
    assert Ladder(r) by {
      forall i | 0 <= i < |r| ensures Stacked(r, i) {
        assert Stacked(ps, k + i);
      }
    }
  }

  /** A well-built platform one gap above the top of a ladder extends it. */
  lemma LadderSnoc(ps: seq<PlatformState>, p: PlatformState)
    requires |ps| > 0 && PlatformOk(p)
    requires MinGap <= Top(ps).y - p.y < MaxGap
    ensures Ladder(ps) ==> Ladder(ps + [p])
  {
    if Ladder(ps) {
      var r := ps + [p];
      forall i | 0 <= i < |r| ensures Stacked(r, i) {
        if i < |ps| {
          assert Stacked(ps, i);
        }
      }
    }
  }

  /** The top-up loop of Game.update: while fewer than 15 platforms are live,
      generateNewPlatform, drawing from `draws` in order. */
  function TopUp(ps: seq<PlatformState>, speedMultiplier: real, draws: seq<Draw>): (r: seq<PlatformState>)
    requires |ps| > 0 && |ps| + |draws| >= MinPlatforms
    // the array ends with at least 15 platforms and exactly 15 if it was short
    ensures |r| == if |ps| >= MinPlatforms then |ps| else MinPlatforms
    decreases MinPlatforms - |ps|
  {
    if |ps| >= MinPlatforms then ps
    else TopUp(ps + [Spawn(Top(ps), speedMultiplier, draws[0])], speedMultiplier, draws[1..])
  }

  /** The top-up keeps the old platforms in place and stacks each new one
      above the one before it, so it extends a ladder and never lowers the top. */
  lemma {:induction false} TopUpShape(ps: seq<PlatformState>, speedMultiplier: real, draws: seq<Draw>)
    requires |ps| > 0 && |ps| + |draws| >= MinPlatforms
    ensures var r := TopUp(ps, speedMultiplier, draws);
      && r[..|ps|] == ps
      && (forall i :: |ps| <= i < |r| ==> r[i] == Spawn(r[i - 1], speedMultiplier, draws[i - |ps|]))
      && (Ladder(ps) ==> Ladder(r))
      && Top(r).y <= Top(ps).y
    decreases MinPlatforms - |ps|
  {
    if |ps| < MinPlatforms {
      var p := Spawn(Top(ps), speedMultiplier, draws[0]);
      var q := ps + [p];
      LadderSnoc(ps, p);
      TopUpShape(q, speedMultiplier, draws[1..]);
      var r := TopUp(ps, speedMultiplier, draws);
      assert r == TopUp(q, speedMultiplier, draws[1..]);
      assert r[..|ps|] == r[..|q|][..|ps|];
      assert r[|ps|] == p;
      forall i | |q| <= i < |r| ensures r[i] == Spawn(r[i - 1], speedMultiplier, draws[i - |ps|]) {
        assert draws[1..][i - |q|] == draws[i - |ps|];
      }
    }
  }

  /** New platforms can be moving ones only at a multiplier of at least 1.6. */
  lemma TopUpMovingGate(ps: seq<PlatformState>, speedMultiplier: real, draws: seq<Draw>)
    requires |ps| > 0 && |ps| + |draws| >= MinPlatforms
    requires speedMultiplier < MovingThreshold
    ensures var r := TopUp(ps, speedMultiplier, draws);
      forall i :: |ps| <= i < |r| ==> !r[i].isMoving
  {
    var r := TopUp(ps, speedMultiplier, draws);
    TopUpShape(ps, speedMultiplier, draws);
    forall i | |ps| <= i < |r| ensures !r[i].isMoving {
      assert r[i] == Spawn(r[i - 1], speedMultiplier, draws[i - |ps|]);
    }
  }

  /** Eviction followed by the top-up: a prefix of platforms below the screen
      is dropped, the rest stay in order, and new platforms are stacked above
      them until 15 are live. */
  lemma EvictThenTopUp(ps: seq<PlatformState>, cameraOffsetY: real, speedMultiplier: real, draws: seq<Draw>)
    requires Ladder(ps) && |ps| > 0 && OnScreen(Top(ps), cameraOffsetY)
    requires |draws| >= MinPlatforms - 1
    ensures var kept := Survivors(ps, cameraOffsetY);
      var n := |kept|;
      && 0 < n <= |ps|
      && (forall i :: 0 <= i < |ps| - n ==> !OnScreen(ps[i], cameraOffsetY))
      && var r := TopUp(kept, speedMultiplier, draws);
      && |r| == (if n >= MinPlatforms then n else MinPlatforms)
      && r[..n] == ps[|ps| - n..]
      && (forall i :: n <= i < |r| ==> r[i] == Spawn(r[i - 1], speedMultiplier, draws[i - n]))
  {
    EvictionDropsPrefix(ps, cameraOffsetY);
    EvictionKeepsTop(ps, cameraOffsetY);
    TopUpShape(Survivors(ps, cameraOffsetY), speedMultiplier, draws);
  }
}
