/** The Game object of game.js: its fields, init with generateInitialPlatforms,
    generateNewPlatform, updateDifficulty, update and the state effect of
    gameOver. Every method is proved against the value-level model in module
    Simulation: after update, the game's abstract value is Tick of the old one. */
module Engine {
  import opened Config
  import opened Platforms
  import opened Physics
  import opened Registry
  import opened Difficulty
  import opened Simulation

  /** No platform object appears twice in the array: each one differs from
      every object before it. */
  ghost predicate Distinct(ps: seq<Platform>)
  {
    ps == [] || (ps[|ps| - 1] !in ps[..|ps| - 1] && Distinct(ps[..|ps| - 1]))
  }

  /** In a distinct array two positions hold two different objects. */
  lemma {:induction false} DistinctPairs(ps: seq<Platform>)
    requires Distinct(ps)
    ensures forall i, j :: 0 <= i < j < |ps| ==> ps[i] != ps[j]
  {
    if ps != [] {
      var q := ps[..|ps| - 1];
      DistinctPairs(q);
      forall i, j | 0 <= i < j < |ps| ensures ps[i] != ps[j] {
        if j < |ps| - 1 {
          assert ps[i] == q[i] && ps[j] == q[j];
        } else {
          assert ps[i] in q;
        }
      }
    }
  }

  /** The values of the platform objects, in array order. */
  ghost function Models(ps: seq<Platform>): (r: seq<PlatformState>)
    reads ps
    ensures |r| == |ps|
  {
    if ps == [] then [] else Models(ps[..|ps| - 1]) + [ps[|ps| - 1].Model()]
  }

  /** Position i of the values is the value of object i. */
  lemma {:induction false} ModelsIndex(ps: seq<Platform>)
    ensures forall i :: 0 <= i < |ps| ==> Models(ps)[i] == ps[i].Model()
  {
    if ps != [] {
      var init := ps[..|ps| - 1];
      ModelsIndex(init);
      forall i | 0 <= i < |ps| ensures Models(ps)[i] == ps[i].Model() {
        if i < |init| {
          assert Models(ps)[i] == Models(init)[i];
        }
      }
    }
  }

  /** Objects whose values match a sequence pointwise have it as their values. */
  lemma ModelsPointwise(ps: seq<Platform>, ms: seq<PlatformState>)
    requires |ps| == |ms| && forall j :: 0 <= j < |ms| ==> ps[j].Model() == ms[j]
    ensures Models(ps) == ms
  {
    ModelsIndex(ps);
  }

  /** The filter of Game.update on platform objects. */
  function Surviving(ps: seq<Platform>, cameraOffsetY: real): (r: seq<Platform>)
    reads ps
    ensures forall p :: p in r ==> p in ps
  {
    if ps == [] then []
    else
      var last := ps[|ps| - 1];
      var kept := Surviving(ps[..|ps| - 1], cameraOffsetY);
      if OnScreen(last.Model(), cameraOffsetY) then kept + [last] else kept
  }

  /** The object filter keeps exactly the objects whose values the value-level
      filter keeps. */
  lemma {:induction false} SurvivingModels(ps: seq<Platform>, cameraOffsetY: real)
    ensures Models(Surviving(ps, cameraOffsetY)) == Survivors(Models(ps), cameraOffsetY)
  {
    if ps != [] {
      var init := ps[..|ps| - 1];
      var last := ps[|ps| - 1];
      var kept := Surviving(init, cameraOffsetY);
      SurvivingModels(init, cameraOffsetY);
      ModelsLast(ps);
      if OnScreen(last.Model(), cameraOffsetY) {
        ModelsSnoc(kept, last);
      }
    }
  }

  /** The object filter keeps distinct objects distinct. */
  lemma {:induction false} SurvivingDistinct(ps: seq<Platform>, cameraOffsetY: real)
    requires Distinct(ps)
    ensures Distinct(Surviving(ps, cameraOffsetY))
  {
    if ps != [] {
      var init := ps[..|ps| - 1];
      var last := ps[|ps| - 1];
      var kept := Surviving(init, cameraOffsetY);
      SurvivingDistinct(init, cameraOffsetY);
      if OnScreen(last.Model(), cameraOffsetY) {
        DistinctSnoc(kept, last);
      }
    }
  }

  /** The values of an array extended by one object. */
  lemma ModelsSnoc(ps: seq<Platform>, p: Platform)
    ensures Models(ps + [p]) == Models(ps) + [p.Model()]
  {
    assert (ps + [p])[..|ps|] == ps;
  }

  /** The values of an array split before its last object. */
  lemma ModelsLast(ps: seq<Platform>)
    requires ps != []
    ensures Models(ps[..|ps| - 1]) == Models(ps)[..|ps| - 1]
    ensures Models(ps)[|ps| - 1] == ps[|ps| - 1].Model()
  {
  }

  class Game {
    var player: Player?
    var platforms: seq<Platform>
    var distance: int
    var speedMultiplier: real
    var isRunning: bool
    var cameraOffsetY: real
    var highestY: real

    ghost function Abstract(): World
      reads this, player, platforms
      requires player != null
    {
      World(player.Model(), Models(platforms), distance, speedMultiplier, isRunning, cameraOffsetY, highestY)
    }

    /** Before the first init there is no player and the game is stopped;
        afterwards the platform objects are distinct and the state is well formed. */
    ghost predicate Valid()
      reads this, player, platforms
    {
      if player == null then !isRunning else Distinct(platforms) && WellFormed(Abstract())
    }

    /** The Game constructor, without its canvas and event wiring. */
    constructor ()
      ensures Valid() && player == null && platforms == []
      ensures distance == 0 && speedMultiplier == 1.0 && !isRunning
      ensures cameraOffsetY == 0.0 && highestY == 0.0
    {
      player := null;
      platforms := [];
      distance := 0;
      speedMultiplier := 1.0;
      isRunning := false;
      cameraOffsetY := 0.0;
      highestY := 0.0;
    }

    /** Start, without its screen change and frame scheduling: init, then run. */
    method Start(draws: seq<Draw>)
      requires |draws| >= InitialStack + 1
      modifies this
      ensures player != null && fresh(player)
      ensures Abstract() == InitialWorld(draws, true) && Valid()
    {
      Init(draws);
      if !isRunning {
        isRunning := true;
      }
      InitialWellFormed(draws, true);
    }

    /** init: a new player in the lower middle of the canvas, a fresh array of
        platforms, and the counters reset. isRunning is not touched. */
    method Init(draws: seq<Draw>)
      requires |draws| >= InitialStack + 1
      modifies this
      ensures player != null && fresh(player)
      ensures Abstract() == InitialWorld(draws, old(isRunning)) && Distinct(platforms)
    {
      player := new Player(CanvasWidth / 2.0, CanvasHeight - 100.0);
      platforms := [];
      GenerateInitialPlatforms(draws);
      ResetCounters();
    }

    /** The "reset game state" part of init; the highest point starts at the
        player's position. */
    method ResetCounters()
      requires player != null
      modifies this`distance, this`speedMultiplier, this`cameraOffsetY, this`highestY
      ensures Abstract() == old(Abstract()).(distance := 0, speedMultiplier := 1.0, cameraOffsetY := 0.0, highestY := player.y)
    {
      distance := 0;
      speedMultiplier := 1.0;
      cameraOffsetY := 0.0;
      highestY := player.y;
    }

    /** generateInitialPlatforms: the static starting platform, then 15 static
        platforms, each one drawn gap above the one before. */
    method GenerateInitialPlatforms(draws: seq<Draw>)
      requires platforms == [] && |draws| >= InitialStack + 1
      modifies this`platforms
      ensures Models(platforms) == InitialPlatforms(draws) && Distinct(platforms)
    {
      Push(CanvasWidth / 2.0 - PlatformWidth / 2.0, InitialY, false, draws[0].direction);
      var lastY := InitialY;
      for i := 0 to InitialStack
        invariant Models(platforms) == FirstRungs(draws, i + 1)
        invariant lastY == Rung(draws, i).y && Distinct(platforms)
      {
        var d := draws[i + 1];
        var gap := GapOf(d);
        lastY := lastY - gap;
        var x := SpawnX(d);
        var isMoving := false;
        assert NewPlatform(x, lastY, PlatformWidth, isMoving, d.direction) == Rung(draws, i + 1);
        Push(x, lastY, isMoving, d.direction);
      }
    }

    /** generateNewPlatform: one drawn gap above the last platform of the array,
        moving only at a multiplier of at least 1.6 and a coin below 0.3. */
    method GenerateNewPlatform(d: Draw)
      requires |platforms| > 0
      modifies this`platforms
      ensures Models(platforms) == old(Models(platforms)) + [Spawn(old(Top(Models(platforms))), speedMultiplier, d)]
      ensures Distinct(old(platforms)) ==> Distinct(platforms)
    {
      var topPlatform := platforms[|platforms| - 1];
      var gap := GapOf(d);
      var y := topPlatform.y - gap;
      var x := SpawnX(d);
      var isMoving := speedMultiplier >= MovingThreshold && d.moving < MovingChance;
      Push(x, y, isMoving, d.direction);
    }

    /** platforms.push(new Platform(x, y, platform width, isMoving)). */
    method Push(x: real, y: real, isMoving: bool, dirDraw: Unit)
      modifies this`platforms
      ensures Models(platforms) == old(Models(platforms)) + [NewPlatform(x, y, PlatformWidth, isMoving, dirDraw)]
      ensures Distinct(old(platforms)) ==> Distinct(platforms)
    {
      var p := new Platform(x, y, PlatformWidth, isMoving, dirDraw);
      DistinctSnoc(platforms, p);
      ModelsSnoc(platforms, p);
      platforms := platforms + [p];
    }

    /** updateDifficulty: scan the milestones from the highest down; the first
        one the distance meets selects the multiplier above it. */
    method UpdateDifficulty()
      modifies this`speedMultiplier
      ensures speedMultiplier == Multiplier(distance)
      ensures player != null ==> Abstract() == Simulation.UpdateDifficulty(old(Abstract()))
    {
      var milestones := Milestones;
      var multipliers := SpeedMultipliers;
      var i := |milestones| - 1;
      while i >= 0
        invariant -1 <= i < |milestones|
        invariant forall j :: i < j < |milestones| ==> distance < milestones[j]
      {
        if distance >= milestones[i] {
          speedMultiplier := multipliers[i + 1];
          ReachedExactly(milestones, distance, i);
          return;
        }
        i := i - 1;
      }
      speedMultiplier := multipliers[0];
      ReachedNone(milestones, distance);
    }

    /** gameOver, reduced to its effect on the game state. */
    method GameOver()
      modifies this`isRunning
      ensures !isRunning
    {
      isRunning := false;
    }

    // The phases of update, each proved against its value-level counterpart.

    /** The physics step of the player. */
    method MovePlayer(left: bool, right: bool)
      requires player != null
      modifies player
      ensures Abstract() == Simulation.MovePlayer(old(Abstract()), left, right)
    {
      player.Update(left, right);
    }

    /** The platform-motion pass: every platform object takes one step. */
    method MovePlatforms()
      requires player != null && Distinct(platforms)
      modifies platforms
      ensures Abstract() == Simulation.MovePlatforms(old(Abstract()))
    {
      DistinctPairs(platforms);
      ghost var ms := Models(platforms);
      ModelsIndex(platforms);
      for i := 0 to |platforms|
        invariant forall j :: 0 <= j < i ==> platforms[j].Model() == PlatformStep(old(platforms[j].Model()))
        invariant forall j :: i <= j < |platforms| ==> platforms[j].Model() == old(platforms[j].Model())
      {
        platforms[i].Update();
      }
      ModelsPointwise(platforms, Advance(ms));
    }

    /** The collision pass: each platform in turn may land the player. */
    method CheckCollisions()
      requires player != null
      modifies player
      ensures Abstract() == Collide(old(Abstract()))
    {
      ghost var ms := Models(platforms);
      ModelsIndex(platforms);
      for i := 0 to |platforms|
        invariant player.Model() == Resolve(old(player.Model()), ms[..i])
      {
        var hit := player.CheckCollision(platforms[i]);
        if hit {
          player.Land(platforms[i].y);
        }
        assert ms[..i + 1] == ms[..i] + [ms[i]];
        ResolveSnoc(old(player.Model()), ms[..i], ms[i]);
      }
      assert ms[..|platforms|] == ms;
    }

    /** The camera follows a player above the middle of the screen and the
        distance is ratcheted up to a tenth of the offset. */
    method FollowCamera()
      requires player != null
      modifies this`cameraOffsetY, this`distance
      ensures Abstract() == Simulation.FollowCamera(old(Abstract()))
    {
      if player.y < CanvasHeight / 2.0 {
        var targetOffset := CanvasHeight / 2.0 - player.y;
        cameraOffsetY := targetOffset;
        var climbed := (cameraOffsetY / 10.0).Floor;
        distance := if distance >= climbed then distance else climbed;
      }
    }

    /** The highest point reached, the least y so far. */
    method TrackHighest()
      requires player != null
      modifies this`highestY
      ensures Abstract() == Simulation.TrackHighest(old(Abstract()))
    {
      if player.y < highestY {
        highestY := player.y;
      }
    }

    /** The eviction filter on the platform array. */
    method RemoveOffscreen()
      requires player != null && Distinct(platforms)
      modifies this`platforms
      ensures Abstract() == Evict(old(Abstract())) && Distinct(platforms)
    {
      SurvivingModels(platforms, cameraOffsetY);
      SurvivingDistinct(platforms, cameraOffsetY);
      platforms := Surviving(platforms, cameraOffsetY);
    }

    /** The top-up loop: generateNewPlatform while fewer than 15 are live. */
    method Replenish(draws: seq<Draw>)
      requires player != null && Distinct(platforms)
      requires |platforms| > 0 && |draws| >= MinPlatforms - 1
      modifies this`platforms
      ensures Abstract() == Simulation.Replenish(old(Abstract()), draws) && Distinct(platforms)
    {
      ghost var start := Models(platforms);
      var k := 0;
      while |platforms| < MinPlatforms
        invariant |platforms| > 0 && 0 <= k <= |draws| && |platforms| == |start| + k
        invariant k > 0 ==> |platforms| <= MinPlatforms
        invariant Distinct(platforms)
        invariant TopUp(Models(platforms), speedMultiplier, draws[k..]) == TopUp(start, speedMultiplier, draws)
        decreases MinPlatforms - |platforms|
      {
        ghost var before := Models(platforms);
        TopUpStep(before, speedMultiplier, draws[k..]);
        GenerateNewPlatform(draws[k]);
        assert draws[k..][1..] == draws[k + 1..];
        k := k + 1;
      }
      TopUpFull(Models(platforms), speedMultiplier, draws[k..]);
    }

    /** The game-over test: a fall of more than one screen height below the
        highest point stops the game. */
    method CheckGameOver()
      requires player != null
      modifies this`isRunning
      ensures Abstract() == Simulation.CheckGameOver(old(Abstract()))
    {
      var fallDistance := player.y - highestY;
      if fallDistance > CanvasHeight {
        GameOver();
      }
    }

    /** The first five phases of update: player, platforms, collisions,
        camera and highest point. */
    method Move(left: bool, right: bool)
      requires player != null && Distinct(platforms)
      modifies player, platforms, this`cameraOffsetY, this`distance, this`highestY
      ensures player == old(player) && platforms == old(platforms)
      ensures Abstract() == Prelude(old(Abstract()), left, right)
    {
      MovePlayer(left, right);
      MovePlatforms();
      CheckCollisions();
      FollowCamera();
      TrackHighest();
    }

    /** The last four phases of update: eviction, top-up, difficulty and the
        game-over test. */
    method Settle(draws: seq<Draw>)
      requires player != null && Distinct(platforms) && |draws| >= MinPlatforms - 1
      requires |Evict(Abstract()).platforms| > 0
      modifies this`platforms, this`speedMultiplier, this`isRunning
      ensures Distinct(platforms)
      ensures Abstract() == Simulation.CheckGameOver(Simulation.UpdateDifficulty(
                Simulation.Replenish(Evict(old(Abstract())), draws)))
    {
      RemoveOffscreen();
      Replenish(draws);
      UpdateDifficulty();
      CheckGameOver();
    }

    /** update, without its two writes to the page. */
    method Update(left: bool, right: bool, draws: seq<Draw>)
      requires Valid() && |draws| >= MinPlatforms - 1
      modifies this, player, platforms
      ensures Valid() && player == old(player)
      ensures old(player) != null ==> Abstract() == Tick(old(Abstract()), left, right, draws)
      ensures !old(isRunning) ==> unchanged(this) && unchanged(platforms)
    {
      if !isRunning {
        return;
      }
      Step(left, right, draws);
    }

    /** The body of update once it is known that the game is running. */
    method Step(left: bool, right: bool, draws: seq<Draw>)
      requires Valid() && isRunning && |draws| >= MinPlatforms - 1
      modifies this, player, platforms
      ensures Valid() && player == old(player) && player != null
      ensures Abstract() == Tick(old(Abstract()), left, right, draws)
    {
      ghost var w := Abstract();
      TickPhases(w, left, right, draws);
      Move(left, right);
      Settle(draws);
    }
  }

  /** The player init creates: at rest, centred, 100 above the bottom edge. */
  const StartPlayer: PlayerState := PlayerState(CanvasWidth / 2.0, CanvasHeight - 100.0, 0.0, 0.0, false)

  /** The state init leaves: the new player, the initial platforms, the
      counters reset, the highest point at the player, isRunning untouched. */
  function InitialWorld(draws: seq<Draw>, isRunning: bool): World
    requires |draws| >= InitialStack + 1
  {
    World(StartPlayer, InitialPlatforms(draws), 0, 1.0, isRunning, 0.0, StartPlayer.y)
  }

  /** Platform k of those generateInitialPlatforms builds: the starting
      platform, then each one a drawn gap above the one before it. */
  function Rung(draws: seq<Draw>, k: nat): PlatformState
    requires k < |draws|
    decreases k
  {
    if k == 0 then StartPlatform(draws[0]) else Above(Rung(draws, k - 1), false, draws[k])
  }

  /** Every one of them is a well-built static platform. */
  lemma RungShape(draws: seq<Draw>, k: nat)
    requires k < |draws|
    ensures PlatformOk(Rung(draws, k)) && !Rung(draws, k).isMoving
  {
  }

  /** Platform k is at least k minimum gaps above the starting platform. */
  lemma {:induction false} RungHeight(draws: seq<Draw>, k: nat)
    requires k < |draws|
    ensures Rung(draws, k).y <= InitialY - k as real * MinGap
    decreases k
  {
    if k > 0 {
      RungHeight(draws, k - 1);
    }
  }

  /** The first n platforms generateInitialPlatforms builds, in array order. */
  function FirstRungs(draws: seq<Draw>, n: nat): (r: seq<PlatformState>)
    requires n <= |draws|
    ensures |r| == n
  {
    if n == 0 then [] else FirstRungs(draws, n - 1) + [Rung(draws, n - 1)]
  }

  /** Position k of the first n platforms holds platform k. */
  lemma {:induction false} FirstRungsIndex(draws: seq<Draw>, n: nat)
    requires n <= |draws|
    ensures forall k :: 0 <= k < n ==> FirstRungs(draws, n)[k] == Rung(draws, k)
  {
    if n > 0 {
      FirstRungsIndex(draws, n - 1);
    }
  }

  /** All the platforms generateInitialPlatforms builds: the starting one and 15 more. */
  function InitialPlatforms(draws: seq<Draw>): (r: seq<PlatformState>)
    requires |draws| >= InitialStack + 1
    ensures |r| == InitialStack + 1
  {
    FirstRungs(draws, InitialStack + 1)
  }

  /** They form a ladder of static platforms that starts at the starting
      platform and whose top is at least 15 minimum gaps above it. */
  lemma InitialLadder(draws: seq<Draw>)
    requires |draws| >= InitialStack + 1
    ensures var r := InitialPlatforms(draws);
      && Ladder(r) && r[0] == StartPlatform(draws[0])
      && (forall i :: 0 <= i < |r| ==> !r[i].isMoving)
      && Top(r).y <= InitialY - InitialStack as real * MinGap
  {
    var r := InitialPlatforms(draws);
    FirstRungsIndex(draws, InitialStack + 1);
    forall i | 0 <= i < |r| ensures Stacked(r, i) && !r[i].isMoving {
      RungShape(draws, i);
      if i > 0 {
        assert r[i] == Above(r[i - 1], false, draws[i]);
      }
    }
    RungHeight(draws, InitialStack);
  }

  /** The state init builds is well formed: the player stands clear below a
      ladder whose top is on screen, at distance zero and the base speed. */
  lemma InitialWellFormed(draws: seq<Draw>, isRunning: bool)
    requires |draws| >= InitialStack + 1
    ensures WellFormed(InitialWorld(draws, isRunning))
  {
    var w := InitialWorld(draws, isRunning);
    InitialLadder(draws);
    assert Top(w.platforms).y <= InitialY - InitialStack as real * MinGap;
    ReachAtRest(w.player);
    ClearanceValue();
    assert Reach(w.player) >= Top(w.platforms).y - Clearance;
    assert Top(w.platforms).y + w.cameraOffsetY <= CanvasHeight / 2.0 + Clearance;
    MultiplierBase(0);
  }

  /** Appending an object not yet in a distinct array keeps it distinct. */
  lemma DistinctSnoc(ps: seq<Platform>, p: Platform)
    requires p !in ps
    ensures Distinct(ps) ==> Distinct(ps + [p])
  {
    assert (ps + [p])[..|ps|] == ps;
  }

  /** One round of the top-up loop: spawn above the top, then top up the rest. */
  lemma TopUpStep(ps: seq<PlatformState>, speedMultiplier: real, draws: seq<Draw>)
    requires 0 < |ps| < MinPlatforms && |ps| + |draws| >= MinPlatforms
    ensures TopUp(ps, speedMultiplier, draws)
         == TopUp(ps + [Spawn(Top(ps), speedMultiplier, draws[0])], speedMultiplier, draws[1..])
  {
  }

  /** With 15 platforms live the top-up does nothing. */
  lemma TopUpFull(ps: seq<PlatformState>, speedMultiplier: real, draws: seq<Draw>)
    requires |ps| >= MinPlatforms
    ensures TopUp(ps, speedMultiplier, draws) == ps
  {
  }
}
