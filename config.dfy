/** The game's configuration constants (the CONFIG object of game.js) and the
    range of a random draw. Positions and velocities are exact reals. */
module Config {

  const CanvasWidth: real := 375.0
  const CanvasHeight: real := 667.0

  const PlayerWidth: real := 30.0
  const PlayerHeight: real := 30.0
  const JumpForce: real := 12.0
  const MoveSpeed: real := 5.0
  const Gravity: real := 0.5
  const MaxVelocityY: real := 15.0

  const PlatformWidth: real := 80.0
  const PlatformHeight: real := 12.0
  const MinGap: real := 60.0
  const MaxGap: real := 120.0
  const InitialY: real := 600.0

  /** Fields every Platform constructor sets to the same value. */
  const PlatformMoveSpeed: real := 2.0
  const PlatformMoveRange: real := 100.0

  const Milestones: seq<int> := [500, 1000, 1500, 2000, 2500]
  const SpeedMultipliers: seq<real> := [1.0, 1.3, 1.6, 2.0, 2.5, 3.0]

  /** Literals written inline in Game: the number of platforms stacked above the
      starting one, the live count the top-up loop restores, the margin below the
      screen past which a platform is removed, and the moving-platform policy. */
  const InitialStack: nat := 15
  const MinPlatforms: nat := 15
  const EvictionMargin: real := 100.0
  const MovingThreshold: real := 1.6
  const MovingChance: real := 0.3

  /** A value returned by Math.random(): a real in [0, 1). */
  type Unit = r: real | 0.0 <= r < 1.0 witness 0.0
}
