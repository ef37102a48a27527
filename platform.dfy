/** A platform (class Platform of game.js): its constructor and its per-tick
    motion, first as values, then as the object the game mutates. */
module Platforms {
  import opened Config

  /** The fields of a Platform object. */
  datatype PlatformState = PlatformState(
    x: real, y: real, width: real, height: real, isMoving: bool,
    moveSpeed: real, moveDirection: int, moveRange: real, originalX: real)

  /** A direction of travel: -1 (left) or 1 (right). */
  predicate Heading(d: int)
  {
    d == -1 || d == 1
  }

  /** Whether a platform is one the game can build: the constructor's constants,
      a direction of -1 or 1, and a horizontal position inside the canvas. */
  predicate PlatformOk(p: PlatformState)
  {
    && p.width == PlatformWidth && p.height == PlatformHeight
    && p.moveSpeed == PlatformMoveSpeed && p.moveRange == PlatformMoveRange
    && Heading(p.moveDirection)
    && 0.0 <= p.x <= CanvasWidth - p.width
  }

  /** What `new Platform(x, y, width, isMoving)` builds when its direction draw
      is `dirDraw`: direction -1 for a draw below one half, 1 otherwise. */
  function NewPlatform(x: real, y: real, width: real, isMoving: bool, dirDraw: Unit): (p: PlatformState)
    ensures p.x == p.originalX == x && p.y == y && p.width == width && p.isMoving == isMoving
    ensures p.moveDirection == (if dirDraw < 0.5 then -1 else 1)
    ensures width == PlatformWidth && 0.0 <= x <= CanvasWidth - PlatformWidth ==> PlatformOk(p)
  {
    PlatformState(x, y, width, PlatformHeight, isMoving,
                  PlatformMoveSpeed, if dirDraw < 0.5 then -1 else 1, PlatformMoveRange, x)
  }

  function Abs(r: real): real { if r < 0.0 then -r else r }

  /** How far a moving platform travels in one step: speed times direction. */
  function Stride(p: PlatformState): real
  {
    p.moveSpeed * p.moveDirection as real
  }

  /** Platform.update: a moving platform advances by speed times direction,
      turns once it is farther than its range from where it started, and is
      pushed back inside the canvas edges, facing inward. */
  function PlatformStep(p: PlatformState): PlatformState
  {
    if !p.isMoving then p
    else
      var x := p.x + Stride(p);
      var dir := if Abs(x - p.originalX) > p.moveRange then p.moveDirection * -1 else p.moveDirection;
      if x < 0.0 then p.(x := 0.0, moveDirection := 1)
      else if x + p.width > CanvasWidth then p.(x := CanvasWidth - p.width, moveDirection := -1)
      else p.(x := x, moveDirection := dir)
  }

  /** What one step does: a static platform stays put; a moving one changes
      only its position and direction, keeps a direction of -1 or 1, stays
      inside the canvas, and faces inward after hitting an edge. */
  lemma PlatformStepSpec(p: PlatformState)
    ensures var r := PlatformStep(p);
      && (!p.isMoving ==> r == p)
      && r == p.(x := r.x, moveDirection := r.moveDirection)
      && (Heading(p.moveDirection) ==> Heading(r.moveDirection))
      && (p.isMoving && 0.0 <= p.width <= CanvasWidth ==> 0.0 <= r.x <= CanvasWidth - p.width)
      && (p.isMoving && p.x + p.moveSpeed * p.moveDirection as real < 0.0 ==>
            r.x == 0.0 && r.moveDirection == 1)
      && (p.isMoving && 0.0 <= p.x + p.moveSpeed * p.moveDirection as real &&
          p.x + p.moveSpeed * p.moveDirection as real + p.width > CanvasWidth ==>
            r.x == CanvasWidth - p.width && r.moveDirection == -1)
      // the turn at the range: inside the canvas, a platform farther than
      // moveRange from where it started reverses, and otherwise keeps going
      && (p.isMoving && 0.0 <= p.x + p.moveSpeed * p.moveDirection as real &&
          p.x + p.moveSpeed * p.moveDirection as real + p.width <= CanvasWidth ==>
            r.x == p.x + p.moveSpeed * p.moveDirection as real &&
            r.moveDirection == (if Abs(r.x - p.originalX) > p.moveRange then -p.moveDirection else p.moveDirection))
      && (PlatformOk(p) ==> PlatformOk(r))
  {
  }

  /** The oscillation a moving platform keeps: it never strays more than one
      stride beyond moveRange from where it started, once beyond the range it
      heads back, and its starting position is inside the canvas. */
  predicate Swing(p: PlatformState)
  {
    && Abs(p.x - p.originalX) <= p.moveRange + p.moveSpeed
    && (p.x - p.originalX > p.moveRange ==> p.moveDirection == -1)
    && (p.originalX - p.x > p.moveRange ==> p.moveDirection == 1)
    && 0.0 <= p.originalX <= CanvasWidth - p.width
  }

  /** Every step keeps a well-built moving platform swinging about its start. */
  lemma StepKeepsSwing(p: PlatformState)
    requires PlatformOk(p) && p.isMoving && Swing(p)
    ensures Swing(PlatformStep(p))
  {
  }

  /** A new moving platform at an x inside the canvas starts swinging. */
  lemma NewPlatformSwings(x: real, y: real, dirDraw: Unit)
    requires 0.0 <= x <= CanvasWidth - PlatformWidth
    ensures Swing(NewPlatform(x, y, PlatformWidth, true, dirDraw))
  {
  }

  /** Platform.update applied to every platform (the forEach in Game.update). */
  function Advance(ps: seq<PlatformState>): (r: seq<PlatformState>)
  {
    seq(|ps|, i requires 0 <= i < |ps| => PlatformStep(ps[i]))
  }

  /** Platform motion never moves a platform vertically and keeps a well-built
      platform well built. */
  lemma AdvanceKeepsHeights(ps: seq<PlatformState>)
    ensures |Advance(ps)| == |ps|
    ensures forall i :: 0 <= i < |ps| ==> Advance(ps)[i].y == ps[i].y
    ensures forall i :: 0 <= i < |ps| && PlatformOk(ps[i]) ==> PlatformOk(Advance(ps)[i])
  {
    forall i | 0 <= i < |ps| {
      PlatformStepSpec(ps[i]);
    }
  }

  /** The platform object. Fields the source never reassigns after construction
      are constants; x and moveDirection change in update. */
  class Platform {
    var x: real
    const y: real
    const width: real
    const height: real
    const isMoving: bool
    const moveSpeed: real
    var moveDirection: int
    const moveRange: real
    const originalX: real

    function Model(): PlatformState
      reads this
    {
      PlatformState(x, y, width, height, isMoving, moveSpeed, moveDirection, moveRange, originalX)
    }

    constructor (x0: real, y0: real, width0: real, isMoving0: bool, dirDraw: Unit)
      ensures Model() == NewPlatform(x0, y0, width0, isMoving0, dirDraw)
    {
      x := x0;
      y := y0;
      width := width0;
      height := PlatformHeight;
      isMoving := isMoving0;
      moveSpeed := PlatformMoveSpeed;
      moveDirection := if dirDraw < 0.5 then -1 else 1;
      moveRange := PlatformMoveRange;
      originalX := x0;
    }

    method Update()
      modifies this
      ensures Model() == PlatformStep(old(Model()))
    {
      if isMoving {
        x := x + Stride(Model());
        if Abs(x - originalX) > moveRange {
          moveDirection := moveDirection * -1;
        }
        if x < 0.0 {
          x := 0.0;
          moveDirection := 1;
        } else if x + width > CanvasWidth {
          x := CanvasWidth - width;
          moveDirection := -1;
        }
      }
    }
  }
}
