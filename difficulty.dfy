/** The difficulty ladder (Game.updateDifficulty): a step function from the
    distance climbed to the speed multiplier. */
module Difficulty {
  import opened Config

  /** Whether a sequence never decreases. */
  predicate Ascending(ms: seq<int>)
  {
    forall i, j :: 0 <= i < j < |ms| ==> ms[i] <= ms[j]
  }

  /** How many of the milestones `ms` a distance `d` has reached. */
  function Reached(ms: seq<int>, d: int): (k: nat)
    ensures k <= |ms|
  {
    if ms == [] then 0 else (if ms[0] <= d then 1 else 0) + Reached(ms[1..], d)
  }

  /** Reaching more distance never un-reaches a milestone. */
  lemma {:induction false} ReachedMonotone(ms: seq<int>, d1: int, d2: int)
    requires d1 <= d2
    ensures Reached(ms, d1) <= Reached(ms, d2)
  {
    if ms != [] {
      ReachedMonotone(ms[1..], d1, d2);
    }
  }

  /** A distance below every milestone has reached none of them. */
  lemma {:induction false} ReachedNone(ms: seq<int>, d: int)
    requires forall j :: 0 <= j < |ms| ==> d < ms[j]
    ensures Reached(ms, d) == 0
  {
    if ms != [] {
      ReachedNone(ms[1..], d);
    }
  }

  /** On an ascending ladder, a distance at or above milestone i and below every
      later one has reached exactly i + 1 milestones. */
  lemma {:induction false} ReachedExactly(ms: seq<int>, d: int, i: nat)
    requires Ascending(ms)
    requires i < |ms| && ms[i] <= d
    requires forall j :: i < j < |ms| ==> d < ms[j]
    ensures Reached(ms, d) == i + 1
  {
    assert ms[0] <= d;
    if i == 0 {
      ReachedNone(ms[1..], d);
    } else {
      ReachedExactly(ms[1..], d, i - 1);
    }
  }

  /** The multiplier for a distance: the speedMultipliers entry whose index is
      the number of milestones reached. */
  function Multiplier(distance: int): (m: real)
    ensures m in SpeedMultipliers
  {
    SpeedMultipliers[Reached(Milestones, distance)]
  }

  /** Below the first milestone the game runs at the base speed. */
  lemma MultiplierBase(distance: int)
    requires distance < Milestones[0]
    ensures Multiplier(distance) == SpeedMultipliers[0] == 1.0
  {
    ReachedNone(Milestones, distance);
  }

  /** From the last milestone on the game runs at the top speed. */
  lemma MultiplierTop(distance: int)
    requires distance >= Milestones[|Milestones| - 1]
    ensures Multiplier(distance) == SpeedMultipliers[|SpeedMultipliers| - 1] == 3.0
  {
    ReachedExactly(Milestones, distance, |Milestones| - 1);
  }

  /** The multiplier never falls as the distance grows. */
  lemma MultiplierMonotone(d1: int, d2: int)
    requires d1 <= d2
    ensures Multiplier(d1) <= Multiplier(d2)
  {
    ReachedMonotone(Milestones, d1, d2);
    var a, b := Reached(Milestones, d1), Reached(Milestones, d2);
    assert SpeedMultipliers[a] <= SpeedMultipliers[b];
  }

  /** Moving platforms may appear (multiplier at least 1.6) exactly from the
      second milestone, distance 1000, on. */
  lemma MovingThresholdDistance(distance: int)
    ensures Multiplier(distance) >= MovingThreshold <==> distance >= Milestones[1]
  {
    if distance < Milestones[0] {
      ReachedNone(Milestones, distance);
    } else if distance < Milestones[1] {
      ReachedExactly(Milestones, distance, 0);
    } else {
      ReachedMonotone(Milestones, Milestones[1], distance);
      ReachedExactly(Milestones, Milestones[1], 1);
    }
  }
}
