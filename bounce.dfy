/** The move-then-reflect rule both particle backgrounds apply to each axis
    of a particle once per frame: advance the position by the velocity, then
    negate the velocity if the new position lies outside [0, bound]. The
    position is never clamped. */
module Bounce {

  /** Position and velocity of a particle along one axis. */
  datatype Axis = Axis(pos: real, vel: real)

  function Abs(v: real): real { if v < 0.0 then -v else v }

  predicate Outside(pos: real, bound: real) { pos < 0.0 || pos > bound }

  /** One frame on one axis: the position moves by the whole velocity,
      unclamped, and the speed is kept. */
  function Step(a: Axis, bound: real): (r: Axis)
    ensures r.pos == a.pos + a.vel
    ensures Abs(r.vel) == Abs(a.vel)
  {
    var pos := a.pos + a.vel;
    Axis(pos, if Outside(pos, bound) then -a.vel else a.vel)
  }

  /** `k` consecutive frames against a fixed bound. */
  function Steps(a: Axis, bound: real, k: nat): Axis
    decreases k
  {
    if k == 0 then a else Steps(Step(a, bound), bound, k - 1)
  }

  /** The step moves by the old velocity, reflects exactly when the new
      position is off the surface, and never changes the speed. A zero
      velocity stays zero, so only for a moving particle does the velocity
      tell whether it was reflected. */
  lemma StepReflectsIffOutside(a: Axis, bound: real)
    ensures Step(a, bound).pos == a.pos + a.vel
    ensures Outside(a.pos + a.vel, bound) ==> Step(a, bound).vel == -a.vel
    ensures !Outside(a.pos + a.vel, bound) ==> Step(a, bound).vel == a.vel
    ensures a.vel != 0.0 ==> (Step(a, bound).vel == -a.vel <==> Outside(a.pos + a.vel, bound))
    ensures Abs(Step(a, bound).vel) == Abs(a.vel)
  {
  }

  /** A particle is at most one frame's travel off the surface, and when it
      is off the surface it is already heading back. */
  predicate NearSurface(a: Axis, bound: real)
  {
    -Abs(a.vel) <= a.pos <= bound + Abs(a.vel) &&
    (a.pos < 0.0 ==> a.vel >= 0.0) &&
    (a.pos > bound ==> a.vel <= 0.0)
  }

  lemma InsideIsNear(a: Axis, bound: real)
    requires 0.0 <= a.pos <= bound
    ensures NearSurface(a, bound)
  {
  }

  lemma StepKeepsNear(a: Axis, bound: real)
    requires 0.0 <= bound
    requires NearSurface(a, bound)
    ensures NearSurface(Step(a, bound), bound)
  {
  }

  /** However many frames run against a fixed non-negative bound, a particle
      that starts on the surface never strays more than one frame's travel
      from it, and its speed never changes. */
  lemma {:induction false} StepsKeepNear(a: Axis, bound: real, k: nat)
    requires 0.0 <= bound
    requires NearSurface(a, bound)
    ensures NearSurface(Steps(a, bound, k), bound)
    ensures Abs(Steps(a, bound, k).vel) == Abs(a.vel)
    decreases k
  {
    if k > 0 {
      StepKeepsNear(a, bound);
      StepsKeepNear(Step(a, bound), bound, k - 1);
    }
  }

  /** Without NearSurface the rule can trap a particle: one that lies beyond
      the far edge by more than one frame's travel, heading back, is turned
      around every frame and returns to its own state every two frames. */
  lemma TrappedBeyondEdge(a: Axis, bound: real)
    requires a.vel < 0.0 && a.pos + a.vel > bound
    ensures Steps(a, bound, 2) == a
  {
    var b := Step(a, bound);
    assert b == Axis(a.pos + a.vel, -a.vel);
    assert Step(b, bound) == a;
  }

  lemma {:induction false} TrappedForever(a: Axis, bound: real, k: nat)
    requires a.vel < 0.0 && a.pos + a.vel > bound
    ensures Steps(a, bound, 2 * k) == a
    ensures Outside(Steps(a, bound, 2 * k).pos, bound)
    decreases k
  {
    if k > 0 {
      TrappedBeyondEdge(a, bound);
      StepsAdd(a, bound, 2, 2 * (k - 1));
      TrappedForever(a, bound, k - 1);
    }
  }

  lemma {:induction false} StepsAdd(a: Axis, bound: real, m: nat, n: nat)
    ensures Steps(a, bound, m + n) == Steps(Steps(a, bound, m), bound, n)
    decreases m
  {
    if m > 0 {
      StepsAdd(Step(a, bound), bound, m - 1, n);
    }
  }
}
