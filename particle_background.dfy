/** The landing-page particle background: 80 particle objects, each moving
    and bouncing in place every frame against the canvas size it is given. */
module ParticleBackground {
  import Bounce
  import opened Common

  const ParticleTotal: nat := 80

  class Particle {
    var x: real
    var y: real
    var size: real
    var speedX: real
    var speedY: real
    var canvasWidth: nat
    var canvasHeight: nat

    /** A particle placed on a canvasWidth x canvasHeight canvas; the draws
        are taken in the order size, x, y, speedX, speedY. */
    constructor (canvasWidth: nat, canvasHeight: nat, r0: real, r1: real, r2: real, r3: real, r4: real)
      requires 0.0 <= r0 < 1.0 && 0.0 <= r1 < 1.0 && 0.0 <= r2 < 1.0
      requires 0.0 <= r3 < 1.0 && 0.0 <= r4 < 1.0
      ensures this.canvasWidth == canvasWidth && this.canvasHeight == canvasHeight
      ensures size == r0 * 2.0 + 0.5 && x == r1 * canvasWidth as real && y == r2 * canvasHeight as real
      ensures speedX == (r3 - 0.5) * 0.4 && speedY == (r4 - 0.5) * 0.4
      ensures 0.5 <= size < 2.5
      ensures 0.0 <= x <= canvasWidth as real && (0 < canvasWidth ==> x < canvasWidth as real)
      ensures 0.0 <= y <= canvasHeight as real && (0 < canvasHeight ==> y < canvasHeight as real)
      ensures -0.2 <= speedX < 0.2 && -0.2 <= speedY < 0.2
    {
      var px, py := r1 * canvasWidth as real, r2 * canvasHeight as real;
      ScaleBelow(r1, canvasWidth, px);
      ScaleBelow(r2, canvasHeight, py);
      this.canvasWidth := canvasWidth;
      this.canvasHeight := canvasHeight;
      size := r0 * 2.0 + 0.5;
      x := px;
      y := py;
      speedX := (r3 - 0.5) * 0.4;
      speedY := (r4 - 0.5) * 0.4;
    }

    /** What a frame leaves alone. */
    function Fixed(): (real, nat, nat)
      reads this
    {
      (size, canvasWidth, canvasHeight)
    }

    /** The particle's motion on each axis. */
    function Horizontal(): Bounce.Axis
      reads this
    {
      Bounce.Axis(x, speedX)
    }

    function Vertical(): Bounce.Axis
      reads this
    {
      Bounce.Axis(y, speedY)
    }

    /** One frame: both axes follow the bounce rule against the canvas size
        passed in, not the size recorded at construction; size and the
        recorded canvas size stay as they are. */
    method Update(canvasWidth: nat, canvasHeight: nat)
      modifies this`x, this`y, this`speedX, this`speedY
      ensures Horizontal() == Bounce.Step(old(Horizontal()), canvasWidth as real)
      ensures Vertical() == Bounce.Step(old(Vertical()), canvasHeight as real)
      ensures Fixed() == old(Fixed())
    {
      x := x + speedX;
      y := y + speedY;
      if x < 0.0 || x > canvasWidth as real {
        speedX := speedX * -1.0;
      }
      if y < 0.0 || y > canvasHeight as real {
        speedY := speedY * -1.0;
      }
    }
  }

  /** The motion particle i of a fresh list is drawn with, per axis: it
      takes the draws 5i .. 5i+4 in the order size, x, y, speedX, speedY. */
  function DrawnHorizontal(width: nat, random: nat -> real, i: nat): Bounce.Axis
  {
    Bounce.Axis(random(5 * i + 1) * width as real, (random(5 * i + 3) - 0.5) * 0.4)
  }

  function DrawnVertical(height: nat, random: nat -> real, i: nat): Bounce.Axis
  {
    Bounce.Axis(random(5 * i + 2) * height as real, (random(5 * i + 4) - 0.5) * 0.4)
  }

  function DrawnSize(random: nat -> real, i: nat): real
  {
    random(5 * i) * 2.0 + 0.5
  }

  /** Particle p is the one drawn i-th on a width x height canvas. */
  ghost predicate Drawn(p: Particle, width: nat, height: nat, random: nat -> real, i: nat)
    reads p
  {
    p.canvasWidth == width && p.canvasHeight == height && 0.5 <= p.size < 2.5 &&
    p.Horizontal() == DrawnHorizontal(width, random, i) &&
    p.Vertical() == DrawnVertical(height, random, i) &&
    p.size == DrawnSize(random, i)
  }

  /** The creation loop: 80 new, distinct particles, the i-th built from
      the draws 5i .. 5i+4. */
  method NewParticles(width: nat, height: nat, random: nat -> real) returns (created: seq<Particle>)
    requires IsRandom(random)
    ensures |created| == ParticleTotal
    ensures forall k | 0 <= k < |created| :: fresh(created[k]) && Drawn(created[k], width, height, random, k)
    ensures forall k, l | 0 <= k < l < |created| :: created[k] != created[l]
  {
    created := [];
    for i := 0 to ParticleTotal
      invariant |created| == i
      invariant forall k | 0 <= k < i :: fresh(created[k]) && Drawn(created[k], width, height, random, k)
      invariant forall k, l | 0 <= k < l < i :: created[k] != created[l]
    {
      var b := 5 * i;
      assert 0.0 <= random(b) < 1.0 && 0.0 <= random(b + 1) < 1.0 && 0.0 <= random(b + 2) < 1.0;
      assert 0.0 <= random(b + 3) < 1.0 && 0.0 <= random(b + 4) < 1.0;
      var p := new Particle(width, height, random(b), random(b + 1), random(b + 2), random(b + 3), random(b + 4));
      created := created + [p];
    }
  }

  /** The mounted component: the canvas and the list of particles. */
  class Background {
    var width: nat
    var height: nat
    var particles: seq<Particle>

    ghost function Objects(): set<object>
      reads this
    {
      set p | p in particles
    }

    /** The list holds distinct particle objects. */
    ghost predicate Valid()
      reads this
    {
      forall i, j | 0 <= i < j < |particles| :: particles[i] != particles[j]
    }

    /** Mounting: size the canvas, replace the list with 80 new particles,
        particle i drawn from draws 5i .. 5i+4, and run the first frame,
        which moves each of them once. */
    constructor (windowWidth: nat, windowHeight: nat, random: nat -> real)
      requires IsRandom(random)
      ensures Valid() && width == windowWidth && height == windowHeight
      ensures |particles| == ParticleTotal
      ensures forall p | p in particles :: fresh(p)
      ensures forall p | p in particles ::
        p.canvasWidth == windowWidth && p.canvasHeight == windowHeight &&
        0.5 <= p.size < 2.5
      ensures forall i | 0 <= i < |particles| ::
        particles[i].Horizontal() == Bounce.Step(DrawnHorizontal(windowWidth, random, i), windowWidth as real) &&
        particles[i].Vertical() == Bounce.Step(DrawnVertical(windowHeight, random, i), windowHeight as real) &&
        particles[i].size == DrawnSize(random, i)
    {
      width, height := windowWidth, windowHeight;
      particles := [];
      new;
      particles := NewParticles(width, height, random);
      Frame();
    }

    /** A window resize only resizes the canvas: the same particles stay,
        with their state, including the canvas size they recorded. */
    method Resize(windowWidth: nat, windowHeight: nat)
      modifies this`width, this`height
      ensures width == windowWidth && height == windowHeight
      ensures particles == old(particles)
    {
      width := windowWidth;
      height := windowHeight;
    }

    /** The update part of one frame: every particle moves once against the
        current canvas size. */
    method Frame()
      requires Valid()
      modifies Objects()
      ensures Valid()
      ensures forall i | 0 <= i < |particles| ::
        particles[i].Horizontal() == Bounce.Step(old(particles[i].Horizontal()), width as real) &&
        particles[i].Vertical() == Bounce.Step(old(particles[i].Vertical()), height as real) &&
        particles[i].Fixed() == old(particles[i].Fixed())
    {
      for i := 0 to |particles|
        invariant forall k | 0 <= k < i ::
          particles[k].Horizontal() == Bounce.Step(old(particles[k].Horizontal()), width as real) &&
          particles[k].Vertical() == Bounce.Step(old(particles[k].Vertical()), height as real) &&
          particles[k].Fixed() == old(particles[k].Fixed())
        invariant forall k | i <= k < |particles| ::
          particles[k].Horizontal() == old(particles[k].Horizontal()) &&
          particles[k].Vertical() == old(particles[k].Vertical()) &&
          particles[k].Fixed() == old(particles[k].Fixed())
      {
        particles[i].Update(width, height);
      }
    }
  }

  /** After a resize that shrinks the canvas, the list is not regenerated
      and the bounce rule looks only at the position. So a particle created
      with a leftward speed (speeds lie in [-0.2, 0.2)) and now more than
      0.2 beyond the new right edge is turned around every frame: it stays
      beyond that edge at every later frame, odd or even, and never
      returns. */
  lemma ShrunkCanvasTrapsParticle(x: real, speedX: real, newWidth: nat, frames: nat)
    requires -0.2 <= speedX < 0.0
    requires x > newWidth as real + 0.2
    ensures Bounce.Steps(Bounce.Axis(x, speedX), newWidth as real, frames).pos > newWidth as real
  {
    var start, w := Bounce.Axis(x, speedX), newWidth as real;
    var m := frames / 2;
    Bounce.TrappedForever(start, w, m);
    if frames % 2 == 1 {
      Bounce.StepsAdd(start, w, 2 * m, 1);
      assert Bounce.Steps(start, w, frames) == Bounce.Step(start, w);
    }
  }
}
