/** The particle field behind the app pages: a list of particles regenerated
    from the canvas area, moved and reflected every frame, and a list of
    connections between every pair of particles closer than 150 units,
    rebuilt from scratch every frame. */
module AppBackground {
  import Bounce
  import opened Common

  datatype Particle = Particle(x: real, y: real, vx: real, vy: real, size: real, alpha: real)

  /** A connection between particles `from` and `to`, named by their
      positions in the particle list. */
  datatype Connection = Connection(from: nat, to: nat, alpha: real)

  /** Canvas pixels per particle. */
  const Density: nat := 15000
  /** Particles closer than this are connected. */
  const MaxDist: real := 150.0
  /** Opacity of a connection between two particles at the same point. */
  const MaxConnectionAlpha: real := 0.3

  /** Math.sqrt on non-negative arguments. */
  ghost predicate IsSqrt(sqrt: real -> real)
  {
    forall v: real :: 0.0 <= v ==> 0.0 <= sqrt(v) && sqrt(v) * sqrt(v) == v
  }

  /** How many particles a width x height canvas gets: the floor of
      area / Density, one particle per full 15000 pixels. */
  function ParticleCount(width: nat, height: nat): (n: nat)
    ensures n * Density <= width * height < (n + 1) * Density
  {
    (width * height) / Density
  }

  /** A canvas under 15000 pixels gets no particles, and only such a
      canvas. */
  lemma NoParticlesIffSmall(width: nat, height: nat)
    ensures ParticleCount(width, height) == 0 <==> width * height < Density
  {
  }

  /** The i-th particle of a fresh field; it takes the draws 6i .. 6i+5 in
      the order x, y, vx, vy, size, alpha. */
  function NewParticle(width: nat, height: nat, random: nat -> real, i: nat): Particle
  {
    var k := 6 * i;
    Particle(random(k) * width as real, random(k + 1) * height as real,
             (random(k + 2) - 0.5) * 0.3, (random(k + 3) - 0.5) * 0.3,
             random(k + 4) * 2.0 + 1.0, random(k + 5) * 0.5 + 0.2)
  }

  /** The ranges a created particle lies in. */
  predicate InRanges(p: Particle, width: nat, height: nat)
  {
    0.0 <= p.x < width as real && 0.0 <= p.y < height as real &&
    -0.15 <= p.vx < 0.15 && -0.15 <= p.vy < 0.15 &&
    1.0 <= p.size < 3.0 && 0.2 <= p.alpha < 0.7
  }

  /** Every particle of a fresh field lies in its ranges; the open upper
      bounds on x and y need the canvas to be non-empty, which it is
      whenever any particle is created at all. */
  lemma NewParticleInRanges(width: nat, height: nat, random: nat -> real, i: nat)
    requires IsRandom(random)
    requires i < ParticleCount(width, height)
    ensures InRanges(NewParticle(width, height, random, i), width, height)
  {
    NonEmptyCanvas(width, height);
    OnCanvasInRanges(width, height, random, i);
  }

  lemma OnCanvasInRanges(width: nat, height: nat, random: nat -> real, i: nat)
    requires IsRandom(random)
    requires 0 < width && 0 < height
    ensures InRanges(NewParticle(width, height, random, i), width, height)
  {
    var k := 6 * i;
    var r0, r1 := random(k), random(k + 1);
    assert 0.0 <= r0 < 1.0 && 0.0 <= r1 < 1.0;
    var w, h := width as real, height as real;
    ScaleBelow(r0, width, r0 * w);
    ScaleBelow(r1, height, r1 * h);
    DrawsInRanges(random(k + 2), random(k + 3), random(k + 4), random(k + 5));
    var p := NewParticle(width, height, random, i);
    assert p.x == r0 * w && p.y == r1 * h;
  }

  lemma DrawsInRanges(r2: real, r3: real, r4: real, r5: real)
    requires 0.0 <= r2 < 1.0 && 0.0 <= r3 < 1.0 && 0.0 <= r4 < 1.0 && 0.0 <= r5 < 1.0
    ensures -0.15 <= (r2 - 0.5) * 0.3 < 0.15 && -0.15 <= (r3 - 0.5) * 0.3 < 0.15
    ensures 1.0 <= r4 * 2.0 + 1.0 < 3.0 && 0.2 <= r5 * 0.5 + 0.2 < 0.7
  {
  }

  lemma NonEmptyCanvas(width: nat, height: nat)
    requires 0 < ParticleCount(width, height)
    ensures 0 < width && 0 < height
  {
    if width == 0 || height == 0 {
      assert false;
    }
  }

  /** One frame of movement for one particle: each axis follows the bounce
      rule against its own canvas dimension; size and alpha are untouched. */
  function Move(p: Particle, width: nat, height: nat): (r: Particle)
    ensures r.size == p.size && r.alpha == p.alpha
    ensures Bounce.Abs(r.vx) == Bounce.Abs(p.vx) && Bounce.Abs(r.vy) == Bounce.Abs(p.vy)
  {
    var x := Bounce.Step(Bounce.Axis(p.x, p.vx), width as real);
    var y := Bounce.Step(Bounce.Axis(p.y, p.vy), height as real);
    p.(x := x.pos, vx := x.vel, y := y.pos, vy := y.vel)
  }

  /** The velocity component on an axis is negated exactly when the moved
      particle lies off the canvas on that axis. */
  lemma MoveReflects(p: Particle, width: nat, height: nat)
    ensures Move(p, width, height).x == p.x + p.vx && Move(p, width, height).y == p.y + p.vy
    ensures Move(p, width, height).vx ==
      if p.x + p.vx < 0.0 || p.x + p.vx > width as real then -p.vx else p.vx
    ensures Move(p, width, height).vy ==
      if p.y + p.vy < 0.0 || p.y + p.vy > height as real then -p.vy else p.vy
    ensures p.vx != 0.0 ==> (Move(p, width, height).vx == -p.vx <==> (p.x + p.vx < 0.0 || p.x + p.vx > width as real))
    ensures p.vy != 0.0 ==> (Move(p, width, height).vy == -p.vy <==> (p.y + p.vy < 0.0 || p.y + p.vy > height as real))
    ensures Move(p, width, height).size == p.size && Move(p, width, height).alpha == p.alpha
  {
    Bounce.StepReflectsIffOutside(Bounce.Axis(p.x, p.vx), width as real);
    Bounce.StepReflectsIffOutside(Bounce.Axis(p.y, p.vy), height as real);
  }

  predicate NearCanvas(p: Particle, width: nat, height: nat)
  {
    Bounce.NearSurface(Bounce.Axis(p.x, p.vx), width as real) &&
    Bounce.NearSurface(Bounce.Axis(p.y, p.vy), height as real)
  }

  /** A created particle is on the canvas, and frames keep it within one
      frame's travel of it. */
  lemma CreatedIsNear(p: Particle, width: nat, height: nat)
    requires InRanges(p, width, height)
    ensures NearCanvas(p, width, height)
  {
    Bounce.InsideIsNear(Bounce.Axis(p.x, p.vx), width as real);
    Bounce.InsideIsNear(Bounce.Axis(p.y, p.vy), height as real);
  }

  lemma MoveKeepsNear(p: Particle, width: nat, height: nat)
    requires NearCanvas(p, width, height)
    ensures NearCanvas(Move(p, width, height), width, height)
  {
    Bounce.StepKeepsNear(Bounce.Axis(p.x, p.vx), width as real);
    Bounce.StepKeepsNear(Bounce.Axis(p.y, p.vy), height as real);
  }

  // ---------------------------------------------------------------------
  // Connections

  function SquaredDistance(p: Particle, q: Particle): real
  {
    (p.x - q.x) * (p.x - q.x) + (p.y - q.y) * (p.y - q.y)
  }

  /** Opacity of a connection at distance `dist`. */
  function ConnectionAlpha(dist: real): real
  {
    (1.0 - dist / MaxDist) * MaxConnectionAlpha
  }

  /** Math.sqrt(dx * dx + dy * dy) for particles i and j. */
  function Distance(ps: seq<Particle>, sqrt: real -> real, i: nat, j: nat): real
    requires i < |ps| && j < |ps|
  {
    sqrt(SquaredDistance(ps[i], ps[j]))
  }

  /** What the inner loop appends for the pair (i, j). */
  function PairConnection(ps: seq<Particle>, sqrt: real -> real, i: nat, j: nat): seq<Connection>
    requires i < j < |ps|
  {
    var dist := Distance(ps, sqrt, i, j);
    if dist < MaxDist then [Connection(i, j, ConnectionAlpha(dist))] else []
  }

  /** The connections the two loops have built just before they consider
      the pair (i, j): those of every pair (a, b) with a < i, then those of
      (i, i+1) .. (i, j-1), each pair in loop order. */
  function Upto(ps: seq<Particle>, sqrt: real -> real, i: nat, j: nat): seq<Connection>
    requires i < j <= |ps|
    decreases i, j
  {
    if j > i + 1 then Upto(ps, sqrt, i, j - 1) + PairConnection(ps, sqrt, i, j - 1)
    else if i == 0 then []
    else Upto(ps, sqrt, i - 1, |ps|)
  }

  /** The connections after the outer loop has run for particles 0 .. i-1. */
  function Rows(ps: seq<Particle>, sqrt: real -> real, i: nat): seq<Connection>
    requires i <= |ps|
  {
    if i == 0 then [] else Upto(ps, sqrt, i - 1, |ps|)
  }

  /** The connection list one frame computes. */
  function Connections(ps: seq<Particle>, sqrt: real -> real): seq<Connection>
  {
    Rows(ps, sqrt, |ps|)
  }

  /** What a connection between particles `from` < `to` must be. */
  predicate Proper(ps: seq<Particle>, sqrt: real -> real, c: Connection)
  {
    c.from < c.to < |ps| &&
    Distance(ps, sqrt, c.from, c.to) < MaxDist &&
    c.alpha == ConnectionAlpha(Distance(ps, sqrt, c.from, c.to))
  }

  /** (i, j) comes strictly before (k, l) in the enumeration order. */
  predicate PairBefore(i: nat, j: nat, k: nat, l: nat)
  {
    i < k || (i == k && j < l)
  }

  /** Every connection in `cs` is proper. */
  predicate AllProper(ps: seq<Particle>, sqrt: real -> real, cs: seq<Connection>)
  {
    forall k | 0 <= k < |cs| :: Proper(ps, sqrt, cs[k])
  }

  /** Every connection in `cs` joins a pair that comes before (i, j). */
  predicate Before(cs: seq<Connection>, i: nat, j: nat)
  {
    forall k | 0 <= k < |cs| :: PairBefore(cs[k].from, cs[k].to, i, j)
  }

  /** Each connection in `cs` comes strictly before the next one. */
  predicate Increasing(cs: seq<Connection>)
  {
    forall k, l | 0 <= k && l == k + 1 < |cs| :: PairBefore(cs[k].from, cs[k].to, cs[l].from, cs[l].to)
  }

  /** A connection list in strictly increasing (from, to) order. */
  predicate Ordered(cs: seq<Connection>)
  {
    forall k, l | 0 <= k < l < |cs| :: PairBefore(cs[k].from, cs[k].to, cs[l].from, cs[l].to)
  }

  lemma UptoUnfold(ps: seq<Particle>, sqrt: real -> real, i: nat, j: nat)
    requires i + 1 < j <= |ps|
    ensures Upto(ps, sqrt, i, j) == Upto(ps, sqrt, i, j - 1) + PairConnection(ps, sqrt, i, j - 1)
  {
  }

  /** Row i starts with what the earlier rows built. */
  lemma RowStart(ps: seq<Particle>, sqrt: real -> real, i: nat)
    requires i < |ps|
    ensures Upto(ps, sqrt, i, i + 1) == Rows(ps, sqrt, i)
  {
  }

  lemma PairShape(ps: seq<Particle>, sqrt: real -> real, i: nat, j: nat)
    requires i < j < |ps|
    ensures AllProper(ps, sqrt, PairConnection(ps, sqrt, i, j))
    ensures |PairConnection(ps, sqrt, i, j)| <= 1
    ensures forall k | 0 <= k < |PairConnection(ps, sqrt, i, j)| ::
      PairConnection(ps, sqrt, i, j)[k].from == i && PairConnection(ps, sqrt, i, j)[k].to == j
  {
  }

  lemma ProperConcat(ps: seq<Particle>, sqrt: real -> real, front: seq<Connection>, back: seq<Connection>)
    requires AllProper(ps, sqrt, front) && AllProper(ps, sqrt, back)
    ensures AllProper(ps, sqrt, front + back)
  {
  }

  /** Appending the connection of (i, j), if any, to connections before
      (i, j) gives connections before (i, j + 1). */
  lemma BeforeConcat(front: seq<Connection>, back: seq<Connection>, i: nat, j: nat)
    requires Before(front, i, j)
    requires forall k | 0 <= k < |back| :: back[k].from == i && back[k].to == j
    ensures Before(front + back, i, j + 1)
  {
  }

  lemma BeforeWiden(cs: seq<Connection>, i: nat, j: nat, i': nat, j': nat)
    requires Before(cs, i, j) && (i < i' || (i == i' && j <= j'))
    ensures Before(cs, i', j')
  {
  }

  /** Appending at most one connection (i, j) to increasing connections
      before (i, j) keeps the list increasing. */
  lemma IncreasingConcat(front: seq<Connection>, back: seq<Connection>, i: nat, j: nat)
    requires Increasing(front) && Before(front, i, j)
    requires |back| <= 1 && forall k | 0 <= k < |back| :: back[k].from == i && back[k].to == j
    ensures Increasing(front + back)
  {
    var all := front + back;
    forall k, l | 0 <= k && l == k + 1 < |all|
      ensures PairBefore(all[k].from, all[k].to, all[l].from, all[l].to)
    {
      if l < |front| {
        assert all[k] == front[k] && all[l] == front[l];
      } else {
        assert all[k] == front[k] && all[l] == back[0];
      }
    }
  }

  lemma {:induction false} IncreasingChain(cs: seq<Connection>, k: nat, l: nat)
    requires Increasing(cs) && k < l < |cs|
    ensures PairBefore(cs[k].from, cs[k].to, cs[l].from, cs[l].to)
    decreases l - k
  {
    if k + 1 < l {
      IncreasingChain(cs, k, l - 1);
      assert PairBefore(cs[l - 1].from, cs[l - 1].to, cs[l].from, cs[l].to);
    }
  }

  /** Ordering neighbours orders every pair. */
  lemma IncreasingOrdered(cs: seq<Connection>)
    requires Increasing(cs)
    ensures Ordered(cs)
  {
    forall k, l | 0 <= k < l < |cs|
      ensures PairBefore(cs[k].from, cs[k].to, cs[l].from, cs[l].to)
    {
      IncreasingChain(cs, k, l);
    }
  }

  lemma PrefixConcat(s: seq<Connection>, t: seq<Connection>, u: seq<Connection>)
    requires s <= t
    ensures s <= t + u
  {
    assert (t + u)[..|s|] == t[..|s|];
  }

  /** Only pairs before (i, j) have been considered so far. */
  lemma {:induction false} UptoBefore(ps: seq<Particle>, sqrt: real -> real, i: nat, j: nat)
    requires i < j <= |ps|
    ensures Before(Upto(ps, sqrt, i, j), i, j)
    decreases i, j
  {
    if j > i + 1 {
      UptoUnfold(ps, sqrt, i, j);
      UptoBefore(ps, sqrt, i, j - 1);
      PairShape(ps, sqrt, i, j - 1);
      BeforeConcat(Upto(ps, sqrt, i, j - 1), PairConnection(ps, sqrt, i, j - 1), i, j - 1);
    } else if i > 0 {
      UptoBefore(ps, sqrt, i - 1, |ps|);
      BeforeWiden(Upto(ps, sqrt, i - 1, |ps|), i - 1, |ps|, i, j);
    }
  }

  lemma {:induction false} UptoProper(ps: seq<Particle>, sqrt: real -> real, i: nat, j: nat)
    requires i < j <= |ps|
    ensures AllProper(ps, sqrt, Upto(ps, sqrt, i, j))
    decreases i, j
  {
    if j > i + 1 {
      UptoUnfold(ps, sqrt, i, j);
      UptoProper(ps, sqrt, i, j - 1);
      PairShape(ps, sqrt, i, j - 1);
      ProperConcat(ps, sqrt, Upto(ps, sqrt, i, j - 1), PairConnection(ps, sqrt, i, j - 1));
    } else if i > 0 {
      UptoProper(ps, sqrt, i - 1, |ps|);
    }
  }

  /** Soundness: every connection joins two particles `from` < `to`, closer
      than MaxDist, with the opacity of their distance. */
  lemma ConnectionsProper(ps: seq<Particle>, sqrt: real -> real)
    ensures forall c | c in Connections(ps, sqrt) :: Proper(ps, sqrt, c)
  {
    if |ps| > 0 {
      UptoProper(ps, sqrt, |ps| - 1, |ps|);
    }
  }

  lemma {:induction false} UptoIncreasing(ps: seq<Particle>, sqrt: real -> real, i: nat, j: nat)
    requires i < j <= |ps|
    ensures Increasing(Upto(ps, sqrt, i, j))
    decreases i, j
  {
    if j > i + 1 {
      UptoUnfold(ps, sqrt, i, j);
      UptoIncreasing(ps, sqrt, i, j - 1);
      UptoBefore(ps, sqrt, i, j - 1);
      PairShape(ps, sqrt, i, j - 1);
      IncreasingConcat(Upto(ps, sqrt, i, j - 1), PairConnection(ps, sqrt, i, j - 1), i, j - 1);
    } else if i > 0 {
      UptoIncreasing(ps, sqrt, i - 1, |ps|);
    }
  }

  /** The list is in strictly increasing (from, to) order, so no pair of
      particles is connected twice. */
  lemma ConnectionsOrdered(ps: seq<Particle>, sqrt: real -> real)
    ensures Ordered(Connections(ps, sqrt))
  {
    if |ps| > 0 {
      UptoIncreasing(ps, sqrt, |ps| - 1, |ps|);
      IncreasingOrdered(Connections(ps, sqrt));
    }
  }

  /** The loops only append: what is built before (i, j) is a prefix of what
      is built before any later pair (i', j'). */
  lemma {:induction false} UptoPrefix(ps: seq<Particle>, sqrt: real -> real, i: nat, j: nat, i': nat, j': nat)
    requires i < j <= |ps| && i' < j' <= |ps|
    requires i < i' || (i == i' && j <= j')
    ensures Upto(ps, sqrt, i, j) <= Upto(ps, sqrt, i', j')
    decreases i', j'
  {
    if i == i' && j == j' {
    } else if j' > i' + 1 {
      UptoUnfold(ps, sqrt, i', j');
      UptoPrefix(ps, sqrt, i, j, i', j' - 1);
      PrefixConcat(Upto(ps, sqrt, i, j), Upto(ps, sqrt, i', j' - 1), PairConnection(ps, sqrt, i', j' - 1));
    } else {
      UptoPrefix(ps, sqrt, i, j, i' - 1, |ps|);
    }
  }

  /** Completeness: every pair a < b closer than MaxDist is connected. */
  lemma ConnectionsComplete(ps: seq<Particle>, sqrt: real -> real, a: nat, b: nat)
    requires a < b < |ps|
    requires Distance(ps, sqrt, a, b) < MaxDist
    ensures Connection(a, b, ConnectionAlpha(Distance(ps, sqrt, a, b))) in Connections(ps, sqrt)
  {
    var c := Connection(a, b, ConnectionAlpha(Distance(ps, sqrt, a, b)));
    var k := |Upto(ps, sqrt, a, b)|;
    UptoUnfold(ps, sqrt, a, b + 1);
    assert PairConnection(ps, sqrt, a, b) == [c];
    assert Upto(ps, sqrt, a, b + 1)[k] == c;
    UptoPrefix(ps, sqrt, a, b + 1, |ps| - 1, |ps|);
    assert Connections(ps, sqrt)[k] == c;
  }

  /** At most one connection per pair considered: PairBound(i, n) pairs
      (a, b) with a < i, then j - i - 1 pairs (i, b). */
  lemma {:induction false} UptoLength(ps: seq<Particle>, sqrt: real -> real, i: nat, j: nat)
    requires i < j <= |ps|
    ensures |Upto(ps, sqrt, i, j)| <= PairBound(i, |ps|) + (j - i - 1)
    decreases i, j
  {
    if j > i + 1 {
      UptoUnfold(ps, sqrt, i, j);
      UptoLength(ps, sqrt, i, j - 1);
      PairShape(ps, sqrt, i, j - 1);
    } else if i > 0 {
      UptoLength(ps, sqrt, i - 1, |ps|);
    }
  }

  /** The number of pairs (a, b) with a < i and a < b < n: row a has
      n-1-a of them. */
  function PairBound(i: nat, n: nat): nat
    requires i <= n
  {
    if i == 0 then 0 else PairBound(i - 1, n) + (n - i)
  }

  /** PairBound(i, n) is i(2n-i-1)/2; for i = n, the n(n-1)/2 unordered
      pairs. */
  lemma {:induction false} PairBoundValue(i: nat, n: nat)
    requires i <= n
    ensures 2 * PairBound(i, n) == i * (2 * n - i - 1)
    decreases i
  {
    if i > 0 {
      PairBoundValue(i - 1, n);
      TriangleStep(i, n);
    }
  }

  lemma TriangleStep(i: nat, n: nat)
    requires 1 <= i <= n
    ensures (i - 1) * (2 * n - (i - 1) - 1) + 2 * (n - i) == i * (2 * n - i - 1)
  {
  }

  /** At most one connection per unordered pair: n(n-1)/2 in all. */
  lemma ConnectionsCount(ps: seq<Particle>, sqrt: real -> real)
    ensures |Connections(ps, sqrt)| <= |ps| * (|ps| - 1) / 2
  {
    var n := |ps|;
    if n > 0 {
      UptoLength(ps, sqrt, n - 1, n);
      PairBoundValue(n - 1, n);
      assert 2 * PairBound(n - 1, n) == n * (n - 1);
    }
  }

  lemma SquareBelow(a: real, b: real)
    requires 0.0 <= a < b
    ensures a * a < b * b
  {
    var e := b - a;
    assert b * b == a * a + 2.0 * a * e + e * e;
    assert e * e > 0.0;
    assert a * e >= 0.0;
  }

  /** With Math.sqrt the connection test is the squared-distance test. */
  lemma ConnectedIffClose(sqrt: real -> real, d2: real)
    requires IsSqrt(sqrt) && 0.0 <= d2
    ensures sqrt(d2) < MaxDist <==> d2 < MaxDist * MaxDist
  {
    var d := sqrt(d2);
    assert 0.0 <= d && d * d == d2;
    if d < MaxDist {
      SquareBelow(d, MaxDist);
    } else if MaxDist < d {
      SquareBelow(MaxDist, d);
    }
  }

  /** A connection's opacity lies in (0, 0.3] and is 0.3 exactly when the two
      particles are at the same point. */
  lemma ConnectionAlphaBounds(sqrt: real -> real, d2: real)
    requires IsSqrt(sqrt) && 0.0 <= d2 && sqrt(d2) < MaxDist
    ensures 0.0 < ConnectionAlpha(sqrt(d2)) <= MaxConnectionAlpha
    ensures ConnectionAlpha(sqrt(d2)) == MaxConnectionAlpha <==> d2 == 0.0
  {
    var d := sqrt(d2);
    assert 0.0 <= d && d * d == d2;
    if d != 0.0 {
      SquareBelow(0.0, d);
    }
  }

  /** Two particles 10 units apart give opacity (1 - 10/150) * 0.3. */
  lemma ConnectionAlphaAtTen(sqrt: real -> real, p: Particle, q: Particle)
    requires IsSqrt(sqrt)
    requires p.x == 0.0 && p.y == 0.0 && q.x == 10.0 && q.y == 0.0
    ensures PairConnection([p, q], sqrt, 0, 1) == [Connection(0, 1, (1.0 - 10.0 / 150.0) * 0.3)]
  {
    var d := sqrt(SquaredDistance(p, q));
    assert SquaredDistance(p, q) == 100.0;
    assert 0.0 <= d && d * d == 100.0;
    if d < 10.0 {
      SquareBelow(d, 10.0);
    } else if d > 10.0 {
      SquareBelow(10.0, d);
    }
  }

  /** Two particles 151 units apart are not connected. */
  lemma NoConnectionAt151(sqrt: real -> real, p: Particle, q: Particle)
    requires IsSqrt(sqrt)
    requires p.x == 0.0 && p.y == 0.0 && q.x == 151.0 && q.y == 0.0
    ensures Connections([p, q], sqrt) == []
  {
    assert SquaredDistance(p, q) == 151.0 * 151.0;
    ConnectedIffClose(sqrt, SquaredDistance(p, q));
    assert PairConnection([p, q], sqrt, 0, 1) == [];
    assert Upto([p, q], sqrt, 0, 2) == [];
  }

  // ---------------------------------------------------------------------
  // The component's state

  /** The canvas, the particle list and the connection list of one mounted
      background. */
  class Field {
    var width: nat
    var height: nat
    var particles: seq<Particle>
    var connections: seq<Connection>

    /** Mounting: size the canvas, create the particles and draw the first
        frame. */
    constructor (windowWidth: nat, windowHeight: nat, random: nat -> real, sqrt: real -> real)
      requires IsRandom(random)
      ensures width == windowWidth && height == windowHeight
      ensures |particles| == ParticleCount(windowWidth, windowHeight)
      ensures forall i | 0 <= i < |particles| ::
        particles[i] == Move(NewParticle(windowWidth, windowHeight, random, i), windowWidth, windowHeight)
      ensures connections == Connections(particles, sqrt)
    {
      width, height := 0, 0;
      particles, connections := [], [];
      new;
      Resize(windowWidth, windowHeight);
      CreateParticles(random);
      Frame(sqrt);
    }

    /** The canvas takes the window's size. */
    method Resize(windowWidth: nat, windowHeight: nat)
      modifies this
      ensures width == windowWidth && height == windowHeight
      ensures particles == old(particles) && connections == old(connections)
    {
      width := windowWidth;
      height := windowHeight;
    }

    /** Discards the particle list and creates a fresh one sized by the
        canvas area. */
    method CreateParticles(random: nat -> real)
      requires IsRandom(random)
      modifies this
      ensures width == old(width) && height == old(height) && connections == old(connections)
      ensures |particles| == ParticleCount(width, height)
      ensures forall i | 0 <= i < |particles| :: particles[i] == NewParticle(width, height, random, i)
      ensures forall i | 0 <= i < |particles| :: InRanges(particles[i], width, height)
    {
      particles := [];
      var count := ParticleCount(width, height);
      for i := 0 to count
        invariant width == old(width) && height == old(height) && connections == old(connections)
        invariant |particles| == i
        invariant forall k | 0 <= k < i :: particles[k] == NewParticle(width, height, random, k)
        invariant forall k | 0 <= k < i :: InRanges(particles[k], width, height)
      {
        NewParticleInRanges(width, height, random, i);
        particles := particles + [NewParticle(width, height, random, i)];
      }
    }

    /** A window resize: the canvas takes the window's size and the whole
        particle set is regenerated. */
    method OnWindowResize(windowWidth: nat, windowHeight: nat, random: nat -> real)
      requires IsRandom(random)
      modifies this
      ensures width == windowWidth && height == windowHeight && connections == old(connections)
      ensures |particles| == ParticleCount(windowWidth, windowHeight)
      ensures forall i | 0 <= i < |particles| :: particles[i] == NewParticle(width, height, random, i)
    {
      Resize(windowWidth, windowHeight);
      CreateParticles(random);
    }

    /** The particle-update loop of one frame. */
    method MoveParticles()
      modifies this
      ensures width == old(width) && height == old(height) && connections == old(connections)
      ensures |particles| == |old(particles)|
      ensures forall i | 0 <= i < |particles| :: particles[i] == Move(old(particles)[i], width, height)
    {
      for i := 0 to |particles|
        invariant |particles| == |old(particles)|
        invariant width == old(width) && height == old(height) && connections == old(connections)
        invariant forall k | 0 <= k < i :: particles[k] == Move(old(particles)[k], width, height)
        invariant forall k | i <= k < |particles| :: particles[k] == old(particles)[k]
      {
        particles := particles[i := Move(particles[i], width, height)];
      }
    }

    /** Rebuilds the connection list from the current particles. */
    method UpdateConnections(sqrt: real -> real)
      modifies this`connections
      ensures connections == Connections(particles, sqrt)
    {
      connections := [];
      for i := 0 to |particles|
        invariant connections == Rows(particles, sqrt, i)
      {
        ConnectLater(sqrt, i);
      }
    }

    /** The inner loop: appends the connections of particle i with every
        later particle. */
    method ConnectLater(sqrt: real -> real, i: nat)
      requires i < |particles| && connections == Rows(particles, sqrt, i)
      modifies this`connections
      ensures connections == Rows(particles, sqrt, i + 1)
    {
      var ps := particles;
      RowStart(ps, sqrt, i);
      for j := i + 1 to |ps|
        invariant connections == Upto(ps, sqrt, i, j)
      {
        var dist := sqrt(SquaredDistance(ps[i], ps[j]));
        if dist < MaxDist {
          connections := connections + [Connection(i, j, ConnectionAlpha(dist))];
        }
      }
    }

    /** The state-changing part of one animation frame: move the particles,
        then rebuild the connections. */
    method Frame(sqrt: real -> real)
      modifies this
      ensures width == old(width) && height == old(height)
      ensures |particles| == |old(particles)|
      ensures forall i | 0 <= i < |particles| :: particles[i] == Move(old(particles)[i], width, height)
      ensures connections == Connections(particles, sqrt)
    {
      MoveParticles();
      UpdateConnections(sqrt);
    }
  }
}
