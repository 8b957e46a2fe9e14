/**
 * The animated particle background (`ParticleBackground` in
 * src/Portfolio.jsx), without its drawing calls and without the
 * trigonometry: a batch of particles is generated whenever the canvas is
 * resized, and every animation frame moves each particle, reflects it at
 * the canvas edges and links every pair of particles that are close.
 */
module Particles {

  /** One particle: position, radius, velocity and fill opacity. */
  datatype Particle = Particle(x: real, y: real, size: real, speedX: real, speedY: real, opacity: real)

  /** The six `Math.random()` values one particle is made from, in the order they are drawn. */
  datatype Draw = Draw(rx: real, ry: real, rsize: real, rspeedX: real, rspeedY: real, ropacity: real)

  /** A displacement in the plane. */
  datatype Vec = Vec(dx: real, dy: real)

  /** An unordered pair of particles, as indices `(i, j)` with `i < j`. */
  type Pair = (nat, nat)

  /** The most particles a batch may have. */
  const MaxParticles: nat := 100

  /** Canvas pixels of width per particle. */
  const PixelsPerParticle: nat := 10

  /** Square of the distance (100) below which the pointer repels and two particles are linked. */
  const ReachSquared: real := 10000.0

  /** `Math.random()` lies in `[0, 1)`. */
  predicate Unit(r: real) {
    0.0 <= r < 1.0
  }

  predicate UnitDraw(d: Draw) {
    Unit(d.rx) && Unit(d.ry) && Unit(d.rsize) && Unit(d.rspeedX) && Unit(d.rspeedY) && Unit(d.ropacity)
  }

  /** How many particles a window `width` pixels wide gets: `min(floor(width / 10), 100)`. */
  function ParticleCount(width: nat): (n: nat)
    ensures n <= MaxParticles && n * PixelsPerParticle <= width
    ensures n == MaxParticles || n == width / PixelsPerParticle
    ensures width < PixelsPerParticle ==> n == 0
  {
    if width / PixelsPerParticle < MaxParticles then width / PixelsPerParticle else MaxParticles
  }

  /** The particle made from one set of random draws on a `w` by `h` canvas. */
  function Spawn(d: Draw, w: nat, h: nat): (p: Particle)
    requires UnitDraw(d)
    ensures 0.0 <= p.x <= w as real && (w > 0 ==> p.x < w as real)
    ensures 0.0 <= p.y <= h as real && (h > 0 ==> p.y < h as real)
    ensures 1.0 <= p.size < 4.0
    ensures -1.0 <= p.speedX < 1.0 && -1.0 <= p.speedY < 1.0
    ensures 0.1 <= p.opacity < 0.6
  {
    Particle(Scale(d.rx, w), Scale(d.ry, h), d.rsize * 3.0 + 1.0,
             d.rspeedX * 2.0 - 1.0, d.rspeedY * 2.0 - 1.0, d.ropacity * 0.5 + 0.1)
  }

  /** A random coordinate on an axis of `extent` pixels: `Math.random() * extent`. */
  function Scale(r: real, extent: nat): (c: real)
    requires Unit(r)
    ensures 0.0 <= c <= extent as real
    ensures extent > 0 ==> c < extent as real
  {
    ScaleBounds(r, extent as real);
    r * (extent as real)
  }

  lemma ScaleBounds(r: real, e: real)
    requires Unit(r) && e >= 0.0
    ensures 0.0 <= r * e <= e
    ensures e > 0.0 ==> r * e < e
  {
    assert (1.0 - r) * e == e - r * e;
    assert 0.0 <= r * e;
    assert 0.0 <= (1.0 - r) * e;
    if e > 0.0 {
      assert 0.0 < (1.0 - r) * e;
    }
  }

  /** The whole batch generated for a `w` by `h` canvas, particle `i` from draw `i`. */
  function Batch(draw: nat -> Draw, w: nat, h: nat): (ps: seq<Particle>)
    requires forall i :: UnitDraw(draw(i))
    ensures |ps| == ParticleCount(w)
  {
    seq(ParticleCount(w), i requires 0 <= i => Spawn(draw(i), w, h))
  }

  /**
   * The pointer nudge, for a particle whose offset to the pointer is
   * `(dx, dy)`: `push(dx, dy)` when the pointer is closer than 100, nothing
   * otherwise. `push` stands for the half-pixel step away from the pointer.
   */
  function Repel(dx: real, dy: real, push: (real, real) -> Vec): Vec
  {
    if OutOfReach(dx, dy) then Vec(0.0, 0.0) else push(dx, dy)
  }

  /** The offset `(dx, dy)` is at least 100 long (compared on its square). */
  predicate OutOfReach(dx: real, dy: real) {
    dx * dx + dy * dy >= ReachSquared
  }

  /** Whether a coordinate has left `[0, extent]`. */
  predicate Outside(c: real, extent: real) {
    c < 0.0 || c > extent
  }

  /**
   * One frame for one particle on a `w` by `h` canvas with the pointer at
   * `(mx, my)`: move by the velocity, apply the pointer nudge, then flip
   * each velocity component whose coordinate is now outside the canvas.
   */
  function Step(p: Particle, w: real, h: real, mx: real, my: real, push: (real, real) -> Vec): (q: Particle)
    ensures q.size == p.size && q.opacity == p.opacity
    ensures q.x == p.x + p.speedX + Repel(mx - (p.x + p.speedX), my - (p.y + p.speedY), push).dx
    ensures q.y == p.y + p.speedY + Repel(mx - (p.x + p.speedX), my - (p.y + p.speedY), push).dy
    ensures q.speedX == p.speedX || q.speedX == -p.speedX
    ensures q.speedY == p.speedY || q.speedY == -p.speedY
    ensures p.speedX != 0.0 ==> (q.speedX != p.speedX <==> Outside(q.x, w))
    ensures p.speedY != 0.0 ==> (q.speedY != p.speedY <==> Outside(q.y, h))
  {
    var x := p.x + p.speedX;
    var y := p.y + p.speedY;
    var nudge := Repel(mx - x, my - y, push);
    var x' := x + nudge.dx;
    var y' := y + nudge.dy;
    p.(x := x', y := y',
       speedX := if Outside(x', w) then -p.speedX else p.speedX,
       speedY := if Outside(y', h) then -p.speedY else p.speedY)
  }

  /** Far from the pointer a particle moves by exactly its velocity. */
  lemma StepAwayFromPointer(p: Particle, w: real, h: real, mx: real, my: real, push: (real, real) -> Vec)
    requires OutOfReach(mx - (p.x + p.speedX), my - (p.y + p.speedY))
    ensures Step(p, w, h, mx, my, push).x == p.x + p.speedX
    ensures Step(p, w, h, mx, my, push).y == p.y + p.speedY
  {
  }

  /** A particle that stays inside the canvas keeps its velocity. */
  lemma StepInsideKeepsVelocity(p: Particle, w: real, h: real, mx: real, my: real, push: (real, real) -> Vec)
    requires !Outside(Step(p, w, h, mx, my, push).x, w) && !Outside(Step(p, w, h, mx, my, push).y, h)
    ensures Step(p, w, h, mx, my, push).speedX == p.speedX
    ensures Step(p, w, h, mx, my, push).speedY == p.speedY
  {
  }

  /**
   * Reflection negates the velocity instead of pointing it back inside, so
   * with the pointer away a particle that is left of the canvas and still
   * left of it after one step returns to the same place and velocity after
   * two: while the pointer stays out of reach it alternates outside the
   * canvas.
   */
  lemma ReflectionCanTrap(p: Particle, w: real, h: real, mx: real, my: real, push: (real, real) -> Vec)
    requires OutOfReach(mx - (p.x + p.speedX), my - (p.y + p.speedY))
    requires var q := Step(p, w, h, mx, my, push); OutOfReach(mx - (q.x + q.speedX), my - (q.y + q.speedY))
    requires p.x < 0.0 && p.x + p.speedX < 0.0
    ensures Outside(Step(p, w, h, mx, my, push).x, w)
    ensures Step(Step(p, w, h, mx, my, push), w, h, mx, my, push).x == p.x
    ensures Step(Step(p, w, h, mx, my, push), w, h, mx, my, push).speedX == p.speedX
  {
    var q := Step(p, w, h, mx, my, push);
    assert q.x == p.x + p.speedX && q.speedX == -p.speedX;
  }

  /** Whether two particles are closer than 100 (compared on squared distance). */
  predicate Close(a: Particle, b: Particle) {
    (a.x - b.x) * (a.x - b.x) + (a.y - b.y) * (a.y - b.y) < ReachSquared
  }

  /** The pairs `(i, j)` with `i < j < n`, in the order the inner pass visits them for one `i`. */
  function Row(i: nat, n: nat): seq<Pair>
  {
    seq(if i < n then n - i - 1 else 0, k requires 0 <= k => (i, i + 1 + k))
  }

  /** One more step of the inner pass appends the next pair of the row. */
  lemma RowPrefixGrows(i: nat, n: nat, m: nat)
    requires i + 1 + m < n
    ensures Row(i, n)[..m + 1] == Row(i, n)[..m] + [(i, i + 1 + m)]
  {
    var r := Row(i, n);
    assert r[m] == (i, i + 1 + m);
    assert r[..m + 1] == r[..m] + [r[m]];
  }

  /** The pairs the link pass has visited once the outer loop has finished rows `0 .. i - 1`. */
  function PairsBefore(i: nat, n: nat): seq<Pair>
  {
    if i == 0 then [] else PairsBefore(i - 1, n) + Row(i - 1, n)
  }

  /** Every pair the link pass of `n` particles visits, in visiting order. */
  function Pairs(n: nat): seq<Pair>
  {
    PairsBefore(n, n)
  }

  /** The rows before `i` hold exactly the pairs `(a, b)` with `a < i` and `a < b < n`. */
  lemma {:induction false} PairsBeforeMembers(i: nat, n: nat)
    ensures forall p :: p in PairsBefore(i, n) <==> p.0 < i && p.0 < p.1 < n
  {
    if i > 0 {
      PairsBeforeMembers(i - 1, n);
      forall p: Pair | p.0 < i && p.0 < p.1 < n
        ensures p in PairsBefore(i, n)
      {
        if p.0 == i - 1 {
          assert Row(i - 1, n)[p.1 - i] == p;
        }
      }
    }
  }

  /**
   * The visiting order is strictly increasing (first by `i`, then by `j`),
   * so no pair is visited twice.
   */
  lemma {:induction false} PairsBeforeIncreasing(i: nat, n: nat)
    ensures forall a, b :: 0 <= a < b < |PairsBefore(i, n)| ==>
              PairsBefore(i, n)[a].0 < PairsBefore(i, n)[b].0
              || (PairsBefore(i, n)[a].0 == PairsBefore(i, n)[b].0 && PairsBefore(i, n)[a].1 < PairsBefore(i, n)[b].1)
  {
    if i > 0 {
      PairsBeforeIncreasing(i - 1, n);
      PairsBeforeMembers(i - 1, n);
      var front, row := PairsBefore(i - 1, n), Row(i - 1, n);
      var all := front + row;
      assert all == PairsBefore(i, n);
      forall a, b | 0 <= a < b < |all|
        ensures all[a].0 < all[b].0 || (all[a].0 == all[b].0 && all[a].1 < all[b].1)
      {
        if b >= |front| {
          assert all[b] == row[b - |front|];
          if a < |front| {
            assert all[a] == front[a];
            assert front[a] in front;
          } else {
            assert all[a] == row[a - |front|];
          }
        } else {
          assert all[a] == front[a] && all[b] == front[b];
        }
      }
    }
  }

  /** After `i` rows the pass has made `i * (2n - i - 1) / 2` comparisons. */
  lemma {:induction false} PairsBeforeLength(i: nat, n: nat)
    requires i <= n
    ensures 2 * |PairsBefore(i, n)| == i * (2 * n - i - 1)
  {
    if i > 0 {
      PairsBeforeLength(i - 1, n);
      assert 2 * |PairsBefore(i, n)| == (i - 1) * (2 * n - i) + 2 * (n - i);
      assert (i - 1) * (2 * n - i) + 2 * (n - i) == i * (2 * n - i - 1);
    }
  }

  /**
   * The link pass over `n` particles visits each unordered pair `i < j < n`
   * exactly once: every such pair occurs, nothing else occurs, no pair
   * occurs twice, and there are `n (n - 1) / 2` of them.
   */
  lemma PairsExactlyOnce(n: nat)
    ensures forall p :: p in Pairs(n) <==> p.0 < p.1 < n
    ensures forall a, b :: 0 <= a < b < |Pairs(n)| ==> Pairs(n)[a] != Pairs(n)[b]
    ensures 2 * |Pairs(n)| == n * (n - 1)
  {
    PairsBeforeMembers(n, n);
    PairsBeforeIncreasing(n, n);
    PairsBeforeLength(n, n);
  }

  /** Every pair names two of the first `n` particles. */
  predicate WithinBatch(pairs: seq<Pair>, n: nat) {
    forall p :: p in pairs ==> p.0 < n && p.1 < n
  }

  /** The pairs of `pairs`, in order, whose particles are close: the lines drawn. */
  function Links(ps: seq<Particle>, pairs: seq<Pair>): (r: seq<Pair>)
    requires WithinBatch(pairs, |ps|)
    ensures forall p :: p in r <==> p in pairs && Close(ps[p.0], ps[p.1])
    ensures |r| <= |pairs|
  {
    if pairs == [] then []
    else
      var last := pairs[|pairs| - 1];
      assert last in pairs;
      Links(ps, pairs[..|pairs| - 1]) + (if Close(ps[last.0], ps[last.1]) then [last] else [])
  }

  /** Comparing one more pair draws one more line exactly when that pair is close. */
  lemma LinksSnoc(ps: seq<Particle>, pairs: seq<Pair>, p: Pair)
    requires WithinBatch(pairs, |ps|) && p.0 < |ps| && p.1 < |ps|
    ensures WithinBatch(pairs + [p], |ps|)
    ensures Links(ps, pairs + [p]) == Links(ps, pairs) + (if Close(ps[p.0], ps[p.1]) then [p] else [])
  {
    assert (pairs + [p])[..|pairs|] == pairs;
  }

  /** One step of the inner pass keeps the link pass's invariant. */
  lemma InnerStep(ps: seq<Particle>, i: nat, j: nat, visited0: seq<Pair>, visited: seq<Pair>)
    requires i + 1 <= j < |ps|
    requires visited == visited0 + Row(i, |ps|)[..j - i - 1] && WithinBatch(visited, |ps|)
    ensures visited + [(i, j)] == visited0 + Row(i, |ps|)[..j - i]
    ensures WithinBatch(visited + [(i, j)], |ps|)
    ensures Links(ps, visited + [(i, j)]) == Links(ps, visited) + (if Close(ps[i], ps[j]) then [(i, j)] else [])
  {
    LinksSnoc(ps, visited, (i, j));
    RowPrefixGrows(i, |ps|, j - i - 1);
  }

  /** A line joins particles `i < j` exactly when they are closer than 100. */
  lemma LinkedIffClose(ps: seq<Particle>, i: nat, j: nat)
    ensures WithinBatch(Pairs(|ps|), |ps|)
    ensures (i, j) in Links(ps, Pairs(|ps|)) <==> i < j < |ps| && Close(ps[i], ps[j])
  {
    PairsBeforeMembers(|ps|, |ps|);
  }

  /**
   * The link pass: for every particle `i`, every later particle `j`; a line
   * is drawn when they are close. Returns the lines drawn, in drawing order,
   * and (as a ghost) every pair compared.
   */
  method ConnectParticles(ps: seq<Particle>) returns (links: seq<Pair>, ghost visited: seq<Pair>)
    ensures visited == Pairs(|ps|)
    ensures WithinBatch(Pairs(|ps|), |ps|)
    ensures links == Links(ps, Pairs(|ps|))
  {
    links, visited := [], [];
    var i := 0;
    while i < |ps|
      invariant 0 <= i <= |ps|
      invariant visited == PairsBefore(i, |ps|)
      invariant WithinBatch(visited, |ps|)
      invariant links == Links(ps, visited)
    {
      links, visited := ConnectFrom(ps, i, links, visited);
      i := i + 1;
    }
  }

  /**
   * The inner pass for particle `i` (`particles.slice(i + 1).forEach`):
   * compare it with every later particle, appending to the lines drawn so far.
   */
  method ConnectFrom(ps: seq<Particle>, i: nat, links0: seq<Pair>, ghost visited0: seq<Pair>)
    returns (links: seq<Pair>, ghost visited: seq<Pair>)
    requires i < |ps| && WithinBatch(visited0, |ps|) && links0 == Links(ps, visited0)
    ensures visited == visited0 + Row(i, |ps|)
    ensures WithinBatch(visited0 + Row(i, |ps|), |ps|)
    ensures links == Links(ps, visited0 + Row(i, |ps|))
  {
    links, visited := links0, visited0;
    var j := i + 1;
    while j < |ps|
      invariant i + 1 <= j <= |ps|
      invariant visited == visited0 + Row(i, |ps|)[..j - i - 1]
      invariant WithinBatch(visited, |ps|)
      invariant links == Links(ps, visited)
    {
      InnerStep(ps, i, j, visited0, visited);
      visited := visited + [(i, j)];
      if Close(ps[i], ps[j]) {
        links := links + [(i, j)];
      }
      j := j + 1;
    }
    assert Row(i, |ps|)[..j - i - 1] == Row(i, |ps|);
  }

  /** The particle field: canvas size, pointer position and the current batch. */
  class ParticleField {
    var width: nat
    var height: nat
    var mouseX: real
    var mouseY: real
    var particles: seq<Particle>

    /**
     * Mount: pointer at the origin, canvas sized to the window, first batch
     * generated. The mount then draws its first frame at once; that frame
     * is one call of `Tick` on the new field.
     */
    constructor (innerWidth: nat, innerHeight: nat, draw: nat -> Draw)
      requires forall i :: UnitDraw(draw(i))
      ensures width == innerWidth && height == innerHeight
      ensures mouseX == 0.0 && mouseY == 0.0
      ensures particles == Batch(draw, innerWidth, innerHeight)
    {
      width, height := innerWidth, innerHeight;
      mouseX, mouseY := 0.0, 0.0;
      particles := [];
      new;
      CreateParticles(draw);
    }

    /** The resize handler: the canvas takes the window's size and a new batch replaces the old one. */
    method Resize(innerWidth: nat, innerHeight: nat, draw: nat -> Draw)
      requires forall i :: UnitDraw(draw(i))
      modifies this
      ensures width == innerWidth && height == innerHeight
      ensures mouseX == old(mouseX) && mouseY == old(mouseY)
      ensures particles == Batch(draw, innerWidth, innerHeight)
    {
      width, height := innerWidth, innerHeight;
      CreateParticles(draw);
    }

    /**
     * Discard the batch and push `min(floor(width / 10), 100)` new
     * particles, particle `i` made from draw `i`. The window width the
     * count uses equals the canvas width at the only call site, the resize
     * handler.
     */
    method CreateParticles(draw: nat -> Draw)
      requires forall i :: UnitDraw(draw(i))
      modifies this`particles
      ensures particles == Batch(draw, width, height)
    {
      particles := [];
      var particleCount := if width / PixelsPerParticle < MaxParticles then width / PixelsPerParticle else MaxParticles;
      var i := 0;
      while i < particleCount
        invariant 0 <= i <= particleCount == ParticleCount(width)
        invariant particles == Batch(draw, width, height)[..i]
      {
        particles := particles + [Spawn(draw(i), width, height)];
        i := i + 1;
      }
    }

    /** The pointer-move handler records the pointer position. */
    method MouseMove(clientX: real, clientY: real)
      modifies this`mouseX, this`mouseY
      ensures mouseX == clientX && mouseY == clientY
    {
      mouseX, mouseY := clientX, clientY;
    }

    /**
     * One animation frame: step every particle in place, then run the link
     * pass over the moved particles and return the lines it draws.
     */
    method Tick(push: (real, real) -> Vec) returns (links: seq<Pair>)
      modifies this`particles
      ensures |particles| == |old(particles)|
      ensures forall k :: 0 <= k < |particles| ==>
                particles[k] == Step(old(particles)[k], width as real, height as real, mouseX, mouseY, push)
      ensures WithinBatch(Pairs(|particles|), |particles|)
      ensures links == Links(particles, Pairs(|particles|))
    {
      var i := 0;
      while i < |particles|
        invariant 0 <= i <= |particles| == |old(particles)|
        invariant forall k :: 0 <= k < i ==>
                    particles[k] == Step(old(particles)[k], width as real, height as real, mouseX, mouseY, push)
        invariant forall k :: i <= k < |particles| ==> particles[k] == old(particles)[k]
      {
        particles := particles[i := Step(particles[i], width as real, height as real, mouseX, mouseY, push)];
        i := i + 1;
      }
      ghost var visited;
      links, visited := ConnectParticles(particles);
    }
  }
}
