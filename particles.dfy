/**
 * The background particle field (`ParticleSystem`, script.js:203-334): seeding from random
 * draws, one animation step per frame (integration, edge bounce, pointer repulsion,
 * damping), the pairs joined by connection lines, and the pointer state the mouse
 * handlers keep.
 */
module Particles {
  import opened Wrappers

  /** `particleCount`, `connectionDistance` and `mouse.radius`. */
  const ParticleCount: nat := 150
  const ConnectionDistance: real := 150.0
  const MouseRadius: real := 150.0
  /** The per-frame velocity factor and the repulsion strength. */
  const Damping: real := 0.99
  const RepulsionStrength: real := 0.2
  /** `Math.random()` is called five times per particle: x, y, vx, vy, size. */
  const DrawsPerParticle: nat := 5

  /** One particle record; every field is a JavaScript number. */
  datatype Particle = Particle(x: real, y: real, vx: real, vy: real, size: real)

  /**
   * What the host's Math library reports for the offset `(dx, dy)` from a particle to the
   * pointer: `Math.sqrt(dx * dx + dy * dy)` and the cosine and sine of `Math.atan2(dy, dx)`.
   */
  datatype Polar = Polar(distance: real, cos: real, sin: real)
  type Geometry = (real, real) -> Polar

  /** A frame's worth of random numbers: five per particle, each in [0, 1). */
  predicate ValidDraws(draws: seq<real>) {
    && |draws| == DrawsPerParticle * ParticleCount
    && forall k :: 0 <= k < |draws| ==> 0.0 <= draws[k] < 1.0
  }

  // ---------------------------------------------------------------- seeding

  /** The particle pushed by iteration `i` of `createParticles`. */
  function NewParticle(draws: seq<real>, i: nat, width: nat, height: nat): Particle
    requires DrawsPerParticle * i + 4 < |draws|
  {
    var b := DrawsPerParticle * i;
    Particle(
      draws[b] * (width as real),
      draws[b + 1] * (height as real),
      (draws[b + 2] - 0.5) * 0.5,
      (draws[b + 3] - 0.5) * 0.5,
      draws[b + 4] * 2.0 + 1.0)
  }

  /** The whole freshly seeded field; nothing of the previous field enters it. */
  function Seeded(draws: seq<real>, width: nat, height: nat): (ps: seq<Particle>)
    requires |draws| == DrawsPerParticle * ParticleCount
    ensures |ps| == ParticleCount
  {
    seq(ParticleCount, i requires 0 <= i < ParticleCount => NewParticle(draws, i, width, height))
  }

  /** The ranges a seeded particle falls in (an empty extent pins that coordinate to 0). */
  predicate SeedRange(p: Particle, width: nat, height: nat) {
    && 0.0 <= p.x <= width as real && (width > 0 ==> p.x < width as real)
    && 0.0 <= p.y <= height as real && (height > 0 ==> p.y < height as real)
    && -0.25 <= p.vx < 0.25 && -0.25 <= p.vy < 0.25
    && 1.0 <= p.size < 3.0
  }

  /** A draw in [0, 1) scales a non-negative extent into [0, extent), or to 0 on an empty one. */
  lemma Scale(r: real, e: nat)
    requires 0.0 <= r < 1.0
    ensures 0.0 <= r * (e as real) <= e as real
    ensures e > 0 ==> r * (e as real) < e as real
  {
    var w := e as real;
    assert w - r * w == (1.0 - r) * w;
    assert (1.0 - r) * w >= 0.0;
    if e > 0 {
      assert (1.0 - r) * w > 0.0;
    }
  }

  /** A particle built from five draws in [0, 1) falls in the seed ranges. */
  lemma NewParticleInRange(draws: seq<real>, i: nat, width: nat, height: nat)
    requires DrawsPerParticle * i + 4 < |draws|
    requires forall k :: DrawsPerParticle * i <= k < DrawsPerParticle * i + 5 ==> 0.0 <= draws[k] < 1.0
    ensures SeedRange(NewParticle(draws, i, width, height), width, height)
  {
    var b := DrawsPerParticle * i;
    assert 0.0 <= draws[b] < 1.0 && 0.0 <= draws[b + 1] < 1.0;
    assert 0.0 <= draws[b + 2] < 1.0 && 0.0 <= draws[b + 3] < 1.0 && 0.0 <= draws[b + 4] < 1.0;
    Scale(draws[b], width);
    Scale(draws[b + 1], height);
  }

  /** Every seeded particle lies in the extent, moves slowly and has a size in [1, 3). */
  lemma SeededInRange(draws: seq<real>, width: nat, height: nat)
    requires ValidDraws(draws)
    ensures forall i :: 0 <= i < ParticleCount ==> SeedRange(Seeded(draws, width, height)[i], width, height)
  {
    forall i | 0 <= i < ParticleCount ensures SeedRange(Seeded(draws, width, height)[i], width, height) {
      NewParticleInRange(draws, i, width, height);
    }
  }

  // ---------------------------------------------------------------- one frame

  /** `particle.x += particle.vx; particle.y += particle.vy`. */
  function Integrate(p: Particle): (r: Particle)
    ensures r.vx == p.vx && r.vy == p.vy && r.size == p.size
  {
    p.(x := p.x + p.vx, y := p.y + p.vy)
  }

  /** Bounce off edges: a velocity component changes sign when its coordinate is outside the extent. */
  function Bounce(p: Particle, width: nat, height: nat): (r: Particle)
    ensures r.x == p.x && r.y == p.y && r.size == p.size
    ensures Abs(r.vx) == Abs(p.vx) && Abs(r.vy) == Abs(p.vy)
    ensures 0.0 <= p.x <= width as real ==> r.vx == p.vx
    ensures 0.0 <= p.y <= height as real ==> r.vy == p.vy
  {
    var vx := if p.x < 0.0 || p.x > width as real then p.vx * -1.0 else p.vx;
    var vy := if p.y < 0.0 || p.y > height as real then p.vy * -1.0 else p.vy;
    p.(vx := vx, vy := vy)
  }

  /** `(radius - distance) / radius`, the push strength at a distance inside the radius. */
  function Force(distance: real): real {
    (MouseRadius - distance) / MouseRadius
  }

  /** Mouse interaction: a present pointer within the radius pushes the particle away. */
  function Repel(p: Particle, pointer: Option<(real, real)>, geometry: Geometry): (r: Particle)
    ensures r.x == p.x && r.y == p.y && r.size == p.size
    ensures pointer.None? ==> r == p
  {
    match pointer
    case None => p
    case Some((mx, my)) =>
      var g := geometry(mx - p.x, my - p.y);
      if g.distance < MouseRadius then
        var force := Force(g.distance);
        p.(vx := p.vx - g.cos * force * RepulsionStrength, vy := p.vy - g.sin * force * RepulsionStrength)
      else p
  }

  /** `particle.vx *= 0.99; particle.vy *= 0.99`. */
  function Damp(p: Particle): (r: Particle)
    ensures r.x == p.x && r.y == p.y && r.size == p.size
    ensures Abs(r.vx) == Damping * Abs(p.vx) && Abs(r.vy) == Damping * Abs(p.vy)
  {
    p.(vx := p.vx * Damping, vy := p.vy * Damping)
  }

  /** The body of the `updateParticles` loop, in the source's order. */
  function Step(p: Particle, width: nat, height: nat, pointer: Option<(real, real)>, geometry: Geometry): (r: Particle)
    ensures r.size == p.size
    ensures pointer.None? ==> r == Drift(p, width, height)
  {
    Damp(Repel(Bounce(Integrate(p), width, height), pointer, geometry))
  }

  /** One frame of `updateParticles` over the whole field. */
  function StepAll(ps: seq<Particle>, width: nat, height: nat, pointer: Option<(real, real)>, geometry: Geometry): (qs: seq<Particle>)
    ensures |qs| == |ps|
  {
    seq(|ps|, i requires 0 <= i < |ps| => Step(ps[i], width, height, pointer, geometry))
  }

  /** The frame of one particle when no pointer is present. */
  function Drift(p: Particle, width: nat, height: nat): Particle {
    Damp(Bounce(Integrate(p), width, height))
  }

  /** The frame of the whole field when no pointer is present. */
  function DriftAll(ps: seq<Particle>, width: nat, height: nat): (qs: seq<Particle>)
    ensures |qs| == |ps|
  {
    seq(|ps|, i requires 0 <= i < |ps| => Drift(ps[i], width, height))
  }

  /** `k` pointer-free frames. */
  function Frames(ps: seq<Particle>, width: nat, height: nat, k: nat): (qs: seq<Particle>)
    ensures |qs| == |ps|
    decreases k
  {
    if k == 0 then ps else Frames(DriftAll(ps, width, height), width, height, k - 1)
  }

  /** The mouse handlers' state as the repulsion branch sees it: both coordinates must be non-null. */
  function Pointer(mouseX: Option<real>, mouseY: Option<real>): (pointer: Option<(real, real)>)
    ensures pointer.Some? <==> mouseX.Some? && mouseY.Some?
    ensures pointer.Some? ==> pointer.value == (mouseX.value, mouseY.value)
  {
    if mouseX.Some? && mouseY.Some? then Some((mouseX.value, mouseY.value)) else None
  }

  /**
   * Without a pointer one frame moves the particle by its velocity, never clamping the
   * position, and each velocity component is negated if the new coordinate is outside
   * the extent, then scaled by 0.99; the size is kept.
   */
  lemma DriftExact(p: Particle, width: nat, height: nat)
    ensures Drift(p, width, height).x == p.x + p.vx
    ensures Drift(p, width, height).y == p.y + p.vy
    ensures Drift(p, width, height).vx ==
      if p.x + p.vx < 0.0 || p.x + p.vx > width as real then Damping * -p.vx else Damping * p.vx
    ensures Drift(p, width, height).vy ==
      if p.y + p.vy < 0.0 || p.y + p.vy > height as real then Damping * -p.vy else Damping * p.vy
    ensures Drift(p, width, height).size == p.size
  {
  }

  /** With the pointer absent the host geometry is never consulted: the frame is `Drift`. */
  lemma AbsentPointerIsDrift(ps: seq<Particle>, width: nat, height: nat, geometry: Geometry)
    ensures StepAll(ps, width, height, None, geometry) == DriftAll(ps, width, height)
  {
  }

  /** A pointer the host measures at or beyond the radius has no effect either. */
  lemma DistantPointerIsDrift(p: Particle, width: nat, height: nat, mx: real, my: real, geometry: Geometry)
    requires
      var q := Bounce(Integrate(p), width, height);
      geometry(mx - q.x, my - q.y).distance >= MouseRadius
    ensures Step(p, width, height, Some((mx, my)), geometry) == Drift(p, width, height)
  {
  }

  /** The push strength is in (0, 1] inside the radius, strictly falling with distance, and 0 at the radius. */
  lemma ForceShape(d: real, e: real)
    requires 0.0 <= d < e
    ensures d < MouseRadius ==> 0.0 < Force(d) <= 1.0
    ensures Force(d) > Force(e)
    ensures Force(MouseRadius) == 0.0 && Force(0.0) == 1.0
  {
  }

  /** The example of a fast particle crossing the right edge: it lands outside and turns back, damped. */
  lemma RightEdgeBounce(y: real, vy: real, size: real, height: nat)
    requires 0.0 <= y + vy <= height as real
    ensures Drift(Particle(799.0, y, 2.0, vy, size), 800, height) == Particle(801.0, y + vy, -1.98, 0.99 * vy, size)
  {
  }

  // ---------------------------------------------------------------- long-run behaviour

  function Abs(r: real): real {
    if r < 0.0 then -r else r
  }

  /** `b` to the power `k`. */
  function Pow(b: real, k: nat): real
    decreases k
  {
    if k == 0 then 1.0 else b * Pow(b, k - 1)
  }

  /** One pointer-free frame scales the speed along each axis by exactly 0.99, bounce or not. */
  lemma DriftSpeed(p: Particle, width: nat, height: nat)
    ensures Abs(Drift(p, width, height).vx) == Damping * Abs(p.vx)
    ensures Abs(Drift(p, width, height).vy) == Damping * Abs(p.vy)
  {
  }

  /** After `k` pointer-free frames every speed component is 0.99^k times what it was. */
  lemma {:induction false} FramesSpeed(ps: seq<Particle>, width: nat, height: nat, k: nat, i: nat)
    requires i < |ps|
    ensures Abs(Frames(ps, width, height, k)[i].vx) == Pow(Damping, k) * Abs(ps[i].vx)
    ensures Abs(Frames(ps, width, height, k)[i].vy) == Pow(Damping, k) * Abs(ps[i].vy)
    decreases k
  {
    if k > 0 {
      var next := DriftAll(ps, width, height);
      FramesSpeed(next, width, height, k - 1, i);
      DriftSpeed(ps[i], width, height);
      assert next[i] == Drift(ps[i], width, height);
      calc {
        Abs(Frames(ps, width, height, k)[i].vx);
        Pow(Damping, k - 1) * Abs(next[i].vx);
        Pow(Damping, k - 1) * (Damping * Abs(ps[i].vx));
        (Damping * Pow(Damping, k - 1)) * Abs(ps[i].vx);
      }
      calc {
        Abs(Frames(ps, width, height, k)[i].vy);
        Pow(Damping, k - 1) * Abs(next[i].vy);
        Pow(Damping, k - 1) * (Damping * Abs(ps[i].vy));
        (Damping * Pow(Damping, k - 1)) * Abs(ps[i].vy);
      }
    }
  }

  /** 0.99^k is positive and at most 1 / (1 + k/100), so pointer-free speeds die out. */
  lemma {:induction false} DampingBound(k: nat)
    ensures 0.0 < Pow(Damping, k)
    ensures Pow(Damping, k) * (1.0 + 0.01 * k as real) <= 1.0
    decreases k
  {
    if k > 0 {
      DampingBound(k - 1);
      var q := Pow(Damping, k - 1);
      var n := (k - 1) as real;
      assert Pow(Damping, k) == Damping * q;
      assert Damping * q * (1.0 + 0.01 * (n + 1.0)) == q * (0.9999 + 0.0099 * n);
      assert q * (0.9999 + 0.0099 * n) <= q * (1.0 + 0.01 * n);
    }
  }

  /** A particle with no velocity inside the extent. */
  predicate AtRest(p: Particle, width: nat, height: nat) {
    p.vx == 0.0 && p.vy == 0.0 && 0.0 <= p.x <= width as real && 0.0 <= p.y <= height as real
  }

  /** A field of resting particles stays exactly as it is through any number of pointer-free frames. */
  lemma {:induction false} RestingFieldStays(ps: seq<Particle>, width: nat, height: nat, k: nat)
    requires forall i :: 0 <= i < |ps| ==> AtRest(ps[i], width, height)
    ensures Frames(ps, width, height, k) == ps
    decreases k
  {
    if k > 0 {
      assert DriftAll(ps, width, height) == ps;
      RestingFieldStays(ps, width, height, k - 1);
    }
  }

  /** Three resting particles on an 800 by 600 surface are where they started after five frames. */
  lemma ThreeRestingParticles()
    ensures
      var ps := [Particle(10.0, 10.0, 0.0, 0.0, 1.0), Particle(20.0, 10.0, 0.0, 0.0, 2.0), Particle(600.0, 500.0, 0.0, 0.0, 1.5)];
      Frames(ps, 800, 600, 5) == ps
  {
    var ps := [Particle(10.0, 10.0, 0.0, 0.0, 1.0), Particle(20.0, 10.0, 0.0, 0.0, 2.0), Particle(600.0, 500.0, 0.0, 0.0, 1.5)];
    RestingFieldStays(ps, 800, 600, 5);
  }

  /** `k` pointer-free frames of one particle. */
  function DriftN(p: Particle, width: nat, height: nat, k: nat): Particle
    decreases k
  {
    if k == 0 then p else DriftN(Drift(p, width, height), width, height, k - 1)
  }

  /** Particles do not interact: frame `k` of the field is frame `k` of each particle on its own. */
  lemma {:induction false} FramesPointwise(ps: seq<Particle>, width: nat, height: nat, k: nat, i: nat)
    requires i < |ps|
    ensures Frames(ps, width, height, k)[i] == DriftN(ps[i], width, height, k)
    decreases k
  {
    if k > 0 {
      var next := DriftAll(ps, width, height);
      assert next[i] == Drift(ps[i], width, height);
      FramesPointwise(next, width, height, k - 1, i);
    }
  }

  /** Beyond the right edge and still heading outwards. */
  predicate OutRight(p: Particle, width: nat) {
    p.x > width as real && p.vx > 0.0
  }

  /**
   * Since positions are never clamped, a particle beyond the right edge that heads outwards
   * is turned back too weakly to come in: it stays beyond the edge in every later frame.
   */
  lemma {:induction false} OutRightStaysOut(p: Particle, width: nat, height: nat, k: nat)
    requires OutRight(p, width)
    ensures DriftN(p, width, height, k).x > width as real
    decreases k
  {
    if k == 1 {
      assert DriftN(p, width, height, 1) == Drift(p, width, height);
    } else if k >= 2 {
      var q := Drift(Drift(p, width, height), width, height);
      assert q.x == p.x + 0.01 * p.vx;
      assert q.vx == Damping * Damping * p.vx;
      assert DriftN(p, width, height, k) == DriftN(q, width, height, k - 2);
      OutRightStaysOut(q, width, height, k - 2);
    }
  }

  /**
   * A particle resting exactly on the right edge of an 800-wide field with velocity 1 is
   * outside in every frame from the first on, not for one frame only.
   */
  lemma EdgeParticleNeverReturns(k: nat)
    requires k >= 1
    ensures Frames([Particle(800.0, 300.0, 1.0, 0.0, 1.0)], 800, 600, k)[0].x > 800.0
  {
    var p := Particle(800.0, 300.0, 1.0, 0.0, 1.0);
    FramesPointwise([p], 800, 600, k, 0);
    var q := Drift(Drift(p, 800, 600), 800, 600);
    assert Drift(p, 800, 600).x == 801.0;
    assert OutRight(q, 800);
    if k >= 2 {
      assert DriftN(p, 800, 600, k) == DriftN(q, 800, 600, k - 2);
      OutRightStaysOut(q, 800, 600, k - 2);
    } else {
      assert DriftN(p, 800, 600, 1) == Drift(p, 800, 600);
    }
  }

  // ---------------------------------------------------------------- connections

  function SquaredDistance(p: Particle, q: Particle): real {
    (p.x - q.x) * (p.x - q.x) + (p.y - q.y) * (p.y - q.y)
  }

  /** `distance < connectionDistance`, decided on squares so that no square root is needed. */
  predicate Connected(p: Particle, q: Particle) {
    SquaredDistance(p, q) < ConnectionDistance * ConnectionDistance
  }

  /** For a non-negative root of the squared distance the test on squares is the test on distances. */
  lemma ThresholdOnSquares(d: real, sq: real)
    requires d >= 0.0 && d * d == sq
    ensures d < ConnectionDistance <==> sq < ConnectionDistance * ConnectionDistance
  {
    var c := ConnectionDistance;
    if d < c {
      assert d * d <= d * c;
      assert d * c < c * c;
    } else {
      assert d * d >= d * c;
      assert d * c >= c * c;
    }
  }

  /** `(1 - distance / connectionDistance) * 0.3`, the stroke opacity of a line. */
  function Opacity(distance: real): real {
    (1.0 - distance / ConnectionDistance) * 0.3
  }

  /** A drawn line has an opacity in (0, 0.3], 0.3 at distance 0 and 0.1 at distance 100. */
  lemma OpacityRange(d: real)
    requires 0.0 <= d < ConnectionDistance
    ensures 0.0 < Opacity(d) <= 0.3
    ensures Opacity(0.0) == 0.3 && Opacity(100.0) == 0.1
  {
  }

  /** Particles 100 apart are joined, particles 200 apart are not. */
  lemma ConnectionExamples(size: real)
    ensures Connected(Particle(0.0, 0.0, 0.0, 0.0, size), Particle(100.0, 0.0, 0.0, 0.0, size))
    ensures !Connected(Particle(0.0, 0.0, 0.0, 0.0, size), Particle(200.0, 0.0, 0.0, 0.0, size))
  {
  }

  /** A line between particles `i` and `j` of the field. */
  datatype Link = Link(i: nat, j: nat)

  /** The visiting order of the nested `i`, `j` loops. */
  predicate Before(a: Link, b: Link) {
    a.i < b.i || (a.i == b.i && a.j < b.j)
  }

  /**
   * `links` are the lines of field `ps`: each joins a pair `i < j` within the connection
   * distance, every such pair is there, and they come in loop order, so no pair twice.
   */
  predicate IsLinkList(ps: seq<Particle>, links: seq<Link>) {
    && (forall k :: 0 <= k < |links| ==> links[k].i < links[k].j < |ps| && Connected(ps[links[k].i], ps[links[k].j]))
    && (forall i, j :: 0 <= i < j < |ps| && Connected(ps[i], ps[j]) ==> Link(i, j) in links)
    && (forall k, l :: 0 <= k < l < |links| ==> Before(links[k], links[l]))
  }

  // ---------------------------------------------------------------- the engine object

  class ParticleSystem {
    /** The canvas extent. */
    var width: nat
    var height: nat
    var particles: seq<Particle>
    /** `mouse.x` and `mouse.y`; `None` is null. */
    var mouseX: Option<real>
    var mouseY: Option<real>

    /** The field holds `particleCount` particles, and the handlers set both pointer coordinates together. */
    ghost predicate Valid()
      reads this
    {
      |particles| == ParticleCount && (mouseX.Some? <==> mouseY.Some?)
    }

    /**
     * Sizes the field to the window, seeds it, and runs the first animation frame
     * synchronously (with the pointer still null).
     */
    constructor (w: nat, h: nat, draws: seq<real>, geometry: Geometry)
      requires ValidDraws(draws)
      ensures Valid()
      ensures width == w && height == h && mouseX == None && mouseY == None
      ensures particles == DriftAll(Seeded(draws, w, h), w, h)
    {
      particles := [];
      mouseX, mouseY := None, None;
      width, height := w, h;
      new;
      CreateParticles(draws);
      var links := Animate(geometry);
      AbsentPointerIsDrift(Seeded(draws, w, h), w, h, geometry);
    }

    /** `createParticles`: the field is replaced by `particleCount` new particles from the draws. */
    method CreateParticles(draws: seq<real>)
      requires ValidDraws(draws)
      requires mouseX.Some? <==> mouseY.Some?
      modifies this`particles
      ensures Valid()
      ensures particles == Seeded(draws, width, height)
    {
      particles := [];
      var i := 0;
      while i < ParticleCount
        invariant 0 <= i <= ParticleCount
        invariant particles == Seeded(draws, width, height)[..i]
      {
        particles := particles + [NewParticle(draws, i, width, height)];
        i := i + 1;
      }
    }

    /** The resize handler: the canvas takes the new window extent and the field is reseeded. */
    method Resize(w: nat, h: nat, draws: seq<real>)
      requires Valid() && ValidDraws(draws)
      modifies this`width, this`height, this`particles
      ensures Valid()
      ensures width == w && height == h
      ensures particles == Seeded(draws, w, h)
    {
      width, height := w, h;
      CreateParticles(draws);
    }

    /** `updateParticles`: every particle takes one step in place, in field order. */
    method UpdateParticles(geometry: Geometry)
      requires Valid()
      modifies this`particles
      ensures Valid()
      ensures particles == StepAll(old(particles), width, height, Pointer(mouseX, mouseY), geometry)
    {
      var pointer := Pointer(mouseX, mouseY);
      var i := 0;
      while i < |particles|
        invariant 0 <= i <= |particles| == |old(particles)|
        invariant forall k :: 0 <= k < i ==> particles[k] == Step(old(particles)[k], width, height, pointer, geometry)
        invariant forall k :: i <= k < |particles| ==> particles[k] == old(particles)[k]
      {
        particles := particles[i := Step(particles[i], width, height, pointer, geometry)];
        i := i + 1;
      }
    }

    /** The pair loops of `drawConnections`: the lines to draw this frame. */
    method DrawConnections() returns (links: seq<Link>)
      ensures IsLinkList(particles, links)
    {
      links := [];
      var i := 0;
      while i < |particles|
        invariant 0 <= i <= |particles|
        invariant forall k :: 0 <= k < |links| ==> ValidLink(links[k]) && links[k].i < i
        invariant forall a, b :: 0 <= a < i && a < b < |particles| && Connected(particles[a], particles[b]) ==> Link(a, b) in links
        invariant forall k, l :: 0 <= k < l < |links| ==> Before(links[k], links[l])
      {
        links := ConnectFrom(i, links);
        i := i + 1;
      }
    }

    /** A line of the current field. */
    ghost predicate ValidLink(l: Link)
      reads this
    {
      l.i < l.j < |particles| && Connected(particles[l.i], particles[l.j])
    }

    /** The inner loop of `drawConnections`: appends the lines from particle `i` to every later one. */
    method ConnectFrom(i: nat, links: seq<Link>) returns (out: seq<Link>)
      requires i < |particles|
      requires forall k :: 0 <= k < |links| ==> ValidLink(links[k]) && links[k].i < i
      requires forall k, l :: 0 <= k < l < |links| ==> Before(links[k], links[l])
      ensures forall k :: 0 <= k < |out| ==> ValidLink(out[k]) && out[k].i <= i
      ensures forall k, l :: 0 <= k < l < |out| ==> Before(out[k], out[l])
      ensures forall b :: i < b < |particles| && Connected(particles[i], particles[b]) ==> Link(i, b) in out
      ensures |links| <= |out| && out[..|links|] == links
      ensures forall k :: |links| <= k < |out| ==> out[k].i == i
    {
      out := links;
      var j := i + 1;
      while j < |particles|
        invariant i + 1 <= j <= |particles|
        invariant forall k :: 0 <= k < |out| ==> ValidLink(out[k]) && Before(out[k], Link(i, j))
        invariant forall k, l :: 0 <= k < l < |out| ==> Before(out[k], out[l])
        invariant forall b :: i < b < j && Connected(particles[i], particles[b]) ==> Link(i, b) in out
        invariant |links| <= |out| && out[..|links|] == links
        invariant forall k :: |links| <= k < |out| ==> out[k].i == i
      {
        if Connected(particles[i], particles[j]) {
          out := out + [Link(i, j)];
        }
        j := j + 1;
      }
    }

    /** One animation frame without the drawing: step the field, then find its lines. */
    method Animate(geometry: Geometry) returns (links: seq<Link>)
      requires Valid()
      modifies this`particles
      ensures Valid()
      ensures particles == StepAll(old(particles), width, height, Pointer(mouseX, mouseY), geometry)
      ensures IsLinkList(particles, links)
    {
      UpdateParticles(geometry);
      links := DrawConnections();
    }

    /** The mousemove handler: the pointer is at the event's coordinates. */
    method MouseMove(x: real, y: real)
      requires Valid()
      modifies this`mouseX, this`mouseY
      ensures Valid()
      ensures mouseX == Some(x) && mouseY == Some(y)
      ensures Pointer(mouseX, mouseY) == Some((x, y))
    {
      mouseX, mouseY := Some(x), Some(y);
    }

    /** The mouseleave handler: both coordinates become null, so the repulsion branch is off. */
    method MouseLeave()
      requires Valid()
      modifies this`mouseX, this`mouseY
      ensures Valid()
      ensures mouseX == None && mouseY == None
      ensures Pointer(mouseX, mouseY) == None
    {
      mouseX, mouseY := None, None;
    }
  }
}
