/**
 * The drifting background: a fixed array of particles whose positions advance
 * by their velocities on every frame and wrap around the canvas edges.
 * Positions and velocities are real numbers; the canvas size is the integer
 * pixel size of the canvas element.
 */
module Particles {

  const ParticleCount: nat := 50

  /** `Math.random()` is called this many times per particle, in field order. */
  const DrawsPerParticle: nat := 6

  datatype Particle = Particle(x: real, y: real, vx: real, vy: real, size: real, opacity: real)

  /** A position inside the canvas, edges included. */
  predicate InBounds(p: Particle, width: nat, height: nat) {
    0.0 <= p.x <= width as real && 0.0 <= p.y <= height as real
  }

  /** The ranges `initParticles` samples velocity, size and opacity from. */
  predicate SampledAttributes(p: Particle) {
    -0.2 <= p.vx < 0.2 && -0.2 <= p.vy < 0.2 && 1.0 <= p.size < 3.5 && 0.3 <= p.opacity < 0.9
  }

  predicate IsDraw(r: real) {
    0.0 <= r < 1.0
  }

  /**
   * The wrap of one coordinate against one canvas dimension: below 0 it
   * becomes the dimension itself, beyond the dimension it becomes 0.
   */
  function Wrap(c: real, limit: nat): (r: real)
    ensures 0.0 <= r <= limit as real
    ensures 0.0 <= c <= limit as real ==> r == c
    ensures c < 0.0 ==> r == limit as real
    ensures c > limit as real ==> r == 0.0
  {
    var c' := if c < 0.0 then limit as real else c;
    if c' > limit as real then 0.0 else c'
  }

  /** One frame's update of a particle: add the velocity, then wrap. */
  function Step(p: Particle, width: nat, height: nat): (q: Particle)
    ensures InBounds(q, width, height)
    ensures q.vx == p.vx && q.vy == p.vy && q.size == p.size && q.opacity == p.opacity
    ensures InBounds(p.(x := p.x + p.vx, y := p.y + p.vy), width, height) ==>
              q.x == p.x + p.vx && q.y == p.y + p.vy
  {
    p.(x := Wrap(p.x + p.vx, width), y := Wrap(p.y + p.vy, height))
  }

  /** A particle after k frames on a canvas of fixed size. */
  function Advance(p: Particle, width: nat, height: nat, k: nat): Particle {
    if k == 0 then p else Step(Advance(p, width, height, k - 1), width, height)
  }

  /** However many frames pass, a particle keeps its velocity, size and opacity. */
  lemma {:induction false} AdvanceKeepsAttributes(p: Particle, width: nat, height: nat, k: nat)
    ensures var q := Advance(p, width, height, k);
      q.vx == p.vx && q.vy == p.vy && q.size == p.size && q.opacity == p.opacity
  {
    if k > 0 {
      AdvanceKeepsAttributes(p, width, height, k - 1);
    }
  }

  /** After at least one frame a particle is inside the canvas. */
  lemma AdvanceInBounds(p: Particle, width: nat, height: nat, k: nat)
    requires k > 0
    ensures InBounds(Advance(p, width, height, k), width, height)
  {
  }

  lemma ScaledDrawBelow(r: real, w: nat)
    requires IsDraw(r)
    ensures 0.0 <= r * w as real <= w as real
    ensures w > 0 ==> r * w as real < w as real
  {
    if w > 0 {
      assert w as real - r * w as real == (1.0 - r) * w as real;
    }
  }

  /** The particle `initParticles` builds from six draws of `Math.random()`. */
  function Spawn(draws: seq<real>, width: nat, height: nat): (p: Particle)
    requires |draws| == DrawsPerParticle && forall i :: 0 <= i < |draws| ==> IsDraw(draws[i])
    ensures SampledAttributes(p)
    ensures InBounds(p, width, height)
    ensures width > 0 ==> p.x < width as real
    ensures height > 0 ==> p.y < height as real
  {
    ScaledDrawBelow(draws[0], width);
    ScaledDrawBelow(draws[1], height);
    assert IsDraw(draws[2]) && IsDraw(draws[3]) && IsDraw(draws[4]) && IsDraw(draws[5]);
    Particle(
      x := draws[0] * width as real,
      y := draws[1] * height as real,
      vx := (draws[2] - 0.5) * 0.4,
      vy := (draws[3] - 0.5) * 0.4,
      size := draws[4] * 2.5 + 1.0,
      opacity := draws[5] * 0.6 + 0.3)
  }

  class ParticleSystem {
    var width: nat
    var height: nat
    const particles: array<Particle>

    /** The count is fixed and every particle is on the canvas between frames. */
    ghost predicate Valid()
      reads this, particles
    {
      particles.Length == ParticleCount &&
      forall i :: 0 <= i < particles.Length ==> InBounds(particles[i], width, height)
    }

    /**
     * The system as the constructor leaves it: canvas sized to the viewport,
     * particles sampled from `draws`, and the first frame already run.
     */
    constructor (draws: seq<real>, viewportWidth: nat, viewportHeight: nat)
      requires |draws| == DrawsPerParticle * ParticleCount
      requires forall i :: 0 <= i < |draws| ==> IsDraw(draws[i])
      ensures Valid() && fresh(particles)
      ensures width == viewportWidth && height == viewportHeight
      ensures forall i :: 0 <= i < ParticleCount ==>
                particles[i] == Step(Spawn(draws[DrawsPerParticle * i..DrawsPerParticle * (i + 1)],
                                           viewportWidth, viewportHeight), viewportWidth, viewportHeight)
    {
      width, height := viewportWidth, viewportHeight;
      particles := new Particle[ParticleCount];
      new;
      InitParticles(draws);
      Animate();
    }

    /** `initParticles`: particle i is made from draws 6i to 6i+5. */
    method InitParticles(draws: seq<real>)
      requires particles.Length == ParticleCount
      requires |draws| == DrawsPerParticle * ParticleCount
      requires forall i :: 0 <= i < |draws| ==> IsDraw(draws[i])
      modifies particles
      ensures forall i :: 0 <= i < ParticleCount ==>
                particles[i] == Spawn(draws[DrawsPerParticle * i..DrawsPerParticle * (i + 1)], width, height)
      ensures forall i :: 0 <= i < ParticleCount ==> SampledAttributes(particles[i])
    {
      for i := 0 to ParticleCount
        invariant forall k :: 0 <= k < i ==>
                    particles[k] == Spawn(draws[DrawsPerParticle * k..DrawsPerParticle * (k + 1)], width, height)
      {
        var r := draws[DrawsPerParticle * i..DrawsPerParticle * (i + 1)];
        particles[i] := Particle(
          x := r[0] * width as real,
          y := r[1] * height as real,
          vx := (r[2] - 0.5) * 0.4,
          vy := (r[3] - 0.5) * 0.4,
          size := r[4] * 2.5 + 1.0,
          opacity := r[5] * 0.6 + 0.3);
      }
    }

    /**
     * The update half of `animate`: every particle, in order, moves by its
     * velocity and wraps; nothing else about it changes.
     */
    method Animate()
      requires particles.Length == ParticleCount
      modifies particles
      ensures Valid()
      ensures forall i :: 0 <= i < particles.Length ==> particles[i] == Step(old(particles[i]), width, height)
      ensures forall i :: 0 <= i < particles.Length ==> InBounds(particles[i], width, height)
    {
      var i := 0;
      while i < particles.Length
        invariant 0 <= i <= particles.Length
        invariant forall k :: 0 <= k < i ==> particles[k] == Step(old(particles[k]), width, height)
        invariant forall k :: i <= k < particles.Length ==> particles[k] == old(particles[k])
      {
        var p := particles[i];
        var x, y := p.x + p.vx, p.y + p.vy;
        if x < 0.0 { x := width as real; }
        if x > width as real { x := 0.0; }
        if y < 0.0 { y := height as real; }
        if y > height as real { y := 0.0; }
        particles[i] := p.(x := x, y := y);
        i := i + 1;
      }
    }
  }
}
