/**
 * The random draws of a new particle, shared by the three emitters: each
 * placed particle takes an angle (or angle offset), a speed and a lifetime,
 * in that order, each from a std::uniform_real_distribution over the
 * emitter's current range.
 */
module Draws {
  import opened Transform
  import opened Particles

  /**
   * The three canonical values in [0, 1) behind the draws of one particle:
   * angle (or angle offset), speed, lifetime.
   */
  datatype Sample = Sample(u1: real, u2: real, u3: real)
  {
    predicate Unit() {
      0.0 <= u1 < 1.0 && 0.0 <= u2 < 1.0 && 0.0 <= u3 < 1.0
    }
  }

  /**
   * The output of an emitter's generator, one Sample per particle it places.
   * The generator is seeded once at construction, so the stream is fixed for
   * the emitter's life and an emitter only records how much of it is used.
   */
  type Rng = nat -> Sample

  /** std::uniform_real_distribution(lo, hi) applied to a canonical value u. */
  function Lerp(lo: real, hi: real, u: real): real {
    lo + (hi - lo) * u
  }

  lemma LerpWithin(lo: real, hi: real, u: real)
    requires lo <= hi && 0.0 <= u < 1.0
    ensures lo <= Lerp(lo, hi, u) <= hi
    ensures lo < hi ==> Lerp(lo, hi, u) < hi
  {
    var w := hi - lo;
    var x := w * u;
    FractionBounds(w, u);
    assert Lerp(lo, hi, u) == lo + x;
  }

  lemma FractionBounds(w: real, u: real)
    requires 0.0 <= w && 0.0 <= u < 1.0
    ensures 0.0 <= w * u <= w
    ensures 0.0 < w ==> w * u < w
  {
    var rest := 1.0 - u;
    assert w * u + w * rest == w;
    assert 0.0 <= w * rest;
    if 0.0 < w {
      assert 0.0 < w * rest;
    }
  }

  /** The speed and lifetime ranges an emitter draws from. */
  datatype Ranges = Ranges(minSpeed: real, maxSpeed: real, minLifetime: real, maxLifetime: real)
  {
    /** Both ranges are well formed, as std::uniform_real_distribution demands. */
    predicate Ordered() {
      minSpeed <= maxSpeed && minLifetime <= maxLifetime
    }
  }

  /**
   * What an emitter makes of a Sample: the uniform and explosion emitters
   * send particles in every direction, the directional emitter within an
   * angle of spread around its direction.
   */
  datatype Shape =
    | Isotropic(origin: Vec2, ranges: Ranges)
    | Directed(origin: Vec2, direction: Vec2, spread: real, ranges: Ranges)

  /** The unit heading (cos a, sin a) of the uniform and explosion emitters. */
  function Heading(angle: real, m: LibM): Vec2 {
    Vec2(m.cos(angle), m.sin(angle))
  }

  /**
   * The particle an emitter places for one Sample: at the emitter, alive,
   * free of force, with the drawn velocity and lifetime.
   */
  function Spawn(shape: Shape, s: Sample, m: LibM): (p: Particle)
    ensures p.alive && p.position == shape.origin && p.force == Zero
  {
    var r := shape.ranges;
    var speed := Lerp(r.minSpeed, r.maxSpeed, s.u2);
    var lifetime := Lerp(r.minLifetime, r.maxLifetime, s.u3);
    var heading := match shape
      case Isotropic(_, _) => Heading(Lerp(0.0, 2.0 * Pi, s.u1), m)
      case Directed(_, direction, spread, _) => Rotate(direction, Lerp(-spread, spread, s.u1), m);
    Particle(shape.origin, Scale(heading, speed), Zero, lifetime, true)
  }

  /**
   * A particle spawned from canonical draws has its lifetime in range and
   * its velocity a heading scaled by a speed in range; the heading is at an
   * angle in [0, 2 pi] for an isotropic emitter, and the emitter's direction
   * rotated by an offset in [-spread, spread] for a directed one.
   */
  lemma SpawnWithinRanges(shape: Shape, s: Sample, m: LibM)
    requires s.Unit() && shape.ranges.Ordered()
    requires shape.Directed? ==> 0.0 <= shape.spread
    ensures var p := Spawn(shape, s, m); var r := shape.ranges;
            && r.minLifetime <= p.lifetime <= r.maxLifetime
            && (shape.Isotropic? ==>
                  exists angle: real, speed: real {:trigger Scale(Heading(angle, m), speed)} ::
                    && 0.0 <= angle <= 2.0 * Pi
                    && r.minSpeed <= speed <= r.maxSpeed
                    && p.velocity == Scale(Heading(angle, m), speed))
            && (shape.Directed? ==>
                  exists offset: real, speed: real {:trigger Scale(Rotate(shape.direction, offset, m), speed)} ::
                    && -shape.spread <= offset <= shape.spread
                    && r.minSpeed <= speed <= r.maxSpeed
                    && p.velocity == Scale(Rotate(shape.direction, offset, m), speed))
  {
    var r := shape.ranges;
    var speed := Lerp(r.minSpeed, r.maxSpeed, s.u2);
    LerpWithin(r.minSpeed, r.maxSpeed, s.u2);
    LerpWithin(r.minLifetime, r.maxLifetime, s.u3);
    match shape {
      case Isotropic(_, _) =>
        var angle := Lerp(0.0, 2.0 * Pi, s.u1);
        LerpWithin(0.0, 2.0 * Pi, s.u1);
        assert Spawn(shape, s, m).velocity == Scale(Heading(angle, m), speed);
      case Directed(_, direction, spread, _) =>
        var offset := Lerp(-spread, spread, s.u1);
        LerpWithin(-spread, spread, s.u1);
        assert Spawn(shape, s, m).velocity == Scale(Rotate(direction, offset, m), speed);
    }
  }
}
