/**
 * A single particle (particle.cpp). Particles live by value inside the
 * system's std::vector, so a particle is a datatype and its mutating member
 * functions return the updated value.
 */
module Particles {
  import opened Transform

  datatype Particle = Particle(position: Vec2, velocity: Vec2, force: Vec2, lifetime: real, alive: bool)
  {
    /**
     * One integration step of length dt: the velocity first takes the force,
     * then the position moves with the new velocity (semi-implicit Euler);
     * the particle ages by dt and dies once its lifetime is used up.
     */
    function Update(dt: real): (q: Particle)
      ensures q.velocity == Add(velocity, Scale(force, dt))
      ensures q.position == Add(position, Scale(q.velocity, dt))
      ensures q.force == force
      ensures q.lifetime == lifetime - dt
      ensures q.alive <==> alive && 0.0 < q.lifetime
    {
      var velocity' := Add(velocity, Scale(force, dt));
      var position' := Add(position, Scale(velocity', dt));
      var lifetime' := lifetime - dt;
      var alive' := alive && 0.0 < lifetime';
      Particle(position', velocity', force, lifetime', alive')
    }

    /** The particle with its accumulated force cleared, and nothing else changed. */
    function ResetForce(): (q: Particle)
      ensures q.force == Zero
      ensures q.position == position && q.velocity == velocity
      ensures q.lifetime == lifetime && q.alive == alive
    {
      this.(force := Zero)
    }
  }

  /** The default-constructed particle: at rest at the origin, lifetime 0, not alive. */
  function Default(): (p: Particle)
    ensures p.position == Zero && p.velocity == Zero && p.force == Zero
    ensures p.lifetime == 0.0 && !p.alive
  {
    Particle(Zero, Zero, Zero, 0.0, false)
  }

  /** n successive updates with the same step. */
  function Steps(p: Particle, dt: real, n: nat): Particle {
    if n == 0 then p else Steps(p, dt, n - 1).Update(dt)
  }

  /**
   * After n steps of length dt >= 0 the particle has aged by n * dt and
   * is alive exactly when it was alive and time remains.
   */
  lemma {:induction false} StepsAge(p: Particle, dt: real, n: nat)
    requires 0.0 <= dt
    ensures Steps(p, dt, n).lifetime == p.lifetime - n as real * dt
    ensures Steps(p, dt, n).alive <==> p.alive && (n == 0 || 0.0 < p.lifetime - n as real * dt)
  {
    if n > 0 {
      StepsAge(p, dt, n - 1);
      var k := (n - 1) as real;
      assert n as real * dt == k * dt + dt;
      if n - 1 > 0 && 0.0 < p.lifetime - n as real * dt {
        assert k * dt <= n as real * dt;
      }
    }
  }

  /** The force is never touched by integration. */
  lemma {:induction false} StepsKeepForce(p: Particle, dt: real, n: nat)
    ensures Steps(p, dt, n).force == p.force
  {
    if n > 0 {
      StepsKeepForce(p, dt, n - 1);
    }
  }

  /**
   * The unit test scenario: lifetime 1, velocity (1, 2), force (0, -9.8),
   * dt = 0.1. One step gives velocity (1, 1.02), position (0.1, 0.102) and
   * lifetime 0.9, and a second step lifetime 0.8 with the particle alive.
   */
  lemma BasicUpdateScenario()
    ensures var q := Particle(Zero, Vec2(1.0, 2.0), Vec2(0.0, -9.8), 1.0, true).Update(0.1);
            && q.velocity == Vec2(1.0, 1.02)
            && q.position == Vec2(0.1, 0.102)
            && q.lifetime == 0.9 && q.alive
            && q.Update(0.1).lifetime == 0.8 && q.Update(0.1).alive
  {
  }

  /** In the same scenario, ten steps of 0.1 use up the lifetime of 1 and the particle dies. */
  lemma BasicLifetimeRunsOut(p: Particle, dt: real, n: nat)
    requires p.lifetime == 1.0 && p.alive && dt == 0.1 && n == 10
    ensures Steps(p, dt, n).lifetime <= 0.0 && !Steps(p, dt, n).alive
  {
    StepsAge(p, dt, n);
  }
}
