/**
 * The emitters (emitter.cpp, uniform_emitter.cpp, directional_emitter.cpp,
 * explosion_emitter.cpp). The base Emitter holds position, rate and the time
 * accumulator; what the three subclasses add is the variant `Kind`, so one
 * object stands for one std::shared_ptr<Emitter> whatever its dynamic type.
 *
 * The uniform and directional emitters turn time into emission events with
 * the accumulator and stop appending at MaxParticles; the explosion emitter
 * fires particleCount events, without a cap, once per trigger. Every event
 * follows the recycling rule of module Recycling.
 */
module Emitters {
  import opened Optional
  import opened Transform
  import opened Particles
  import opened Draws
  import opened Recycling
  import opened Pacing

  /** Uniform and directional emitters stop appending at this population size. */
  const MaxParticles: nat := 10000

  /** The state each subclass adds to the base emitter. */
  datatype Kind =
    | UniformState(ranges: Ranges)
    | DirectionalState(direction: Vec2, spread: real, ranges: Ranges)
    | ExplosionState(count: int, triggered: bool, ranges: Ranges)

  /** The number of iterations of `for (int i = 0; i < count; ++i)`. */
  function Iterations(count: int): (n: nat)
    ensures count <= 0 ==> n == 0
    ensures 0 <= count ==> n == count
  {
    if count < 0 then 0 else count
  }

  /** How an emitter at this position, of this kind, turns a Sample into a particle. */
  function ShapeOf(position: Vec2, kind: Kind): (s: Shape)
    ensures s.origin == position && s.ranges == kind.ranges
    ensures s.Directed? <==> kind.DirectionalState?
  {
    match kind
    case UniformState(r) => Isotropic(position, r)
    case DirectionalState(d, spread, r) => Directed(position, d, spread, r)
    case ExplosionState(_, _, r) => Isotropic(position, r)
  }

  /** The state of an emitter that one call of emit reads and writes. */
  datatype Snapshot = Snapshot(position: Vec2, rate: real, accumulator: real, kind: Kind, drawn: nat)

  /** A state emit returns from: the accumulator is not negative and a paced emitter's rate is not negative. */
  predicate Sound(s: Snapshot) {
    0.0 <= s.accumulator && (s.kind.ExplosionState? || 0.0 <= s.rate)
  }

  /**
   * Emitter::emit on an emitter in state s whose generator yields rng: the
   * population it leaves and the emitter's next state. A uniform or
   * directional emitter runs Pace(accumulator + dt, 1 / rate) capped events
   * and keeps the remainder; at rate 0 the period 1.0f / 0 is infinite, so
   * no event runs and the accumulator only grows. A triggered explosion
   * runs its burst without a cap and is disarmed; an untriggered one does
   * nothing.
   */
  function Emission(s: Snapshot, rng: Rng, particles: seq<Particle>, dt: real, m: LibM): (r: (seq<Particle>, Snapshot))
    requires Sound(s) && 0.0 <= dt
    ensures Sound(r.1)
  {
    var shape := ShapeOf(s.position, s.kind);
    match s.kind
    case ExplosionState(count, triggered, ranges) =>
      if !triggered then (particles, s)
      else
        var o := Events(particles, Unbounded, shape, m, rng, s.drawn, Iterations(count));
        (o.particles, Snapshot(s.position, s.rate, s.accumulator, ExplosionState(count, false, ranges), o.drawn))
    case _ =>
      if s.rate == 0.0 then (particles, Snapshot(s.position, s.rate, s.accumulator + dt, s.kind, s.drawn))
      else
        var total := s.accumulator + dt;
        var n := Pace(total, 1.0 / s.rate);
        RemainingBounds(total, 1.0 / s.rate);
        var o := Events(particles, Capped(MaxParticles), shape, m, rng, s.drawn, n);
        (o.particles, Snapshot(s.position, s.rate, Remaining(total, 1.0 / s.rate, n), s.kind, o.drawn))
  }

  /**
   * What one emission does: the population only grows and keeps its live
   * particles, an explosion is disarmed after its burst of Iterations(count)
   * events, a paced emitter keeps its kind and carries less than one period.
   */
  lemma EmissionEffect(s: Snapshot, rng: Rng, particles: seq<Particle>, dt: real, m: LibM)
    requires Sound(s) && 0.0 <= dt
    ensures var r := Emission(s, rng, particles, dt, m);
            && |particles| <= |r.0| && KeepsAlive(particles, r.0)
            && r.1.position == s.position && r.1.rate == s.rate && s.drawn <= r.1.drawn
            && (s.kind.ExplosionState? ==> r.1.kind == s.kind.(triggered := false) && r.1.accumulator == s.accumulator)
            && (s.kind.ExplosionState? && !s.kind.triggered ==> r.0 == particles && r.1.drawn == s.drawn)
            && (s.kind.ExplosionState? && s.kind.triggered ==>
                  GrownBy(particles, s.drawn, Iterations(s.kind.count), Outcome(r.0, r.1.drawn)))
            && (!s.kind.ExplosionState? ==> r.1.kind == s.kind)
            && (!s.kind.ExplosionState? && 0.0 < s.rate ==> r.1.accumulator < 1.0 / s.rate)
            && (!s.kind.ExplosionState? && s.rate == 0.0 ==>
                  r.0 == particles && r.1.drawn == s.drawn && r.1.accumulator == s.accumulator + dt)
  {
    var shape := ShapeOf(s.position, s.kind);
    match s.kind
    case ExplosionState(count, triggered, ranges) =>
      if triggered {
        var n := Iterations(count);
        EventsLength(particles, Unbounded, shape, m, rng, s.drawn, n);
        EventsKeepAlive(particles, Unbounded, shape, m, rng, s.drawn, n);
        EventsUnbounded(particles, shape, m, rng, s.drawn, n);
      }
    case _ =>
      if s.rate != 0.0 {
        var total := s.accumulator + dt;
        var n := Pace(total, 1.0 / s.rate);
        RemainingBounds(total, 1.0 / s.rate);
        EventsLength(particles, Capped(MaxParticles), shape, m, rng, s.drawn, n);
        EventsKeepAlive(particles, Capped(MaxParticles), shape, m, rng, s.drawn, n);
      }
  }

  class Emitter {
    var position: Vec2
    var rate: real
    var accumulator: real
    var kind: Kind
    /** The generator's output, seeded once by the constructor. */
    const stream: Rng
    /** How many samples of the stream have been used. */
    var drawn: nat

    /** The accumulator never goes negative and the generator yields canonical values. */
    ghost predicate Valid()
      reads this`accumulator
    {
      0.0 <= accumulator && forall k :: stream(k).Unit()
    }

    /**
     * Valid, and an emitter that paces by rate has a rate of at least 0: with
     * a negative rate the period is negative and Emitter::emit never returns.
     */
    ghost predicate Ready()
      reads this`accumulator, this`rate, this`kind
    {
      Valid() && (kind.ExplosionState? || 0.0 <= rate)
    }

    /** The emitter's mutable state as a value. */
    function State(): Snapshot
      reads this`position, this`rate, this`accumulator, this`kind, this`drawn
    {
      Snapshot(position, rate, accumulator, kind, drawn)
    }

    constructor Uniform(position: Vec2, stream: Rng)
      requires forall k :: stream(k).Unit()
      ensures Ready()
      ensures this.position == position && rate == 1.0 && accumulator == 0.0
      ensures kind == UniformState(Ranges(1.0, 2.0, 1.0, 3.0))
      ensures this.stream == stream && drawn == 0
    {
      this.position := position;
      rate := 1.0;
      accumulator := 0.0;
      kind := UniformState(Ranges(1.0, 2.0, 1.0, 3.0));
      this.stream := stream;
      drawn := 0;
    }

    /** The direction is stored normalized; the spread is pi / 8, although a comment calls it 45 degrees. */
    constructor Directional(position: Vec2, direction: Vec2, stream: Rng, m: LibM)
      requires forall k :: stream(k).Unit()
      ensures Ready()
      ensures this.position == position && rate == 1.0 && accumulator == 0.0
      ensures kind == DirectionalState(Normalize(direction, m), Pi / 8.0, Ranges(1.0, 2.0, 1.0, 3.0))
      ensures this.stream == stream && drawn == 0
    {
      this.position := position;
      rate := 1.0;
      accumulator := 0.0;
      kind := DirectionalState(Normalize(direction, m), Pi / 8.0, Ranges(1.0, 2.0, 1.0, 3.0));
      this.stream := stream;
      drawn := 0;
    }

    constructor Explosion(position: Vec2, stream: Rng)
      requires forall k :: stream(k).Unit()
      ensures Ready()
      ensures this.position == position && rate == 1.0 && accumulator == 0.0
      ensures kind == ExplosionState(20, false, Ranges(1.0, 5.0, 0.5, 2.0))
      ensures this.stream == stream && drawn == 0
    {
      this.position := position;
      rate := 1.0;
      accumulator := 0.0;
      kind := ExplosionState(20, false, Ranges(1.0, 5.0, 0.5, 2.0));
      this.stream := stream;
      drawn := 0;
    }

    method SetPosition(position: Vec2)
      modifies this`position
      ensures this.position == position
    {
      this.position := position;
    }

    /** Emitter::setRate; the explosion emitter's override only calls it. */
    method SetRate(rate: real)
      modifies this`rate
      ensures this.rate == rate
    {
      this.rate := rate;
    }

    /** setSpeedRange: later draws take their speed from [lo, hi]. */
    method SetSpeedRange(lo: real, hi: real)
      modifies this`kind
      ensures kind == old(kind).(ranges := old(kind).ranges.(minSpeed := lo, maxSpeed := hi))
    {
      kind := kind.(ranges := kind.ranges.(minSpeed := lo, maxSpeed := hi));
    }

    /** setLifetimeRange: later draws take their lifetime from [lo, hi]. */
    method SetLifetimeRange(lo: real, hi: real)
      modifies this`kind
      ensures kind == old(kind).(ranges := old(kind).ranges.(minLifetime := lo, maxLifetime := hi))
    {
      kind := kind.(ranges := kind.ranges.(minLifetime := lo, maxLifetime := hi));
    }

    /** DirectionalEmitter::setDirection stores the normalized direction. */
    method SetDirection(direction: Vec2, m: LibM)
      requires kind.DirectionalState?
      modifies this`kind
      ensures kind == old(kind).(direction := Normalize(direction, m))
    {
      kind := kind.(direction := Normalize(direction, m));
    }

    /** DirectionalEmitter::setSpread: later offsets are drawn from [-spread, spread]. */
    method SetSpread(spread: real)
      requires kind.DirectionalState?
      modifies this`kind
      ensures kind == old(kind).(spread := spread)
    {
      kind := kind.(spread := spread);
    }

    /** ExplosionEmitter::trigger arms the emitter; arming twice is arming once. */
    method Trigger()
      requires kind.ExplosionState?
      modifies this`kind
      ensures kind == old(kind).(triggered := true)
    {
      kind := kind.(triggered := true);
    }

    method SetParticleCount(count: int)
      requires kind.ExplosionState?
      modifies this`kind
      ensures kind == old(kind).(count := count)
    {
      kind := kind.(count := count);
    }

    /** One emission event: reuse the first dead slot, else append if the limit admits it. */
    method Place(ps: seq<Particle>, limit: Limit, shape: Shape, m: LibM) returns (qs: seq<Particle>)
      modifies this`drawn
      ensures Outcome(qs, drawn) == Event(ps, limit, shape, m, stream, old(drawn))
    {
      var slot := FindDead(ps);
      match slot
      case Some(i) =>
        qs := ps[i := Spawn(shape, stream(drawn), m)];
        drawn := drawn + 1;
      case None =>
        if limit.Admits(|ps|) {
          qs := ps + [Spawn(shape, stream(drawn), m)];
          drawn := drawn + 1;
        } else {
          qs := ps;
        }
    }

    /** Place, seen as the next event of a run that started from `start`. */
    method PlaceNext(ps: seq<Particle>, limit: Limit, shape: Shape, m: LibM, ghost start: seq<Particle>, ghost d0: nat, ghost k: nat)
      returns (qs: seq<Particle>)
      requires Outcome(ps, drawn) == Events(start, limit, shape, m, stream, d0, k)
      modifies this`drawn
      ensures Outcome(qs, drawn) == Events(start, limit, shape, m, stream, d0, k + 1)
    {
      ghost var o := Outcome(ps, drawn);
      qs := Place(ps, limit, shape, m);
      EventsExtend(start, limit, shape, m, stream, d0, k, o, Outcome(qs, drawn));
    }

    /**
     * UniformEmitter::emit and DirectionalEmitter::emit: add dt to the
     * accumulator, then run one capped event per whole period it holds. At
     * rate 0 the period is infinite and the loop does not run.
     */
    method EmitPaced(particles: seq<Particle>, dt: real, m: LibM) returns (ps: seq<Particle>)
      requires Valid() && 0.0 <= rate && 0.0 <= dt
      modifies this`accumulator, this`drawn
      ensures Valid()
      ensures rate == 0.0 ==> ps == particles && accumulator == old(accumulator) + dt && drawn == old(drawn)
      ensures 0.0 < rate ==>
                var n := Pace(old(accumulator) + dt, 1.0 / rate);
                && Outcome(ps, drawn) == Events(particles, Capped(MaxParticles), ShapeOf(position, kind), m, stream, old(drawn), n)
                && accumulator == Remaining(old(accumulator) + dt, 1.0 / rate, n)
    {
      accumulator := accumulator + dt;
      if rate == 0.0 {
        return particles;
      }
      var period := 1.0 / rate;
      ghost var total := accumulator;
      ghost var n := Pace(total, period);
      ghost var events: nat := 0;
      var shape := ShapeOf(position, kind);
      ps := particles;
      while accumulator >= period
        invariant 0 <= events <= n && 0.0 <= total
        invariant accumulator == Remaining(total, period, events)
        invariant Outcome(ps, drawn) == Events(particles, Capped(MaxParticles), shape, m, stream, old(drawn), events)
        decreases n - events
      {
        PaceStep(total, period, events);
        ps := PlaceNext(ps, Capped(MaxParticles), shape, m, particles, old(drawn), events);
        accumulator := accumulator - period;
        events := events + 1;
      }
      PaceExit(total, period, events);
      RemainingBounds(total, period);
    }

    /**
     * ExplosionEmitter::emit: nothing unless triggered; then particleCount
     * uncapped events, and the trigger is spent.
     */
    method EmitBurst(particles: seq<Particle>, m: LibM) returns (ps: seq<Particle>)
      requires kind.ExplosionState?
      modifies this`kind, this`drawn
      ensures kind == old(kind).(triggered := false)
      ensures !old(kind).triggered ==> ps == particles && drawn == old(drawn)
      ensures old(kind).triggered ==>
                Outcome(ps, drawn) == Events(particles, Unbounded, ShapeOf(position, kind), m, stream, old(drawn), Iterations(kind.count))
    {
      if !kind.triggered {
        return particles;
      }
      var shape := ShapeOf(position, kind);
      ps := particles;
      var i := 0;
      while i < kind.count
        invariant kind == old(kind)
        invariant 0 <= i && (i <= kind.count || i == 0)
        invariant Outcome(ps, drawn) == Events(particles, Unbounded, shape, m, stream, old(drawn), i)
      {
        ps := PlaceNext(ps, Unbounded, shape, m, particles, old(drawn), i);
        i := i + 1;
      }
      assert i == Iterations(kind.count);
      kind := kind.(triggered := false);
      assert shape == ShapeOf(position, kind);
    }

    /** Emitter::emit, dispatched on the kind: the population and the state Emission gives. */
    method Emit(particles: seq<Particle>, dt: real, m: LibM) returns (ps: seq<Particle>)
      requires Ready() && 0.0 <= dt
      modifies this`accumulator, this`drawn, this`kind
      ensures Ready()
      ensures (ps, State()) == Emission(old(State()), stream, particles, dt, m)
    {
      if kind.ExplosionState? {
        ps := EmitBurst(particles, m);
      } else {
        ps := EmitPaced(particles, dt, m);
      }
    }
  }
}
