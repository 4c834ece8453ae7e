/**
 * The force effects (effect.cpp, gravity_well.cpp, wind.cpp). The base
 * Effect holds strength and the enabled flag; what GravityWell and Wind add
 * is the variant `EffectKind`, so one object stands for one
 * std::shared_ptr<Effect> whatever its dynamic type.
 *
 * What `apply` adds to a particle's force is the pure force law `Push`;
 * the class method `Apply` is `apply` on a particle held by value.
 */
module Effects {
  import opened Transform
  import opened Particles

  /** Below this distance (0.1f) a gravity well leaves the particle alone. */
  const DeadZone: real := 0.1

  /** The state each subclass adds to the base effect. */
  datatype EffectKind =
    | GravityState(position: Vec2, radius: real)
    | WindState(direction: Vec2, current: Vec2, varying: bool, position: Vec2, hasPosition: bool)

  /**
   * The gravity well's force magnitude at distance d: the full strength
   * inside the radius, inverse-square decay outside it.
   */
  function Magnitude(strength: real, radius: real, d: real): real
    requires 0.0 < d
  {
    if d < radius then strength
    else
      var ratio := radius / d;
      strength * ratio * ratio
  }

  /** Both regimes agree at d == radius: the law is continuous there. */
  lemma MagnitudeAtRadius(strength: real, radius: real)
    requires 0.0 < radius
    ensures Magnitude(strength, radius, radius) == strength
    ensures var ratio := radius / radius; strength * ratio * ratio == strength
  {
    var ratio := radius / radius;
    assert ratio == 1.0;
  }

  /** Outside the radius, magnitude times distance squared is the constant strength * radius^2. */
  lemma {:induction false} InverseSquare(strength: real, radius: real, d: real)
    requires 0.0 < d && radius <= d
    ensures Magnitude(strength, radius, d) * (d * d) == strength * (radius * radius)
  {
    var ratio := radius / d;
    assert ratio * d == radius;
    SquareOfProduct(ratio, d);
    Associate(strength, ratio, ratio);
    Associate(strength, ratio * ratio, d * d);
  }

  lemma Associate(a: real, b: real, c: real)
    ensures (a * b) * c == a * (b * c)
  {
  }

  /** A non-negative strength never gives a negative magnitude, whatever the radius. */
  lemma MagnitudeNonNegative(strength: real, radius: real, d: real)
    requires 0.0 <= strength && 0.0 < d
    ensures 0.0 <= Magnitude(strength, radius, d)
  {
    if radius <= d {
      var ratio := radius / d;
      SquareNonNegative(ratio);
      Associate(strength, ratio, ratio);
      Scaled(strength, 0.0, ratio * ratio);
    }
  }

  /** With a non-negative radius the magnitude never exceeds the strength. */
  lemma MagnitudeBounds(strength: real, radius: real, d: real)
    requires 0.0 <= strength && 0.0 <= radius && 0.0 < d
    ensures 0.0 <= Magnitude(strength, radius, d) <= strength
  {
    if radius <= d {
      var ratio := radius / d;
      assert 0.0 <= ratio <= 1.0;
      UnitSquare(ratio);
      Associate(strength, ratio, ratio);
      Shrink(strength, ratio * ratio);
    }
  }

  lemma UnitSquare(x: real)
    requires 0.0 <= x <= 1.0
    ensures 0.0 <= x * x <= 1.0
  {
    Shrink(x, x);
  }

  lemma Shrink(s: real, k: real)
    requires 0.0 <= s && 0.0 <= k <= 1.0
    ensures 0.0 <= s * k <= s
  {
  }

  /** With a non-negative strength the pull never grows with distance. */
  lemma MagnitudeNonIncreasing(strength: real, radius: real, d1: real, d2: real)
    requires 0.0 <= strength && 0.0 < radius && 0.0 < d1 <= d2
    ensures Magnitude(strength, radius, d2) <= Magnitude(strength, radius, d1)
  {
    if d1 < radius {
      MagnitudeBounds(strength, radius, d2);
    } else {
      var r1, r2 := radius / d1, radius / d2;
      RatioShrinks(radius, d1, d2);
      SquareMonotone(r2, r1);
      Scaled(strength, r2 * r2, r1 * r1);
      Associate(strength, r1, r1);
      Associate(strength, r2, r2);
    }
  }

  lemma RatioShrinks(radius: real, d1: real, d2: real)
    requires 0.0 < radius && 0.0 < d1 <= d2
    ensures 0.0 < radius / d2 <= radius / d1
  {
  }

  lemma SquareMonotone(a: real, b: real)
    requires 0.0 <= a <= b
    ensures a * a <= b * b
  {
  }

  lemma Scaled(s: real, a: real, b: real)
    requires 0.0 <= s && a <= b
    ensures s * a <= s * b
  {
  }

  /**
   * What `apply` adds to the force of particle p: nothing when the effect
   * is disabled or p is dead; for a well, nothing inside the dead zone and
   * otherwise the magnitude along the normalized direction to the well;
   * for wind, the current direction times the strength.
   */
  function Push(kind: EffectKind, strength: real, enabled: bool, p: Particle, m: LibM): (f: Vec2)
    ensures !enabled || !p.alive ==> f == Zero
    ensures kind.GravityState? && Length(Sub(kind.position, p.position), m) < DeadZone ==> f == Zero
    ensures kind.WindState? && enabled && p.alive ==> f == Scale(kind.current, strength)
  {
    if !enabled || !p.alive then Zero
    else match kind
      case GravityState(well, radius) =>
        var direction := Sub(well, p.position);
        var distance := Length(direction, m);
        if distance < DeadZone then Zero
        else Scale(Normalize(direction, m), Magnitude(strength, radius, distance))
      case WindState(_, current, _, _, _) => Scale(current, strength)
  }

  /**
   * Outside the dead zone a well pulls p straight toward itself: the push
   * is a non-negative multiple (for a non-negative strength) of the vector
   * from p to the well, and its length is the magnitude.
   */
  lemma GravityPointsToWell(kind: EffectKind, strength: real, p: Particle, m: LibM)
    requires Lawful(m) && kind.GravityState? && p.alive
    requires DeadZone <= Length(Sub(kind.position, p.position), m)
    ensures var direction := Sub(kind.position, p.position);
            var d := Length(direction, m);
            var mag := Magnitude(strength, kind.radius, d);
            && Push(kind, strength, true, p, m) == Scale(direction, mag / d)
            && (0.0 <= strength ==> 0.0 <= mag / d)
            && SquaredLength(Push(kind, strength, true, p, m)) == mag * mag
  {
    var direction := Sub(kind.position, p.position);
    var d := Length(direction, m);
    var mag := Magnitude(strength, kind.radius, d);
    var u := Normalize(direction, m);
    assert Push(kind, strength, true, p, m) == Scale(u, mag);
    NormalizeCases(direction, m);
    assert u == Scale(direction, 1.0 / d) && SquaredLength(u) == 1.0;
    ScaleTwice(direction, 1.0 / d, mag);
    OverDistance(mag, d);
    ScaledSquaredLength(u, mag);
    if 0.0 <= strength {
      MagnitudeNonNegative(strength, kind.radius, d);
      QuotientNonNegative(mag, d);
    }
  }

  lemma ScaleTwice(v: Vec2, a: real, b: real)
    ensures Scale(Scale(v, a), b) == Scale(v, a * b)
  {
    Associate(v.x, a, b);
    Associate(v.y, a, b);
  }

  lemma QuotientNonNegative(a: real, d: real)
    requires 0.0 <= a && 0.0 < d
    ensures 0.0 <= a / d
  {
  }

  lemma OverDistance(mag: real, d: real)
    requires d != 0.0
    ensures (1.0 / d) * mag == mag / d
  {
  }

  lemma ScaledSquaredLength(u: Vec2, k: real)
    requires SquaredLength(u) == 1.0
    ensures SquaredLength(Scale(u, k)) == k * k
  {
    SquareOfProduct(u.x, k);
    SquareOfProduct(u.y, k);
    Distribute(u.x * u.x, u.y * u.y, k * k);
  }

  /** Where a wind is drawn has no bearing on what it does to particles. */
  lemma WindIgnoresPosition(kind: EffectKind, position: Vec2, hasPosition: bool, strength: real, enabled: bool, p: Particle, m: LibM)
    requires kind.WindState?
    ensures Push(kind.(position := position, hasPosition := hasPosition), strength, enabled, p, m)
            == Push(kind, strength, enabled, p, m)
  {
  }

  /** The angle a varying wind turns its base direction by at time t. */
  function Gust(time: real, m: LibM): real {
    0.2 * m.sin(time * 0.5) + 0.1 * m.sin(time * 1.1)
  }

  /** What an effect exerts: its strength, whether it is enabled and its kind. */
  datatype Influence = Influence(strength: real, enabled: bool, kind: EffectKind)
  {
    /** apply on a particle held by value: only the force changes, by Push. */
    function Apply(p: Particle, m: LibM): (q: Particle)
      ensures q.position == p.position && q.velocity == p.velocity
      ensures q.lifetime == p.lifetime && q.alive == p.alive
      ensures q.force == Add(p.force, Push(kind, strength, enabled, p, m))
    {
      p.(force := Add(p.force, Push(kind, strength, enabled, p, m)))
    }
  }

  class Effect {
    var strength: real
    var enabled: bool
    var kind: EffectKind

    /** A wind that is not varying blows along its base direction. */
    ghost predicate Valid()
      reads this`kind
    {
      kind.WindState? && !kind.varying ==> kind.current == kind.direction
    }

    /** GravityWell(position): strength 1, enabled, radius 100. */
    constructor GravityWell(position: Vec2)
      ensures Valid()
      ensures strength == 1.0 && enabled
      ensures kind == GravityState(position, 100.0)
    {
      strength := 1.0;
      enabled := true;
      kind := GravityState(position, 100.0);
    }

    /**
     * Wind(direction): strength 1, enabled, the normalized direction as both
     * base and current direction, not varying, no position.
     */
    constructor Wind(direction: Vec2, m: LibM)
      ensures Valid()
      ensures strength == 1.0 && enabled
      ensures kind.WindState? && kind.direction == Normalize(direction, m)
      ensures !kind.varying && !kind.hasPosition
    {
      strength := 1.0;
      enabled := true;
      var d := Normalize(direction, m);
      kind := WindState(d, d, false, Zero, false);
    }

    method SetStrength(strength: real)
      modifies this`strength
      ensures this.strength == strength
    {
      this.strength := strength;
    }

    method SetEnabled(enabled: bool)
      modifies this`enabled
      ensures this.enabled == enabled
    {
      this.enabled := enabled;
    }

    /** GravityWell::setPosition and Wind::setPosition; the wind also records that it has one. */
    method SetPosition(position: Vec2)
      requires Valid()
      modifies this`kind
      ensures Valid()
      ensures old(kind).GravityState? ==> kind == GravityState(position, old(kind).radius)
      ensures old(kind).WindState? ==> kind == old(kind).(position := position, hasPosition := true)
    {
      match kind
      case GravityState(_, radius) =>
        kind := GravityState(position, radius);
      case WindState(_, _, _, _, _) =>
        kind := kind.(position := position, hasPosition := true);
    }

    method SetRadius(radius: real)
      requires kind.GravityState?
      modifies this`kind
      ensures kind == old(kind).(radius := radius)
    {
      kind := kind.(radius := radius);
    }

    /**
     * Wind::setDirection: the base direction becomes the normalized input;
     * the current direction follows it only when the wind is not varying.
     */
    method SetDirection(direction: Vec2, m: LibM)
      requires kind.WindState? && Valid()
      modifies this`kind
      ensures Valid()
      ensures kind.WindState? && kind.direction == Normalize(direction, m)
      ensures kind.current == if old(kind).varying then old(kind).current else kind.direction
      ensures kind.varying == old(kind).varying
      ensures kind.position == old(kind).position && kind.hasPosition == old(kind).hasPosition
    {
      var d := Normalize(direction, m);
      kind := kind.(direction := d);
      if !kind.varying {
        kind := kind.(current := d);
      }
    }

    /** Wind::setVarying: switching variation off puts the wind back on its base direction. */
    method SetVarying(varying: bool)
      requires kind.WindState? && Valid()
      modifies this`kind
      ensures Valid()
      ensures kind.WindState? && kind.varying == varying
      ensures kind.current == if varying then old(kind).current else kind.direction
      ensures kind.direction == old(kind).direction
      ensures kind.position == old(kind).position && kind.hasPosition == old(kind).hasPosition
    {
      kind := kind.(varying := varying);
      if !varying {
        kind := kind.(current := kind.direction);
      }
    }

    /**
     * Wind::update(time): a varying wind's current direction becomes its base
     * direction turned by Gust(time), whatever it was before; a steady wind
     * is unchanged. Either way the current direction is as long as the base one.
     */
    method Update(time: real, m: LibM)
      requires kind.WindState? && Valid()
      modifies this`kind
      ensures Valid()
      ensures !old(kind).varying ==> kind == old(kind)
      ensures old(kind).varying ==> kind == old(kind).(current := Rotate(old(kind).direction, Gust(time, m), m))
      ensures Lawful(m) ==> SquaredLength(kind.current) == SquaredLength(kind.direction)
    {
      if kind.varying {
        var angle := 0.2 * m.sin(time * 0.5) + 0.1 * m.sin(time * 1.1);
        kind := kind.(current := Rotate(kind.direction, angle, m));
        if Lawful(m) {
          RotateKeepsLength(kind.direction, angle, m);
        }
      }
    }

    /** The fields apply reads, as a value. */
    function Current(): Influence
      reads this`strength, this`enabled, this`kind
    {
      Influence(strength, enabled, kind)
    }

    /** apply: only the force changes, by what Push says this effect adds. */
    function Apply(p: Particle, m: LibM): (q: Particle)
      reads this`strength, this`enabled, this`kind
      ensures q.position == p.position && q.velocity == p.velocity
      ensures q.lifetime == p.lifetime && q.alive == p.alive
      ensures q.force == Add(p.force, Push(kind, strength, enabled, p, m))
    {
      Current().Apply(p, m)
    }
  }
}
