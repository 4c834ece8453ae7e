/**
 * The interactive demo layer (particle_demo.cpp): it keeps its own lists of
 * the emitters and effects it placed, in step with the particle system's,
 * arms every explosion and turns every wind each frame, keeps particles
 * inside the [-1, 1] box, selects the object nearest a click, places new
 * objects in placement mode and builds the markers that show them.
 */
module Demo {
  import opened Optional
  import opened Transform
  import opened Particles
  import opened Draws
  import opened Recycling
  import opened Emitters
  import opened Effects
  import opened Simulation

  /** What a click places next. */
  datatype PlacementMode =
    | NotPlacing
    | UniformEmitter
    | DirectionalEmitter
    | ExplosionEmitter
    | GravityWell
    | Wind

  /** Which list the selected index points into. */
  datatype SelectedType = Unselected | EmitterType | EffectType

  /** A dot drawn for an emitter or effect; particle_demo.cpp keeps the three parts in parallel lists. */
  datatype Marker = Marker(position: Vec2, color: Color, size: real)

  const SelectedColor: Color := Color(1.0, 1.0, 1.0, 1.0)
  const EmitterColor: Color := Color(0.2, 0.2, 0.9, 1.0)
  const EffectColor: Color := Color(0.9, 0.2, 0.2, 1.0)

  /** A click selects an object only when it is closer than this. */
  const SelectionThreshold: real := 0.1

  /** The selected wind's arrow is drawn only for a direction longer than this. */
  const ArrowThreshold: real := 0.001

  // ---------------------------------------------------------------------
  // Keeping particles in the box
  // ---------------------------------------------------------------------

  function Abs(x: real): real {
    if x < 0.0 then -x else x
  }

  /** A speed scaled by a restitution in [0, 1] stays between zero and the speed. */
  lemma Damp(v: real, e: real)
    ensures 0.0 <= v && 0.0 <= e ==> 0.0 <= v * e
    ensures 0.0 <= v && e <= 1.0 ==> v * e <= v
  {
    if 0.0 <= v && e <= 1.0 {
      assert v - v * e == v * (1.0 - e);
    }
  }

  /** A reversed velocity damped by a restitution in [0, 1] is no faster than before, whatever its sign. */
  lemma DampedSpeed(vel: real, e: real)
    ensures 0.0 <= e <= 1.0 ==> Abs(-vel * e) <= Abs(vel)
  {
    if 0.0 <= e <= 1.0 {
      if vel < 0.0 {
        Damp(-vel, e);
        assert -vel * e == (-vel) * e;
      } else {
        Damp(vel, e);
        assert -vel * e == -(vel * e);
      }
    }
  }

  /**
   * One axis of keepParticlesWithinBounds: a coordinate outside [-1, 1] is
   * put on the wall it crossed, and a velocity still heading out through
   * that wall is reversed and damped by the restitution e.
   */
  function Confine(pos: real, vel: real, e: real): (r: (real, real))
    ensures -1.0 <= r.0 <= 1.0
    ensures -1.0 <= pos <= 1.0 ==> r == (pos, vel)
    ensures 0.0 <= e && pos < -1.0 ==> 0.0 <= r.1
    ensures 0.0 <= e && 1.0 < pos ==> r.1 <= 0.0
    ensures 0.0 <= e <= 1.0 ==> Abs(r.1) <= Abs(vel)
  {
    Damp(Abs(vel), e);
    DampedSpeed(vel, e);
    if pos < -1.0 then
      (-1.0, if vel < 0.0 then -vel * e else vel)
    else if pos > 1.0 then
      (1.0, if vel > 0.0 then -vel * e else vel)
    else
      (pos, vel)
  }

  /** A live particle confined on both axes; a dead one is left as it is. */
  function Bounce(p: Particle, e: real): (q: Particle)
    ensures !p.alive ==> q == p
    ensures q.force == p.force && q.lifetime == p.lifetime && q.alive == p.alive
    ensures p.alive ==> -1.0 <= q.position.x <= 1.0 && -1.0 <= q.position.y <= 1.0
    ensures -1.0 <= p.position.x <= 1.0 && -1.0 <= p.position.y <= 1.0 ==> q == p
  {
    if !p.alive then p
    else
      var x := Confine(p.position.x, p.velocity.x, e);
      var y := Confine(p.position.y, p.velocity.y, e);
      p.(position := Vec2(x.0, y.0), velocity := Vec2(x.1, y.1))
  }

  /** A restitution in [0, 1] never speeds a particle up along either axis. */
  lemma BounceDamps(p: Particle, e: real)
    requires 0.0 <= e <= 1.0
    ensures var q := Bounce(p, e);
            Abs(q.velocity.x) <= Abs(p.velocity.x) && Abs(q.velocity.y) <= Abs(p.velocity.y)
  {
  }

  /** Every particle of the population bounced. */
  function Bounded(ps: seq<Particle>, e: real): (qs: seq<Particle>)
    ensures |qs| == |ps|
    ensures forall i :: 0 <= i < |ps| ==> qs[i] == Bounce(ps[i], e)
  {
    if |ps| == 0 then [] else [Bounce(ps[0], e)] + Bounded(ps[1..], e)
  }

  /**
   * After keepParticlesWithinBounds the population has the same length,
   * dead particles are untouched and every live one is inside the box.
   */
  lemma BoundedInBox(ps: seq<Particle>, e: real)
    ensures |Bounded(ps, e)| == |ps|
    ensures forall i :: 0 <= i < |ps| && !ps[i].alive ==> Bounded(ps, e)[i] == ps[i]
    ensures forall i :: 0 <= i < |ps| && ps[i].alive ==>
              -1.0 <= Bounded(ps, e)[i].position.x <= 1.0 && -1.0 <= Bounded(ps, e)[i].position.y <= 1.0
  {
  }

  /** Bouncing twice is bouncing once: the box is a fixed point. */
  lemma BoundedIdempotent(ps: seq<Particle>, e: real)
    ensures Bounded(Bounded(ps, e), e) == Bounded(ps, e)
  {
    var qs := Bounded(ps, e);
    assert forall i :: 0 <= i < |qs| ==> Bounce(qs[i], e) == qs[i];
  }

  // ---------------------------------------------------------------------
  // Selection
  // ---------------------------------------------------------------------

  /**
   * Index i holds the nearest candidate closer than limit, and it is the
   * first to do so: every earlier candidate is strictly farther, every
   * later one at least as far. A None entry is not a candidate.
   */
  ghost predicate Closest(ds: seq<Option<real>>, limit: real, i: nat, d: real) {
    && i < |ds| && ds[i] == Some(d) && d < limit
    && (forall j :: 0 <= j < i && ds[j].Some? ==> d < ds[j].value)
    && (forall j :: i < j < |ds| && ds[j].Some? ==> d <= ds[j].value)
  }

  /** No candidate is closer than limit. */
  ghost predicate NoneWithin(ds: seq<Option<real>>, limit: real) {
    forall j :: 0 <= j < |ds| && ds[j].Some? ==> limit <= ds[j].value
  }

  /** The nearest candidate is unique, and it excludes there being none. */
  lemma ClosestUnique(ds: seq<Option<real>>, limit: real, i: nat, d: real, k: nat, e: real)
    requires Closest(ds, limit, i, d)
    ensures Closest(ds, limit, k, e) ==> i == k && d == e
    ensures !NoneWithin(ds, limit)
  {
    if Closest(ds, limit, k, e) {
      assert i < k ==> d <= e && e < d;
      assert k < i ==> e <= d && d < e;
    }
    assert ds[i].Some? && d < limit;
  }

  /** The distance of each emitter position from a point. */
  function EmitterDistances(ps: seq<Vec2>, point: Vec2, m: LibM): (ds: seq<Option<real>>)
    ensures |ds| == |ps|
    ensures forall i :: 0 <= i < |ps| ==> ds[i] == Some(Length(Sub(ps[i], point), m))
  {
    if |ps| == 0 then []
    else EmitterDistances(ps[..|ps| - 1], point, m) + [Some(Length(Sub(ps[|ps| - 1], point), m))]
  }

  /** Where an effect sits on screen, if anywhere: a well always, a wind once it has been placed. */
  function Anchor(k: EffectKind): Option<Vec2> {
    match k
    case GravityState(position, _) => Some(position)
    case WindState(_, _, _, position, hasPosition) => if hasPosition then Some(position) else None
  }

  /** The distance of a placed effect from a point; None for an effect with no position. */
  function EffectDistance(k: EffectKind, point: Vec2, m: LibM): Option<real> {
    match Anchor(k)
    case None => None
    case Some(a) => Some(Length(Sub(a, point), m))
  }

  /** The distance of each effect from a point. */
  function EffectDistances(ks: seq<EffectKind>, point: Vec2, m: LibM): (ds: seq<Option<real>>)
    ensures |ds| == |ks|
    ensures forall i :: 0 <= i < |ks| ==> ds[i] == EffectDistance(ks[i], point, m)
  {
    if |ks| == 0 then []
    else EffectDistances(ks[..|ks| - 1], point, m) + [EffectDistance(ks[|ks| - 1], point, m)]
  }

  /** One more entry for the running scan: Closest and NoneWithin carry over from ds to ds + [x]. */
  lemma ScanStep(ds: seq<Option<real>>, x: Option<real>, limit: real, found: bool, index: nat, best: real)
    requires found ==> Closest(ds, limit, index, best)
    requires !found ==> NoneWithin(ds, limit) && best == limit
    ensures x.Some? && x.value < best ==> Closest(ds + [x], limit, |ds|, x.value)
    ensures !(x.Some? && x.value < best) && found ==> Closest(ds + [x], limit, index, best)
    ensures !(x.Some? && x.value < best) && !found ==> NoneWithin(ds + [x], limit)
  {
    var ds' := ds + [x];
    if x.Some? && x.value < best {
      forall j | 0 <= j < |ds| && ds'[j].Some?
        ensures x.value < ds'[j].value
      {
        assert ds'[j] == ds[j];
      }
    }
  }

  // ---------------------------------------------------------------------
  // Markers
  // ---------------------------------------------------------------------

  /** The marker of emitter number i. */
  function EmitterMarker(position: Vec2, selected: bool): Marker {
    if selected then Marker(position, SelectedColor, 10.25) else Marker(position, EmitterColor, 10.20)
  }

  /** Where a wind's arrow ends: 0.15 along its base direction, divided by its length. */
  function ArrowEnd(position: Vec2, direction: Vec2, len: real): Vec2
    requires len != 0.0
  {
    Add(position, Scale(Vec2(direction.x / len, direction.y / len), 0.15))
  }

  /**
   * The markers of one effect: a well at its position; a wind at its
   * position or at (0.8, 0) when it has none, and, when selected, an arrow
   * along its base direction if that is longer than ArrowThreshold.
   */
  function EffectMarkers(k: EffectKind, selected: bool, m: LibM): (ms: seq<Marker>)
    ensures 1 <= |ms| <= 2
    ensures |ms| == 2 <==> k.WindState? && selected && Length(k.direction, m) > ArrowThreshold
    ensures ms[0].color == if selected then SelectedColor else EffectColor
  {
    match k
    case GravityState(position, _) =>
      [if selected then Marker(position, SelectedColor, 10.25) else Marker(position, EffectColor, 10.20)]
    case WindState(direction, _, _, position, hasPosition) =>
      var at := if hasPosition then position else Vec2(0.8, 0.0);
      if selected then
        var len := Length(direction, m);
        [Marker(at, SelectedColor, 10.25)]
          + (if len > ArrowThreshold then [Marker(ArrowEnd(at, direction, len), SelectedColor, 5.0)] else [])
      else
        [Marker(at, EffectColor, 10.20)]
  }

  /** The selected wind's arrow ends 0.15 away from its marker. */
  lemma ArrowLength(position: Vec2, direction: Vec2, m: LibM)
    requires Lawful(m) && Length(direction, m) > ArrowThreshold
    ensures var len := Length(direction, m);
            SquaredLength(Sub(ArrowEnd(position, direction, len), position)) == 0.15 * 0.15
  {
    var len := Length(direction, m);
    NormalizeCases(direction, m);
    var u := Vec2(direction.x / len, direction.y / len);
    assert u == Normalize(direction, m);
    assert Sub(ArrowEnd(position, direction, len), position) == Scale(u, 0.15);
    ScaledSquaredLength(u, 0.15);
  }

  /** All emitter markers in list order. */
  function EmitterMarkers(positions: seq<Vec2>, selectedType: SelectedType, selectedIndex: nat): (ms: seq<Marker>)
    ensures |ms| == |positions|
    ensures forall i :: 0 <= i < |positions| ==>
              ms[i] == EmitterMarker(positions[i], selectedType == EmitterType && selectedIndex == i)
  {
    seq(|positions|, i requires 0 <= i < |positions| => EmitterMarker(positions[i], selectedType == EmitterType && selectedIndex == i))
  }

  /** All effect markers in list order. */
  function AllEffectMarkers(kinds: seq<EffectKind>, selectedType: SelectedType, selectedIndex: nat, m: LibM): seq<Marker> {
    if |kinds| == 0 then []
    else
      var n := |kinds| - 1;
      AllEffectMarkers(kinds[..n], selectedType, selectedIndex, m)
        + EffectMarkers(kinds[n], selectedType == EffectType && selectedIndex == n, m)
  }

  /** Whether the effect at the selected index is a wind that gets an arrow. */
  ghost predicate ArrowShown(kinds: seq<EffectKind>, selectedType: SelectedType, selectedIndex: nat, m: LibM) {
    && selectedType == EffectType && selectedIndex < |kinds|
    && kinds[selectedIndex].WindState? && Length(kinds[selectedIndex].direction, m) > ArrowThreshold
  }

  /** One marker per effect, plus one arrow for a selected wind with a long enough direction. */
  lemma {:induction false} EffectMarkerCount(kinds: seq<EffectKind>, selectedType: SelectedType, selectedIndex: nat, m: LibM)
    ensures |AllEffectMarkers(kinds, selectedType, selectedIndex, m)|
            == |kinds| + if ArrowShown(kinds, selectedType, selectedIndex, m) then 1 else 0
  {
    if |kinds| > 0 {
      var n := |kinds| - 1;
      EffectMarkerCount(kinds[..n], selectedType, selectedIndex, m);
      assert selectedIndex < n ==> kinds[..n][selectedIndex] == kinds[selectedIndex];
    }
  }

  /** What updateMarkers draws: the emitter markers, then the effect markers. */
  function MarkerList(ps: seq<Vec2>, ks: seq<EffectKind>, selectedType: SelectedType, selectedIndex: nat, m: LibM): seq<Marker> {
    EmitterMarkers(ps, selectedType, selectedIndex) + AllEffectMarkers(ks, selectedType, selectedIndex, m)
  }

  /** The positions of the emitters, in list order. */
  function Positions(es: seq<Emitter>): seq<Vec2>
    reads es`position
  {
    if |es| == 0 then [] else Positions(es[..|es| - 1]) + [es[|es| - 1].position]
  }

  /** The state of the effects, in list order. */
  function Kinds(fs: seq<Effect>): seq<EffectKind>
    reads fs`kind
  {
    if |fs| == 0 then [] else Kinds(fs[..|fs| - 1]) + [fs[|fs| - 1].kind]
  }

  /** Positions lists each emitter's position at its index. */
  lemma {:induction false} PositionsAt(es: seq<Emitter>)
    ensures |Positions(es)| == |es| && forall i :: 0 <= i < |es| ==> Positions(es)[i] == es[i].position
  {
    if |es| > 0 {
      PositionsAt(es[..|es| - 1]);
    }
  }

  /** Kinds lists each effect's state at its index. */
  lemma {:induction false} KindsAt(fs: seq<Effect>)
    ensures |Kinds(fs)| == |fs| && forall i :: 0 <= i < |fs| ==> Kinds(fs)[i] == fs[i].kind
  {
    if |fs| > 0 {
      KindsAt(fs[..|fs| - 1]);
    }
  }

  /**
   * What selectObjectAtPosition settles on, given the distances of the
   * emitters and of the placed effects: the nearest emitter within the
   * threshold unless an effect is strictly nearer (an emitter wins a tie),
   * the nearest effect within the threshold when every emitter is farther,
   * and nothing when no candidate is within the threshold.
   */
  ghost predicate Picked(eds: seq<Option<real>>, fds: seq<Option<real>>, t: SelectedType, index: nat) {
    match t
    case EmitterType =>
      && index < |eds| && eds[index].Some?
      && Closest(eds, SelectionThreshold, index, eds[index].value)
      && (forall j :: 0 <= j < |fds| && fds[j].Some? ==> eds[index].value <= fds[j].value)
    case EffectType =>
      && index < |fds| && fds[index].Some?
      && Closest(fds, SelectionThreshold, index, fds[index].value)
      && (forall j :: 0 <= j < |eds| && eds[j].Some? ==> fds[index].value < eds[j].value)
    case Unselected =>
      NoneWithin(eds, SelectionThreshold) && NoneWithin(fds, SelectionThreshold)
  }

  /** A click picks at most one thing: the kind and (when something is picked) the index are determined. */
  lemma PickedUnique(eds: seq<Option<real>>, fds: seq<Option<real>>, t: SelectedType, i: nat, u: SelectedType, k: nat)
    requires Picked(eds, fds, t, i) && Picked(eds, fds, u, k)
    ensures t == u && (t != Unselected ==> i == k)
  {
    match t
    case EmitterType =>
      ClosestUnique(eds, SelectionThreshold, i, eds[i].value, k, if k < |eds| && eds[k].Some? then eds[k].value else 0.0);
      EmitterExcludesEffect(eds, fds, i, k);
    case EffectType =>
      ClosestUnique(fds, SelectionThreshold, i, fds[i].value, k, if k < |fds| && fds[k].Some? then fds[k].value else 0.0);
      EffectExcludesEmitter(eds, fds, i, k);
    case Unselected =>
      OutOfReach(eds, SelectionThreshold, k);
      OutOfReach(fds, SelectionThreshold, k);
  }

  /** When an emitter is picked, no effect is picked. */
  lemma EmitterExcludesEffect(eds: seq<Option<real>>, fds: seq<Option<real>>, i: nat, k: nat)
    requires Picked(eds, fds, EmitterType, i)
    ensures !Picked(eds, fds, EffectType, k)
  {
    if k < |fds| && fds[k].Some? {
      assert eds[i].value <= fds[k].value;
    }
  }

  /** When an effect is picked, no emitter is picked. */
  lemma EffectExcludesEmitter(eds: seq<Option<real>>, fds: seq<Option<real>>, i: nat, k: nat)
    requires Picked(eds, fds, EffectType, i)
    ensures !Picked(eds, fds, EmitterType, k)
  {
    if k < |eds| && eds[k].Some? {
      assert fds[i].value < eds[k].value;
    }
  }

  /** With every candidate out of reach, none is the closest. */
  lemma OutOfReach(ds: seq<Option<real>>, limit: real, k: nat)
    requires NoneWithin(ds, limit)
    ensures k < |ds| && ds[k].Some? ==> !Closest(ds, limit, k, ds[k].value)
  {
    if k < |ds| && ds[k].Some? {
      assert limit <= ds[k].value;
    }
  }

  /** The emitter loop of selectObjectAtPosition: the first nearest emitter closer than the threshold. */
  method NearestEmitter(ps: seq<Vec2>, point: Vec2, m: LibM) returns (found: bool, index: nat, best: real)
    ensures found ==> Closest(EmitterDistances(ps, point, m), SelectionThreshold, index, best)
    ensures !found ==> NoneWithin(EmitterDistances(ps, point, m), SelectionThreshold) && best == SelectionThreshold
  {
    found, index, best := false, 0, SelectionThreshold;
    for i := 0 to |ps|
      invariant found ==> Closest(EmitterDistances(ps[..i], point, m), SelectionThreshold, index, best)
      invariant !found ==> NoneWithin(EmitterDistances(ps[..i], point, m), SelectionThreshold) && best == SelectionThreshold
    {
      var dist := Length(Sub(ps[i], point), m);
      assert ps[..i + 1][..i] == ps[..i];
      ScanStep(EmitterDistances(ps[..i], point, m), Some(dist), SelectionThreshold, found, index, best);
      if dist < best {
        found, index, best := true, i, dist;
      }
    }
    assert ps[..|ps|] == ps;
  }

  /** The effect loop of selectObjectAtPosition: effects without a position are skipped. */
  method NearestEffect(ks: seq<EffectKind>, point: Vec2, m: LibM) returns (found: bool, index: nat, best: real)
    ensures found ==> Closest(EffectDistances(ks, point, m), SelectionThreshold, index, best)
    ensures !found ==> NoneWithin(EffectDistances(ks, point, m), SelectionThreshold) && best == SelectionThreshold
  {
    found, index, best := false, 0, SelectionThreshold;
    for i := 0 to |ks|
      invariant found ==> Closest(EffectDistances(ks[..i], point, m), SelectionThreshold, index, best)
      invariant !found ==> NoneWithin(EffectDistances(ks[..i], point, m), SelectionThreshold) && best == SelectionThreshold
    {
      var anchor := Anchor(ks[i]);
      assert ks[..i + 1][..i] == ks[..i];
      ScanStep(EffectDistances(ks[..i], point, m), EffectDistance(ks[i], point, m), SelectionThreshold, found, index, best);
      if anchor.None? {
        continue;
      }
      var dist := Length(Sub(anchor.value, point), m);
      if dist < best {
        found, index, best := true, i, dist;
      }
    }
    assert ks[..|ks|] == ks;
  }

  /**
   * The decision of selectObjectAtPosition; when nothing is within reach
   * the current index comes back unchanged.
   */
  method Choose(ps: seq<Vec2>, ks: seq<EffectKind>, point: Vec2, m: LibM, current: nat) returns (t: SelectedType, index: nat)
    ensures Picked(EmitterDistances(ps, point, m), EffectDistances(ks, point, m), t, index)
    ensures t == Unselected ==> index == current
  {
    var foundEmitter, emitterIndex, emitterDist := NearestEmitter(ps, point, m);
    var foundEffect, effectIndex, effectDist := NearestEffect(ks, point, m);
    ghost var eds, fds := EmitterDistances(ps, point, m), EffectDistances(ks, point, m);
    if foundEmitter && (!foundEffect || emitterDist <= effectDist) {
      t, index := EmitterType, emitterIndex;
      EmitterWins(eds, fds, index, emitterDist, foundEffect, effectIndex, effectDist);
    } else if foundEffect {
      t, index := EffectType, effectIndex;
      EffectWins(eds, fds, index, effectDist, foundEmitter, emitterIndex, emitterDist);
    } else {
      t, index := Unselected, current;
    }
  }

  /** The nearest emitter is picked when no effect is nearer. */
  lemma EmitterWins(eds: seq<Option<real>>, fds: seq<Option<real>>, i: nat, d: real, other: bool, k: nat, e: real)
    requires Closest(eds, SelectionThreshold, i, d)
    requires other ==> Closest(fds, SelectionThreshold, k, e) && d <= e
    requires !other ==> NoneWithin(fds, SelectionThreshold)
    ensures Picked(eds, fds, EmitterType, i)
  {
  }

  /** The nearest effect is picked when every emitter is strictly farther. */
  lemma EffectWins(eds: seq<Option<real>>, fds: seq<Option<real>>, i: nat, d: real, other: bool, k: nat, e: real)
    requires Closest(fds, SelectionThreshold, i, d)
    requires other ==> Closest(eds, SelectionThreshold, k, e) && d < e
    requires !other ==> NoneWithin(eds, SelectionThreshold)
    ensures Picked(eds, fds, EffectType, i)
  {
  }

  /** The wall checks of keepParticlesWithinBounds for one live particle, x axis then y axis. */
  method BounceLive(p: Particle, e: real) returns (q: Particle)
    requires p.alive
    ensures q == Bounce(p, e)
  {
    q := p;
    if q.position.x < -1.0 {
      q := q.(position := q.position.(x := -1.0));
      if q.velocity.x < 0.0 {
        q := q.(velocity := q.velocity.(x := -q.velocity.x * e));
      }
    } else if q.position.x > 1.0 {
      q := q.(position := q.position.(x := 1.0));
      if q.velocity.x > 0.0 {
        q := q.(velocity := q.velocity.(x := -q.velocity.x * e));
      }
    }
    if q.position.y < -1.0 {
      q := q.(position := q.position.(y := -1.0));
      if q.velocity.y < 0.0 {
        q := q.(velocity := q.velocity.(y := -q.velocity.y * e));
      }
    } else if q.position.y > 1.0 {
      q := q.(position := q.position.(y := 1.0));
      if q.velocity.y > 0.0 {
        q := q.(velocity := q.velocity.(y := -q.velocity.y * e));
      }
    }
  }

  /** keepParticlesWithinBounds on a copy of the population: dead particles are skipped. */
  method Confined(ps: seq<Particle>, e: real) returns (qs: seq<Particle>)
    ensures qs == Bounded(ps, e)
  {
    qs := ps;
    var i := 0;
    while i < |qs|
      invariant 0 <= i <= |qs| == |ps|
      invariant forall j :: 0 <= j < i ==> qs[j] == Bounce(ps[j], e)
      invariant forall j :: i <= j < |qs| ==> qs[j] == ps[j]
    {
      var p := qs[i];
      if !p.alive {
        i := i + 1;
        continue;
      }
      p := BounceLive(p, e);
      qs := qs[i := p];
      i := i + 1;
    }
    assert forall j :: 0 <= j < |ps| ==> qs[j] == Bounded(ps, e)[j];
  }

  /** The markers the loop of updateMarkers adds for one effect. */
  method MarkersOf(k: EffectKind, selected: bool, m: LibM) returns (ms: seq<Marker>)
    ensures ms == EffectMarkers(k, selected, m)
  {
    match k
    case GravityState(position, _) =>
      ms := [if selected then Marker(position, SelectedColor, 10.25) else Marker(position, EffectColor, 10.20)];
    case WindState(direction, _, _, position, hasPosition) =>
      var at := if hasPosition then position else Vec2(0.8, 0.0);
      if selected {
        ms := [Marker(at, SelectedColor, 10.25)];
        var len := Length(direction, m);
        if len > ArrowThreshold {
          var dir := Vec2(direction.x / len, direction.y / len);
          ms := ms + [Marker(Add(at, Scale(dir, 0.15)), SelectedColor, 5.0)];
        }
      } else {
        ms := [Marker(at, EffectColor, 10.20)];
      }
  }

  /** The loops of updateMarkers over the emitters' positions and the effects' states. */
  method BuildMarkers(ps: seq<Vec2>, ks: seq<EffectKind>, selectedType: SelectedType, selectedIndex: nat, m: LibM)
    returns (ms: seq<Marker>)
    ensures ms == MarkerList(ps, ks, selectedType, selectedIndex, m)
  {
    var shown := ShowEmitters(ps, selectedType, selectedIndex);
    var effectShown := ShowEffects(ks, selectedType, selectedIndex, m);
    ms := shown + effectShown;
  }

  /** The emitter loop of updateMarkers. */
  method ShowEmitters(ps: seq<Vec2>, selectedType: SelectedType, selectedIndex: nat) returns (shown: seq<Marker>)
    ensures shown == EmitterMarkers(ps, selectedType, selectedIndex)
  {
    shown := [];
    for i := 0 to |ps|
      invariant shown == EmitterMarkers(ps[..i], selectedType, selectedIndex)
    {
      assert ps[..i + 1][..i] == ps[..i];
      shown := shown + [EmitterMarker(ps[i], selectedType == EmitterType && selectedIndex == i)];
    }
    assert ps[..|ps|] == ps;
  }

  /** The effect loop of updateMarkers. */
  method ShowEffects(ks: seq<EffectKind>, selectedType: SelectedType, selectedIndex: nat, m: LibM) returns (shown: seq<Marker>)
    ensures shown == AllEffectMarkers(ks, selectedType, selectedIndex, m)
  {
    shown := [];
    for i := 0 to |ks|
      invariant shown == AllEffectMarkers(ks[..i], selectedType, selectedIndex, m)
    {
      assert ks[..i + 1][..i] == ks[..i];
      var one := MarkersOf(ks[i], selectedType == EffectType && selectedIndex == i, m);
      shown := shown + one;
    }
    assert ks[..|ks|] == ks;
  }

  /** An explosion emitter armed by the demo's per-frame trigger; other kinds are untouched. */
  function Armed(k: Kind): (a: Kind)
    ensures a.ExplosionState? <==> k.ExplosionState?
    ensures a.ExplosionState? ==> a.triggered && a.count == k.count && a.ranges == k.ranges
    ensures !k.ExplosionState? ==> a == k
  {
    if k.ExplosionState? then k.(triggered := true) else k
  }

  /** A list of emitter states after the per-frame trigger: every explosion armed, nothing else changed. */
  function ArmAll(ss: seq<Snapshot>): (r: seq<Snapshot>)
    ensures |r| == |ss|
    ensures forall i :: 0 <= i < |ss| ==> r[i] == ss[i].(kind := Armed(ss[i].kind)) && (Sound(ss[i]) ==> Sound(r[i]))
  {
    seq(|ss|, i requires 0 <= i < |ss| => ss[i].(kind := Armed(ss[i].kind)))
  }

  /** The states the system's update starts from once the demo has armed every explosion in es. */
  ghost function ArmedStates(es: seq<Emitter>): (st: map<Emitter, Snapshot>)
    reads es
    ensures forall i :: 0 <= i < |es| ==> es[i] in st && st[es[i]] == es[i].State().(kind := Armed(es[i].kind))
    ensures (forall i :: 0 <= i < |es| ==> es[i].Ready()) ==> forall e :: e in st ==> Sound(st[e])
  {
    var ss := ArmAll(Snapshots(es));
    KeyedAt(es, ss);
    if forall i :: 0 <= i < |es| ==> es[i].Ready() then
      KeyedSound(es, ss);
      Keyed(es, ss)
    else
      Keyed(es, ss)
  }

  /**
   * What a frame does to the explosions: run from the armed states of es,
   * the emission phase leaves every explosion emitter disarmed, after one
   * burst of Iterations(count) draws, with its position, rate and
   * accumulator as they were.
   */
  lemma FrameFiresExplosions(es: seq<Emitter>, ps: seq<Particle>, dt: real, m: LibM)
    requires 0.0 <= dt && forall i :: 0 <= i < |es| ==> es[i].Ready()
    ensures var r := EmitInOrder(es, ArmedStates(es), ps, dt, m);
            forall i :: 0 <= i < |es| && es[i].kind.ExplosionState? ==>
              var t := r.1[es[i]];
              && t.position == es[i].position && t.rate == es[i].rate && t.accumulator == es[i].accumulator
              && t.kind == es[i].kind.(triggered := false)
              && t.drawn == es[i].drawn + Iterations(es[i].kind.count)
  {
    var st := ArmedStates(es);
    forall i | 0 <= i < |es| && es[i].kind.ExplosionState?
      ensures var t := EmitInOrder(es, st, ps, dt, m).1[es[i]];
              && t.position == es[i].position && t.rate == es[i].rate && t.accumulator == es[i].accumulator
              && t.kind == es[i].kind.(triggered := false)
              && t.drawn == es[i].drawn + Iterations(es[i].kind.count)
    {
      ExplosionsFireOnce(es, st, ps, dt, m, es[i]);
    }
  }

  /** A wind turned by its per-frame update at the given time; other effects are untouched. */
  function Turned(k: EffectKind, time: real, m: LibM): EffectKind {
    if k.WindState? && k.varying then k.(current := Rotate(k.direction, Gust(time, m), m)) else k
  }

  /** A varying wind turned at any time keeps the length of its base direction. */
  lemma TurnedKeepsLength(k: EffectKind, time: real, m: LibM)
    requires Lawful(m) && k.WindState?
    ensures var t := Turned(k, time, m);
            t.varying ==> SquaredLength(t.current) == SquaredLength(t.direction)
  {
    if k.varying {
      RotateKeepsLength(k.direction, Gust(time, m), m);
    }
  }

  /**
   * The demo: a particle system, the lists of emitters and effects it
   * placed (the same lists the system holds), the placement mode, the
   * selection, the boundary settings and the rendering data.
   */
  class ParticleDemo {
    const system: ParticleSystem
    var emitters: seq<Emitter>
    var effects: seq<Effect>
    var placementMode: PlacementMode
    var selectedType: SelectedType
    var selectedIndex: nat
    var useBoundaries: bool
    var restitution: real
    var positions: seq<Vec2>
    var colors: seq<Color>
    var sizes: seq<real>
    var markers: seq<Marker>

    /** The demo's lists are the system's, and the system and every effect are valid. */
    ghost predicate Valid()
      reads this`emitters, this`effects, system`emitters, system`effects
      reads emitters`accumulator, emitters`rate, emitters`kind, effects`kind
    {
      && system.emitters == emitters && system.effects == effects
      && system.Valid()
      && (forall i :: 0 <= i < |effects| ==> effects[i].Valid())
    }

    /** The markers updateMarkers builds from the current state. */
    function Markers(m: LibM): seq<Marker>
      reads this`emitters, this`effects, this`selectedType, this`selectedIndex, emitters`position, effects`kind
    {
      MarkerList(Positions(emitters), Kinds(effects), selectedType, selectedIndex, m)
    }

    /** Nothing placed, nothing selected, boundaries on with restitution 0.8. */
    constructor ()
      ensures Valid() && fresh(system)
      ensures emitters == [] && effects == [] && system.particles == []
      ensures placementMode == NotPlacing && selectedType == Unselected && selectedIndex == 0
      ensures useBoundaries && restitution == 0.8
      ensures positions == [] && colors == [] && sizes == [] && markers == []
    {
      system := new ParticleSystem();
      emitters, effects := [], [];
      placementMode, selectedType, selectedIndex := NotPlacing, Unselected, 0;
      useBoundaries, restitution := true, 0.8;
      positions, colors, sizes, markers := [], [], [], [];
    }

    /**
     * One frame: advance the simulation, then rebuild the rendering data.
     * The system's update runs from the armed states (FrameFiresExplosions
     * says what that does to the explosions), the winds turn and, with
     * boundaries on, the stepped population is bounced back into the box.
     */
    method Update(time: real, dt: real, m: LibM)
      requires Valid() && 0.0 <= dt
      modifies this`positions, this`colors, this`sizes, this`markers
      modifies system`particles, emitters`accumulator, emitters`drawn, emitters`kind, effects`kind
      ensures Valid()
      ensures forall i :: 0 <= i < |effects| ==> effects[i].kind == Turned(old(effects[i].kind), time, m)
      ensures var r := EmitInOrder(emitters, old(ArmedStates(emitters)), old(system.particles), dt, m);
              && (forall i :: 0 <= i < |emitters| ==> emitters[i].State() == r.1[emitters[i]])
              && var stepped := Step(r.0, Influences(effects), dt, m);
                 system.particles == if useBoundaries then Bounded(stepped, restitution) else stepped
      ensures Rendered(positions, colors, sizes, system.particles)
      ensures markers == Markers(m)
    {
      Advance(time, dt, m);
      Render(m);
    }

    /** The rendering half of update: the particle buffers, then the markers; the simulation is left as it is. */
    method Render(m: LibM)
      modifies this`positions, this`colors, this`sizes, this`markers
      ensures Rendered(positions, colors, sizes, system.particles)
      ensures markers == Markers(m)
      ensures unchanged(system, emitters, effects)
      ensures Valid() == old(Valid()) && Influences(effects) == old(Influences(effects))
      ensures forall i :: 0 <= i < |emitters| ==> emitters[i].State() == old(emitters[i].State())
    {
      StoreParticleData();
      UpdateMarkers(m);
    }

    /** The simulation half of update: arm explosions, turn winds, step the system, bounce. */
    method Advance(time: real, dt: real, m: LibM)
      requires Valid() && 0.0 <= dt
      modifies system`particles, emitters`accumulator, emitters`drawn, emitters`kind, effects`kind
      ensures Valid()
      ensures forall i :: 0 <= i < |effects| ==> effects[i].kind == Turned(old(effects[i].kind), time, m)
      ensures var r := EmitInOrder(emitters, old(ArmedStates(emitters)), old(system.particles), dt, m);
              && (forall i :: 0 <= i < |emitters| ==> emitters[i].State() == r.1[emitters[i]])
              && var stepped := Step(r.0, Influences(effects), dt, m);
                 system.particles == if useBoundaries then Bounded(stepped, restitution) else stepped
    {
      ghost var armed := ArmAll(Snapshots(emitters));
      assert ArmedStates(emitters) == Keyed(emitters, armed);
      Prepare(time, m);
      assert States(emitters) == Keyed(emitters, armed);
      Simulate(dt, m);
    }

    /** The first half of a frame: every explosion armed, every wind turned, nothing else changed. */
    method Prepare(time: real, m: LibM)
      requires Valid()
      modifies emitters`kind, effects`kind
      ensures Valid()
      ensures forall i :: 0 <= i < |effects| ==> effects[i].kind == Turned(old(effects[i].kind), time, m)
      ensures Snapshots(emitters) == ArmAll(old(Snapshots(emitters)))
      ensures forall i :: 0 <= i < |emitters| ==> emitters[i].kind == Armed(old(emitters[i].kind)) && emitters[i].drawn == old(emitters[i].drawn)
    {
      TriggerExplosions();
      UpdateWinds(time, m);
    }

    /** The second half of a frame: the system's update, then the bounce when boundaries are on. */
    method Simulate(dt: real, m: LibM)
      requires Valid() && 0.0 <= dt
      modifies system`particles, emitters`accumulator, emitters`drawn, emitters`kind
      ensures Valid()
      ensures forall i :: 0 <= i < |effects| ==> effects[i].kind == old(effects[i].kind)
      ensures var r := EmitInOrder(emitters, old(States(emitters)), old(system.particles), dt, m);
              && (forall i :: 0 <= i < |emitters| ==> emitters[i].State() == r.1[emitters[i]])
              && var stepped := Step(r.0, Influences(effects), dt, m);
                 system.particles == if useBoundaries then Bounded(stepped, restitution) else stepped
    {
      StepSystem(dt, m);
      if useBoundaries {
        KeepParticlesWithinBounds();
      }
    }

    /** The system's own update, seen from the demo: its lists and the effects stay as they are. */
    method StepSystem(dt: real, m: LibM)
      requires Valid() && 0.0 <= dt
      modifies system`particles, emitters`accumulator, emitters`drawn, emitters`kind
      ensures Valid()
      ensures forall i :: 0 <= i < |effects| ==> effects[i].kind == old(effects[i].kind)
      ensures var r := EmitInOrder(emitters, old(States(emitters)), old(system.particles), dt, m);
              && system.particles == Step(r.0, Influences(effects), dt, m)
              && forall i :: 0 <= i < |emitters| ==> emitters[i].State() == r.1[emitters[i]]
    {
      system.Update(dt, m);
    }

    /** getParticleData into the demo's buffers. */
    method StoreParticleData()
      modifies this`positions, this`colors, this`sizes
      ensures Rendered(positions, colors, sizes, system.particles)
    {
      positions, colors, sizes := system.GetParticleData();
    }

    /** Every explosion emitter is triggered, every frame. */
    method TriggerExplosions()
      requires Valid()
      modifies emitters`kind
      ensures Valid()
      ensures forall i :: 0 <= i < |emitters| ==> emitters[i].kind == Armed(old(emitters[i].kind))
      ensures Snapshots(emitters) == ArmAll(old(Snapshots(emitters)))
    {
      for i := 0 to |emitters|
        invariant forall j :: 0 <= j < |emitters| ==>
                    emitters[j].kind == if emitters[j] in emitters[..i] then Armed(old(emitters[j].kind)) else old(emitters[j].kind)
      {
        if emitters[i].kind.ExplosionState? {
          emitters[i].Trigger();
        }
      }
    }

    /** Every wind is updated with the current time. */
    method UpdateWinds(time: real, m: LibM)
      requires Valid()
      modifies effects`kind
      ensures Valid()
      ensures forall i :: 0 <= i < |effects| ==> effects[i].kind == Turned(old(effects[i].kind), time, m)
      ensures unchanged(emitters)
    {
      for i := 0 to |effects|
        invariant forall j :: 0 <= j < |effects| ==>
                    effects[j].kind == if effects[j] in effects[..i] then Turned(old(effects[j].kind), time, m) else old(effects[j].kind)
        invariant forall j :: 0 <= j < |effects| ==> effects[j].Valid()
      {
        if effects[i].kind.WindState? {
          effects[i].Update(time, m);
        }
      }
    }

    /** keepParticlesWithinBounds: the population is replaced by its bounced copy. */
    method KeepParticlesWithinBounds()
      requires Valid()
      modifies system`particles
      ensures Valid()
      ensures forall i :: 0 <= i < |effects| ==> effects[i].kind == old(effects[i].kind)
      ensures system.particles == Bounded(old(system.particles), restitution)
    {
      var ps := Confined(system.particles, restitution);
      system.SetParticles(ps);
    }

    /** updateMarkers: one marker per emitter, then the markers of each effect. */
    method UpdateMarkers(m: LibM)
      modifies this`markers
      ensures markers == Markers(m)
    {
      markers := BuildMarkers(Positions(emitters), Kinds(effects), selectedType, selectedIndex, m);
    }

    /** handleMouseClick: in placement mode, place the object and leave the mode; otherwise select. */
    method HandleMouseClick(point: Vec2, stream: Rng, m: LibM)
      requires Valid() && forall k :: stream(k).Unit()
      modifies this`placementMode, this`selectedType, this`selectedIndex, this`emitters, this`effects, system`emitters, system`effects
      ensures Valid() && placementMode == NotPlacing
      ensures old(placementMode) == NotPlacing ==>
                && emitters == old(emitters) && effects == old(effects)
                && Picked(old(EmitterDistances(Positions(emitters), point, m)), old(EffectDistances(Kinds(effects), point, m)), selectedType, selectedIndex)
                && (selectedType == Unselected ==> selectedIndex == old(selectedIndex))
      ensures old(placementMode) in {UniformEmitter, DirectionalEmitter, ExplosionEmitter} ==>
                && |emitters| == |old(emitters)| + 1 && emitters[..|old(emitters)|] == old(emitters)
                && fresh(emitters[|old(emitters)|]) && emitters[|old(emitters)|].position == point
                && effects == old(effects)
                && selectedType == EmitterType && selectedIndex == |old(emitters)|
      ensures old(placementMode) in {GravityWell, Wind} ==>
                && |effects| == |old(effects)| + 1 && effects[..|old(effects)|] == old(effects)
                && fresh(effects[|old(effects)|]) && Anchor(effects[|old(effects)|].kind) == Some(point)
                && emitters == old(emitters)
                && selectedType == EffectType && selectedIndex == |old(effects)|
      ensures old(placementMode) == UniformEmitter && |old(emitters)| < |emitters| ==>
                var e := emitters[|old(emitters)|];
                && e.rate == 20.0 && e.accumulator == 0.0 && e.stream == stream && e.drawn == 0
                && e.kind == UniformState(Ranges(0.1, 0.3, 3.0, 5.0))
      ensures old(placementMode) == DirectionalEmitter && |old(emitters)| < |emitters| ==>
                var e := emitters[|old(emitters)|];
                && e.rate == 15.0 && e.accumulator == 0.0 && e.stream == stream && e.drawn == 0
                && e.kind == DirectionalState(Normalize(Vec2(0.0, 1.0), m), Pi / 12.0, Ranges(0.2, 0.4, 3.0, 6.0))
      ensures old(placementMode) == ExplosionEmitter && |old(emitters)| < |emitters| ==>
                var e := emitters[|old(emitters)|];
                && e.accumulator == 0.0 && e.stream == stream && e.drawn == 0
                && e.kind == ExplosionState(20, false, Ranges(0.3, 0.7, 1.5, 2.5))
      ensures old(placementMode) == GravityWell && |old(effects)| < |effects| ==>
                var f := effects[|old(effects)|];
                f.strength == 0.1 && f.enabled && f.kind == GravityState(point, 0.5)
      ensures old(placementMode) == Wind && |old(effects)| < |effects| ==>
                var f := effects[|old(effects)|];
                && f.strength == 0.05 && f.enabled && f.kind.WindState?
                && f.kind.direction == Normalize(Vec2(1.0, 0.0), m) && f.kind.varying
                && f.kind.position == point && f.kind.hasPosition
    {
      if placementMode != NotPlacing {
        match placementMode {
          case UniformEmitter => CreateUniformEmitter(point, stream);
          case DirectionalEmitter => CreateDirectionalEmitter(point, stream, m);
          case ExplosionEmitter => CreateExplosionEmitter(point, stream);
          case GravityWell => CreateGravityWell(point);
          case Wind => CreateWind(point, m);
        }
        placementMode := NotPlacing;
      } else {
        SelectObjectAtPosition(point, m);
      }
    }

    /** setPlacementMode: switching mode clears the selection. */
    method SetPlacementMode(mode: PlacementMode)
      modifies this`placementMode, this`selectedType
      ensures placementMode == mode && selectedType == Unselected
    {
      placementMode := mode;
      selectedType := Unselected;
    }

    /** selectObjectAtPosition: a picked object becomes the selection; otherwise nothing is selected and the index is kept. */
    method SelectObjectAtPosition(point: Vec2, m: LibM)
      modifies this`selectedType, this`selectedIndex
      ensures Picked(old(EmitterDistances(Positions(emitters), point, m)), old(EffectDistances(Kinds(effects), point, m)), selectedType, selectedIndex)
      ensures selectedType == Unselected ==> selectedIndex == old(selectedIndex)
    {
      var t, index := Choose(Positions(emitters), Kinds(effects), point, m, selectedIndex);
      selectedType, selectedIndex := t, index;
    }

    /** Hands a new emitter to the system and the demo's list, and selects it. */
    method Adopt(e: Emitter)
      requires Valid() && e.Ready()
      modifies this`emitters, system`emitters, this`selectedType, this`selectedIndex
      ensures Valid()
      ensures emitters == old(emitters) + [e] && effects == old(effects)
      ensures selectedType == EmitterType && selectedIndex == |emitters| - 1
    {
      system.AddEmitter(e);
      emitters := emitters + [e];
      selectedType, selectedIndex := EmitterType, |emitters| - 1;
    }

    /** Hands a new effect to the system and the demo's list, and selects it. */
    method AdoptEffect(f: Effect)
      requires Valid() && f.Valid()
      modifies this`effects, system`effects, this`selectedType, this`selectedIndex
      ensures Valid()
      ensures effects == old(effects) + [f] && emitters == old(emitters)
      ensures selectedType == EffectType && selectedIndex == |effects| - 1
    {
      system.AddEffect(f);
      effects := effects + [f];
      selectedType, selectedIndex := EffectType, |effects| - 1;
    }

    /** createUniformEmitter: rate 20, speeds 0.1 to 0.3, lifetimes 3 to 5. */
    method CreateUniformEmitter(position: Vec2, stream: Rng)
      requires Valid() && forall k :: stream(k).Unit()
      modifies this`emitters, system`emitters, this`selectedType, this`selectedIndex
      ensures Valid()
      ensures |emitters| == |old(emitters)| + 1 && emitters[..|old(emitters)|] == old(emitters) && effects == old(effects)
      ensures var e := emitters[|old(emitters)|];
              && fresh(e) && e.position == position && e.rate == 20.0 && e.accumulator == 0.0
              && e.kind == UniformState(Ranges(0.1, 0.3, 3.0, 5.0)) && e.stream == stream && e.drawn == 0
      ensures selectedType == EmitterType && selectedIndex == |old(emitters)|
    {
      var e := new Emitter.Uniform(position, stream);
      e.SetRate(20.0);
      e.SetSpeedRange(0.1, 0.3);
      e.SetLifetimeRange(3.0, 5.0);
      Adopt(e);
    }

    /** createDirectionalEmitter: upward, rate 15, spread pi/12, speeds 0.2 to 0.4, lifetimes 3 to 6. */
    method CreateDirectionalEmitter(position: Vec2, stream: Rng, m: LibM)
      requires Valid() && forall k :: stream(k).Unit()
      modifies this`emitters, system`emitters, this`selectedType, this`selectedIndex
      ensures Valid()
      ensures |emitters| == |old(emitters)| + 1 && emitters[..|old(emitters)|] == old(emitters) && effects == old(effects)
      ensures var e := emitters[|old(emitters)|];
              && fresh(e) && e.position == position && e.rate == 15.0 && e.accumulator == 0.0
              && e.kind == DirectionalState(Normalize(Vec2(0.0, 1.0), m), Pi / 12.0, Ranges(0.2, 0.4, 3.0, 6.0))
              && e.stream == stream && e.drawn == 0
      ensures selectedType == EmitterType && selectedIndex == |old(emitters)|
    {
      var e := new Emitter.Directional(position, Vec2(0.0, 1.0), stream, m);
      e.SetRate(15.0);
      e.SetSpread(Pi / 12.0);
      e.SetSpeedRange(0.2, 0.4);
      e.SetLifetimeRange(3.0, 6.0);
      Adopt(e);
    }

    /** createExplosionEmitter: 20 particles per burst, speeds 0.3 to 0.7, lifetimes 1.5 to 2.5. */
    method CreateExplosionEmitter(position: Vec2, stream: Rng)
      requires Valid() && forall k :: stream(k).Unit()
      modifies this`emitters, system`emitters, this`selectedType, this`selectedIndex
      ensures Valid()
      ensures |emitters| == |old(emitters)| + 1 && emitters[..|old(emitters)|] == old(emitters) && effects == old(effects)
      ensures var e := emitters[|old(emitters)|];
              && fresh(e) && e.position == position && e.accumulator == 0.0
              && e.kind == ExplosionState(20, false, Ranges(0.3, 0.7, 1.5, 2.5)) && e.stream == stream && e.drawn == 0
      ensures selectedType == EmitterType && selectedIndex == |old(emitters)|
    {
      var e := new Emitter.Explosion(position, stream);
      e.SetParticleCount(20);
      e.SetSpeedRange(0.3, 0.7);
      e.SetLifetimeRange(1.5, 2.5);
      Adopt(e);
    }

    /** createGravityWell: strength 0.1, radius 0.5. */
    method CreateGravityWell(position: Vec2)
      requires Valid()
      modifies this`effects, system`effects, this`selectedType, this`selectedIndex
      ensures Valid()
      ensures |effects| == |old(effects)| + 1 && effects[..|old(effects)|] == old(effects) && emitters == old(emitters)
      ensures var f := effects[|old(effects)|];
              fresh(f) && f.strength == 0.1 && f.enabled && f.kind == GravityState(position, 0.5)
      ensures selectedType == EffectType && selectedIndex == |old(effects)|
    {
      var f := new Effect.GravityWell(position);
      f.SetStrength(0.1);
      f.SetRadius(0.5);
      AdoptEffect(f);
    }

    /** createWind: rightward, strength 0.05, varying, placed where the click was. */
    method CreateWind(position: Vec2, m: LibM)
      requires Valid()
      modifies this`effects, system`effects, this`selectedType, this`selectedIndex
      ensures Valid()
      ensures |effects| == |old(effects)| + 1 && effects[..|old(effects)|] == old(effects) && emitters == old(emitters)
      ensures var f := effects[|old(effects)|];
              && fresh(f) && f.strength == 0.05 && f.enabled && f.kind.WindState?
              && f.kind.direction == Normalize(Vec2(1.0, 0.0), m) && f.kind.varying
              && f.kind.position == position && f.kind.hasPosition
      ensures selectedType == EffectType && selectedIndex == |old(effects)|
    {
      var f := new Effect.Wind(Vec2(1.0, 0.0), m);
      f.SetStrength(0.05);
      f.SetVarying(true);
      f.SetPosition(position);
      AdoptEffect(f);
    }
  }
}
