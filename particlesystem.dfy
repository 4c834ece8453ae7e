/**
 * The orchestrator (particlesystem.cpp): the particle population, the
 * emitter list and the effect list, and the five-phase update that emits,
 * clears forces, applies effects, integrates and compacts.
 *
 * The phases after emission are pure functions of the population and the
 * effects' state (ResetForces, Affect, ApplyEffects, Integrate, Compact);
 * the methods run the loops of particlesystem.cpp and are proved against them.
 */
module Simulation {
  import opened Optional
  import opened Transform
  import opened Particles
  import opened Recycling
  import opened Emitters
  import opened Effects
  import opened Draws
  import opened Pacing

  /** An RGBA colour (glm::vec4). */
  datatype Color = Color(r: real, g: real, b: real, a: real)

  /** Every particle with its force cleared. */
  function ResetForces(ps: seq<Particle>): (qs: seq<Particle>)
    ensures |qs| == |ps|
    ensures forall i :: 0 <= i < |ps| ==> qs[i] == ps[i].ResetForce()
  {
    if |ps| == 0 then [] else [ps[0].ResetForce()] + ResetForces(ps[1..])
  }

  /** Every particle after one integration step of length dt. */
  function Integrate(ps: seq<Particle>, dt: real): (qs: seq<Particle>)
    ensures |qs| == |ps|
    ensures forall i :: 0 <= i < |ps| ==> qs[i] == ps[i].Update(dt)
  {
    if |ps| == 0 then [] else [ps[0].Update(dt)] + Integrate(ps[1..], dt)
  }

  /** What every effect of es exerts, in list order. */
  function Influences(es: seq<Effect>): (fs: seq<Influence>)
    reads es
    ensures |fs| == |es| && forall i :: 0 <= i < |es| ==> fs[i] == es[i].Current()
  {
    seq(|es|, i requires 0 <= i < |es| reads es => es[i].Current())
  }

  /** Every particle after one effect's apply. */
  function Affect(ps: seq<Particle>, f: Influence, m: LibM): (qs: seq<Particle>)
    ensures |qs| == |ps|
    ensures forall i :: 0 <= i < |ps| ==> qs[i] == f.Apply(ps[i], m)
  {
    if |ps| == 0 then [] else [f.Apply(ps[0], m)] + Affect(ps[1..], f, m)
  }

  /** The population after the effects fs, in list order. */
  function ApplyEffects(ps: seq<Particle>, fs: seq<Influence>, m: LibM): seq<Particle> {
    if |fs| == 0 then ps else Affect(ApplyEffects(ps, fs[..|fs| - 1], m), fs[|fs| - 1], m)
  }

  /** The sum, in list order, of what the effects fs push on p. */
  function TotalPush(p: Particle, fs: seq<Influence>, m: LibM): Vec2 {
    if |fs| == 0 then Zero
    else
      var f := fs[|fs| - 1];
      Add(TotalPush(p, fs[..|fs| - 1], m), Push(f.kind, f.strength, f.enabled, p, m))
  }

  /** The particles that are alive, in their original order. */
  function Compact(ps: seq<Particle>): (qs: seq<Particle>)
    ensures |qs| <= |ps|
    ensures forall i :: 0 <= i < |qs| ==> qs[i].alive
    ensures forall q :: q in qs ==> q in ps
  {
    if |ps| == 0 then []
    else (if ps[0].alive then [ps[0]] else []) + Compact(ps[1..])
  }

  /** One update after emission: clear forces, apply effects, integrate, drop the dead. */
  function Step(ps: seq<Particle>, fs: seq<Influence>, dt: real, m: LibM): seq<Particle> {
    Compact(Integrate(ApplyEffects(ResetForces(ps), fs, m), dt))
  }

  /** Compaction distributes over concatenation, so it keeps the relative order. */
  lemma {:induction false} CompactConcat(a: seq<Particle>, b: seq<Particle>)
    ensures Compact(a + b) == Compact(a) + Compact(b)
  {
    if |a| > 0 {
      CompactConcat(a[1..], b);
      assert (a + b)[1..] == a[1..] + b;
    } else {
      assert a + b == b;
    }
  }

  /** Compaction keeps a population that is all alive as it is. */
  lemma {:induction false} CompactAllAlive(ps: seq<Particle>)
    requires forall i :: 0 <= i < |ps| ==> ps[i].alive
    ensures Compact(ps) == ps
  {
    if |ps| > 0 {
      CompactAllAlive(ps[1..]);
    }
  }

  /** Compaction drops exactly the dead particles. */
  lemma {:induction false} CompactLength(ps: seq<Particle>)
    ensures |Compact(ps)| == |ps| - DeadCount(ps)
  {
    if |ps| > 0 {
      CompactLength(ps[1..]);
    }
  }

  /** Each alive particle is kept as often as it occurs, each dead one is gone. */
  lemma {:induction false} CompactCounts(ps: seq<Particle>, p: Particle)
    ensures multiset(Compact(ps))[p] == if p.alive then multiset(ps)[p] else 0
  {
    if |ps| > 0 {
      CompactCounts(ps[1..], p);
      assert ps == [ps[0]] + ps[1..];
    }
  }

  /** Clearing forces and applying effects leaves each particle with exactly the total push on it. */
  lemma {:induction false} EffectsSumPushes(ps: seq<Particle>, fs: seq<Influence>, m: LibM)
    ensures var qs := ApplyEffects(ResetForces(ps), fs, m);
            && |qs| == |ps|
            && forall i :: 0 <= i < |ps| ==> qs[i] == ps[i].(force := TotalPush(ps[i], fs, m))
  {
    if |fs| > 0 {
      EffectsSumPushes(ps, fs[..|fs| - 1], m);
    }
  }

  /**
   * After a step every particle is alive with time left, and each one is a
   * particle of ps that was integrated with exactly the total push of the
   * effects as its force, which it still carries.
   */
  lemma StepSurvivors(ps: seq<Particle>, fs: seq<Influence>, dt: real, m: LibM)
    ensures forall q :: q in Step(ps, fs, dt, m) ==>
              && q.alive && 0.0 < q.lifetime
              && exists j :: 0 <= j < |ps| && q == ps[j].(force := TotalPush(ps[j], fs, m)).Update(dt)
  {
    EffectsSumPushes(ps, fs, m);
    var qs := Integrate(ApplyEffects(ResetForces(ps), fs, m), dt);
    forall q | q in Step(ps, fs, dt, m)
      ensures q.alive && 0.0 < q.lifetime
      ensures exists j :: 0 <= j < |ps| && q == ps[j].(force := TotalPush(ps[j], fs, m)).Update(dt)
    {
      assert q in qs;
      var j :| 0 <= j < |qs| && qs[j] == q;
      assert q == ps[j].(force := TotalPush(ps[j], fs, m)).Update(dt);
    }
  }

  /** An update with no effects and no deaths only integrates, with zero force. */
  lemma QuietStep(ps: seq<Particle>, dt: real, m: LibM)
    requires forall i :: 0 <= i < |ps| ==> ps[i].alive && dt < ps[i].lifetime
    ensures Step(ps, [], dt, m) == Integrate(ResetForces(ps), dt)
  {
    CompactAllAlive(Integrate(ResetForces(ps), dt));
  }

  /** The index of the first occurrence of x in s. */
  function FirstIndex<T(==)>(s: seq<T>, x: T): (i: nat)
    requires x in s
    ensures i < |s| && s[i] == x && x !in s[..i]
  {
    if s[0] == x then 0
    else
      var i := FirstIndex(s[1..], x);
      assert s[1..][..i] == s[1..i + 1];
      i + 1
  }

  /** s with its first occurrence of x erased; s itself when x does not occur. */
  function Without<T(==)>(s: seq<T>, x: T): seq<T> {
    if x in s then s[..FirstIndex(s, x)] + s[FirstIndex(s, x) + 1..] else s
  }

  /** Erasing removes one occurrence of x and keeps every other element and its order. */
  lemma WithoutCounts<T>(s: seq<T>, x: T)
    requires x in s
    ensures |Without(s, x)| == |s| - 1
    ensures multiset(Without(s, x)) == multiset(s) - multiset{x}
  {
    var i := FirstIndex(s, x);
    assert s == s[..i] + [x] + s[i + 1..];
  }

  /** The alpha a particle is drawn with: it fades over its last two seconds. */
  function Fade(p: Particle): (alpha: real)
    ensures alpha <= 1.0
    ensures 0.0 < p.lifetime ==> 0.0 < alpha
  {
    if p.lifetime / 2.0 < 1.0 then p.lifetime / 2.0 else 1.0
  }

  /**
   * The rendering data for a population: one position, colour and size per
   * live particle, in population order; alpha and size follow Fade.
   */
  ghost predicate Rendered(positions: seq<Vec2>, colors: seq<Color>, sizes: seq<real>, ps: seq<Particle>) {
    && |positions| == |colors| == |sizes| == |Compact(ps)|
    && forall i :: 0 <= i < |positions| ==>
         var p := Compact(ps)[i];
         && positions[i] == p.position
         && colors[i] == Color(1.0, 1.0, 1.0, Fade(p))
         && sizes[i] == 0.02 + 0.02 * Fade(p)
  }

  /** A particle with time left is drawn with a size in (0.02, 0.04]. */
  lemma SizeBounds(p: Particle)
    requires 0.0 < p.lifetime
    ensures 0.02 < 0.02 + 0.02 * Fade(p) <= 0.04
  {
  }

  /** The state of every emitter in es, in list order. */
  function Snapshots(es: seq<Emitter>): (ss: seq<Snapshot>)
    reads es
    ensures |ss| == |es| && forall i :: 0 <= i < |es| ==> ss[i] == es[i].State()
  {
    if es == [] then [] else Snapshots(es[..|es| - 1]) + [es[|es| - 1].State()]
  }

  /** The states ss keyed by the emitters es they belong to; a later entry for the same emitter wins. */
  function Keyed(es: seq<Emitter>, ss: seq<Snapshot>): (st: map<Emitter, Snapshot>)
    requires |ss| == |es|
    ensures forall i :: 0 <= i < |es| ==> es[i] in st
  {
    if es == [] then map[] else Keyed(es[..|es| - 1], ss[..|ss| - 1])[es[|es| - 1] := ss[|ss| - 1]]
  }

  /** When es lists an emitter twice only with the same state, every entry finds its own state in the keyed map. */
  lemma {:induction false} KeyedAt(es: seq<Emitter>, ss: seq<Snapshot>)
    requires |ss| == |es|
    requires forall i, j :: 0 <= i < |es| && 0 <= j < |es| && es[i] == es[j] ==> ss[i] == ss[j]
    ensures forall i :: 0 <= i < |es| ==> Keyed(es, ss)[es[i]] == ss[i]
    decreases |es|
  {
    if es != [] {
      KeyedAt(es[..|es| - 1], ss[..|ss| - 1]);
    }
  }

  /** A keyed map of sound states holds only sound states. */
  lemma {:induction false} KeyedSound(es: seq<Emitter>, ss: seq<Snapshot>)
    requires |ss| == |es| && forall i :: 0 <= i < |ss| ==> Sound(ss[i])
    ensures forall e :: e in Keyed(es, ss) ==> Sound(Keyed(es, ss)[e])
    decreases |es|
  {
    if es != [] {
      KeyedSound(es[..|es| - 1], ss[..|ss| - 1]);
    }
  }

  /** The state of every emitter in es, keyed by the emitter. */
  ghost function States(es: seq<Emitter>): (st: map<Emitter, Snapshot>)
    reads es
    ensures forall i :: 0 <= i < |es| ==> es[i] in st && st[es[i]] == es[i].State()
    ensures (forall i :: 0 <= i < |es| ==> es[i].Ready()) ==> forall e :: e in st ==> Sound(st[e])
  {
    var ss := Snapshots(es);
    KeyedAt(es, ss);
    if forall i :: 0 <= i < |es| ==> es[i].Ready() then
      KeyedSound(es, ss);
      Keyed(es, ss)
    else
      Keyed(es, ss)
  }

  /**
   * The emission phase of update on emitters in states st: each emitter of es,
   * in list order, emits from the state the fold has reached for it, so an
   * emitter listed twice emits twice. Returns the population and the states.
   */
  function EmitInOrder(es: seq<Emitter>, st: map<Emitter, Snapshot>, ps: seq<Particle>, dt: real, m: LibM)
    : (r: (seq<Particle>, map<Emitter, Snapshot>))
    requires 0.0 <= dt
    requires forall i :: 0 <= i < |es| ==> es[i] in st
    requires forall e :: e in st ==> Sound(st[e])
    ensures forall e :: e in st ==> e in r.1 && Sound(r.1[e])
    decreases |es|, 1
  {
    if es == [] then (ps, st) else LastTurn(es, st, ps, dt, m)
  }

  /** The fold's last step: the last emitter of es emits from the state the fold over the others has reached for it. */
  function LastTurn(es: seq<Emitter>, st: map<Emitter, Snapshot>, ps: seq<Particle>, dt: real, m: LibM)
    : (r: (seq<Particle>, map<Emitter, Snapshot>))
    requires es != [] && 0.0 <= dt
    requires forall i :: 0 <= i < |es| ==> es[i] in st
    requires forall e :: e in st ==> Sound(st[e])
    ensures forall e :: e in st ==> e in r.1 && Sound(r.1[e])
    decreases |es|, 0
  {
    var last := es[|es| - 1];
    var before := EmitInOrder(es[..|es| - 1], st, ps, dt, m);
    var after := Emission(before.1[last], last.stream, before.0, dt, m);
    (after.0, before.1[last := after.1])
  }

  /** Emission only adds particles and never touches one that is alive. */
  lemma {:induction false} EmitInOrderKeepsAlive(es: seq<Emitter>, st: map<Emitter, Snapshot>, ps: seq<Particle>, dt: real, m: LibM)
    requires 0.0 <= dt
    requires forall i :: 0 <= i < |es| ==> es[i] in st
    requires forall e :: e in st ==> Sound(st[e])
    ensures var r := EmitInOrder(es, st, ps, dt, m);
            |ps| <= |r.0| && KeepsAlive(ps, r.0)
    decreases |es|
  {
    if es != [] {
      var last := es[|es| - 1];
      EmitInOrderKeepsAlive(es[..|es| - 1], st, ps, dt, m);
      var before := EmitInOrder(es[..|es| - 1], st, ps, dt, m);
      var after := Emission(before.1[last], last.stream, before.0, dt, m);
      EmissionEffect(before.1[last], last.stream, before.0, dt, m);
      KeepsAliveTransitive(ps, before.0, after.0);
    }
  }

  /**
   * In one emission phase an explosion emitter of es bursts at most once:
   * it ends disarmed, having used the draws of one burst if it was armed and
   * none otherwise, however often it is listed.
   */
  lemma {:induction false} ExplosionsFireOnce(es: seq<Emitter>, st: map<Emitter, Snapshot>, ps: seq<Particle>, dt: real, m: LibM, e: Emitter)
    requires 0.0 <= dt
    requires forall i :: 0 <= i < |es| ==> es[i] in st
    requires forall x :: x in st ==> Sound(st[x])
    requires e in es && st[e].kind.ExplosionState?
    ensures var s, t := st[e], EmitInOrder(es, st, ps, dt, m).1[e];
            && t.position == s.position && t.rate == s.rate && t.accumulator == s.accumulator
            && t.kind == s.kind.(triggered := false)
            && t.drawn == s.drawn + (if s.kind.triggered then Iterations(s.kind.count) else 0)
    decreases |es|
  {
    var init, last := es[..|es| - 1], es[|es| - 1];
    assert es == init + [last];
    if e in init {
      ExplosionsFireOnce(init, st, ps, dt, m, e);
    } else {
      UnlistedUntouched(init, st, ps, dt, m, e);
    }
    var before := EmitInOrder(init, st, ps, dt, m);
    if last != e {
      assert EmitInOrder(es, st, ps, dt, m).1[e] == before.1[e];
    } else {
      EmissionEffect(before.1[e], e.stream, before.0, dt, m);
    }
  }

  /** An emitter that es does not list leaves the emission phase in the state it entered. */
  lemma {:induction false} UnlistedUntouched(es: seq<Emitter>, st: map<Emitter, Snapshot>, ps: seq<Particle>, dt: real, m: LibM, e: Emitter)
    requires 0.0 <= dt
    requires forall i :: 0 <= i < |es| ==> es[i] in st
    requires forall x :: x in st ==> Sound(st[x])
    requires e in st && e !in es
    ensures EmitInOrder(es, st, ps, dt, m).1[e] == st[e]
    decreases |es|
  {
    if es != [] {
      var init := es[..|es| - 1];
      assert e !in init;
      UnlistedUntouched(init, st, ps, dt, m, e);
    }
  }

  /**
   * A uniform or directional emitter keeps its kind, position and rate
   * through the emission phase, and uses no draws at rate 0.
   */
  lemma {:induction false} PacedEmittersKeepKind(es: seq<Emitter>, st: map<Emitter, Snapshot>, ps: seq<Particle>, dt: real, m: LibM, e: Emitter)
    requires 0.0 <= dt
    requires forall i :: 0 <= i < |es| ==> es[i] in st
    requires forall x :: x in st ==> Sound(st[x])
    requires e in st && !st[e].kind.ExplosionState?
    ensures var s, t := st[e], EmitInOrder(es, st, ps, dt, m).1[e];
            && t.position == s.position && t.rate == s.rate && t.kind == s.kind && s.drawn <= t.drawn
            && (s.rate == 0.0 ==> t.drawn == s.drawn)
    decreases |es|
  {
    if es != [] {
      var init := es[..|es| - 1];
      PacedEmittersKeepKind(init, st, ps, dt, m, e);
      var before := EmitInOrder(init, st, ps, dt, m);
      if es[|es| - 1] == e {
        EmissionEffect(before.1[e], e.stream, before.0, dt, m);
      }
    }
  }

  /** A uniform or directional emitter of es with a positive rate ends the phase holding less than one period. */
  lemma {:induction false} PacedEmittersCarryUnderAPeriod(es: seq<Emitter>, st: map<Emitter, Snapshot>, ps: seq<Particle>, dt: real, m: LibM, e: Emitter)
    requires 0.0 <= dt
    requires forall i :: 0 <= i < |es| ==> es[i] in st
    requires forall x :: x in st ==> Sound(st[x])
    requires e in es && !st[e].kind.ExplosionState? && 0.0 < st[e].rate
    ensures EmitInOrder(es, st, ps, dt, m).1[e].accumulator < 1.0 / st[e].rate
    decreases |es|
  {
    var init, last := es[..|es| - 1], es[|es| - 1];
    assert es == init + [last];
    if last == e {
      PacedEmittersKeepKind(init, st, ps, dt, m, e);
      var before := EmitInOrder(init, st, ps, dt, m);
      EmissionEffect(before.1[e], e.stream, before.0, dt, m);
    } else {
      PacedEmittersCarryUnderAPeriod(init, st, ps, dt, m, e);
      assert EmitInOrder(es, st, ps, dt, m).1[e] == EmitInOrder(init, st, ps, dt, m).1[e];
    }
  }

  /**
   * The emitter test of particlesystem-tests.cpp: a uniform emitter at the
   * origin with rate 100, alone in a system without particles or effects,
   * leaves after update(0.1) a population that is not empty and all alive.
   */
  lemma FirstUpdateEmits(e: Emitter, m: LibM)
    requires forall k :: e.stream(k).Unit()
    ensures var s := Snapshot(Vec2(0.0, 0.0), 100.0, 0.0, UniformState(Ranges(1.0, 2.0, 1.0, 3.0)), 0);
            var ps := Step(EmitInOrder([e], map[e := s], [], 0.1, m).0, [], 0.1, m);
            && ps != []
            && forall i :: 0 <= i < |ps| ==> ps[i].alive
  {
    var s := Snapshot(Vec2(0.0, 0.0), 100.0, 0.0, UniformState(Ranges(1.0, 2.0, 1.0, 3.0)), 0);
    var shape := ShapeOf(s.position, s.kind);
    PaceUnique(0.1, 1.0 / 100.0, 10);
    var o := Events([], Capped(MaxParticles), shape, m, e.stream, 0, 10);
    FirstBurstLives(shape, m, e.stream);
    assert [e][..0] == [];
    assert LastTurn([e], map[e := s], [], 0.1, m).0 == o.particles;
    QuietStep(o.particles, 0.1, m);
  }

  /** Ten events from an empty list, with speeds drawn from [1, 2] and lifetimes from [1, 3], give live particles that outlast 0.1 s. */
  lemma FirstBurstLives(shape: Shape, m: LibM, rng: Rng)
    requires shape.Isotropic? && shape.ranges == Ranges(1.0, 2.0, 1.0, 3.0)
    requires forall k :: rng(k).Unit()
    ensures var o := Events([], Capped(MaxParticles), shape, m, rng, 0, 10);
            && |o.particles| > 0
            && forall i :: 0 <= i < |o.particles| ==> o.particles[i].alive && 0.1 < o.particles[i].lifetime
  {
    var o := Events([], Capped(MaxParticles), shape, m, rng, 0, 10);
    EventsFromNothing(Capped(MaxParticles), shape, m, rng, 0, 10);
    EventsPlaceDraws([], Capped(MaxParticles), shape, m, rng, 0, 10);
    forall i | 0 <= i < |o.particles|
      ensures o.particles[i].alive && 0.1 < o.particles[i].lifetime
    {
      var k :| 0 <= k < o.drawn && o.particles[i] == Spawn(shape, rng(k), m);
      SpawnWithinRanges(shape, rng(k), m);
    }
  }

  /** One more emitter in the fold: the last one emits from the state the fold has reached for it. */
  lemma EmitInOrderSnoc(es: seq<Emitter>, i: nat, st: map<Emitter, Snapshot>, ps: seq<Particle>, dt: real, m: LibM)
    requires i < |es| && 0.0 <= dt
    requires forall j :: 0 <= j < |es| ==> es[j] in st
    requires forall e :: e in st ==> Sound(st[e])
    ensures var r := EmitInOrder(es[..i], st, ps, dt, m);
            var after := Emission(r.1[es[i]], es[i].stream, r.0, dt, m);
            EmitInOrder(es[..i + 1], st, ps, dt, m) == (after.0, r.1[es[i] := after.1])
  {
    assert es[..i + 1][..i] == es[..i];
  }

  /** The loop of update's first phase over the emitters es. */
  method EmitEach(es: seq<Emitter>, particles: seq<Particle>, dt: real, m: LibM) returns (ps: seq<Particle>)
    requires 0.0 <= dt && forall i :: 0 <= i < |es| ==> es[i].Ready()
    modifies es`accumulator, es`drawn, es`kind
    ensures forall i :: 0 <= i < |es| ==> es[i].Ready()
    ensures var r := EmitInOrder(es, old(States(es)), particles, dt, m);
            && ps == r.0
            && forall j :: 0 <= j < |es| ==> es[j].State() == r.1[es[j]]
  {
    ghost var st := States(es);
    ghost var now := st;
    ps := particles;
    for i := 0 to |es|
      invariant forall j :: 0 <= j < |es| ==> es[j].Ready()
      invariant (ps, now) == EmitInOrder(es[..i], st, particles, dt, m)
      invariant forall j :: 0 <= j < |es| ==> es[j].State() == now[es[j]]
    {
      ps, now := EmitTurn(es, i, es[i], ps, dt, m, st, particles, now);
    }
    assert es[..|es|] == es;
  }

  /** One turn of that loop: es[i] emits, and the fold takes one more emitter. */
  method EmitTurn(es: seq<Emitter>, i: nat, e: Emitter, ps: seq<Particle>, dt: real, m: LibM,
                  ghost st: map<Emitter, Snapshot>, ghost particles: seq<Particle>, ghost now: map<Emitter, Snapshot>)
    returns (qs: seq<Particle>, ghost next: map<Emitter, Snapshot>)
    requires i < |es| && es[i] == e && 0.0 <= dt
    requires forall j :: 0 <= j < |es| ==> es[j].Ready() && es[j] in st
    requires forall e :: e in st ==> Sound(st[e])
    requires (ps, now) == EmitInOrder(es[..i], st, particles, dt, m)
    requires forall j :: 0 <= j < |es| ==> es[j].State() == now[es[j]]
    modifies e`accumulator, e`drawn, e`kind
    ensures forall j :: 0 <= j < |es| ==> es[j].Ready()
    ensures (qs, next) == EmitInOrder(es[..i + 1], st, particles, dt, m)
    ensures forall j :: 0 <= j < |es| ==> es[j].State() == next[es[j]]
  {
    EmitInOrderSnoc(es, i, st, particles, dt, m);
    qs := e.Emit(ps, dt, m);
    next := now[e := e.State()];
  }

  class ParticleSystem {
    var particles: seq<Particle>
    var emitters: seq<Emitter>
    var effects: seq<Effect>

    /** Every emitter can emit: its accumulator is not negative and a paced one's rate is not negative. */
    ghost predicate Valid()
      reads this`emitters, emitters`accumulator, emitters`rate, emitters`kind
    {
      forall i :: 0 <= i < |emitters| ==> emitters[i].Ready()
    }

    constructor ()
      ensures Valid()
      ensures particles == [] && emitters == [] && effects == []
    {
      particles := [];
      emitters := [];
      effects := [];
    }

    /** addEmitter: a non-null emitter goes to the end of the list; null is ignored. */
    method AddEmitter(e: Emitter?)
      requires Valid() && (e != null ==> e.Ready())
      modifies this`emitters
      ensures Valid()
      ensures emitters == if e == null then old(emitters) else old(emitters) + [e]
    {
      if e != null {
        emitters := emitters + [e];
      }
    }

    /** removeEmitter: erase the first occurrence of e, if any. */
    method RemoveEmitter(e: Emitter?)
      requires Valid()
      modifies this`emitters
      ensures Valid()
      ensures emitters == if e == null then old(emitters) else Without(old(emitters), e)
    {
      if e == null {
        return;
      }
      var i := Find(emitters, e);
      if i < |emitters| {
        emitters := emitters[..i] + emitters[i + 1..];
      }
    }

    /** addEffect: a non-null effect goes to the end of the list; null is ignored. */
    method AddEffect(e: Effect?)
      modifies this`effects
      ensures effects == if e == null then old(effects) else old(effects) + [e]
    {
      if e != null {
        effects := effects + [e];
      }
    }

    /** removeEffect: erase the first occurrence of e, if any. */
    method RemoveEffect(e: Effect?)
      modifies this`effects
      ensures effects == if e == null then old(effects) else Without(old(effects), e)
    {
      if e == null {
        return;
      }
      var i := Find(effects, e);
      if i < |effects| {
        effects := effects[..i] + effects[i + 1..];
      }
    }

    /** setParticles: the population becomes a copy of ps. */
    method SetParticles(ps: seq<Particle>)
      modifies this`particles
      ensures particles == ps
    {
      particles := ps;
    }

    method ClearParticles()
      modifies this`particles
      ensures particles == []
    {
      particles := [];
    }

    method ClearEmitters()
      modifies this`emitters
      ensures emitters == []
    {
      emitters := [];
    }

    method ClearEffects()
      modifies this`effects
      ensures effects == []
    {
      effects := [];
    }

    /**
     * update(dt): every emitter emits in list order into the population,
     * then the population takes one Step under the effects.
     */
    method Update(dt: real, m: LibM)
      requires Valid() && 0.0 <= dt
      modifies this`particles, emitters`accumulator, emitters`drawn, emitters`kind
      ensures Valid()
      ensures var r := EmitInOrder(emitters, old(States(emitters)), old(particles), dt, m);
              && particles == Step(r.0, Influences(effects), dt, m)
              && forall i :: 0 <= i < |emitters| ==> emitters[i].State() == r.1[emitters[i]]
    {
      EmitAll(dt, m);
      StepParticles(dt, m);
    }

    /** Phases two to five on the population; the emitters and effects stay as they are. */
    method StepParticles(dt: real, m: LibM)
      modifies this`particles
      ensures particles == Step(old(particles), Influences(effects), dt, m)
    {
      particles := StepAll(particles, effects, dt, m);
    }

    /** Phase one: every emitter emits into the population, in list order. */
    method EmitAll(dt: real, m: LibM)
      requires Valid() && 0.0 <= dt
      modifies this`particles, emitters`accumulator, emitters`drawn, emitters`kind
      ensures Valid()
      ensures var r := EmitInOrder(emitters, old(States(emitters)), old(particles), dt, m);
              && particles == r.0
              && forall i :: 0 <= i < |emitters| ==> emitters[i].State() == r.1[emitters[i]]
    {
      particles := EmitEach(emitters, particles, dt, m);
    }

    /** getParticleData: one position, colour and size per live particle, in population order. */
    method GetParticleData() returns (positions: seq<Vec2>, colors: seq<Color>, sizes: seq<real>)
      ensures Rendered(positions, colors, sizes, particles)
    {
      positions, colors, sizes := [], [], [];
      for i := 0 to |particles|
        invariant Rendered(positions, colors, sizes, particles[..i])
      {
        var p := particles[i];
        CompactConcat(particles[..i], [p]);
        assert particles[..i + 1] == particles[..i] + [p];
        if p.alive {
          var lifeFactor := if p.lifetime / 2.0 < 1.0 then p.lifetime / 2.0 else 1.0;
          positions := positions + [p.position];
          colors := colors + [Color(1.0, 1.0, 1.0, lifeFactor)];
          sizes := sizes + [0.02 + 0.02 * lifeFactor];
        }
      }
      assert particles[..|particles|] == particles;
    }
  }

  /** Phases two to five of update on a copy of the population: reset, effects, integrate, compact. */
  method StepAll(particles: seq<Particle>, es: seq<Effect>, dt: real, m: LibM) returns (ps: seq<Particle>)
    ensures ps == Step(particles, Influences(es), dt, m)
  {
    ps := ResetAll(particles);
    ps := ApplyAll(ps, es, m);
    ps := IntegrateAll(ps, dt);
    ps := Compacted(ps);
  }

  /** Phase three: each effect, in list order, applied to the population. */
  method ApplyAll(particles: seq<Particle>, es: seq<Effect>, m: LibM) returns (ps: seq<Particle>)
    ensures ps == ApplyEffects(particles, Influences(es), m)
  {
    ps := particles;
    for k := 0 to |es|
      invariant ps == ApplyEffects(particles, Influences(es[..k]), m)
    {
      assert Influences(es[..k + 1])[..k] == Influences(es[..k]);
      ps := ApplyOne(ps, es[k], m);
    }
    assert es[..|es|] == es;
  }

  /** Phase two: every force is cleared. */
  method ResetAll(particles: seq<Particle>) returns (ps: seq<Particle>)
    ensures ps == ResetForces(particles)
  {
    ps := particles;
    for i := 0 to |ps|
      invariant |ps| == |particles|
      invariant forall j :: 0 <= j < i ==> ps[j] == particles[j].ResetForce()
      invariant forall j :: i <= j < |ps| ==> ps[j] == particles[j]
    {
      ps := ps[i := ps[i].ResetForce()];
    }
  }

  /** One effect: skipped when disabled, otherwise applied to each live particle. */
  method ApplyOne(particles: seq<Particle>, e: Effect, m: LibM) returns (ps: seq<Particle>)
    ensures ps == Affect(particles, e.Current(), m)
  {
    ps := particles;
    if e.enabled {
      for i := 0 to |ps|
        invariant |ps| == |particles|
        invariant forall j :: 0 <= j < i ==> ps[j] == e.Apply(particles[j], m)
        invariant forall j :: i <= j < |ps| ==> ps[j] == particles[j]
      {
        if ps[i].alive {
          ps := ps[i := e.Apply(ps[i], m)];
        }
      }
    }
  }

  /** Phase four: every particle, dead or alive, is integrated. */
  method IntegrateAll(particles: seq<Particle>, dt: real) returns (ps: seq<Particle>)
    ensures ps == Integrate(particles, dt)
  {
    ps := particles;
    for i := 0 to |ps|
      invariant |ps| == |particles|
      invariant forall j :: 0 <= j < i ==> ps[j] == particles[j].Update(dt)
      invariant forall j :: i <= j < |ps| ==> ps[j] == particles[j]
    {
      ps := ps[i := ps[i].Update(dt)];
    }
  }

  /** A particle alive in a is kept by b and then by c. */
  lemma KeepsAliveTransitive(a: seq<Particle>, b: seq<Particle>, c: seq<Particle>)
    requires KeepsAlive(a, b) && KeepsAlive(b, c)
    ensures KeepsAlive(a, c)
  {
  }

  /** The std::find scan: the first index holding x, or |s| when there is none. */
  method Find<T(==)>(s: seq<T>, x: T) returns (i: nat)
    ensures i <= |s|
    ensures i < |s| <==> x in s
    ensures i < |s| ==> i == FirstIndex(s, x)
  {
    i := 0;
    while i < |s| && s[i] != x
      invariant i <= |s| && x !in s[..i]
    {
      assert s[..i + 1] == s[..i] + [s[i]];
      i := i + 1;
    }
    if i < |s| {
      FirstIndexUnique(s, x, i);
    } else {
      assert s[..i] == s;
    }
  }

  /** An index holding x with no x before it is the first index. */
  lemma FirstIndexUnique<T>(s: seq<T>, x: T, i: nat)
    requires i < |s| && s[i] == x && x !in s[..i]
    ensures FirstIndex(s, x) == i
  {
    var k := FirstIndex(s, x);
    forall j | 0 <= j < i
      ensures s[j] != x
    {
      assert s[..i][j] == s[j];
    }
    forall j | 0 <= j < k
      ensures s[j] != x
    {
      assert s[..k][j] == s[j];
    }
  }

  /** The remove_if/erase compaction as a scan that keeps the live particles. */
  method Compacted(ps: seq<Particle>) returns (kept: seq<Particle>)
    ensures kept == Compact(ps)
  {
    kept := [];
    for i := 0 to |ps|
      invariant kept == Compact(ps[..i])
    {
      CompactConcat(ps[..i], [ps[i]]);
      assert ps[..i + 1] == ps[..i] + [ps[i]];
      if ps[i].alive {
        kept := kept + [ps[i]];
      }
    }
    assert ps[..|ps|] == ps;
  }
}
