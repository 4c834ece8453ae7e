/**
 * The slot-recycling rule all three emitters follow for one emission event:
 * overwrite the first particle that is not alive, otherwise append a new
 * particle when the population limit allows it, otherwise drop the event.
 * A draw from the emitter's stream is used only when a particle is placed.
 */
module Recycling {
  import opened Optional
  import opened Transform
  import opened Particles
  import opened Draws

  /** The index of the first particle that is not alive, if any. */
  function FirstDead(ps: seq<Particle>): (r: Option<nat>)
    ensures r.None? <==> forall i :: 0 <= i < |ps| ==> ps[i].alive
    ensures r.Some? ==> r.value < |ps| && !ps[r.value].alive
    ensures r.Some? ==> forall i :: 0 <= i < r.value ==> ps[i].alive
  {
    if |ps| == 0 then None
    else if !ps[0].alive then Some(0)
    else match FirstDead(ps[1..])
      case None =>
        assert forall i :: 1 <= i < |ps| ==> ps[i] == ps[1..][i - 1];
        None
      case Some(i) =>
        assert forall j :: 1 <= j < i + 1 ==> ps[j] == ps[1..][j - 1];
        Some(i + 1)
  }

  /** The number of particles that are not alive. */
  function DeadCount(ps: seq<Particle>): (n: nat)
    ensures n <= |ps|
    ensures n == 0 <==> FirstDead(ps).None?
  {
    if |ps| == 0 then 0
    else (if ps[0].alive then 0 else 1) + DeadCount(ps[1..])
  }

  /** The emitters' inner scan for a slot to reuse, front to back. */
  method FindDead(ps: seq<Particle>) returns (slot: Option<nat>)
    ensures slot == FirstDead(ps)
  {
    for i := 0 to |ps|
      invariant forall j :: 0 <= j < i ==> ps[j].alive
    {
      if !ps[i].alive {
        return Some(i);
      }
    }
    return None;
  }

  /** How far an event may grow the population. */
  datatype Limit = Capped(max: nat) | Unbounded
  {
    predicate Admits(size: nat) {
      Unbounded? || size < max
    }
  }

  /** The population after some events, and the number of draws used so far. */
  datatype Outcome = Outcome(particles: seq<Particle>, drawn: nat)

  /** One emission event, the particle spawned from draw number drawn of the stream. */
  function Event(ps: seq<Particle>, limit: Limit, shape: Shape, m: LibM, rng: Rng, drawn: nat): Outcome {
    match FirstDead(ps)
    case Some(i) => Outcome(ps[i := Spawn(shape, rng(drawn), m)], drawn + 1)
    case None =>
      if limit.Admits(|ps|) then Outcome(ps + [Spawn(shape, rng(drawn), m)], drawn + 1)
      else Outcome(ps, drawn)
  }

  /** n emission events in a row. */
  function Events(ps: seq<Particle>, limit: Limit, shape: Shape, m: LibM, rng: Rng, drawn: nat, n: nat): Outcome {
    if n == 0 then Outcome(ps, drawn)
    else
      var o := Events(ps, limit, shape, m, rng, drawn, n - 1);
      Event(o.particles, limit, shape, m, rng, o.drawn)
  }

  /** Events run one more event on what the earlier ones produced. */
  lemma EventsExtend(ps: seq<Particle>, limit: Limit, shape: Shape, m: LibM, rng: Rng, drawn: nat, k: nat, o: Outcome, r: Outcome)
    requires o == Events(ps, limit, shape, m, rng, drawn, k)
    requires r == Event(o.particles, limit, shape, m, rng, o.drawn)
    ensures r == Events(ps, limit, shape, m, rng, drawn, k + 1)
  {
  }

  /**
   * One event changes at most the lowest-index dead slot, grows the
   * population by one exactly when every particle is alive and the limit
   * admits it, and uses a draw exactly when it places a particle, which is
   * the one spawned from that draw.
   */
  lemma EventTouchesOneSlot(ps: seq<Particle>, limit: Limit, shape: Shape, m: LibM, rng: Rng, drawn: nat)
    ensures var r := Event(ps, limit, shape, m, rng, drawn);
            && |ps| <= |r.particles| <= |ps| + 1
            && (|r.particles| == |ps| + 1 <==> (forall i :: 0 <= i < |ps| ==> ps[i].alive) && limit.Admits(|ps|))
            && (forall i :: 0 <= i < |ps| && r.particles[i] != ps[i] ==>
                  !ps[i].alive && forall j :: 0 <= j < i ==> ps[j].alive)
            && (r.drawn == drawn + 1 <==> (exists i :: 0 <= i < |ps| && !ps[i].alive) || limit.Admits(|ps|))
            && (r.drawn != drawn + 1 ==> r.drawn == drawn && r.particles == ps)
            && (forall i :: 0 <= i < |r.particles| && (i >= |ps| || r.particles[i] != ps[i]) ==>
                  r.particles[i] == Spawn(shape, rng(drawn), m))
  {
  }

  /**
   * n events from ps and draw number drawn give r: the population does not
   * shrink, grows only up to a cap, and at most n draws are used.
   */
  ghost predicate WithinLimit(ps: seq<Particle>, limit: Limit, drawn: nat, n: nat, r: Outcome) {
    && |ps| <= |r.particles|
    && (limit.Capped? ==> |r.particles| <= if |ps| < limit.max then limit.max else |ps|)
    && drawn <= r.drawn <= drawn + n
  }

  /** Events never shrink the population and only grow it up to the cap. */
  lemma {:induction false} EventsLength(ps: seq<Particle>, limit: Limit, shape: Shape, m: LibM, rng: Rng, drawn: nat, n: nat)
    ensures WithinLimit(ps, limit, drawn, n, Events(ps, limit, shape, m, rng, drawn, n))
  {
    if n > 0 {
      EventsLength(ps, limit, shape, m, rng, drawn, n - 1);
      var o := Events(ps, limit, shape, m, rng, drawn, n - 1);
      EventWithinLimit(ps, o, limit, shape, m, rng, drawn, n);
    }
  }

  lemma EventWithinLimit(ps: seq<Particle>, o: Outcome, limit: Limit, shape: Shape, m: LibM, rng: Rng, drawn: nat, n: nat)
    requires 0 < n && WithinLimit(ps, limit, drawn, n - 1, o)
    ensures WithinLimit(ps, limit, drawn, n, Event(o.particles, limit, shape, m, rng, o.drawn))
  {
    var r := Event(o.particles, limit, shape, m, rng, o.drawn);
    assert |o.particles| <= |r.particles| <= |o.particles| + 1;
    assert |o.particles| < |r.particles| ==> limit.Admits(|o.particles|);
  }

  /** Particles alive in ps are still in place in qs. */
  ghost predicate KeepsAlive(ps: seq<Particle>, qs: seq<Particle>) {
    forall i :: 0 <= i < |ps| && ps[i].alive ==> i < |qs| && qs[i] == ps[i]
  }

  /** A particle that is alive before the events is never touched by them. */
  lemma {:induction false} EventsKeepAlive(ps: seq<Particle>, limit: Limit, shape: Shape, m: LibM, rng: Rng, drawn: nat, n: nat)
    ensures KeepsAlive(ps, Events(ps, limit, shape, m, rng, drawn, n).particles)
  {
    if n > 0 {
      EventsKeepAlive(ps, limit, shape, m, rng, drawn, n - 1);
      var o := Events(ps, limit, shape, m, rng, drawn, n - 1);
      EventKeepsAlive(ps, o, limit, shape, m, rng);
    }
  }

  lemma EventKeepsAlive(ps: seq<Particle>, o: Outcome, limit: Limit, shape: Shape, m: LibM, rng: Rng)
    requires KeepsAlive(ps, o.particles)
    ensures KeepsAlive(ps, Event(o.particles, limit, shape, m, rng, o.drawn).particles)
  {
  }

  /** The part of EventTouchesOneSlot the induction over several events needs. */
  lemma EventPlacesSpawn(ps: seq<Particle>, limit: Limit, shape: Shape, m: LibM, rng: Rng, drawn: nat)
    ensures var r := Event(ps, limit, shape, m, rng, drawn);
            && |ps| <= |r.particles|
            && drawn <= r.drawn
            && SpawnedAt(ps, r.particles, shape, m, rng, drawn, r.drawn)
  {
  }

  /** Every particle of qs that is new or differs from ps is the one spawned from draw k, the last one used. */
  ghost predicate SpawnedAt(ps: seq<Particle>, qs: seq<Particle>, shape: Shape, m: LibM, rng: Rng, k: nat, used: nat) {
    forall i :: 0 <= i < |qs| && (i >= |ps| || qs[i] != ps[i]) ==>
      used == k + 1 && qs[i] == Spawn(shape, rng(k), m)
  }

  /**
   * What n uncapped events starting from ps and draw number drawn produce:
   * they use n draws, fill the dead slots first and append the rest.
   */
  ghost predicate GrownBy(ps: seq<Particle>, drawn: nat, n: nat, r: Outcome) {
    var dead := DeadCount(ps);
    && r.drawn == drawn + n
    && |r.particles| == |ps| + (if n <= dead then 0 else n - dead)
    && DeadCount(r.particles) == (if n <= dead then dead - n else 0)
  }

  /** Without a cap every event places a particle. */
  lemma {:induction false} EventsUnbounded(ps: seq<Particle>, shape: Shape, m: LibM, rng: Rng, drawn: nat, n: nat)
    ensures GrownBy(ps, drawn, n, Events(ps, Unbounded, shape, m, rng, drawn, n))
  {
    if n > 0 {
      EventsUnbounded(ps, shape, m, rng, drawn, n - 1);
      var o := Events(ps, Unbounded, shape, m, rng, drawn, n - 1);
      EventUnbounded(ps, o, shape, m, rng, drawn, n);
    }
  }

  lemma EventUnbounded(ps: seq<Particle>, o: Outcome, shape: Shape, m: LibM, rng: Rng, drawn: nat, n: nat)
    requires 0 < n && GrownBy(ps, drawn, n - 1, o)
    ensures GrownBy(ps, drawn, n, Event(o.particles, Unbounded, shape, m, rng, o.drawn))
  {
    var p := Spawn(shape, rng(o.drawn), m);
    match FirstDead(o.particles)
    case Some(i) => DeadCountReplace(o.particles, i, p);
    case None => DeadCountAppend(o.particles, p);
  }

  /** Reviving a dead slot lowers the dead count by one. */
  lemma {:induction false} DeadCountReplace(ps: seq<Particle>, i: nat, p: Particle)
    requires i < |ps| && !ps[i].alive && p.alive
    ensures DeadCount(ps[i := p]) == DeadCount(ps) - 1
  {
    if i > 0 {
      DeadCountReplace(ps[1..], i - 1, p);
      assert ps[i := p][1..] == ps[1..][i - 1 := p];
    } else {
      assert ps[i := p][1..] == ps[1..];
    }
  }

  /** Appending a live particle keeps the dead count. */
  lemma {:induction false} DeadCountAppend(ps: seq<Particle>, p: Particle)
    requires p.alive
    ensures DeadCount(ps + [p]) == DeadCount(ps)
  {
    if |ps| == 0 {
      assert DeadCount([p]) == DeadCount([p][1..]);
    } else {
      DeadCountAppend(ps[1..], p);
      assert (ps + [p])[1..] == ps[1..] + [p];
    }
  }

  /**
   * Every particle of qs that is new or differs from ps is the one spawned
   * from some draw numbered in [lo, hi).
   */
  ghost predicate FromDraws(ps: seq<Particle>, qs: seq<Particle>, shape: Shape, m: LibM, rng: Rng, lo: nat, hi: nat) {
    forall i :: 0 <= i < |qs| && (i >= |ps| || qs[i] != ps[i]) ==>
      exists k :: lo <= k < hi && qs[i] == Spawn(shape, rng(k), m)
  }

  /** Every particle the events changed or appended comes from a draw the events used. */
  lemma {:induction false} EventsPlaceDraws(ps: seq<Particle>, limit: Limit, shape: Shape, m: LibM, rng: Rng, drawn: nat, n: nat)
    ensures var r := Events(ps, limit, shape, m, rng, drawn, n);
            drawn <= r.drawn && FromDraws(ps, r.particles, shape, m, rng, drawn, r.drawn)
  {
    if n > 0 {
      EventsPlaceDraws(ps, limit, shape, m, rng, drawn, n - 1);
      var o := Events(ps, limit, shape, m, rng, drawn, n - 1);
      EventKeepsDraws(ps, o, limit, shape, m, rng, drawn);
    }
  }

  /** One more event keeps FromDraws, with the draw it used added to the range. */
  lemma EventKeepsDraws(ps: seq<Particle>, o: Outcome, limit: Limit, shape: Shape, m: LibM, rng: Rng, lo: nat)
    requires lo <= o.drawn && FromDraws(ps, o.particles, shape, m, rng, lo, o.drawn)
    ensures var r := Event(o.particles, limit, shape, m, rng, o.drawn);
            lo <= r.drawn && FromDraws(ps, r.particles, shape, m, rng, lo, r.drawn)
  {
    var r := Event(o.particles, limit, shape, m, rng, o.drawn);
    EventPlacesSpawn(o.particles, limit, shape, m, rng, o.drawn);
    forall i | 0 <= i < |r.particles| && (i >= |ps| || r.particles[i] != ps[i])
      ensures exists k :: lo <= k < r.drawn && r.particles[i] == Spawn(shape, rng(k), m)
    {
      if i < |o.particles| && r.particles[i] == o.particles[i] {
        var k :| lo <= k < o.drawn && o.particles[i] == Spawn(shape, rng(k), m);
        assert lo <= k < r.drawn && r.particles[i] == Spawn(shape, rng(k), m);
      } else {
        var k := o.drawn;
        assert lo <= k < r.drawn && r.particles[i] == Spawn(shape, rng(k), m);
      }
    }
  }

  /** Events into an empty population that the limit lets grow leave it non-empty. */
  lemma EventsFromNothing(limit: Limit, shape: Shape, m: LibM, rng: Rng, drawn: nat, n: nat)
    requires 0 < n && limit.Admits(0)
    ensures |Events([], limit, shape, m, rng, drawn, n).particles| > 0
  {
    var o := Events([], limit, shape, m, rng, drawn, n - 1);
    EventTouchesOneSlot(o.particles, limit, shape, m, rng, o.drawn);
  }
}
