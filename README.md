# Particle system model

This project is a Dafny model of a real-time 2D particle system and the
interactive demo built on it. It covers the following parts:

- **Particles.** A particle is a point mass with a position, velocity,
  accumulated force, remaining lifetime and an alive flag. Each update
  applies a semi-implicit Euler step and ages the particle.
- **Emitters.** Three kinds of emitter create or recycle particles:
  - *uniform* emitters shoot in every direction at a steady rate;
  - *directional* emitters shoot within a cone around a direction at a
    steady rate;
  - *explosion* emitters fire one burst after they are triggered.

  The paced emitters turn elapsed time into a whole number of emission
  events through an accumulator. Each event reuses the first dead slot in
  the population, or appends while the population is below a cap of
  10000. Explosion bursts append without a cap.
- **Effects.** An effect adds a force to every live particle. A *gravity
  well* pulls towards its position. The pull is constant inside its radius
  and falls off with the inverse square outside it, and there is no pull
  inside a dead zone of 0.1. A *wind* pushes along its current direction;
  a varying wind turns that direction with time.
- **The particle system.** Each frame it runs the emitters, resets forces,
  applies the enabled effects, integrates, and removes dead particles. It
  also adds and removes emitters and effects by identity and produces the
  render data (positions, faded colours and sizes).
- **The demo.** Each frame it arms every explosion emitter, turns every
  wind, steps the system and keeps particles inside the box [-1, 1] x [-1, 1]
  with a restitution of 0.8. It then rebuilds the render data and the
  markers for emitters and effects. A click either places a new object (in
  placement mode) or selects the nearest emitter or effect within 0.1. On
  a tie the emitter wins.

Floating-point numbers are modelled as reals. `sqrt`, `sin` and `cos` are
parameters (`Transform.LibM`). Lemmas that need them to behave like the
mathematical functions assume `Transform.Lawful`. Randomness is a stream
of uniform samples (`Draws.Rng`): each emitter owns one, and the emitter
counts how many samples it has used. Emitters and effects are classes
whose fields the methods update in place. Particles are values held in
sequences.

Modules, one file each:

| module | file |
|---|---|
| `Transform` | `transform.dfy` |
| `Particles` | `particle.dfy` |
| `Optional` | `option.dfy` |
| `Draws` | `draws.dfy` |
| `Recycling` | `recycling.dfy` |
| `Pacing` | `pace.dfy` |
| `Emitters` | `emitter.dfy` |
| `Effects` | `effect.dfy` |
| `Simulation` | `particlesystem.dfy` |
| `Demo` | `particle_demo.dfy` |

## Model

| member | source | states |
|---|---|---|
| `Transform.Rotate` | particlesystem/include/particlesystem/transform.hpp:26-33 | v turned by the angle: (x·cos − y·sin, x·sin + y·cos), with sin and cos from the C math library |
| `Transform.Length` | particlesystem/include/particlesystem/transform.hpp:41-43 | the square root of x² + y² |
| `Transform.Normalize` | particlesystem/include/particlesystem/transform.hpp:51-57 | the zero vector when the length is below 1e-8, otherwise v divided by its length |
| `Transform.Dot` | particlesystem/include/particlesystem/transform.hpp:66-68 | x·x′ + y·y′ |
| `Transform.SquaredLength` | particlesystem/include/particlesystem/transform.hpp:41-43 | the squared length under the root of `length` is never negative |
| `Transform.Clamp` | particlesystem/include/particlesystem/transform.hpp:79-82 | the result lies in [lo, hi] when lo <= hi; a value already inside is returned unchanged; a value below lo gives lo and one above hi gives hi; when hi < lo the result is lo, as `max(lo, min(v, hi))` gives |
| `Transform.DotSymmetric` | particlesystem/include/particlesystem/transform.hpp:66-68 | the dot product is symmetric |
| `Transform.LengthSquared` | particlesystem/include/particlesystem/transform.hpp:41-43 | with a lawful square root, length is non-negative and squares to the dot product of the vector with itself |
| `Transform.RotateAdditive` | particlesystem/include/particlesystem/transform.hpp:26-33 | rotating a sum gives the sum of the rotations |
| `Transform.RotateHomogeneous` | particlesystem/include/particlesystem/transform.hpp:26-33 | rotation commutes with scaling |
| `Transform.RotateByZero` | particlesystem/include/particlesystem/transform.hpp:26-33 | rotating by angle 0 leaves a vector unchanged |
| `Transform.RotateKeepsLength` | particlesystem/include/particlesystem/transform.hpp:26-33 | rotation keeps the squared length and the length |
| `Transform.NormalizeCases` | particlesystem/include/particlesystem/transform.hpp:51-57 | a vector shorter than 1e-8 normalizes to zero; any other vector normalizes to unit length along the same direction |
| `Particles.Default` | particlesystem/src/particlesystem/particle.cpp:5-11 | a default particle sits at the origin, at rest, with no force and no lifetime, and is dead |
| `Particles.Particle.Update` | particlesystem/src/particlesystem/particle.cpp:13-23 | semi-implicit Euler: velocity gains force times dt, position moves by the NEW velocity times dt, the force is kept, lifetime drops by dt, and the particle is alive afterwards exactly when it was alive and lifetime is still positive |
| `Particles.Particle.ResetForce` | particlesystem/src/particlesystem/particle.cpp:25-27 | the force becomes zero and nothing else changes |
| `Particles.StepsAge` | particlesystem/src/particlesystem/particle.cpp:19-22 | after n updates, lifetime has dropped by n times dt, and the particle is alive exactly when it was alive and the remaining lifetime is positive (or n is 0) |
| `Particles.StepsKeepForce` | particlesystem/src/particlesystem/particle.cpp:13-16 | updates never change the accumulated force |
| `Particles.BasicUpdateScenario` | particlesystem/unittest/particlesystem-tests.cpp:14-42 | the unit test's particle under gravity reaches velocity (1, 1.02) and position (0.1, 0.102) after one step of 0.1, with lifetimes 0.9 and 0.8 after one and two steps |
| `Particles.BasicLifetimeRunsOut` | particlesystem/unittest/particlesystem-tests.cpp:44-51 | a particle with lifetime 1 is dead after ten steps of 0.1 |
| `Draws.Lerp` | particlesystem/src/particlesystem/uniform_emitter.cpp:13-15 | a unit draw u mapped onto [lo, hi] as lo + (hi − lo)·u, as `uniform_real_distribution` does |
| `Draws.Heading` | particlesystem/src/particlesystem/uniform_emitter.cpp:56 | the unit vector (cos a, sin a) of a drawn angle a |
| `Draws.LerpWithin` | particlesystem/src/particlesystem/uniform_emitter.cpp:13-15 | a uniform draw in [0, 1) mapped onto an ordered range [lo, hi] lands inside it, strictly below hi when the range is not a point |
| `Draws.Spawn` | particlesystem/src/particlesystem/uniform_emitter.cpp:49-59 | a spawned particle is alive, sits at the emitter's position and carries no force |
| `Draws.SpawnWithinRanges` | particlesystem/src/particlesystem/directional_emitter.cpp:69-82 | a spawned particle's lifetime lies in the lifetime range; its velocity is a heading with an angle in [0, 2 pi] (uniform and explosion) or the direction turned by an offset within the spread (directional), scaled by a speed in the speed range |
| `Recycling.Limit.Admits` | particlesystem/src/particlesystem/uniform_emitter.cpp:67 | a capped limit admits one more particle exactly when the population is below the cap (10000 for paced emitters); an unbounded one always does |
| `Recycling.FirstDead` | particlesystem/src/particlesystem/uniform_emitter.cpp:47-48 | no dead slot exactly when every particle is alive; otherwise the index of a dead particle with only live particles before it |
| `Recycling.DeadCount` | particlesystem/src/particlesystem/uniform_emitter.cpp:47-64 | the number of dead particles is at most the population and is zero exactly when there is no dead slot |
| `Recycling.FindDead` | particlesystem/src/particlesystem/uniform_emitter.cpp:47-64 | the scan for a reusable slot returns the first dead slot |
| `Recycling.EventTouchesOneSlot` | particlesystem/src/particlesystem/uniform_emitter.cpp:44-84 | one emission event changes at most one slot, which is the first dead one, or appends one particle exactly when all are alive and the cap admits it; it uses one draw exactly when it places a particle, otherwise nothing changes; the placed particle is spawned from that draw |
| `Recycling.Event` | particlesystem/src/particlesystem/uniform_emitter.cpp:44-86 | one turn of the emission loop: the first dead particle is respawned from the next draw; with none, a spawn is appended when the cap admits one; otherwise nothing changes and no draw is used |
| `Recycling.Events` | particlesystem/src/particlesystem/uniform_emitter.cpp:43-87 | n turns of that loop in a row, counting the draws used |
| `Recycling.EventsExtend` | particlesystem/src/particlesystem/uniform_emitter.cpp:43-87 | running one more event after k events is the same as running k + 1 events |
| `Recycling.EventsLength` | particlesystem/src/particlesystem/uniform_emitter.cpp:67-83 | n events never shrink the population, grow it past the cap only when it was already beyond it, and use at most n draws |
| `Recycling.EventsKeepAlive` | particlesystem/src/particlesystem/uniform_emitter.cpp:47-64 | emission never overwrites or removes a live particle |
| `Recycling.EventPlacesSpawn` | particlesystem/src/particlesystem/uniform_emitter.cpp:49-81 | every particle an event changes or adds is spawned from the single draw it used |
| `Recycling.EventsUnbounded` | particlesystem/src/particlesystem/explosion_emitter.cpp:61-102 | without a cap, n events use exactly n draws, fill the dead slots first and append the rest, leaving max(dead - n, 0) dead particles |
| `Recycling.EventsPlaceDraws` | particlesystem/src/particlesystem/uniform_emitter.cpp:43-87 | every particle changed or added by n events is spawned from one of the draws those events used |
| `Pacing.Pace` | particlesystem/src/particlesystem/uniform_emitter.cpp:36-43 | the number of emission events n is the number of whole periods in the accumulated time: n periods fit and n + 1 do not |
| `Pacing.PaceUnique` | particlesystem/src/particlesystem/uniform_emitter.cpp:36-43 | any count k of whole periods that fits but k + 1 does not is the pace |
| `Pacing.PaceByRate` | particlesystem/src/particlesystem/uniform_emitter.cpp:38-43 | with period 1 / rate, the number of events is the floor of accumulated time times rate |
| `Pacing.Remaining` | particlesystem/src/particlesystem/uniform_emitter.cpp:86 | after k subtractions of the period the accumulator holds total minus k periods |
| `Pacing.PaceStep` | particlesystem/src/particlesystem/uniform_emitter.cpp:43 | while at least one period remains, fewer than Pace events have run |
| `Pacing.PaceExit` | particlesystem/src/particlesystem/uniform_emitter.cpp:43 | when less than a period remains, exactly Pace events have run |
| `Emitters.Iterations` | particlesystem/src/particlesystem/explosion_emitter.cpp:61 | a burst loop over a signed count runs count times, or not at all when the count is not positive |
| `Emitters.ShapeOf` | particlesystem/src/particlesystem/directional_emitter.cpp:58-82 | an emitter spawns from its own position with its own ranges; it is directed exactly when it is a directional emitter |
| `Emitters.Emission` | particlesystem/src/particlesystem/uniform_emitter.cpp:34-88 | emit, dispatched on the kind, leaves the emitter in a state it can emit from again: the accumulator is not negative and a paced rate is not negative |
| `Emitters.EmissionEffect` | particlesystem/src/particlesystem/explosion_emitter.cpp:54-106 | one emission never shrinks the population or disturbs a live particle and keeps position and rate; an explosion is disarmed after max(count, 0) uncapped events when armed and changes nothing otherwise; a paced emitter keeps its kind, ends with less than one period at a positive rate, and at rate 0 (period 1.0f / 0, infinite) runs no event, uses no draw and only adds dt to the accumulator |
| `Emitters.Emitter.Uniform` | particlesystem/src/particlesystem/uniform_emitter.cpp:7-20 | a new uniform emitter has rate 1, an empty accumulator, speeds 1 to 2 and lifetimes 1 to 3 |
| `Emitters.Emitter.Directional` | particlesystem/src/particlesystem/directional_emitter.cpp:8-23 | a new directional emitter has rate 1, the normalized direction, a spread of pi / 8, speeds 1 to 2 and lifetimes 1 to 3 |
| `Emitters.Emitter.Explosion` | particlesystem/src/particlesystem/explosion_emitter.cpp:7-22 | a new explosion emitter is untriggered, with 20 particles, speeds 1 to 5 and lifetimes 0.5 to 2 |
| `Emitters.Emitter.SetPosition` | particlesystem/src/particlesystem/emitter.cpp:15-17 | the position is replaced |
| `Emitters.Emitter.SetRate` | particlesystem/src/particlesystem/emitter.cpp:19-21 | the rate is replaced |
| `Emitters.Emitter.SetSpeedRange` | particlesystem/src/particlesystem/uniform_emitter.cpp:22-26 | only the speed bounds change |
| `Emitters.Emitter.SetLifetimeRange` | particlesystem/src/particlesystem/uniform_emitter.cpp:28-32 | only the lifetime bounds change |
| `Emitters.Emitter.SetDirection` | particlesystem/src/particlesystem/directional_emitter.cpp:25-27 | the direction becomes the normalized argument and nothing else changes |
| `Emitters.Emitter.SetSpread` | particlesystem/src/particlesystem/directional_emitter.cpp:33-36 | only the spread changes |
| `Emitters.Emitter.Trigger` | particlesystem/src/particlesystem/explosion_emitter.cpp:50-52 | the emitter becomes armed and nothing else changes |
| `Emitters.Emitter.SetParticleCount` | particlesystem/src/particlesystem/explosion_emitter.cpp:30-32 | only the burst size changes |
| `Emitters.Emitter.Place` | particlesystem/src/particlesystem/uniform_emitter.cpp:44-84 | one loop turn performs exactly one emission event with the emitter's next draw |
| `Emitters.Emitter.PlaceNext` | particlesystem/src/particlesystem/uniform_emitter.cpp:43-87 | after k events, one more loop turn gives the outcome of k + 1 events |
| `Emitters.Emitter.EmitPaced` | particlesystem/src/particlesystem/uniform_emitter.cpp:34-88 | at a positive rate the loop runs Pace(accumulator + dt, 1 / rate) capped events from the next draws and leaves the remainder, less than one period, in the accumulator; at rate 0 the infinite period stops the loop at once, so the population and the draw counter are kept and the accumulator grows by dt |
| `Emitters.Emitter.EmitBurst` | particlesystem/src/particlesystem/explosion_emitter.cpp:54-106 | an untriggered explosion changes nothing; a triggered one runs particleCount uncapped events and disarms |
| `Emitters.Emitter.Emit` | particlesystem/include/particlesystem/emitter.h:57-66 | emit, dispatched on the kind, returns the population and leaves the emitter in the state that Emission gives for its old state and its own stream |
| `Effects.Magnitude` | particlesystem/src/particlesystem/gravity_well.cpp:46-54 | the full strength below the radius, strength·(radius/d)² at or beyond it |
| `Effects.MagnitudeAtRadius` | particlesystem/src/particlesystem/gravity_well.cpp:46-54 | at exactly the radius both branches of the pull give the full strength, so the pull is continuous there |
| `Effects.InverseSquare` | particlesystem/src/particlesystem/gravity_well.cpp:50-54 | outside the radius the pull times the squared distance is constant |
| `Effects.MagnitudeNonNegative` | particlesystem/src/particlesystem/gravity_well.cpp:46-54 | a non-negative strength never gives a negative pull |
| `Effects.MagnitudeBounds` | particlesystem/src/particlesystem/gravity_well.cpp:46-54 | for a non-negative strength and radius, the pull lies between 0 and the strength |
| `Effects.MagnitudeNonIncreasing` | particlesystem/src/particlesystem/gravity_well.cpp:46-54 | for a non-negative strength and a positive radius, the pull does not grow with distance |
| `Effects.Push` | particlesystem/src/particlesystem/gravity_well.cpp:28-58 | a disabled effect or a dead particle gets no force; a gravity well gives none inside the dead zone; a wind gives its current direction times its strength |
| `Effects.GravityPointsToWell` | particlesystem/src/particlesystem/gravity_well.cpp:33-57 | outside the dead zone the well's force is the vector from the particle to the well scaled by magnitude / distance, and its squared length is the squared magnitude; for a non-negative strength that scale is non-negative, so the force points to the well |
| `Effects.WindIgnoresPosition` | particlesystem/src/particlesystem/wind.cpp:49-56 | a wind's force does not depend on its stored position |
| `Effects.Effect.GravityWell` | particlesystem/src/particlesystem/gravity_well.cpp:7-10 | a new well has strength 1, is enabled and has radius 100 |
| `Effects.Effect.Wind` | particlesystem/src/particlesystem/wind.cpp:7-12 | a new wind has strength 1, is enabled, does not vary, has no position and blows along the normalized direction |
| `Effects.Effect.SetStrength` | particlesystem/src/particlesystem/effect.cpp:10-12 | the strength is replaced |
| `Effects.Effect.SetEnabled` | particlesystem/src/particlesystem/effect.cpp:18-20 | the enabled flag is replaced |
| `Effects.Effect.SetPosition` | particlesystem/src/particlesystem/gravity_well.cpp:12-14 | a well moves and keeps its radius; a wind records the position and marks it as set |
| `Effects.Effect.SetRadius` | particlesystem/src/particlesystem/gravity_well.cpp:20-22 | only the radius changes |
| `Effects.Effect.SetDirection` | particlesystem/src/particlesystem/wind.cpp:14-19 | the base direction becomes the normalized argument; a steady wind's current direction follows it, and a varying wind's does not |
| `Effects.Effect.SetVarying` | particlesystem/src/particlesystem/wind.cpp:25-30 | turning variation off snaps the current direction back to the base direction |
| `Effects.Gust` | particlesystem/src/particlesystem/wind.cpp:61 | the gust angle 0.2·sin(0.5t) + 0.1·sin(1.1t) |
| `Effects.Effect.Update` | particlesystem/src/particlesystem/wind.cpp:58-64 | a steady wind is unchanged; a varying wind's current direction is the base direction turned by the gust angle at that time, so it keeps the base direction's length |
| `Effects.Effect.Apply` | particlesystem/src/particlesystem/wind.cpp:49-56 | applying an effect only adds its push to the particle's force |
| `Effects.Effect.Current` | particlesystem/src/particlesystem/effect.cpp:5-24 | what an effect exerts is its strength, enabled flag and kind, read from its fields |
| `Effects.Influence.Apply` | particlesystem/src/particlesystem/gravity_well.cpp:28-58 | applying an influence to a particle held by value changes only its force, which grows by the push |
| `Simulation.ResetForces` | particlesystem/src/particlesystem/particlesystem.cpp:20-22 | every particle's force is reset, in place |
| `Simulation.Integrate` | particlesystem/src/particlesystem/particlesystem.cpp:36-38 | every particle is updated by dt, in place |
| `Simulation.Influences` | particlesystem/src/particlesystem/particlesystem.cpp:25-26 | one influence per effect, in list order, each read from that effect |
| `Simulation.Affect` | particlesystem/src/particlesystem/particlesystem.cpp:26-32 | one effect is applied to every particle, in place |
| `Simulation.ApplyEffects` | particlesystem/src/particlesystem/particlesystem.cpp:25-33 | every influence applied to every particle, one influence after another in list order |
| `Simulation.Compact` | particlesystem/src/particlesystem/particlesystem.cpp:41-44 | removal keeps only live particles, all taken from the input |
| `Simulation.CompactConcat` | particlesystem/src/particlesystem/particlesystem.cpp:41-44 | removal keeps the order of the survivors |
| `Simulation.CompactAllAlive` | particlesystem/src/particlesystem/particlesystem.cpp:41-44 | removal leaves a population that is all alive unchanged |
| `Simulation.CompactLength` | particlesystem/src/particlesystem/particlesystem.cpp:41-44 | removal drops exactly the dead particles |
| `Simulation.CompactCounts` | particlesystem/src/particlesystem/particlesystem.cpp:41-44 | each live particle keeps its multiplicity and each dead one disappears |
| `Simulation.TotalPush` | particlesystem/src/particlesystem/particlesystem.cpp:25-33 | the sum of the pushes of the influences on one particle, in list order |
| `Simulation.Step` | particlesystem/src/particlesystem/particlesystem.cpp:19-44 | phases two to five of an update: reset the forces, apply every influence, integrate by dt, drop the dead particles |
| `Simulation.EffectsSumPushes` | particlesystem/src/particlesystem/particlesystem.cpp:20-33 | after the reset and the effect loop each particle's force is the sum of the pushes of all effects, and nothing else about it changes |
| `Simulation.StepSurvivors` | particlesystem/src/particlesystem/particlesystem.cpp:13-45 | every particle left after a step is alive, with positive lifetime, and is some input particle updated under the total push of the effects |
| `Simulation.QuietStep` | particlesystem/src/particlesystem/particlesystem.cpp:20-44 | with no effects and no particle expiring, a step resets forces and integrates |
| `Simulation.FirstIndex` | particlesystem/src/particlesystem/particlesystem.cpp:55 | the position of the first occurrence of an element |
| `Simulation.Without` | particlesystem/src/particlesystem/particlesystem.cpp:53-59 | the list with the first occurrence of x erased, or unchanged when x is absent |
| `Simulation.WithoutCounts` | particlesystem/src/particlesystem/particlesystem.cpp:53-59 | removing an element present in a list removes exactly one occurrence |
| `Simulation.Fade` | particlesystem/src/particlesystem/particlesystem.cpp:102 | the alpha is at most 1 and positive while lifetime is positive |
| `Simulation.Rendered` | particlesystem/src/particlesystem/particlesystem.cpp:84-109 | the three output lists hold one entry per live particle, in population order: its position, white with alpha min(1, lifetime / 2), and size 0.02 + 0.02·alpha |
| `Simulation.SizeBounds` | particlesystem/src/particlesystem/particlesystem.cpp:106 | a particle with positive lifetime (every survivor of an update, by StepSurvivors) renders at a size in (0.02, 0.04] |
| `Simulation.Snapshots` | particlesystem/src/particlesystem/particlesystem.cpp:15-17 | one state per emitter, in list order, each read from that emitter |
| `Simulation.Keyed` | particlesystem/src/particlesystem/particlesystem.cpp:15-17 | every listed emitter has a state in the keyed map |
| `Simulation.KeyedAt` | particlesystem/src/particlesystem/particlesystem.cpp:15-17 | when an emitter listed twice always has the same state, each entry finds its own state in the keyed map |
| `Simulation.KeyedSound` | particlesystem/src/particlesystem/particlesystem.cpp:15-17 | keying sound states gives only sound states |
| `Simulation.States` | particlesystem/src/particlesystem/particlesystem.cpp:15-17 | every listed emitter is keyed to its current state, and when every emitter can emit, every state is sound |
| `Simulation.EmitInOrder` | particlesystem/src/particlesystem/particlesystem.cpp:15-17 | the emission phase, as a fold over the emitters in list order, keeps every state sound |
| `Simulation.LastTurn` | particlesystem/src/particlesystem/particlesystem.cpp:15-17 | the last emitter emits from the state the fold over the earlier ones has reached for it, and every state stays sound |
| `Simulation.EmitInOrderKeepsAlive` | particlesystem/src/particlesystem/particlesystem.cpp:15-17 | the emission phase never shrinks the population or disturbs a live particle |
| `Simulation.ExplosionsFireOnce` | particlesystem/src/particlesystem/particlesystem.cpp:15-17 | in one emission phase a listed explosion emitter ends disarmed, with position, rate and accumulator kept and the draws of exactly one burst used if it was armed (none otherwise), however often it is listed |
| `Simulation.UnlistedUntouched` | particlesystem/src/particlesystem/particlesystem.cpp:15-17 | an emitter that is not listed leaves the emission phase in the state it entered |
| `Simulation.PacedEmittersKeepKind` | particlesystem/src/particlesystem/particlesystem.cpp:15-17 | a uniform or directional emitter keeps kind, position and rate through the phase, never gives draws back, and uses none at rate 0 |
| `Simulation.PacedEmittersCarryUnderAPeriod` | particlesystem/src/particlesystem/particlesystem.cpp:15-17 | a listed uniform or directional emitter with a positive rate ends the phase holding less than one period |
| `Simulation.FirstUpdateEmits` | particlesystem/unittest/particlesystem-tests.cpp:54-72 | the unit test: a uniform emitter at the origin with rate 100, alone in an empty system, leaves after update(0.1) a population that is not empty and all alive |
| `Simulation.FirstBurstLives` | particlesystem/unittest/particlesystem-tests.cpp:58-66 | ten events from an empty population with the default lifetimes of 1 to 3 place live particles that outlast 0.1 s |
| `Simulation.EmitInOrderSnoc` | particlesystem/src/particlesystem/particlesystem.cpp:15-17 | one more emitter in the fold emits from the state reached for it |
| `Simulation.EmitEach` | particlesystem/src/particlesystem/particlesystem.cpp:15-17 | the loop over the emitters gives the population and the emitter states of the fold over their states before the loop |
| `Simulation.EmitTurn` | particlesystem/src/particlesystem/particlesystem.cpp:16 | one loop turn advances the fold by one emitter |
| `Simulation.ParticleSystem.constructor` | particlesystem/src/particlesystem/particlesystem.cpp:6-11 | a new system has no particles, emitters or effects |
| `Simulation.ParticleSystem.AddEmitter` | particlesystem/src/particlesystem/particlesystem.cpp:47-51 | a non-null emitter is appended; null is ignored |
| `Simulation.ParticleSystem.RemoveEmitter` | particlesystem/src/particlesystem/particlesystem.cpp:53-59 | the first occurrence of the emitter is removed; a missing or null emitter changes nothing |
| `Simulation.ParticleSystem.AddEffect` | particlesystem/src/particlesystem/particlesystem.cpp:61-65 | a non-null effect is appended; null is ignored |
| `Simulation.ParticleSystem.RemoveEffect` | particlesystem/src/particlesystem/particlesystem.cpp:67-73 | the first occurrence of the effect is removed; a missing or null effect changes nothing |
| `Simulation.ParticleSystem.SetParticles` | particlesystem/src/particlesystem/particlesystem.cpp:79-82 | the population is replaced wholesale |
| `Simulation.ParticleSystem.ClearParticles` | particlesystem/src/particlesystem/particlesystem.cpp:115-117 | the population becomes empty |
| `Simulation.ParticleSystem.ClearEmitters` | particlesystem/src/particlesystem/particlesystem.cpp:119-121 | the emitter list becomes empty |
| `Simulation.ParticleSystem.ClearEffects` | particlesystem/src/particlesystem/particlesystem.cpp:123-125 | the effect list becomes empty |
| `Simulation.ParticleSystem.Update` | particlesystem/src/particlesystem/particlesystem.cpp:13-45 | the new population is one Step, under the effects' influences, of the population the emission fold produced from the emitters' old states, and every emitter is left in the state the fold reached for it |
| `Simulation.ParticleSystem.StepParticles` | particlesystem/src/particlesystem/particlesystem.cpp:19-44 | phases two to five replace the population by its Step under the effects |
| `Simulation.ParticleSystem.EmitAll` | particlesystem/src/particlesystem/particlesystem.cpp:15-17 | the emitters emit in list order: the population and every emitter's new state are those of the emission fold over their old states |
| `Simulation.ParticleSystem.GetParticleData` | particlesystem/src/particlesystem/particlesystem.cpp:84-109 | one position, colour and size per live particle, in order: the position is copied, the alpha is min(1, lifetime / 2) and the size is 0.02 plus 0.02 times that alpha |
| `Simulation.StepAll` | particlesystem/src/particlesystem/particlesystem.cpp:19-44 | the in-place phases of an update compute one Step under the effects' influences |
| `Simulation.ResetAll` | particlesystem/src/particlesystem/particlesystem.cpp:20-22 | the reset loop resets every force |
| `Simulation.ApplyAll` | particlesystem/src/particlesystem/particlesystem.cpp:25-33 | the effect loop applies the influence of every effect in list order |
| `Simulation.ApplyOne` | particlesystem/src/particlesystem/particlesystem.cpp:26-32 | the inner loop applies one effect's current influence to every particle, and nothing when the effect is disabled |
| `Simulation.IntegrateAll` | particlesystem/src/particlesystem/particlesystem.cpp:36-38 | the integration loop updates every particle |
| `Simulation.Compacted` | particlesystem/src/particlesystem/particlesystem.cpp:41-44 | the erase-remove pass keeps exactly the live particles in order |
| `Simulation.Find` | particlesystem/src/particlesystem/particlesystem.cpp:55 | the search returns the first index of the element, or the length when it is absent |
| `Simulation.KeepsAliveTransitive` | particlesystem/src/particlesystem/particlesystem.cpp:15-17 | not disturbing live particles composes over successive emissions |
| `Simulation.FirstIndexUnique` | particlesystem/src/particlesystem/particlesystem.cpp:55 | an index whose element matches and has no earlier match is the first index |
| `Demo.Confine` | particlesystem/src/example/particle_demo.cpp:78-91 | one axis of the wall bounce: the coordinate ends inside [-1, 1]; inside, nothing changes; past a wall the velocity points back inwards and, for a restitution in [0, 1], is no faster |
| `Demo.Bounce` | particlesystem/src/example/particle_demo.cpp:72-107 | a dead particle is untouched; a live one ends inside the box; force, lifetime and liveness are kept; a particle already inside is unchanged |
| `Demo.BounceDamps` | particlesystem/src/example/particle_demo.cpp:81-101 | a bounce with restitution in [0, 1] never speeds up either velocity component |
| `Demo.DampedSpeed` | particlesystem/src/example/particle_demo.cpp:80-89 | a velocity reversed and scaled by a restitution in [0, 1] is no faster than before, for either sign |
| `Demo.Bounded` | particlesystem/src/example/particle_demo.cpp:66-108 | the boundary pass bounces each particle in place |
| `Demo.BoundedInBox` | particlesystem/src/example/particle_demo.cpp:64-112 | after the boundary pass dead particles are unchanged and every live particle is inside the box |
| `Demo.BoundedIdempotent` | particlesystem/src/example/particle_demo.cpp:64-112 | running the boundary pass twice changes nothing more |
| `Demo.BounceLive` | particlesystem/src/example/particle_demo.cpp:72-107 | the wall checks on a live particle compute its bounce |
| `Demo.Confined` | particlesystem/src/example/particle_demo.cpp:66-108 | the loop over a copy of the population computes the boundary pass |
| `Demo.ClosestUnique` | particlesystem/src/example/particle_demo.cpp:345-356 | the nearest candidate within the threshold is unique, and one exists only when something is within reach |
| `Demo.EmitterDistances` | particlesystem/src/example/particle_demo.cpp:349-350 | every emitter has a distance to the click |
| `Demo.Anchor` | particlesystem/src/example/particle_demo.cpp:365-382 | a well's position always; a wind's position only once it has one, otherwise none |
| `Demo.EffectDistance` | particlesystem/src/example/particle_demo.cpp:365-384 | the distance from the click to the effect's anchor, or none for a wind that has no position |
| `Demo.EffectDistances` | particlesystem/src/example/particle_demo.cpp:363-384 | each effect's distance to the click comes from its position; a wind without a position has none |
| `Demo.ScanStep` | particlesystem/src/example/particle_demo.cpp:351-355 | one turn of the scan keeps the running minimum: a strictly closer candidate takes over, otherwise the earlier one stays |
| `Demo.NearestEmitter` | particlesystem/src/example/particle_demo.cpp:345-356 | the emitter scan finds the first emitter closest to the click within 0.1, or reports none within reach |
| `Demo.NearestEffect` | particlesystem/src/example/particle_demo.cpp:358-390 | the effect scan finds the first effect closest to the click within 0.1, or reports none within reach |
| `Demo.Choose` | particlesystem/src/example/particle_demo.cpp:392-410 | the choice is the picked object: the closer of the two nearest, the emitter on a tie, nothing when neither is within reach, and the old index is kept then |
| `Demo.Picked` | particlesystem/src/example/particle_demo.cpp:392-410 | the outcome of a click: the nearest emitter within 0.1 unless an effect is strictly nearer, else the nearest positioned effect within 0.1, else nothing |
| `Demo.PickedUnique` | particlesystem/src/example/particle_demo.cpp:392-410 | the selection rule picks exactly one outcome for each click |
| `Demo.EffectMarkers` | particlesystem/src/example/particle_demo.cpp:159-225 | an effect gets one marker, coloured by selection, plus an arrow marker exactly when it is the selected wind with a direction longer than 0.001 |
| `Demo.ArrowEnd` | particlesystem/src/example/particle_demo.cpp:196-198 | the marker position plus the direction divided by its length, times 0.15 |
| `Demo.ArrowLength` | particlesystem/src/example/particle_demo.cpp:192-202 | the arrow marker sits 0.15 from the wind along its normalized direction |
| `Demo.EmitterMarker` | particlesystem/src/example/particle_demo.cpp:146-156 | an emitter's marker at its position: the selection colour at size 10.25 when it is selected, blue at 10.20 otherwise |
| `Demo.EmitterMarkers` | particlesystem/src/example/particle_demo.cpp:144-157 | one marker per emitter at its position, white when selected |
| `Demo.AllEffectMarkers` | particlesystem/src/example/particle_demo.cpp:160-225 | the markers of the effects in list order, each as `EffectMarkers` gives it |
| `Demo.MarkerList` | particlesystem/src/example/particle_demo.cpp:138-226 | the whole marker list: the emitter markers, then the effect markers |
| `Demo.EffectMarkerCount` | particlesystem/src/example/particle_demo.cpp:159-225 | there is one marker per effect plus one if the selected wind shows its arrow |
| `Demo.MarkersOf` | particlesystem/src/example/particle_demo.cpp:161-224 | the per-effect branch of the marker loop builds that effect's markers |
| `Demo.ShowEmitters` | particlesystem/src/example/particle_demo.cpp:144-157 | the emitter loop builds the emitter markers |
| `Demo.ShowEffects` | particlesystem/src/example/particle_demo.cpp:159-225 | the effect loop builds the effect markers |
| `Demo.BuildMarkers` | particlesystem/src/example/particle_demo.cpp:138-226 | the markers are the emitter markers followed by the effect markers |
| `Demo.Armed` | particlesystem/src/example/particle_demo.cpp:32-39 | arming an explosion emitter triggers it and keeps its count and ranges; other kinds are left as they are |
| `Demo.ArmAll` | particlesystem/src/example/particle_demo.cpp:32-39 | arming keeps the list of emitter states in order, arms each explosion and keeps every state sound |
| `Demo.ArmedStates` | particlesystem/src/example/particle_demo.cpp:32-39 | every listed emitter is keyed to its state with its explosion armed, and these states are sound when every emitter can emit |
| `Demo.FrameFiresExplosions` | particlesystem/src/example/particle_demo.cpp:30-50 | in a frame every explosion emitter, armed first, bursts once with Iterations(count) draws and ends disarmed, keeping position, rate and accumulator |
| `Demo.Turned` | particlesystem/src/example/particle_demo.cpp:41-46 | a varying wind's current direction becomes its base direction rotated by the gust angle at that time; every other effect kind is unchanged |
| `Demo.TurnedKeepsLength` | particlesystem/src/example/particle_demo.cpp:41-46 | turning a varying wind for the frame keeps the length of its current direction equal to that of its base direction |
| `Demo.ParticleDemo.constructor` | particlesystem/src/example/particle_demo.cpp:9-28 | a new demo has an empty system, nothing placed or selected, boundaries on and a restitution of 0.8 |
| `Demo.ParticleDemo.Update` | particlesystem/src/example/particle_demo.cpp:30-62 | after a frame the winds are turned for the time; the emitters are in the states the emission fold reached from their armed states; the population is the Step of the emitted population under the turned effects, bounced into the box when boundaries are on; the render data and markers describe that new state |
| `Demo.ParticleDemo.Render` | particlesystem/src/example/particle_demo.cpp:57-61 | the render data describes the particles and the markers the current state, and the simulation state is unchanged |
| `Demo.ParticleDemo.Advance` | particlesystem/src/example/particle_demo.cpp:30-55 | the simulation half of a frame: winds turned, explosions armed then emitted from in list order, one Step under the turned effects, and the bounce when boundaries are on |
| `Demo.ParticleDemo.Prepare` | particlesystem/src/example/particle_demo.cpp:32-47 | every explosion is armed and every wind turned, and the draw counters are kept |
| `Demo.ParticleDemo.Simulate` | particlesystem/src/example/particle_demo.cpp:49-55 | the system's update from the prepared states, then the bounce when boundaries are on; effects unchanged |
| `Demo.ParticleDemo.StepSystem` | particlesystem/src/example/particle_demo.cpp:49 | the system's update, as the demo sees it: the emission fold over its emitters, then one Step; the effects are unchanged |
| `Demo.ParticleDemo.StoreParticleData` | particlesystem/src/example/particle_demo.cpp:57 | the demo's render data describes the system's particles |
| `Demo.ParticleDemo.TriggerExplosions` | particlesystem/src/example/particle_demo.cpp:32-39 | every explosion emitter is armed, and every emitter state is the armed version of its old one |
| `Demo.ParticleDemo.UpdateWinds` | particlesystem/src/example/particle_demo.cpp:41-46 | every wind is turned for the time and every other effect is unchanged |
| `Demo.ParticleDemo.KeepParticlesWithinBounds` | particlesystem/src/example/particle_demo.cpp:64-112 | the population is replaced by its boundary pass |
| `Demo.ParticleDemo.Markers` | particlesystem/src/example/particle_demo.cpp:138-226 | the marker list for the demo's current emitter positions, effect kinds and selection |
| `Demo.ParticleDemo.UpdateMarkers` | particlesystem/src/example/particle_demo.cpp:138-226 | the markers are rebuilt from the current emitters, effects and selection |
| `Demo.ParticleDemo.HandleMouseClick` | particlesystem/src/example/particle_demo.cpp:228-257 | outside placement mode a click selects the picked object; in a placement mode it appends and selects a new object at the click with exactly the kind and settings of the matching create method (uniform rate 20, directional rate 15 upward with spread pi / 12, explosion of 20, well of strength 0.1 and radius 0.5, varying wind of strength 0.05); placement mode ends either way |
| `Demo.ParticleDemo.SetPlacementMode` | particlesystem/src/example/particle_demo.cpp:259-263 | entering a mode clears the selection |
| `Demo.ParticleDemo.SelectObjectAtPosition` | particlesystem/src/example/particle_demo.cpp:340-411 | the selection becomes the picked object, and the index is kept when nothing is picked |
| `Demo.ParticleDemo.Adopt` | particlesystem/src/example/particle_demo.cpp:271-276 | a new emitter joins both the demo's and the system's lists and is selected |
| `Demo.ParticleDemo.AdoptEffect` | particlesystem/src/example/particle_demo.cpp:314-319 | a new effect joins both lists and is selected |
| `Demo.ParticleDemo.CreateUniformEmitter` | particlesystem/src/example/particle_demo.cpp:265-277 | a uniform emitter at the click with rate 20, speeds 0.1 to 0.3 and lifetimes 3 to 5 is added and selected, and the earlier emitters stay in place |
| `Demo.ParticleDemo.CreateDirectionalEmitter` | particlesystem/src/example/particle_demo.cpp:279-293 | a directional emitter at the click, pointing up, with rate 15, spread pi / 12, speeds 0.2 to 0.4 and lifetimes 3 to 6, is added and selected |
| `Demo.ParticleDemo.CreateExplosionEmitter` | particlesystem/src/example/particle_demo.cpp:295-307 | an untriggered explosion emitter at the click with 20 particles, speeds 0.3 to 0.7 and lifetimes 1.5 to 2.5 is added and selected |
| `Demo.ParticleDemo.CreateGravityWell` | particlesystem/src/example/particle_demo.cpp:309-320 | a gravity well at the click with strength 0.1 and radius 0.5 is added and selected |
| `Demo.ParticleDemo.CreateWind` | particlesystem/src/example/particle_demo.cpp:322-338 | a varying rightward wind of strength 0.05, positioned at the click, is added and selected |

## Notes on the source

- The basic update unit test expects the particle at height 0.2 after one
  step of 0.1. The update is semi-implicit: it moves by the new velocity,
  so the code gives 0.102. A comment calls the step "Forward Euler". The
  model follows the code; `Particles.BasicUpdateScenario` states the
  values the code produces.
- A comment on the directional emitter's constructor calls the default
  spread 45 degrees. The code sets pi / 8 (22.5 degrees), and the model
  uses pi / 8.
- The demo triggers every explosion emitter in every frame. Explosion
  emitters placed in the demo therefore burst every frame, not once.
- A negative rate makes the period `1.0f / rate` of uniform_emitter.cpp
  negative. `accumulator_ >= timePerParticle` then stays true while each
  turn subtracts a negative period, so `emit` never returns. `setRate`
  accepts any value. A rate of 0 is harmless: the period is infinite and
  no particle is emitted.
- The emitter selection scan uses a strict comparison, so the first of
  several equally near emitters or effects wins. Between an emitter and an
  effect at the same distance, the emitter wins.
- `setStrength` accepts any value. A negative strength turns a gravity
  well into a repeller whose push grows with distance beyond the radius,
  so the bounds on the pull are stated for a non-negative strength.
- `setParticles` and `setLifetimeRange` admit a live particle whose
  lifetime is 0 or less. Such a particle renders at a size of at most
  0.02; every particle that survives an update has a positive lifetime.

## Left out

- The GUI (`renderUI`), window and surface handling, `main`, the legacy
  comparison system and plain getters are not modelled. The restitution
  and the boundary flag are therefore only ever set by the constructor.
- Floating-point rounding is not modelled: all arithmetic is on reals.
  `sqrt`, `sin` and `cos` are uninterpreted parameters.
- The random engines and distributions are not modelled. Each emitter
  reads an abstract stream of uniform samples in [0, 1), mapped linearly
  onto its ranges.
- `reserve` calls are performance hints with no effect and are omitted.
- Shared ownership and dynamic casts are not modelled. Each emitter is one
  class whose kind field holds the variant's state; effects are modelled
  the same way. The demo's and the system's lists hold the same objects.
- Particles are values in sequences. The system's in-place loops are
  methods over a local sequence, proved equal to the specifying functions.
- `Emitters.Emitter.EmitPaced`: a negative rate is excluded by its
  precondition (and by `Emitter.Ready` for emitters held by a system),
  because uniform_emitter.cpp never leaves its loop then; see the note
  above. A rate of 0 is modelled.
- `Simulation.ParticleSystem.Update`: requires a non-negative dt, which
  particlesystem.cpp leaves unguarded; emission pacing is stated only for it.
- Wind's position is uninitialised in wind.cpp until it is set. The
  model starts it at the origin and relies on the existing position flag.
- `Demo.ParticleDemo.Update` does not take the mouse position, which
  particle_demo.cpp ignores, and treats the double-precision time as a
  real.
- `Demo.ParticleDemo.UpdateMarkers`: markers are one sequence of records
  rather than three parallel vectors of positions, colours and sizes.
- The demo's boundary pass sets an unused `bounced` flag; the model drops
  it.
