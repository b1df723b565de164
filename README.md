# Particle engine model

A Dafny model of the particle engine in `script.js`. The engine is the
`ParticleSystem` class, which keeps a live list of particle objects and a
frame id, and has the operations `createParticle`, `update`, `emit` and
`clear`. Two small pieces sit beside it: the ambient refill policy
(`createAmbientParticles` and the interval that calls it while fewer than 50
particles are live) and `throttle`.

Modules, one file each:

- `Wrappers` (`wrappers.dfy`): `Option`, where `None` stands for an
  `undefined` option.
- `Physics` (`physics.dfy`): the data of one particle as a value (`Record`).
  `Step` is one frame for one particle (`Drift`, then `Reflect`) and `Keep`
  is the life filter.
  `Frame` is one whole `update` on the list of records, and `Frames` is n
  updates. Lemmas give the velocity and bounce laws, the exact life decay,
  the order-preserving filter, and the lifespan of a particle.
- `Particles` (`particles.dfy`): the option defaulting of `createParticle`
  (`Resolve`), and the particle object (`Particle`), whose fields `Advance`
  changes in place. The DOM element is an opaque handle kept as ghost
  state: whether it was removed, its opacity and the position written to it.
- `Scheduler` (`scheduler.dfy`): `requestAnimationFrame` and
  `cancelAnimationFrame` as a bookkeeping object. It tracks the ids issued
  (1, 2, 3, ...) and the set of pending ids.
- `Engine` (`engine.dfy`): the `ParticleSystem` class. Every method that
  changes the list is proved against the value-level functions.
  `Records()`, the records of the live particles in order, becomes
  `Frame(old(Records()), view)` after `Update`. After `Emit` it is the frame
  of the old records plus the burst.
- `Ambient` (`ambient.dfy`): the ambient batch of 30 particles and one tick
  of the refill timer.
- `Throttle` (`throttle.dfy`): the throttled closure as a class with its
  `lastCall`. The times it forwards are a function of the times it is
  called.

`Math.random()` and `window.innerWidth`/`innerHeight` are parameters. Each
random sample is a `Unit`, a real in `[0, 1)`. A stream of samples is a
function from the creation index to its samples. `Date.now()` is the `now`
argument of `Throttled.Invoke`. Numbers are modelled as `real` (or `int` for
millisecond times).

## Behaviour worth knowing

The model follows the code in each of these places.

- Expired particles are dropped from the list but never removed from the
  page. The filter at script.js:39 only drops the record; `element.remove()`
  is called only by `clear` (script.js:70), so the element of an expired
  particle stays on the page at its last opacity. `DropExpired` states that
  the dropped particles are left unchanged and unreleased.
- A particle can be shown with non-positive life. Life is decremented and
  written as the opacity in the same frame (script.js:48, 54), and the
  filter runs only at the start of the next frame (`RemovalLagsOneFrame`).
- The horizontal bounce factor is −0.8·0.98 = −0.784, because the bounds
  test comes after drag (script.js:42, 50; `RightWallBounce`). Vertically,
  gravity is added before the test too, so a bounce gives
  −0.8·(0.98·vy + gravity) (script.js:43-44, 51; `StepVelocityY`).
- Frame chains can overlap. `emit` calls `update` directly even when a frame
  is pending (script.js:66), which starts a second chain, and `animationId`
  keeps only the newest id (script.js:58). `clear` cancels only that id and
  does not reset it (script.js:72), so an older frame stays pending and
  runs (`EmitThenClear`).
- The element is drawn with a double offset. `left`/`top` are set to the
  creation position once (script.js:27-28), and every frame writes
  `translate(x, y)` with the current position (script.js:53), so after the
  first frame the element appears at the creation position plus the current
  position. The ghost fields `shownX`/`shownY` record the last position
  written (`left`/`top`, then the translate), not where the element appears.

## Model

| member | source | states |
|---|---|---|
| Physics.Drift | script.js:42-48 | drag, gravity, integration and decay keep size, colour, maxLife and gravity, and lower life |
| Physics.Reflect | script.js:50-51 | the reflection changes only the velocities: position, life, size, colour, maxLife and gravity are kept |
| Physics.Step | script.js:41-51 | one frame never changes a particle's size, colour, maxLife or gravity, and strictly lowers its life |
| Physics.StepPosition | script.js:42-47 | the new position is the old one plus the damped velocity (gravity added to vy), never clamped |
| Physics.StepVelocityX | script.js:42-50 | vx becomes -0.784·vx when the new x is outside [0, width], and 0.98·vx otherwise |
| Physics.StepVelocityY | script.js:43-51 | vy becomes -0.8·(0.98·vy + gravity) when the new y is outside [0, height], and 0.98·vy + gravity otherwise |
| Physics.RightWallBounce | script.js:42-50 | a particle past the right edge moving right turns back, with speed 0.784 of the old |
| Physics.LifeAfterSteps | script.js:48 | after n frames survived, life is the initial life minus 0.008·n |
| Physics.LifeNonIncreasing | script.js:48 | more frames never leave more life |
| Physics.StepsKeepAttributes | script.js:41-55 | size, colour, maxLife and gravity stay fixed over any number of frames |
| Physics.Keep | script.js:39 | the filter never lengthens the list |
| Physics.KeepMembers | script.js:39 | a record is kept exactly when it is in the list and its life is positive |
| Physics.KeepAppend | script.js:39 | the filter of a concatenation is the concatenation of the filters, so relative order is kept |
| Physics.KeepUniform | script.js:39 | a batch with one common life survives whole if that life is positive and vanishes otherwise |
| Physics.KeepAllLive | script.js:39 | a list whose lives are all positive passes the filter unchanged |
| Physics.Frame | script.js:39-55 | one update leaves exactly as many records as the filter keeps; the per-particle loop never changes the length |
| Physics.FrameAppend | script.js:39-55 | one update treats every record independently of the others |
| Physics.FrameSingle | script.js:39-55 | a lone particle is stepped if its life is positive and removed otherwise |
| Physics.Lifespan | script.js:38-60 | after n ≥ 1 updates a lone particle is present, as n steps of itself, exactly when its life before the last of them was positive |
| Physics.LifespanByLife | script.js:38-60 | a lone particle is present after n ≥ 1 updates exactly when life − 0.008·(n − 1) > 0 |
| Physics.RemovalLagsOneFrame | script.js:39-54 | a particle with life in (0, 0.008] is kept with non-positive life for one frame and dropped by the next |
| Physics.AtRestFallsOneFrame | script.js:41-55 | a particle at rest at (100, 100) with gravity 0.1 and life 1 is at (100, 100.1) with vy 0.1 and life 0.992 after one update |
| Particles.PaletteIndex | script.js:16 | the random colour index is always inside the four-colour palette |
| Particles.Resolve | script.js:10-20 | vx, vy and gravity keep any supplied value, including 0; x, y, size, colour and life keep a truthy supplied value and fall back to their defaults when falsy; maxLife equals life; the defaults lie in their ranges |
| Particles.ZeroOptions | script.js:11-19 | an explicit 0 is kept for vx, vy and gravity but replaced for x, y, size and life |
| Particles.Particle.constructor | script.js:10-31 | the new particle holds the resolved record, and its unreleased element has left/top at its position and opacity life |
| Particles.Particle.Advance | script.js:41-54 | in place, the particle's fields become one Step of their old values; the translate written to the element is the new position and its opacity the new life |
| Particles.Particle.Integrate | script.js:42-48 | in place, the particle's fields become Drift of their old values, and the element is untouched: not released, same opacity and same written position |
| Particles.Particle.BounceOffEdges | script.js:50-51 | in place, the particle's fields become Reflect of their old values, and the element is untouched: not released, same opacity and same written position |
| Particles.Particle.Remove | script.js:70 | the element is released and the particle's data is unchanged |
| Scheduler.FrameScheduler.Request | script.js:58 | a request returns a new non-zero id, which is now pending |
| Scheduler.FrameScheduler.Cancel | script.js:72 | cancelling removes exactly that id from the pending set |
| Scheduler.FrameScheduler.Dispatch | script.js:58 | a pending callback runs once and is no longer pending |
| Engine.Survivors | script.js:39 | the filter never lengthens the list of objects |
| Engine.SurvivorsSound | script.js:39 | every survivor is an object of the list with positive life |
| Engine.SurvivorsComplete | script.js:39 | every object of the list with positive life survives |
| Engine.SurvivorsRecords | script.js:39 | the records of the surviving objects are the records the value-level filter keeps |
| Engine.SurvivorsDistinct | script.js:39 | the filter never duplicates a particle object |
| Engine.Burst | script.js:62-65 | a burst of n creations builds n records |
| Engine.BurstGrowth | script.js:62-67 | after emit, the list holds the old survivors plus all n new particles when the resolved life is positive, and none of them otherwise |
| Engine.ParticleSystem.constructor | script.js:3-7 | a new engine has no particles and a null animationId |
| Engine.ParticleSystem.CreateParticle | script.js:9-36 | appends exactly one fresh particle, holding the resolved record, to the end of the list and returns it; earlier records are untouched |
| Engine.ParticleSystem.Update | script.js:38-60 | the live list becomes the survivors of the filter, and its records become Frame of the old records; a new frame is requested and stored in animationId exactly when the list is non-empty |
| Engine.ParticleSystem.RequestNextFrame | script.js:57-59 | the next frame is requested and its id stored, with the particles unchanged |
| Engine.ParticleSystem.DropExpired | script.js:39 | the list becomes its survivors, the records become Keep of the old records, and every old particle, dropped or not, is unchanged and still on the page |
| Engine.ParticleSystem.AdvanceAll | script.js:41-55 | every live particle is stepped once in place; the list, the frame id and the scheduler are unchanged |
| Engine.ParticleSystem.Emit | script.js:62-67 | the records become one Frame of the old records plus the burst of max(count, 0) records (5 when count is undefined); the new length is the old survivors plus count when the resolved life is positive; a frame is requested even if one is pending |
| Engine.ParticleSystem.CreateBurst | script.js:63-65 | the loop appends the burst's records, in order, as fresh particles after the old ones |
| Engine.ParticleSystem.Clear | script.js:69-73 | the list is empty, every old particle's element is released and its data left as it was, and only the id in animationId is cancelled, only when it is truthy; animationId is not reset |
| Engine.ParticleSystem.OnFrame | script.js:58 | a pending frame's callback consumes its id and runs one update |
| Engine.EmitOne | script.js:62-67 | emitting one particle with positive life requests a new frame, stores its id and leaves every earlier frame pending; the live particles are old ones or fresh |
| Engine.EmitThenClear | script.js:58-72 | an emit while a frame is pending, then a clear, leaves that older frame pending |
| Ambient.AmbientRecord | script.js:82-92 | an ambient particle has gravity 0, life in [0.3, 0.8), size in [1, 3), speeds below 0.25, a palette colour and a position drawn in the viewport |
| Ambient.AmbientBatch | script.js:81-93 | a batch of n ambient creations builds n records |
| Ambient.BatchSurvives | script.js:81-94 | the filter keeps every particle of an ambient batch |
| Ambient.AmbientGrowth | script.js:80-95 | the update after a batch keeps all of the batch, so the list is the old survivors plus 30 |
| Ambient.AmbientLifespan | script.js:89 | a lone ambient particle is still present after 38 frames and gone after 101 |
| Ambient.CreateAmbientParticles | script.js:80-95 | 30 creations and one update: the records become one Frame of the old records plus the batch, every live particle is an old one or a fresh one, and a frame is requested and its id stored |
| Ambient.CreateBatch | script.js:81-93 | the loop appends the 30 ambient records, in order, as fresh particles |
| Ambient.RefillTick | script.js:458-462 | a batch is added exactly when fewer than 50 particles are live, after which fewer than 80 are live and a frame is requested and its id stored; otherwise nothing changes |
| Throttle.Forwarded | script.js:388-397 | no more calls are forwarded than were made |
| Throttle.ForwardedAreCalls | script.js:390-394 | every forwarded time is the time of a call |
| Throttle.ForwardedSpaced | script.js:392-393 | forwarded calls are at least delay apart, and the first is at least delay after time 0 |
| Throttle.ForwardedGap | script.js:392-393 | the j-th forwarded call comes at least (j − i)·delay after the i-th |
| Throttle.WindowLimit | script.js:388-397 | with a positive delay, at most k forwarded calls fall in any window of k·delay milliseconds, whatever calls lie outside it |
| Throttle.RateLimit | script.js:388-397 | with a positive delay, when every call falls in one window of k·delay milliseconds, at most k are forwarded |
| Throttle.Throttled.constructor | script.js:388-389 | a new throttled function starts with lastCall 0 |
| Throttle.Throttled.Invoke | script.js:390-396 | a call is forwarded exactly when now − lastCall ≥ delay, and lastCall becomes now only then; the forwarded times stay those of Forwarded |

## Left out

- The DOM. Creating and styling elements, the `container` lookup, and the
  CSS strings written each frame (script.js:22-32, 53-54) are not modelled.
  The element is ghost state: released or not, its opacity, and the
  position written to it.
- `Math.random()` and the viewport size are parameters. The model does not
  compute them.
- IEEE-754 arithmetic. Numbers are exact reals, so float rounding (100.1
  against 100.10000000000001), `NaN` and infinities are not modelled.
  `Falsy` treats only `undefined` and 0 as falsy numbers.
- Engine.ParticleSystem.Emit: `count` is an integer or undefined. A
  fractional or non-numeric count, which the JavaScript `for` loop would
  also accept, is not modelled.
- Engine.ParticleSystem.Emit: states the records and the origin of the
  live particles (old or fresh), not which objects survive.
- Ambient.CreateAmbientParticles: states the records and the origin of the
  live particles (old or fresh), not which objects survive; like `Update`,
  it does not state that the dropped particles stay unreleased on the page.
- Engine.ParticleSystem.Update: does not state that the dropped particles
  stay unreleased on the page; `DropExpired`, its first step, states it.
- Frame timing and repaint. The scheduler only tracks ids. `OnFrame` is the
  browser running one pending callback, at a time of its choosing.
- Throttle.Throttled.Invoke: the call `func.apply(this, args)` is reduced to
  the returned decision, because `func` is arbitrary caller code.
  Millisecond times are unbounded integers, whereas JavaScript numbers are
  exact only up to 2^53.
- Ambient.RefillTick: models one tick of the 2-second interval; the timer
  is not modelled.
- The event handlers that only call `emit`, `createParticle` or `update`
  (script.js:294-455) are left out, including the mouse-move handler's
  5 % chance of creating a particle.
- UI code unrelated to the engine is left out: menu toggle, smooth scroll,
  navbar shadow, reveal observer, alerts and their style sheet, and
  `animateCounter`.
