/**
  The ambient particles: `createAmbientParticles`, which adds a batch of 30
  slow, weightless, short-lived particles at random places and then runs one
  `update`, and the periodic refill that calls it only while fewer than 50
  particles are live. The refill's timer is not modelled: `RefillTick` is one
  tick of it.
*/
module Ambient {
  import opened Wrappers
  import opened Physics
  import opened Particles
  import opened Engine

  /** Particles in one ambient batch. */
  const BatchSize: nat := 30
  /** The refill runs only below this many live particles. */
  const RefillBelow: nat := 50

  /**
    The `Math.random()` samples one ambient creation takes: position, velocity,
    size and life, then those `createParticle` itself may draw.
  */
  datatype AmbientDraws = AmbientDraws(x: Unit, y: Unit, vx: Unit, vy: Unit, size: Unit, life: Unit, inner: Draws)

  /** The options object one ambient creation passes. */
  function AmbientOptions(a: AmbientDraws): (opts: Options) {
    Options(
      vx := Some((a.vx - 0.5) * 0.5),
      vy := Some((a.vy - 0.5) * 0.5),
      size := Some(a.size * 2.0 + 1.0),
      color := None,
      life := Some(a.life * 0.5 + 0.3),
      gravity := Some(0.0))
  }

  /** The record one ambient creation builds: slow, small, weightless, with life in [0.3, 0.8). */
  function AmbientRecord(a: AmbientDraws, view: Viewport): (r: Record)
    ensures r.gravity == 0.0
    ensures 0.3 <= r.life < 0.8 && r.maxLife == r.life
    ensures 1.0 <= r.size < 3.0
    ensures -0.25 <= r.vx < 0.25 && -0.25 <= r.vy < 0.25
    ensures r.color in Palette
    ensures r.x == a.x * view.width || r.x == a.inner.x * view.width
    ensures r.y == a.y * view.height || r.y == a.inner.y * view.height
  {
    Resolve(Some(a.x * view.width), Some(a.y * view.height), AmbientOptions(a), a.inner, view)
  }

  /** The records of the first `n` ambient creations, the i-th from `draw(i)`. */
  function AmbientBatch(n: nat, draw: nat -> AmbientDraws, view: Viewport): (rs: seq<Record>)
    ensures |rs| == n
  {
    seq(n, i requires 0 <= i < n => AmbientRecord(draw(i), view))
  }

  /**
    Every particle of a batch survives the frame that follows it, so the list
    grows by exactly the batch size over the old survivors.
  */
  lemma AmbientGrowth(rs: seq<Record>, n: nat, draw: nat -> AmbientDraws, view: Viewport)
    ensures Frame(rs + AmbientBatch(n, draw, view), view) == Frame(rs, view) + StepAll(AmbientBatch(n, draw, view), view)
    ensures |Frame(rs + AmbientBatch(n, draw, view), view)| == |Keep(rs)| + n
  {
    var b := AmbientBatch(n, draw, view);
    BatchSurvives(n, draw, view);
    FrameAppend(rs, b, view);
  }

  /** The filter keeps a whole batch. */
  lemma BatchSurvives(n: nat, draw: nat -> AmbientDraws, view: Viewport)
    ensures Keep(AmbientBatch(n, draw, view)) == AmbientBatch(n, draw, view)
  {
    var b := AmbientBatch(n, draw, view);
    forall i | 0 <= i < |b|
      ensures b[i].life > 0.0
    {
      assert b[i] == AmbientRecord(draw(i), view);
    }
    KeepAllLive(b);
  }

  /**
    A lone ambient particle lives at least 38 frames and at most 101: its
    life starts in [0.3, 0.8) and falls by 0.008 per frame.
  */
  lemma AmbientLifespan(a: AmbientDraws, view: Viewport)
    ensures Frames([AmbientRecord(a, view)], 38, view) != []
    ensures Frames([AmbientRecord(a, view)], 101, view) == []
  {
    var r := AmbientRecord(a, view);
    LifespanByLife(r, 38, view);
    LifespanByLife(r, 101, view);
  }

  /** `createAmbientParticles()`: 30 creations, then one `update()`. */
  method CreateAmbientParticles(system: ParticleSystem, draw: nat -> AmbientDraws, view: Viewport)
    requires system.Valid()
    modifies system, system.frames, system.particles
    ensures system.Valid()
    ensures system.Records() == Frame(old(system.Records()) + AmbientBatch(BatchSize, draw, view), view)
    ensures |system.particles| == |Keep(old(system.Records()))| + BatchSize
    ensures forall k :: 0 <= k < |system.particles| ==> system.particles[k] in old(system.particles) || fresh(system.particles[k])
    ensures system.frames.issued == old(system.frames.issued) + 1
    ensures system.frames.pending == old(system.frames.pending) + {system.frames.issued}
    ensures system.animationId == Some(system.frames.issued)
  {
    ghost var records := system.Records();
    CreateBatch(system, draw, view);
    system.Update(view);
    AmbientGrowth(records, BatchSize, draw, view);
  }

  /** The `for` loop of `createAmbientParticles`: `createParticle` 30 times, the i-th from `draw(i)`. */
  method CreateBatch(system: ParticleSystem, draw: nat -> AmbientDraws, view: Viewport)
    requires system.Valid()
    modifies system
    ensures system.Valid()
    ensures system.Records() == old(system.Records()) + AmbientBatch(BatchSize, draw, view)
    ensures |system.particles| >= |old(system.particles)| && system.particles[..|old(system.particles)|] == old(system.particles)
    ensures forall k :: |old(system.particles)| <= k < |system.particles| ==> fresh(system.particles[k])
  {
    var i := 0;
    while i < 30
      invariant 0 <= i <= 30
      invariant system.Valid()
      invariant system.Records() == old(system.Records()) + AmbientBatch(i, draw, view)
      invariant |system.particles| >= |old(system.particles)| && system.particles[..|old(system.particles)|] == old(system.particles)
      invariant forall k :: |old(system.particles)| <= k < |system.particles| ==> fresh(system.particles[k])
      modifies system
    {
      var a := draw(i);
      ghost var r := AmbientRecord(a, view);
      assert r == Resolve(Some(a.x * view.width), Some(a.y * view.height), AmbientOptions(a), a.inner, view);
      var _ := system.CreateParticle(Some(a.x * view.width), Some(a.y * view.height), AmbientOptions(a), a.inner, view);
      assert AmbientBatch(i + 1, draw, view) == AmbientBatch(i, draw, view) + [r];
      i := i + 1;
    }
  }

  /**
    One tick of the refill interval: a batch when fewer than 50 particles are
    live, nothing otherwise. A refill never takes the list to 80 or more.
  */
  method RefillTick(system: ParticleSystem, draw: nat -> AmbientDraws, view: Viewport) returns (refilled: bool)
    requires system.Valid()
    modifies system, system.frames, system.particles
    ensures system.Valid()
    ensures refilled <==> |old(system.particles)| < RefillBelow
    ensures refilled ==> system.Records() == Frame(old(system.Records()) + AmbientBatch(BatchSize, draw, view), view)
    ensures refilled ==> |system.particles| < RefillBelow + BatchSize
    ensures refilled ==>
      && system.frames.issued == old(system.frames.issued) + 1
      && system.frames.pending == old(system.frames.pending) + {system.frames.issued}
      && system.animationId == Some(system.frames.issued)
    ensures !refilled ==> unchanged(system, system.frames) && system.Records() == old(system.Records())
  {
    refilled := |system.particles| < 50;
    if refilled {
      CreateAmbientParticles(system, draw, view);
    }
  }
}
