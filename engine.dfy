/**
  The `ParticleSystem` class: the live list of particle objects, the id of the
  last frame it scheduled, and the operations `createParticle`, `update`,
  `emit` and `clear`.

  Every state-changing method is stated against the value-level functions of
  `Physics`: after it, `Records()` (the records of the live particles, in
  order) is a function of the records before it.
*/
module Engine {
  import opened Wrappers
  import opened Physics
  import opened Particles
  import opened Scheduler

  /** No particle object occurs twice in the list. */
  predicate Distinct(ps: seq<Particle>) {
    forall i, j :: 0 <= i < j < |ps| ==> ps[i] != ps[j]
  }

  /** The records of a list of particles, in the same order. */
  function Snapshots(ps: seq<Particle>): (rs: seq<Record>)
    reads ps
    ensures |rs| == |ps|
    ensures forall i :: 0 <= i < |ps| ==> rs[i] == ps[i].Snapshot()
  {
    seq(|ps|, i reads ps requires 0 <= i < |ps| => ps[i].Snapshot())
  }

  /** `particles.filter(p => p.life > 0)`: the same objects, in order, with positive life. */
  function Survivors(ps: seq<Particle>): (live: seq<Particle>)
    reads ps
    ensures |live| <= |ps|
  {
    if ps == [] then []
    else (if ps[0].life > 0.0 then [ps[0]] else []) + Survivors(ps[1..])
  }

  /** The survivors are objects of the list with positive life. */
  lemma {:induction false} SurvivorsSound(ps: seq<Particle>)
    ensures forall i :: 0 <= i < |Survivors(ps)| ==> Survivors(ps)[i] in ps && Survivors(ps)[i].life > 0.0
  {
    if ps != [] {
      SurvivorsSound(ps[1..]);
      var head := if ps[0].life > 0.0 then [ps[0]] else [];
      var live, rest := Survivors(ps), Survivors(ps[1..]);
      assert live == head + rest;
      forall i | 0 <= i < |live|
        ensures live[i] in ps && live[i].life > 0.0
      {
        if i >= |head| {
          assert live[i] == rest[i - |head|];
          assert rest[i - |head|] in ps[1..];
        }
      }
    }
  }

  /** Every object of the list with positive life survives. */
  lemma {:induction false} SurvivorsComplete(ps: seq<Particle>)
    ensures forall i :: 0 <= i < |ps| && ps[i].life > 0.0 ==> ps[i] in Survivors(ps)
  {
    if ps != [] {
      SurvivorsComplete(ps[1..]);
      var head := if ps[0].life > 0.0 then [ps[0]] else [];
      var live, rest := Survivors(ps), Survivors(ps[1..]);
      assert live == head + rest;
      forall i | 0 < i < |ps| && ps[i].life > 0.0
        ensures ps[i] in live
      {
        assert ps[i] == ps[1..][i - 1];
      }
    }
  }

  /** Taking records commutes with concatenation. */
  lemma SnapshotsAppend(a: seq<Particle>, b: seq<Particle>)
    ensures Snapshots(a + b) == Snapshots(a) + Snapshots(b)
  {
  }

  /** The records of the survivors are the records the value-level filter keeps. */
  lemma {:induction false} SurvivorsRecords(ps: seq<Particle>)
    ensures Snapshots(Survivors(ps)) == Keep(Snapshots(ps))
  {
    if ps != [] {
      var rs := Snapshots(ps);
      var rest := Survivors(ps[1..]);
      SurvivorsRecords(ps[1..]);
      assert rs[1..] == Snapshots(ps[1..]);
      assert Keep(rs) == (if rs[0].life > 0.0 then [rs[0]] else []) + Keep(rs[1..]);
      if ps[0].life > 0.0 {
        assert Survivors(ps) == [ps[0]] + rest;
        SnapshotsAppend([ps[0]], rest);
      } else {
        assert Survivors(ps) == rest;
      }
    }
  }

  /** The filter never duplicates a particle object. */
  lemma {:induction false} SurvivorsDistinct(ps: seq<Particle>)
    requires Distinct(ps)
    ensures Distinct(Survivors(ps))
  {
    if ps != [] {
      SurvivorsDistinct(ps[1..]);
      SurvivorsSound(ps[1..]);
      var rest := Survivors(ps[1..]);
      if ps[0].life > 0.0 {
        assert ps[0] !in ps[1..];
        assert ps[0] !in rest;
        assert Survivors(ps) == [ps[0]] + rest;
      }
    }
  }

  /** The records a burst of `n` creations at `(x, y)` with `opts` builds, the i-th from `draw(i)`. */
  function Burst(x: Option<real>, y: Option<real>, n: nat, opts: Options, draw: nat -> Draws, view: Viewport): (rs: seq<Record>)
    ensures |rs| == n
  {
    seq(n, i requires 0 <= i < n => Resolve(x, y, opts, draw(i), view))
  }

  /** The number of particles `emit` creates: `count`, 5 when it is `undefined`, none when it is not positive. */
  function BurstSize(count: Option<int>): (n: nat) {
    match count
    case None => 5
    case Some(c) => if c > 0 then c else 0
  }

  /**
    After a burst and the frame that follows it, the list holds the old
    records that had positive life plus, when the resolved life is positive,
    every created record.
  */
  lemma BurstGrowth(rs: seq<Record>, x: Option<real>, y: Option<real>, n: nat, opts: Options, draw: nat -> Draws, view: Viewport)
    ensures |Frame(rs + Burst(x, y, n, opts, draw, view), view)|
         == |Keep(rs)| + (if ResolveLife(opts) > 0.0 then n else 0)
  {
    var b := Burst(x, y, n, opts, draw, view);
    KeepAppend(rs, b);
    forall i | 0 <= i < |b|
      ensures b[i].life == ResolveLife(opts)
    {
      assert b[i] == Resolve(x, y, opts, draw(i), view);
    }
    KeepUniform(b, ResolveLife(opts));
  }

  /** The last translate written to the particle's element is its current position, and its opacity is its life. */
  ghost predicate Mirrors(p: Particle)
    reads p
  {
    p.opacity == p.life && p.shownX == p.x && p.shownY == p.y
  }

  /** JavaScript truthiness of `animationId`: neither `null` nor 0. */
  predicate Truthy(id: Option<nat>) {
    id.Some? && id.value != 0
  }

  class ParticleSystem {
    var particles: seq<Particle>
    /** `null` until the first frame is scheduled, then the id of the latest one. */
    var animationId: Option<nat>
    const frames: FrameScheduler

    /**
      Every live particle is a distinct object whose element is still on the
      page, and the recorded frame id is one the scheduler handed out.
    */
    ghost predicate Valid()
      reads this, frames, particles
    {
      && frames.Valid()
      && Distinct(particles)
      && (forall i :: 0 <= i < |particles| ==> !particles[i].released)
      && (forall i :: 0 <= i < |particles| ==> Mirrors(particles[i]))
      && (animationId.Some? ==> 1 <= animationId.value <= frames.issued)
    }

    /** The records of the live particles, in list order. */
    ghost function Records(): seq<Record>
      reads this, particles
    {
      Snapshots(particles)
    }

    constructor (frames: FrameScheduler)
      requires frames.Valid()
      ensures Valid()
      ensures this.frames == frames && particles == [] && animationId == None
    {
      this.frames := frames;
      particles := [];
      animationId := None;
    }

    /** `createParticle(x, y, opts)`: appends one new particle and returns it. */
    method CreateParticle(x: Option<real>, y: Option<real>, opts: Options, d: Draws, view: Viewport) returns (p: Particle)
      requires Valid()
      modifies this
      ensures Valid()
      ensures fresh(p) && !p.released
      ensures particles == old(particles) + [p]
      ensures p.Snapshot() == Resolve(x, y, opts, d, view)
      ensures p.opacity == p.life && p.shownX == p.x && p.shownY == p.y
      ensures Records() == old(Records()) + [Resolve(x, y, opts, d, view)]
      ensures animationId == old(animationId)
    {
      p := new Particle(Resolve(x, y, opts, d, view));
      particles := particles + [p];
    }

    /**
      `update()`: filter out the particles with non-positive life, advance
      every survivor one frame, and schedule another frame if any survived.
      The dropped particles' elements are left on the page.
    */
    method Update(view: Viewport)
      requires Valid()
      modifies this, frames, particles
      ensures Valid()
      ensures particles == old(Survivors(particles))
      ensures forall k :: 0 <= k < |particles| ==> particles[k] in old(particles)
      ensures Records() == Frame(old(Records()), view)
      ensures particles != [] ==>
        && frames.issued == old(frames.issued) + 1
        && frames.pending == old(frames.pending) + {frames.issued}
        && animationId == Some(frames.issued)
      ensures particles == [] ==>
        && frames.issued == old(frames.issued)
        && frames.pending == old(frames.pending)
        && animationId == old(animationId)
    {
      DropExpired();
      AdvanceAll(view);
      if |particles| > 0 {
        RequestNextFrame();
      }
    }

    /** `animationId = requestAnimationFrame(() => this.update())` */
    method RequestNextFrame()
      requires Valid()
      modifies this, frames
      ensures Valid()
      ensures particles == old(particles) && Records() == old(Records())
      ensures forall k :: 0 <= k < |particles| ==> unchanged(particles[k])
      ensures frames.issued == old(frames.issued) + 1
      ensures frames.pending == old(frames.pending) + {frames.issued}
      ensures animationId == Some(frames.issued)
    {
      var id := frames.Request();
      animationId := Some(id);
    }

    /** The first line of `update()`: keep only the particles with positive life. */
    method DropExpired()
      requires Valid()
      modifies this
      ensures Valid()
      ensures particles == old(Survivors(particles))
      ensures forall k :: 0 <= k < |particles| ==> particles[k] in old(particles)
      ensures Records() == Keep(old(Records()))
      ensures animationId == old(animationId)
      ensures forall k :: 0 <= k < |old(particles)| ==> unchanged(old(particles)[k])
    {
      SurvivorsRecords(particles);
      SurvivorsDistinct(particles);
      SurvivorsSound(particles);
      var live := Survivors(particles);
      assert forall i :: 0 <= i < |live| ==> !live[i].released;
      particles := live;
    }

    /** The `forEach` loop of `update()`: every live particle advanced one frame, in place. */
    method AdvanceAll(view: Viewport)
      requires Valid()
      modifies particles
      ensures Valid()
      ensures particles == old(particles) && animationId == old(animationId)
      ensures frames.issued == old(frames.issued) && frames.pending == old(frames.pending)
      ensures Records() == StepAll(old(Records()), view)
    {
      ghost var before := Records();
      var i := 0;
      while i < |particles|
        invariant 0 <= i <= |particles|
        invariant forall k :: 0 <= k < i ==> particles[k].Snapshot() == Step(before[k], view)
        invariant forall k :: i <= k < |particles| ==> particles[k].Snapshot() == before[k]
        invariant forall k :: 0 <= k < |particles| ==> !particles[k].released
        invariant forall k :: 0 <= k < |particles| ==> Mirrors(particles[k])
      {
        particles[i].Advance(view);
        i := i + 1;
      }
    }

    /**
      `emit(x, y, count, opts)`: `count` creations with the same arguments,
      then one `update()`, even when a frame is already pending.
    */
    method Emit(x: Option<real>, y: Option<real>, count: Option<int>, opts: Options, draw: nat -> Draws, view: Viewport)
      requires Valid()
      modifies this, frames, particles
      ensures Valid()
      ensures Records() == Frame(old(Records()) + Burst(x, y, BurstSize(count), opts, draw, view), view)
      ensures |particles| == |Keep(old(Records()))| + (if ResolveLife(opts) > 0.0 then BurstSize(count) else 0)
      ensures forall k :: 0 <= k < |particles| ==> particles[k] in old(particles) || fresh(particles[k])
      ensures particles != [] ==>
        && frames.issued == old(frames.issued) + 1
        && frames.pending == old(frames.pending) + {frames.issued}
        && animationId == Some(frames.issued)
      ensures particles == [] ==>
        && frames.issued == old(frames.issued)
        && frames.pending == old(frames.pending)
        && animationId == old(animationId)
    {
      var c := if count.Some? then count.value else 5;
      ghost var records := Records();
      CreateBurst(x, y, c, opts, draw, view);
      Update(view);
      BurstGrowth(records, x, y, BurstSize(count), opts, draw, view);
    }

    /** The `for` loop of `emit`: `createParticle(x, y, opts)` for `i` from 0 while `i < c`. */
    method CreateBurst(x: Option<real>, y: Option<real>, c: int, opts: Options, draw: nat -> Draws, view: Viewport)
      requires Valid()
      modifies this
      ensures Valid()
      ensures Records() == old(Records()) + Burst(x, y, if c > 0 then c else 0, opts, draw, view)
      ensures animationId == old(animationId)
      ensures |particles| >= |old(particles)| && particles[..|old(particles)|] == old(particles)
      ensures forall k :: |old(particles)| <= k < |particles| ==> fresh(particles[k])
    {
      var i := 0;
      while i < c
        invariant 0 <= i && (i <= c || i == 0)
        invariant Valid()
        invariant Records() == old(Records()) + Burst(x, y, i, opts, draw, view)
        invariant animationId == old(animationId)
        invariant |particles| >= |old(particles)| && particles[..|old(particles)|] == old(particles)
        invariant forall k :: |old(particles)| <= k < |particles| ==> fresh(particles[k])
        modifies this
      {
        var _ := CreateParticle(x, y, opts, draw(i), view);
        i := i + 1;
        assert Burst(x, y, i, opts, draw, view) == Burst(x, y, i - 1, opts, draw, view) + [Resolve(x, y, opts, draw(i - 1), view)];
      }
    }

    /**
      `clear()`: release every live particle's element, empty the list, and
      cancel the recorded frame if its id is truthy. `animationId` is not reset,
      and frames scheduled before the recorded one stay pending.
    */
    method Clear()
      requires Valid()
      modifies this, frames, particles
      ensures Valid()
      ensures particles == []
      ensures forall p :: p in old(particles) ==> p.released
      ensures forall p :: p in old(particles) ==> p.Snapshot() == old(p.Snapshot())
      ensures animationId == old(animationId)
      ensures frames.issued == old(frames.issued)
      ensures frames.pending ==
        if Truthy(old(animationId)) then old(frames.pending) - {old(animationId).value} else old(frames.pending)
    {
      var i := 0;
      while i < |particles|
        invariant 0 <= i <= |particles|
        invariant forall k :: 0 <= k < i ==> particles[k].released
        invariant forall k :: 0 <= k < |particles| ==> particles[k].Snapshot() == old(particles[k].Snapshot())
        modifies particles
      {
        particles[i].Remove();
        i := i + 1;
      }
      particles := [];
      if Truthy(animationId) {
        frames.Cancel(animationId.value);
      }
    }

    /** The callback of a pending frame `id` runs: the id is consumed, then `update()` runs. */
    method OnFrame(id: nat, view: Viewport)
      requires Valid() && id in frames.pending
      modifies this, frames, particles
      ensures Valid()
      ensures particles == old(Survivors(particles))
      ensures Records() == Frame(old(Records()), view)
      ensures particles != [] ==>
        && frames.issued == old(frames.issued) + 1
        && frames.pending == old(frames.pending) - {id} + {frames.issued}
        && animationId == Some(frames.issued)
      ensures particles == [] ==>
        && frames.issued == old(frames.issued)
        && frames.pending == old(frames.pending) - {id}
        && animationId == old(animationId)
    {
      frames.Dispatch(id);
      Update(view);
    }
  }

  /** `emit(x, y, 1, opts)` with a positive resolved life: a new frame is requested, and earlier ones stay pending. */
  method EmitOne(system: ParticleSystem, x: Option<real>, y: Option<real>, opts: Options, draw: nat -> Draws, view: Viewport)
    requires system.Valid() && ResolveLife(opts) > 0.0
    modifies system, system.frames, system.particles
    ensures system.Valid()
    ensures forall k :: 0 <= k < |system.particles| ==> system.particles[k] in old(system.particles) || fresh(system.particles[k])
    ensures system.animationId == Some(old(system.frames.issued) + 1)
    ensures system.frames.pending == old(system.frames.pending) + {system.animationId.value}
  {
    system.Emit(x, y, Some(1), opts, draw, view);
  }

  /**
    Overlapping frame chains: an `emit` while a frame is already pending
    starts a second chain, `animationId` keeps only the newer id, and a
    following `clear` cancels that one alone. The older frame stays pending
    and will still run.
  */
  method EmitThenClear(system: ParticleSystem, x: Option<real>, y: Option<real>, opts: Options, draw: nat -> Draws, view: Viewport)
    requires system.Valid()
    requires system.animationId.Some? && system.animationId.value in system.frames.pending
    requires ResolveLife(opts) > 0.0
    modifies system, system.frames, system.particles
    ensures system.Valid() && system.particles == []
    ensures old(system.animationId).value in system.frames.pending
    ensures system.animationId == Some(old(system.frames.issued) + 1)
    ensures system.frames.pending == old(system.frames.pending)
  {
    EmitOne(system, x, y, opts, draw, view);
    system.Clear();
  }
}
