/**
  The per-frame physics of the particle engine, on plain values.

  A `Record` holds the data fields of one particle record; `Step` is what one
  call of `update` does to a particle that survived its filter, and `Frame` is
  the whole of one `update` (filter, then step every survivor) on the list of
  records. The engine's class methods are proved against these functions.
*/
module Physics {

  /** The data fields of one particle record (everything but its DOM element). */
  datatype Record = Record(
    x: real, y: real,
    vx: real, vy: real,
    size: real,
    color: string,
    life: real,
    maxLife: real,
    gravity: real)

  /** `window.innerWidth` and `window.innerHeight` at the time of a call. */
  datatype Viewport = Viewport(width: real, height: real)

  /** Per-frame velocity damping factor. */
  const Drag: real := 0.98
  /** Life lost by a particle in every frame. */
  const LifeDecay: real := 0.008
  /** Factor applied to a velocity component when the particle is out of bounds. */
  const Bounce: real := -0.8

  /** True when a coordinate lies outside `[0, limit]`. */
  predicate Outside(v: real, limit: real) {
    v < 0.0 || v > limit
  }

  /** The first half of a frame: drag, gravity, integration and life decay. */
  function Drift(p: Record): (q: Record)
    ensures q.size == p.size && q.color == p.color
    ensures q.maxLife == p.maxLife && q.gravity == p.gravity
    ensures q.life < p.life
  {
    var vx := p.vx * Drag;
    var vy := p.vy * Drag + p.gravity;
    p.(x := p.x + vx, y := p.y + vy, vx := vx, vy := vy, life := p.life - LifeDecay)
  }

  /** The second half: each velocity component is reflected when its coordinate is out of bounds. */
  function Reflect(p: Record, view: Viewport): (q: Record)
    ensures q.x == p.x && q.y == p.y && q.life == p.life
    ensures q.size == p.size && q.color == p.color
    ensures q.maxLife == p.maxLife && q.gravity == p.gravity
  {
    p.(vx := if Outside(p.x, view.width) then p.vx * Bounce else p.vx,
       vy := if Outside(p.y, view.height) then p.vy * Bounce else p.vy)
  }

  /** One frame for one particle: drag, gravity, integration, decay, bounce. */
  function Step(p: Record, view: Viewport): (q: Record)
    ensures q.size == p.size && q.color == p.color
    ensures q.maxLife == p.maxLife && q.gravity == p.gravity
    ensures q.life < p.life
  {
    Reflect(Drift(p), view)
  }

  /** The position moves by the damped velocity; it is never clamped to the viewport. */
  lemma StepPosition(p: Record, view: Viewport)
    ensures Step(p, view).x == p.x + Drag * p.vx
    ensures Step(p, view).y == p.y + Drag * p.vy + p.gravity
  {
  }

  /** The horizontal velocity is damped, and reversed at 0.8 of its size exactly when the new x is out of bounds. */
  lemma StepVelocityX(p: Record, view: Viewport)
    ensures Outside(Step(p, view).x, view.width) ==> Step(p, view).vx == -0.784 * p.vx
    ensures !Outside(Step(p, view).x, view.width) ==> Step(p, view).vx == Drag * p.vx
  {
  }

  /** The vertical velocity gets drag and gravity, then is reversed at 0.8 exactly when the new y is out of bounds. */
  lemma StepVelocityY(p: Record, view: Viewport)
    ensures Outside(Step(p, view).y, view.height) ==> Step(p, view).vy == Bounce * (Drag * p.vy + p.gravity)
    ensures !Outside(Step(p, view).y, view.height) ==> Step(p, view).vy == Drag * p.vy + p.gravity
  {
  }

  /**
    A particle past the right edge and still moving right turns back. The test
    is made on the new position, after drag, so the new speed is 0.8 * 0.98
    of the old one.
  */
  lemma RightWallBounce(p: Record, view: Viewport)
    requires p.x > view.width && p.vx > 0.0
    ensures Step(p, view).vx < 0.0
    ensures Step(p, view).vx == -0.784 * p.vx
  {
    StepVelocityX(p, view);
  }

  /** The particle after `n` frames in which it was never filtered out. */
  function Steps(p: Record, n: nat, view: Viewport): (q: Record)
  {
    if n == 0 then p else Step(Steps(p, n - 1, view), view)
  }

  /** Life falls by exactly 0.008 per frame survived. */
  lemma {:induction false} LifeAfterSteps(p: Record, n: nat, view: Viewport)
    ensures Steps(p, n, view).life == p.life - LifeDecay * n as real
  {
    if n > 0 {
      LifeAfterSteps(p, n - 1, view);
    }
  }

  /** Life never increases: more frames never leave more life. */
  lemma LifeNonIncreasing(p: Record, m: nat, n: nat, view: Viewport)
    requires m <= n
    ensures Steps(p, n, view).life <= Steps(p, m, view).life
  {
    LifeAfterSteps(p, m, view);
    LifeAfterSteps(p, n, view);
  }

  /** Size, colour, maxLife and gravity are fixed for the particle's whole life. */
  lemma {:induction false} StepsKeepAttributes(p: Record, n: nat, view: Viewport)
    ensures Steps(p, n, view).size == p.size && Steps(p, n, view).color == p.color
    ensures Steps(p, n, view).maxLife == p.maxLife && Steps(p, n, view).gravity == p.gravity
  {
    if n > 0 {
      StepsKeepAttributes(p, n - 1, view);
    }
  }

  /** The filter at the start of `update`: the records with positive life, in order. */
  function Keep(rs: seq<Record>): (kept: seq<Record>)
    ensures |kept| <= |rs|
  {
    if rs == [] then []
    else (if rs[0].life > 0.0 then [rs[0]] else []) + Keep(rs[1..])
  }

  /** The filter keeps exactly the records with positive life. */
  lemma {:induction false} KeepMembers(rs: seq<Record>, r: Record)
    ensures r in Keep(rs) <==> r in rs && r.life > 0.0
  {
    if rs != [] {
      KeepMembers(rs[1..], r);
      assert rs == [rs[0]] + rs[1..];
    }
  }

  /** The filter works record by record, so it keeps relative order. */
  lemma {:induction false} KeepAppend(a: seq<Record>, b: seq<Record>)
    ensures Keep(a + b) == Keep(a) + Keep(b)
  {
    if a == [] {
      assert a + b == b;
    } else {
      assert (a + b)[1..] == a[1..] + b;
      KeepAppend(a[1..], b);
    }
  }

  /** A batch whose records all have one life `l` survives whole if `l > 0` and vanishes otherwise. */
  lemma {:induction false} KeepUniform(rs: seq<Record>, l: real)
    requires forall i :: 0 <= i < |rs| ==> rs[i].life == l
    ensures Keep(rs) == if l > 0.0 then rs else []
  {
    if rs != [] {
      KeepUniform(rs[1..], l);
      assert rs == [rs[0]] + rs[1..];
    }
  }

  /** A list whose records all have positive life passes the filter unchanged. */
  lemma {:induction false} KeepAllLive(rs: seq<Record>)
    requires forall i :: 0 <= i < |rs| ==> rs[i].life > 0.0
    ensures Keep(rs) == rs
  {
    if rs != [] {
      KeepAllLive(rs[1..]);
      assert rs == [rs[0]] + rs[1..];
    }
  }

  /** Every record of a list stepped once. */
  function StepAll(rs: seq<Record>, view: Viewport): (q: seq<Record>)
  {
    seq(|rs|, i requires 0 <= i < |rs| => Step(rs[i], view))
  }

  /** One whole `update` on the list of records. */
  function Frame(rs: seq<Record>, view: Viewport): (q: seq<Record>)
    ensures |q| == |Keep(rs)|
  {
    StepAll(Keep(rs), view)
  }

  /** One frame treats every record independently of the others. */
  lemma FrameAppend(a: seq<Record>, b: seq<Record>, view: Viewport)
    ensures Frame(a + b, view) == Frame(a, view) + Frame(b, view)
  {
    KeepAppend(a, b);
  }

  /** `n` successive frames. */
  function Frames(rs: seq<Record>, n: nat, view: Viewport): (q: seq<Record>)
  {
    if n == 0 then rs else Frame(Frames(rs, n - 1, view), view)
  }

  /** One frame on a lone particle: stepped if its life is positive, gone otherwise. */
  lemma FrameSingle(p: Record, view: Viewport)
    ensures Frame([p], view) == if p.life > 0.0 then [Step(p, view)] else []
  {
    assert Keep([p]) == (if p.life > 0.0 then [p] else []) + Keep([]);
  }

  /**
    The lifespan of a lone particle. After `n >= 1` frames it is still in the
    list, as `n` steps of itself, exactly when its life before the last of
    them was positive. Its life after that frame may already be <= 0: the
    filter removes it one frame later.
  */
  lemma {:induction false} Lifespan(p: Record, n: nat, view: Viewport)
    requires n >= 1
    ensures Frames([p], n, view) ==
      if Steps(p, n - 1, view).life > 0.0 then [Steps(p, n, view)] else []
  {
    if n == 1 {
      FrameSingle(p, view);
    } else {
      Lifespan(p, n - 1, view);
      var prev, q := Steps(p, n - 2, view), Steps(p, n - 1, view);
      assert q == Step(prev, view);
      if prev.life > 0.0 {
        FrameSingle(q, view);
      } else {
        assert Frames([p], n - 1, view) == [];
        assert Keep([]) == [];
        assert q.life < prev.life;
      }
    }
  }

  /** The same lifespan with the life written out: present after `n` frames iff `life - 0.008 * (n - 1) > 0`. */
  lemma LifespanByLife(p: Record, n: nat, view: Viewport)
    requires n >= 1
    ensures Frames([p], n, view) ==
      if p.life - LifeDecay * (n - 1) as real > 0.0 then [Steps(p, n, view)] else []
  {
    Lifespan(p, n, view);
    LifeAfterSteps(p, n - 1, view);
  }

  /**
    Removal lags by one frame: a particle with life in `(0, 0.008]` is
    stepped to a non-positive life and kept, then dropped by the next frame.
  */
  lemma RemovalLagsOneFrame(p: Record, view: Viewport)
    requires 0.0 < p.life <= LifeDecay
    ensures Frame([p], view) == [Step(p, view)]
    ensures Step(p, view).life <= 0.0
    ensures Frame(Frame([p], view), view) == []
  {
    FrameSingle(p, view);
    FrameSingle(Step(p, view), view);
  }

  /**
    A particle at rest at (100, 100) with gravity 0.1 and life 1 in a
    viewport that contains its next position: one frame moves it to
    (100, 100.1) with life 0.992, still in the list.
  */
  lemma AtRestFallsOneFrame(view: Viewport)
    requires view.width >= 100.0 && view.height >= 100.1
    ensures Frame([Record(100.0, 100.0, 0.0, 0.0, 3.0, "#fff", 1.0, 1.0, 0.1)], view)
         == [Record(100.0, 100.1, 0.0, 0.1, 3.0, "#fff", 0.992, 1.0, 0.1)]
  {
    var p := Record(100.0, 100.0, 0.0, 0.0, 3.0, "#fff", 1.0, 1.0, 0.1);
    FrameSingle(p, view);
  }
}
