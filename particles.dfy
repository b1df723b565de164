/**
  One particle: how `createParticle` resolves its options to a record, and the
  particle object itself, whose fields `update` changes in place.

  `Math.random()` is not computed here: every sample it would return is passed
  in as a `Unit`, a real in `[0, 1)`.
*/
module Particles {
  import opened Wrappers
  import opened Physics

  /** One value of `Math.random()`. */
  type Unit = r: real | 0.0 <= r < 1.0

  /** The random samples `createParticle` uses for the options it has to default. */
  datatype Draws = Draws(x: Unit, y: Unit, vx: Unit, vy: Unit, size: Unit, color: Unit)

  /** The options bundle; `None` is a field left `undefined`. */
  datatype Options = Options(
    vx: Option<real>,
    vy: Option<real>,
    size: Option<real>,
    color: Option<string>,
    life: Option<real>,
    gravity: Option<real>)

  /** The default `{}`. */
  const NoOptions: Options := Options(None, None, None, None, None, None)

  const Palette: seq<string> := ["#6366f1", "#ec4899", "#06b6d4", "#f59e0b"]
  const DefaultGravity: real := 0.05
  const DefaultLife: real := 1.0

  /** JavaScript falsiness of a number that may be `undefined` (NaN is not modelled). */
  predicate Falsy(v: Option<real>) {
    v.None? || v.value == 0.0
  }

  /** `v || fallback` */
  function Or(v: Option<real>, fallback: real): (r: real) {
    if Falsy(v) then fallback else v.value
  }

  /** `v !== undefined ? v : fallback` */
  function IfDefined(v: Option<real>, fallback: real): (r: real) {
    if v.Some? then v.value else fallback
  }

  /** `Math.floor(u * 4)`, an index into the palette. */
  function PaletteIndex(u: Unit): (i: nat)
    ensures i < |Palette|
  {
    (u * 4.0).Floor
  }

  /** `color || palette[...]`: the empty string is falsy too. */
  function ResolveColor(color: Option<string>, u: Unit): (c: string) {
    if color.None? || color.value == "" then Palette[PaletteIndex(u)] else color.value
  }

  /** The life (and maxLife) a particle created with `opts` starts with. */
  function ResolveLife(opts: Options): (life: real) {
    Or(opts.life, DefaultLife)
  }

  /** The record `createParticle(x, y, opts)` builds. */
  function Resolve(x: Option<real>, y: Option<real>, opts: Options, d: Draws, view: Viewport): (r: Record)
    ensures r.life == r.maxLife == ResolveLife(opts)
    ensures Falsy(opts.life) ==> r.life == 1.0
    ensures Falsy(x) ==> r.x == d.x * view.width
    ensures !Falsy(x) ==> r.x == x.value
    ensures Falsy(y) ==> r.y == d.y * view.height
    ensures !Falsy(y) ==> r.y == y.value
    ensures opts.vx.Some? ==> r.vx == opts.vx.value
    ensures opts.vx.None? ==> -2.0 <= r.vx < 2.0
    ensures opts.vy.Some? ==> r.vy == opts.vy.value
    ensures opts.vy.None? ==> -2.0 <= r.vy < 2.0
    ensures Falsy(opts.size) ==> 2.0 <= r.size < 6.0
    ensures !Falsy(opts.size) ==> r.size == opts.size.value
    ensures opts.color.None? || opts.color.value == "" ==> r.color in Palette
    ensures !(opts.color.None? || opts.color.value == "") ==> r.color == opts.color.value
    ensures opts.gravity.Some? ==> r.gravity == opts.gravity.value
    ensures opts.gravity.None? ==> r.gravity == DefaultGravity
  {
    var life := ResolveLife(opts);
    Record(
      x := Or(x, d.x * view.width),
      y := Or(y, d.y * view.height),
      vx := IfDefined(opts.vx, (d.vx - 0.5) * 4.0),
      vy := IfDefined(opts.vy, (d.vy - 0.5) * 4.0),
      size := Or(opts.size, d.size * 4.0 + 2.0),
      color := ResolveColor(opts.color, d.color),
      life := life,
      maxLife := life,
      gravity := IfDefined(opts.gravity, DefaultGravity))
  }

  /** An explicit 0 is kept for vx, vy and gravity but replaced for x, y, size and life. */
  lemma ZeroOptions(d: Draws, view: Viewport)
    ensures var r := Resolve(Some(0.0), Some(0.0), Options(Some(0.0), Some(0.0), Some(0.0), None, Some(0.0), Some(0.0)), d, view);
      r.vx == 0.0 && r.vy == 0.0 && r.gravity == 0.0 &&
      r.x == d.x * view.width && r.y == d.y * view.height &&
      2.0 <= r.size && r.life == 1.0 && r.maxLife == 1.0
  {
  }

  /**
    A particle object. Its data fields are those of a `Record`; its DOM element
    is an opaque handle whose state is kept as ghost fields: whether it was
    removed from the page, its opacity, and the position last written to it.
  */
  class Particle {
    var x: real
    var y: real
    var vx: real
    var vy: real
    var size: real
    var color: string
    var life: real
    var maxLife: real
    var gravity: real

    ghost var released: bool
    ghost var opacity: real
    /**
      The last position written to the element: `left`/`top` at creation,
      then the `translate` of every frame. The browser draws the element at
      the sum of the two, so after the first frame it is offset by the
      creation position; the model only records what was written.
    */
    ghost var shownX: real
    ghost var shownY: real

    /** The particle's data fields as a value. */
    function Snapshot(): (r: Record)
      reads this
    {
      Record(x, y, vx, vy, size, color, life, maxLife, gravity)
    }

    /** The record with a fresh element whose `left`/`top` are its position and whose opacity is `life`. */
    constructor (r: Record)
      ensures Snapshot() == r
      ensures !released && opacity == r.life && shownX == r.x && shownY == r.y
    {
      x, y, vx, vy := r.x, r.y, r.vx, r.vy;
      size, color := r.size, r.color;
      life, maxLife, gravity := r.life, r.maxLife, r.gravity;
      released := false;
      opacity, shownX, shownY := r.life, r.x, r.y;
    }

    /** The body of the `forEach` in `update`, applied to this particle. */
    method Advance(view: Viewport)
      modifies this
      ensures Snapshot() == Step(old(Snapshot()), view)
      ensures released == old(released)
      ensures opacity == life && shownX == x && shownY == y
    {
      Integrate();
      BounceOffEdges(view);
      shownX, shownY := x, y;
      opacity := life;
    }

    /** Drag, gravity, integration and decay, in place. */
    method Integrate()
      modifies this
      ensures Snapshot() == Drift(old(Snapshot()))
      ensures released == old(released)
      ensures opacity == old(opacity) && shownX == old(shownX) && shownY == old(shownY)
    {
      vx := vx * Drag;
      vy := vy * Drag;
      vy := vy + gravity;
      x := x + vx;
      y := y + vy;
      life := life - LifeDecay;
    }

    /** The lossy reflection off the viewport's edges, in place. */
    method BounceOffEdges(view: Viewport)
      modifies this
      ensures Snapshot() == Reflect(old(Snapshot()), view)
      ensures released == old(released)
      ensures opacity == old(opacity) && shownX == old(shownX) && shownY == old(shownY)
    {
      if x < 0.0 || x > view.width {
        vx := vx * Bounce;
      }
      if y < 0.0 || y > view.height {
        vy := vy * Bounce;
      }
    }

    /** `element.remove()`: the handle is released; the data fields stay as they are. */
    method Remove()
      modifies this
      ensures released
      ensures Snapshot() == old(Snapshot())
    {
      released := true;
    }
  }
}
