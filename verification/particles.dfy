/** The particle store of the animated canvas background (`Background`):
    the particle records, their creation from random draws in `init`, and
    the per-frame move-and-wrap of `animate`. Drawing is not modelled;
    positions and draws are real numbers, and the canvas size is the
    integer size of its layout box. */
module Particles {

  /** One particle record: position, radius, velocity and opacity. */
  datatype Particle = Particle(x: real, y: real, size: real, vx: real, vy: real, opacity: real)

  /** The six `Math.random()` values `init` draws for one particle, in the
      order the record's fields are written. */
  datatype Draws = Draws(x: real, y: real, size: real, vx: real, vy: real, opacity: real)

  /** The pointer-repulsion displacement a frame subtracts from a particle's
      position before moving it (zero when the pointer is absent or far). */
  datatype Repulsion = Repulsion(dx: real, dy: real)

  /** No repulsion: the pointer is absent or out of range. */
  const NoRepulsion := Repulsion(0.0, 0.0)

  predicate Unit(r: real) { 0.0 <= r < 1.0 }

  /** Every draw lies in [0, 1), as `Math.random()` promises. */
  predicate UnitDraws(d: Draws)
  {
    Unit(d.x) && Unit(d.y) && Unit(d.size) && Unit(d.vx) && Unit(d.vy) && Unit(d.opacity)
  }

  /** The ranges every particle's fixed attributes come from: radius in
      [0.5, 2.5), each velocity component in [-0.15, 0.15), opacity in
      [0.1, 0.6). */
  predicate Attributes(p: Particle)
  {
    && 0.5 <= p.size < 2.5
    && -0.15 <= p.vx < 0.15
    && -0.15 <= p.vy < 0.15
    && 0.1 <= p.opacity < 0.6
  }

  /** The position lies on the canvas, edges included. */
  predicate OnCanvas(p: Particle, width: nat, height: nat)
  {
    0.0 <= p.x <= width as real && 0.0 <= p.y <= height as real
  }

  /** Two particles that differ at most in position. */
  predicate SameAttributes(p: Particle, q: Particle)
  {
    p.size == q.size && p.vx == q.vx && p.vy == q.vy && p.opacity == q.opacity
  }

  /** The record `init` builds from one particle's draws. */
  function Spawn(d: Draws, width: nat, height: nat): (p: Particle)
    requires UnitDraws(d)
    ensures Attributes(p)
    ensures 0.0 <= p.x && (width > 0 ==> p.x < width as real) && (width == 0 ==> p.x == 0.0)
    ensures 0.0 <= p.y && (height > 0 ==> p.y < height as real) && (height == 0 ==> p.y == 0.0)
  {
    var w, h := width as real, height as real;
    assert 0.0 <= d.x * w <= w by { ScaleUnit(d.x, w); }
    assert 0.0 <= d.y * h <= h by { ScaleUnit(d.y, h); }
    Particle(d.x * w, d.y * h, d.size * 2.0 + 0.5, (d.vx - 0.5) * 0.3, (d.vy - 0.5) * 0.3,
             d.opacity * 0.5 + 0.1)
  }

  /** The list `init` builds: one spawned particle per draw, in draw order. */
  function Spawned(draws: seq<Draws>, width: nat, height: nat): (ps: seq<Particle>)
    requires forall i :: 0 <= i < |draws| ==> UnitDraws(draws[i])
    ensures |ps| == |draws|
    ensures forall i :: 0 <= i < |ps| ==> Attributes(ps[i])
  {
    seq(|draws|, i requires 0 <= i < |draws| => Spawn(draws[i], width, height))
  }

  /** A unit draw scales a non-negative length into [0, length), or to 0. */
  lemma ScaleUnit(r: real, len: real)
    requires Unit(r) && len >= 0.0
    ensures 0.0 <= r * len <= len
    ensures len > 0.0 ==> r * len < len
  {
  }

  /** One coordinate after the move: past the low edge it jumps to the high
      edge, past the high edge to 0 (the two tests run in this order). */
  function WrapCoordinate(c: real, limit: nat): (r: real)
    ensures 0.0 <= c <= limit as real ==> r == c
    ensures c < 0.0 ==> r == limit as real
    ensures c > limit as real ==> r == 0.0
    ensures 0.0 <= r <= limit as real
  {
    var low := if c < 0.0 then limit as real else c;
    if low > limit as real then 0.0 else low
  }

  /** The tail of one frame for one particle: subtract the repulsion, add
      the velocity, then wrap each coordinate. */
  function Advance(p: Particle, push: Repulsion, width: nat, height: nat): (q: Particle)
    ensures OnCanvas(q, width, height)
    ensures SameAttributes(p, q)
  {
    var x := p.x - push.dx + p.vx;
    var y := p.y - push.dy + p.vy;
    p.(x := WrapCoordinate(x, width), y := WrapCoordinate(y, height))
  }

  /** With no repulsion a particle whose move stays on the canvas ends
      exactly at position plus velocity. */
  lemma AdvanceWithoutPointer(p: Particle, width: nat, height: nat)
    requires OnCanvas(p.(x := p.x + p.vx, y := p.y + p.vy), width, height)
    ensures Advance(p, NoRepulsion, width, height) == p.(x := p.x + p.vx, y := p.y + p.vy)
  {
  }

  /** One whole frame over the particle list, each particle with its own
      repulsion. */
  function Frame(ps: seq<Particle>, pushes: seq<Repulsion>, width: nat, height: nat): (qs: seq<Particle>)
    requires |pushes| == |ps|
    ensures |qs| == |ps|
  {
    seq(|ps|, i requires 0 <= i < |ps| => Advance(ps[i], pushes[i], width, height))
  }

  /** The frames of `pushes`, in order, each particle of frame `j` pushed
      by `pushes[j][i]`. */
  function Frames(ps: seq<Particle>, pushes: seq<seq<Repulsion>>, width: nat, height: nat): (qs: seq<Particle>)
    requires forall j :: 0 <= j < |pushes| ==> |pushes[j]| == |ps|
    ensures |qs| == |ps|
  {
    if pushes == [] then ps
    else Frame(Frames(ps, pushes[..|pushes| - 1], width, height), pushes[|pushes| - 1], width, height)
  }

  /** After at least one frame every particle is on the canvas, whatever the
      canvas size was when the particles were made and whatever repulsions
      were applied; and no number of frames changes how many particles
      there are or any particle's radius, velocity or opacity. */
  lemma {:induction false} FramesKeepStore(ps: seq<Particle>, pushes: seq<seq<Repulsion>>, width: nat, height: nat)
    requires forall j :: 0 <= j < |pushes| ==> |pushes[j]| == |ps|
    ensures forall i :: 0 <= i < |ps| ==> SameAttributes(ps[i], Frames(ps, pushes, width, height)[i])
    ensures |pushes| >= 1 ==>
      forall i :: 0 <= i < |ps| ==> OnCanvas(Frames(ps, pushes, width, height)[i], width, height)
  {
    if pushes != [] {
      var earlier := pushes[..|pushes| - 1];
      FramesKeepStore(ps, earlier, width, height);
      var before := Frames(ps, earlier, width, height);
      var after := Frames(ps, pushes, width, height);
      assert forall i :: 0 <= i < |ps| ==> after[i] == Advance(before[i], pushes[|pushes| - 1][i], width, height);
    }
  }

  /** The example of a particle at (99, 50) moving right by 1 on a 100 by
      100 canvas: it stops on the right edge, x = 100, and does not wrap. */
  lemma RightEdgeIsReachable(p: Particle)
    requires p.x == 99.0 && p.y == 50.0 && p.vx == 1.0 && p.vy == 0.0
    ensures Advance(p, NoRepulsion, 100, 100) == p.(x := 100.0)
    ensures Advance(Advance(p, NoRepulsion, 100, 100), NoRepulsion, 100, 100) == p.(x := 0.0)
  {
  }

  class Background {
    /** Whether the canvas element was found; without it nothing happens. */
    const live: bool
    const particleCount: nat
    var width: nat
    var height: nat
    var particles: seq<Particle>

    /** The store holds `particleCount` particles, each with attributes in
        the ranges `init` draws from. */
    ghost predicate Valid()
      reads this
    {
      && (live ==> |particles| == particleCount)
      && (!live ==> particles == [])
      && (forall i :: 0 <= i < |particles| ==> Attributes(particles[i]))
    }

    /** `new Background(canvasId, particleCount)`: with a canvas, take its
        size, create the particles from `draws` and run the first frame at
        once, before any pointer event can have set the pointer, so without
        repulsion; without a canvas, stay inert. */
    constructor (canvasFound: bool, particleCount: nat, width: nat, height: nat, draws: seq<Draws>)
      requires canvasFound ==> |draws| == particleCount
      requires forall i :: 0 <= i < |draws| ==> UnitDraws(draws[i])
      ensures Valid()
      ensures live == canvasFound && this.particleCount == particleCount
      ensures this.width == width && this.height == height
      ensures canvasFound ==>
        particles == Frame(Spawned(draws, width, height), seq(particleCount, _ => NoRepulsion), width, height)
      ensures forall i :: 0 <= i < |particles| ==> OnCanvas(particles[i], width, height)
      ensures !canvasFound ==> particles == []
    {
      live := canvasFound;
      this.particleCount := particleCount;
      this.width, this.height := width, height;
      particles := [];
      new;
      if canvasFound {
        Init(draws);
        Animate(seq(particleCount, _ => NoRepulsion));
      }
    }

    /** `resize`: take the new size of the canvas's layout box. The particles
        are kept as they are. */
    method Resize(newWidth: nat, newHeight: nat)
      requires Valid()
      modifies this`width, this`height
      ensures Valid()
      ensures width == newWidth && height == newHeight
    {
      width := newWidth;
      height := newHeight;
    }

    /** `init`: discard the particles and push one new particle per draw. */
    method Init(draws: seq<Draws>)
      requires live
      requires |draws| == particleCount
      requires forall i :: 0 <= i < |draws| ==> UnitDraws(draws[i])
      modifies this`particles
      ensures Valid()
      ensures particles == Spawned(draws, width, height)
    {
      particles := [];
      var i := 0;
      while i < particleCount
        invariant 0 <= i <= particleCount
        invariant |particles| == i
        invariant forall j :: 0 <= j < i ==> particles[j] == Spawn(draws[j], width, height)
      {
        particles := particles + [Spawn(draws[i], width, height)];
        i := i + 1;
      }
    }

    /** The state update of one `animate` frame: each particle in turn is
        pushed by its repulsion, moved by its velocity and wrapped. */
    method Animate(pushes: seq<Repulsion>)
      requires Valid()
      requires |pushes| == |particles|
      modifies this`particles
      ensures Valid()
      ensures particles == Frame(old(particles), pushes, width, height)
      ensures forall i :: 0 <= i < |particles| ==> OnCanvas(particles[i], width, height)
    {
      if !live {
        return;
      }
      ghost var before := particles;
      var i := 0;
      while i < |particles|
        invariant 0 <= i <= |particles| == |before|
        invariant forall j :: 0 <= j < i ==> particles[j] == Advance(before[j], pushes[j], width, height)
        invariant forall j :: i <= j < |particles| ==> particles[j] == before[j]
      {
        var p := particles[i];
        var x := p.x - pushes[i].dx;
        var y := p.y - pushes[i].dy;
        x := x + p.vx;
        y := y + p.vy;
        if x < 0.0 { x := width as real; }
        if x > width as real { x := 0.0; }
        if y < 0.0 { y := height as real; }
        if y > height as real { y := 0.0; }
        particles := particles[i := p.(x := x, y := y)];
        i := i + 1;
      }
    }
  }
}
