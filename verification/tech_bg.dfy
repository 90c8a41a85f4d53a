/** The particle background: a fixed number of particles drift across the viewport,
    bounce off its edges, are pushed by the pointer when it is close, and every close
    pair is joined by a line whose opacity fades with distance.

    Positions and velocities are exact reals, the random draws are supplied by the caller,
    and the line pass returns the lines it would stroke instead of drawing them. */
module TechBG {

  /** `MAX`: the number of particles. */
  const ParticleCount: nat := 80

  /** Largest speed, per axis, a particle is created with. */
  const MaxSpeed: real := 0.5

  /** Squared distance below which the pointer pushes a particle (140 pixels). */
  const PushRange2: real := 19600.0

  /** Fraction of its offset from the pointer a pushed particle moves by. */
  const PushFactor: real := 0.003

  /** Squared distance below which a pair is joined by a line (`120 * 120`). */
  const LineRange2: real := 14400.0

  /** Opacity of the line between two coincident particles. */
  const MaxLineOpacity: real := 0.3

  /** Where the pointer is taken to be before the first move: far outside the canvas. */
  const Sentinel: real := -9999.0

  /** One particle: position and velocity, in CSS pixels and pixels per frame. */
  datatype Particle = Particle(x: real, y: real, vx: real, vy: real)

  /** A line the step strokes between particles `i` and `j`, with its opacity. */
  datatype Line = Line(i: nat, j: nat, opacity: real)

  function Abs(r: real): real
  {
    if r < 0.0 then -r else r
  }

  // ---------------------------------------------------------------- creation

  /** `rand(a, b)` for the draw `u` that `Math.random()` returned. */
  function Rand(a: real, b: real, u: real): (r: real)
    ensures 0.0 <= u < 1.0 && a <= b ==> a <= r <= b
    ensures 0.0 <= u < 1.0 && a < b ==> r < b
    ensures u == 0.0 ==> r == a
  {
    var span := b - a;
    FractionOf(u, span);
    a + u * span
  }

  /** A fraction `u` in [0, 1) of a non-negative span `c` lies in [0, c], below `c` when `c > 0`. */
  lemma FractionOf(u: real, c: real)
    ensures 0.0 <= u < 1.0 && c >= 0.0 ==> 0.0 <= u * c <= c
    ensures 0.0 <= u < 1.0 && c > 0.0 ==> u * c < c
  {
    if 0.0 <= u < 1.0 && c >= 0.0 {
      assert c - u * c == (1.0 - u) * c;
      assert (1.0 - u) * c >= 0.0;
      assert u * c >= 0.0;
      if c > 0.0 {
        assert (1.0 - u) * c > 0.0;
      }
    }
  }

  /** Every draw is one `Math.random()` could return. */
  predicate RandomDraws(draws: seq<real>)
  {
    forall k :: 0 <= k < |draws| ==> 0.0 <= draws[k] < 1.0
  }

  /** The `k`-th particle `init` pushes on a `w` by `h` canvas: it consumes four draws,
      for `x`, `y`, `vx` and `vy` in that order. */
  function Spawn(draws: seq<real>, k: nat, w: real, h: real): (p: Particle)
    requires 4 * k + 3 < |draws|
    ensures RandomDraws(draws) && w >= 0.0 ==> 0.0 <= p.x <= w && (w > 0.0 ==> p.x < w)
    ensures RandomDraws(draws) && h >= 0.0 ==> 0.0 <= p.y <= h && (h > 0.0 ==> p.y < h)
    ensures RandomDraws(draws) ==> -MaxSpeed <= p.vx < MaxSpeed && -MaxSpeed <= p.vy < MaxSpeed
  {
    Particle(Rand(0.0, w, draws[4 * k]), Rand(0.0, h, draws[4 * k + 1]),
             Rand(-MaxSpeed, MaxSpeed, draws[4 * k + 2]), Rand(-MaxSpeed, MaxSpeed, draws[4 * k + 3]))
  }

  // ---------------------------------------------------------------- one particle per frame

  /** The pointer is close enough to push a particle at (`x`, `y`): `Math.hypot(dx, dy) < 140`. */
  predicate Near(x: real, y: real, mouseX: real, mouseY: real)
  {
    (x - mouseX) * (x - mouseX) + (y - mouseY) * (y - mouseY) < PushRange2
  }

  /** One particle's update in a frame: advance by the velocity, flip each velocity
      component whose advanced coordinate left [0, w] or [0, h], then, when the pointer is
      near, add 0.3% of the offset from the pointer. */
  function Advance(p: Particle, w: real, h: real, mouseX: real, mouseY: real): (q: Particle)
    ensures Abs(q.vx) == Abs(p.vx) && Abs(q.vy) == Abs(p.vy)
  {
    var x := p.x + p.vx;
    var y := p.y + p.vy;
    var vx := if x < 0.0 || x > w then -p.vx else p.vx;
    var vy := if y < 0.0 || y > h then -p.vy else p.vy;
    if Near(x, y, mouseX, mouseY) then
      Particle(x + (x - mouseX) * PushFactor, y + (y - mouseY) * PushFactor, vx, vy)
    else
      Particle(x, y, vx, vy)
  }

  /** A velocity component changes only by changing sign, and exactly when the advanced
      coordinate is outside the canvas. */
  lemma BounceOnlyAtEdges(p: Particle, w: real, h: real, mouseX: real, mouseY: real)
    ensures var q := Advance(p, w, h, mouseX, mouseY);
            (0.0 <= p.x + p.vx <= w ==> q.vx == p.vx) &&
            (p.x + p.vx < 0.0 || p.x + p.vx > w ==> q.vx == -p.vx) &&
            (0.0 <= p.y + p.vy <= h ==> q.vy == p.vy) &&
            (p.y + p.vy < 0.0 || p.y + p.vy > h ==> q.vy == -p.vy)
  {
  }

  /** A pushed particle ends 1.003 times as far from the pointer, on the same ray, as it
      would have without the push: the push is away from the pointer. */
  lemma PushScalesOffset(p: Particle, w: real, h: real, mouseX: real, mouseY: real)
    ensures var q := Advance(p, w, h, mouseX, mouseY);
            var x, y := p.x + p.vx, p.y + p.vy;
            if Near(x, y, mouseX, mouseY) then
              q.x - mouseX == (1.0 + PushFactor) * (x - mouseX) &&
              q.y - mouseY == (1.0 + PushFactor) * (y - mouseY)
            else
              q.x == x && q.y == y
  {
  }

  /** While the pointer has never moved, a particle that ends up right of or below
      `Sentinel + 140` is not pushed. */
  lemma SentinelPushesNothing(p: Particle, w: real, h: real)
    requires p.x + p.vx > Sentinel + 140.0 || p.y + p.vy > Sentinel + 140.0
    ensures var q := Advance(p, w, h, Sentinel, Sentinel);
            q.x == p.x + p.vx && q.y == p.y + p.vy
  {
    var x, y := p.x + p.vx, p.y + p.vy;
    var dx, dy := x - Sentinel, y - Sentinel;
    if dx > 140.0 {
      assert dx * dx > 140.0 * 140.0 by { assert dx * dx > 140.0 * dx; }
    } else {
      assert dy * dy > 140.0 * 140.0 by { assert dy * dy > 140.0 * dy; }
    }
    assert dx * dx >= 0.0 && dy * dy >= 0.0;
    assert dx * dx + dy * dy >= PushRange2;
    assert Near(x, y, Sentinel, Sentinel) == (dx * dx + dy * dy < PushRange2);
  }

  // ---------------------------------------------------------------- the line pass

  /** Squared distance between two particles. */
  function Dist2(a: Particle, b: Particle): real
  {
    (a.x - b.x) * (a.x - b.x) + (a.y - b.y) * (a.y - b.y)
  }

  /** A line's opacity for squared distance `d`: `(1 - d / 120²) * 0.3`. It is highest for
      coincident particles and falls to nothing at the range. */
  function Opacity(d: real): (o: real)
    ensures d == 0.0 ==> o == MaxLineOpacity
    ensures 0.0 <= d < LineRange2 ==> 0.0 < o <= MaxLineOpacity
    ensures d == LineRange2 ==> o == 0.0
  {
    (1.0 - d / LineRange2) * MaxLineOpacity
  }

  /** The opacity strictly decreases as the distance grows. */
  lemma OpacityDecreasing(d1: real, d2: real)
    requires d1 < d2
    ensures Opacity(d1) > Opacity(d2)
  {
  }

  /** The line for the pair (`i`, `j`), if they are close enough. */
  function PairLine(ps: seq<Particle>, i: nat, j: nat): seq<Line>
    requires i < |ps| && j < |ps|
  {
    var d := Dist2(ps[i], ps[j]);
    if d < LineRange2 then [Line(i, j, Opacity(d))] else []
  }

  lemma ConcatAssoc<T>(a: seq<T>, b: seq<T>, c: seq<T>)
    ensures (a + b) + c == a + (b + c)
  {
  }

  lemma RowUnfold(ps: seq<Particle>, i: nat, j: nat)
    requires i < |ps| && j < |ps|
    ensures Row(ps, i, j) + Rows(ps, i + 1) == PairLine(ps, i, j) + (Row(ps, i, j + 1) + Rows(ps, i + 1))
  {
  }

  lemma RowsUnfold(ps: seq<Particle>, i: nat)
    requires i < |ps|
    ensures Rows(ps, i) == Row(ps, i, i + 1) + Rows(ps, i + 1)
    ensures Row(ps, i, |ps|) == []
  {
  }

  /** The inner loop from `j` on: the lines from particle `i` to particles `j`, `j + 1`, .... */
  function Row(ps: seq<Particle>, i: nat, j: nat): seq<Line>
    requires i < |ps| && j <= |ps|
    decreases |ps| - j
  {
    if j == |ps| then [] else PairLine(ps, i, j) + Row(ps, i, j + 1)
  }

  /** The outer loop from `i` on. */
  function Rows(ps: seq<Particle>, i: nat): seq<Line>
    requires i <= |ps|
    decreases |ps| - i
  {
    if i == |ps| then [] else Row(ps, i, i + 1) + Rows(ps, i + 1)
  }

  /** Every line the pass strokes, in stroke order. */
  function Lines(ps: seq<Particle>): seq<Line>
  {
    Rows(ps, 0)
  }

  /** The pair (`i`, `j`) gets the line `l`: `i < j`, the pair is within range and the
      opacity is the one for their distance. */
  ghost predicate Joins(ps: seq<Particle>, l: Line)
  {
    l.i < l.j < |ps| && Dist2(ps[l.i], ps[l.j]) < LineRange2 && l.opacity == Opacity(Dist2(ps[l.i], ps[l.j]))
  }

  lemma {:induction false} RowMembers(ps: seq<Particle>, i: nat, j: nat, l: Line)
    requires i < j <= |ps|
    ensures l in Row(ps, i, j) <==> l.i == i && j <= l.j && Joins(ps, l)
    decreases |ps| - j
  {
    if j < |ps| {
      RowMembers(ps, i, j + 1, l);
      assert l in Row(ps, i, j) <==> l in PairLine(ps, i, j) || l in Row(ps, i, j + 1);
    }
  }

  lemma {:induction false} RowsMembers(ps: seq<Particle>, i: nat, l: Line)
    requires i <= |ps|
    ensures l in Rows(ps, i) <==> i <= l.i && Joins(ps, l)
    decreases |ps| - i
  {
    if i < |ps| {
      RowsUnfold(ps, i);
      RowMembers(ps, i, i + 1, l);
      RowsMembers(ps, i + 1, l);
      assert l in Rows(ps, i) <==> l in Row(ps, i, i + 1) || l in Rows(ps, i + 1);
    }
  }

  /** A line is stroked exactly when it joins a close pair `i < j` with the opacity of
      their distance. */
  lemma LinesExact(ps: seq<Particle>, l: Line)
    ensures l in Lines(ps) <==> Joins(ps, l)
  {
    RowsMembers(ps, 0, l);
  }

  /** Line `a` is stroked before line `b` in the i-then-j order of the nested loops. */
  predicate Precedes(a: Line, b: Line)
  {
    a.i < b.i || (a.i == b.i && a.j < b.j)
  }

  predicate Ascending(ls: seq<Line>)
  {
    forall k1, k2 :: 0 <= k1 < k2 < |ls| ==> Precedes(ls[k1], ls[k2])
  }

  lemma AscendingConcat(a: seq<Line>, b: seq<Line>)
    requires Ascending(a) && Ascending(b)
    requires forall x, y :: x in a && y in b ==> Precedes(x, y)
    ensures Ascending(a + b)
  {
    forall k1, k2 | 0 <= k1 < k2 < |a + b| ensures Precedes((a + b)[k1], (a + b)[k2]) {
      if k2 < |a| {
      } else if k1 >= |a| {
        assert (a + b)[k1] == b[k1 - |a|] && (a + b)[k2] == b[k2 - |a|];
      } else {
        assert (a + b)[k1] in a && (a + b)[k2] in b;
      }
    }
  }

  lemma {:induction false} RowAscending(ps: seq<Particle>, i: nat, j: nat)
    requires i < |ps| && j <= |ps|
    ensures Ascending(Row(ps, i, j))
    ensures forall l :: l in Row(ps, i, j) ==> l.i == i && j <= l.j
    decreases |ps| - j
  {
    if j < |ps| {
      RowAscending(ps, i, j + 1);
      AscendingConcat(PairLine(ps, i, j), Row(ps, i, j + 1));
    }
  }

  lemma {:induction false} RowsAscending(ps: seq<Particle>, i: nat)
    requires i <= |ps|
    ensures Ascending(Rows(ps, i))
    ensures forall l :: l in Rows(ps, i) ==> i <= l.i
    decreases |ps| - i
  {
    if i < |ps| {
      RowAscending(ps, i, i + 1);
      RowsAscending(ps, i + 1);
      AscendingConcat(Row(ps, i, i + 1), Rows(ps, i + 1));
    }
  }

  /** The lines come in strictly increasing (i, j) order, so no pair is visited twice. */
  lemma LinesOnceEach(ps: seq<Particle>)
    ensures Ascending(Lines(ps))
    ensures forall k1, k2 :: 0 <= k1 < k2 < |Lines(ps)| ==>
              (Lines(ps)[k1].i, Lines(ps)[k1].j) != (Lines(ps)[k2].i, Lines(ps)[k2].j)
  {
    RowsAscending(ps, 0);
  }

  // ---------------------------------------------------------------- the component

  /** The canvas effect's state: the particle array, the canvas size in CSS pixels and the
      last pointer position. */
  class Field {
    var particles: array<Particle>
    var w: real
    var h: real
    var mouseX: real
    var mouseY: real

    /** The canvas has a size, and every particle is at most `MaxSpeed` fast on each axis. */
    ghost predicate Valid()
      reads this, particles
    {
      particles.Length == ParticleCount && w >= 0.0 && h >= 0.0 &&
      forall k :: 0 <= k < particles.Length ==>
        Abs(particles[k].vx) <= MaxSpeed && Abs(particles[k].vy) <= MaxSpeed
    }

    /** The effect's set-up: `resize()`, `init()`, pointer at the sentinel. */
    constructor (width: real, height: real, draws: seq<real>)
      requires width >= 0.0 && height >= 0.0
      requires |draws| >= 4 * ParticleCount && RandomDraws(draws)
      ensures Valid() && fresh(particles)
      ensures w == width && h == height && mouseX == Sentinel && mouseY == Sentinel
      ensures forall k :: 0 <= k < ParticleCount ==> particles[k] == Spawn(draws, k, w, h)
    {
      w, h := width, height;
      mouseX, mouseY := Sentinel, Sentinel;
      particles := new Particle[0];
      new;
      Init(draws);
    }

    /** `init`: discard every particle and create `ParticleCount` fresh ones. */
    method Init(draws: seq<real>)
      requires w >= 0.0 && h >= 0.0
      requires |draws| >= 4 * ParticleCount && RandomDraws(draws)
      modifies this
      ensures Valid() && fresh(particles)
      ensures w == old(w) && h == old(h) && mouseX == old(mouseX) && mouseY == old(mouseY)
      ensures forall k :: 0 <= k < ParticleCount ==> particles[k] == Spawn(draws, k, w, h)
    {
      var spawned := new Particle[ParticleCount];
      for k := 0 to ParticleCount
        modifies spawned
        invariant forall m :: 0 <= m < k ==> spawned[m] == Spawn(draws, m, w, h)
      {
        spawned[k] := Spawn(draws, k, w, h);
      }
      particles := spawned;
    }

    /** The window `resize` handler: take the new size, then `init`. */
    method Resize(width: real, height: real, draws: seq<real>)
      requires width >= 0.0 && height >= 0.0
      requires |draws| >= 4 * ParticleCount && RandomDraws(draws)
      modifies this
      ensures Valid() && fresh(particles)
      ensures w == width && h == height && mouseX == old(mouseX) && mouseY == old(mouseY)
      ensures forall k :: 0 <= k < ParticleCount ==> particles[k] == Spawn(draws, k, w, h)
    {
      w, h := width, height;
      Init(draws);
    }

    /** `onMouse`: the pointer in canvas coordinates. */
    method OnMouse(clientX: real, clientY: real, left: real, top: real)
      modifies this
      ensures mouseX == clientX - left && mouseY == clientY - top
      ensures particles == old(particles) && w == old(w) && h == old(h)
    {
      mouseX := clientX - left;
      mouseY := clientY - top;
    }

    /** One animation frame: advance every particle in place, then return the lines the
        pair pass strokes between the advanced positions. */
    method Step() returns (lines: seq<Line>)
      requires Valid()
      modifies particles
      ensures Valid()
      ensures forall k :: 0 <= k < particles.Length ==>
                particles[k] == Advance(old(particles[k]), w, h, mouseX, mouseY)
      ensures lines == Lines(particles[..])
    {
      var n := particles.Length;
      for k := 0 to n
        invariant forall m :: 0 <= m < k ==> particles[m] == Advance(old(particles[m]), w, h, mouseX, mouseY)
        invariant forall m :: k <= m < n ==> particles[m] == old(particles[m])
      {
        particles[k] := Advance(particles[k], w, h, mouseX, mouseY);
      }
      lines := PairPass();
    }

    /** The nested pair loop of a frame: for every `i < j`, a line when the pair is within
        range. */
    method PairPass() returns (lines: seq<Line>)
      ensures lines == Lines(particles[..])
    {
      ghost var ps := particles[..];
      var n := particles.Length;
      lines := [];
      for i := 0 to n
        invariant lines + Rows(ps, i) == Lines(ps)
      {
        RowsUnfold(ps, i);
        for j := i + 1 to n
          invariant lines + (Row(ps, i, j) + Rows(ps, i + 1)) == Lines(ps)
        {
          var a, b := particles[i], particles[j];
          assert a == ps[i] && b == ps[j];
          var d := Dist2(a, b);
          RowUnfold(ps, i, j);
          ghost var rest := Row(ps, i, j + 1) + Rows(ps, i + 1);
          ghost var before := lines;
          if d < LineRange2 {
            lines := lines + [Line(i, j, Opacity(d))];
          }
          assert lines == before + PairLine(ps, i, j);
          ConcatAssoc(before, PairLine(ps, i, j), rest);
        }
      }
    }
  }
}
