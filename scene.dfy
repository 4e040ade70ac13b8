/**
  The live frame loop of `src/objets/Scene.tsx`: a population of 100 boids
  in the box [-20, 20]³, drawn `n`³ times on a grid of copies of the box,
  stepped once per frame in two passes over the population.

  The first pass gives every boid the tuning of the control panel, wraps
  it into the box and lets it flock; the second integrates every boid and
  copies its position into each of its meshes. Because a boid is wrapped
  just before it flocks, boid `k` sees the boids before it already wrapped
  and the boids after it not yet wrapped (`WrapFirst`).
*/
module SceneFrame {
  import opened Vectors
  import opened Flocking
  import opened BoidAgent

  const BoundsStart := Vec3(-20.0, -20.0, -20.0)
  const BoundsEnd := Vec3(20.0, 20.0, 20.0)

  /** The number of boids. */
  const Count: nat := 100

  /** The grid of copies is `N` × `N` × `N`. */
  const N: nat := 1

  /** The six sliders of the control panel. */
  datatype Controls = Controls(
    alignmentWeight: real,
    cohesionWeight: real,
    separationWeight: real,
    maxSpeed: real,
    maxForce: real,
    perceptionRadius: real)

  // ---------------------------------------------------------------------
  // Initial positions

  /** `randomInBounds`: one uniform draw per axis, stretched over the box. */
  function RandomInBounds(d: Draw): (p: Vec3)
    ensures InUnit(d) ==> InBox(p, BoundsStart, BoundsEnd)
    ensures InUnit(d) ==> p.x < BoundsEnd.x && p.y < BoundsEnd.y && p.z < BoundsEnd.z
  {
    Vec3(d.a * (BoundsEnd.x - BoundsStart.x) + BoundsStart.x,
         d.b * (BoundsEnd.y - BoundsStart.y) + BoundsStart.y,
         d.c * (BoundsEnd.z - BoundsStart.z) + BoundsStart.z)
  }

  /**
    The population as both frame loops create it: for each boid, a fresh
    `Boid` on the given bounds, whose position is then overwritten with the
    given start position. The constructor's random heading comes from
    `headings`.
  */
  method Populate(sqrt: real -> real, lo: Vec3, hi: Vec3, starts: seq<Vec3>, headings: seq<Draw>)
    returns (boids: seq<Boid>)
    requires |headings| == |starts|
    ensures |boids| == |starts| && Distinct(boids)
    ensures forall k :: 0 <= k < |boids| ==> fresh(boids[k])
    ensures forall k :: 0 <= k < |boids| ==>
              boids[k].boundsStart == lo && boids[k].boundsEnd == hi
              && boids[k].State() == Motion(starts[k], SetLength(sqrt, Direction(headings[k]), 0.2), Zero, Zero)
              && boids[k].Settings() == Tuning(5.0, 1.0, 1.0, 1.0, 1.0, 0.2, 0.05)
  {
    boids := [];
    for i := 0 to |starts|
      invariant |boids| == i && Distinct(boids)
      invariant forall k :: 0 <= k < i ==> fresh(boids[k])
      invariant forall k :: 0 <= k < i ==>
                  boids[k].boundsStart == lo && boids[k].boundsEnd == hi
                  && boids[k].State() == Motion(starts[k], SetLength(sqrt, Direction(headings[k]), 0.2), Zero, Zero)
                  && boids[k].Settings() == Tuning(5.0, 1.0, 1.0, 1.0, 1.0, 0.2, 0.05)
    {
      var b := new Boid(lo, hi, sqrt, headings[i]);
      b.position := starts[i];
      boids := boids + [b];
    }
  }

  /** The 100 boids of the scene, each at `randomInBounds()`. */
  method Spawn(sqrt: real -> real, places: seq<Draw>, headings: seq<Draw>) returns (boids: seq<Boid>)
    requires |places| == Count && |headings| == Count
    ensures |boids| == Count && Distinct(boids)
    ensures forall k :: 0 <= k < |boids| ==> fresh(boids[k])
    ensures forall k :: 0 <= k < |boids| ==>
              boids[k].boundsStart == BoundsStart && boids[k].boundsEnd == BoundsEnd
              && boids[k].State() == Motion(RandomInBounds(places[k]), SetLength(sqrt, Direction(headings[k]), 0.2), Zero, Zero)
              && boids[k].Settings() == Tuning(5.0, 1.0, 1.0, 1.0, 1.0, 0.2, 0.05)
  {
    var starts := seq(|places|, k requires 0 <= k < |places| => RandomInBounds(places[k]));
    boids := Populate(sqrt, BoundsStart, BoundsEnd, starts, headings);
  }

  /** With `Math.random()` values in [0, 1), every boid starts inside the box. */
  lemma SpawnInBox(places: seq<Draw>, k: int)
    requires 0 <= k < |places| && InUnit(places[k])
    ensures InBox(RandomInBounds(places[k]), BoundsStart, BoundsEnd)
  {
  }

  // ---------------------------------------------------------------------
  // The grid of copies

  /** JavaScript's `Math.trunc`. */
  function Trunc(r: real): int {
    if r >= 0.0 then r.Floor else -((-r).Floor)
  }

  /** JavaScript's `%` on numbers: the remainder of the quotient truncated towards zero. */
  function JsRem(a: real, b: real): real
    requires b != 0.0
  {
    a - b * Trunc(a / b) as real
  }

  datatype Cell = Cell(x: real, y: real, z: real)

  /**
    The grid cell of copy `i` in an `n`³ grid, computed as the source does,
    in floating-point division: `i % n`, `floor((i / n) % n)` and
    `floor(i / n ** 2)`.
  */
  function GridCell(i: nat, n: nat): Cell
    requires n > 0
  {
    Cell(JsRem(i as real, n as real),
         (JsRem(i as real / n as real, n as real)).Floor as real,
         (i as real / (n * n) as real).Floor as real)
  }

  lemma MulNat(a: nat, b: nat)
    ensures a * b >= 0
  {
  }

  lemma MulAtLeast(d: int, b: nat)
    requires d >= 1
    ensures d * b >= b
  {
    assert d * b == (d - 1) * b + b;
    MulNat(d - 1, b);
  }

  lemma MulLe(x: nat, y: nat, c: nat)
    requires x <= y
    ensures x * c <= y * c
  {
    assert y * c - x * c == (y - x) * c;
    MulNat(y - x, c);
  }

  /** The quotient and remainder of a natural by a positive divisor are unique. */
  lemma DivisionUnique(a: nat, b: nat, q: nat, r: nat)
    requires b > 0 && r < b && a == q * b + r
    ensures a / b == q && a % b == r
  {
    var q0, r0 := a / b, a % b;
    assert a == q0 * b + r0;
    if q > q0 {
      assert (q - q0) * b == r0 - r;
      MulAtLeast(q - q0, b);
    } else if q < q0 {
      assert (q0 - q) * b == r - r0;
      MulAtLeast(q0 - q, b);
    }
  }

  lemma FractionBelowOne(r: nat, b: nat)
    requires r < b
    ensures 0.0 <= r as real / b as real < 1.0
  {
    assert r as real < b as real;
  }

  /** The real quotient of two naturals is the integer quotient plus a fraction in [0, 1), so it floors and truncates to the integer quotient. */
  lemma FloorOfQuotient(a: nat, b: nat)
    requires b > 0
    ensures a as real / b as real == (a / b) as real + (a % b) as real / b as real
    ensures (a as real / b as real).Floor == a / b
    ensures Trunc(a as real / b as real) == a / b
  {
    var q, r := a / b, a % b;
    assert a == q * b + r;
    assert a as real == q as real * b as real + r as real;
    FractionBelowOne(r, b);
  }

  /** Dividing by `n` and then by `m` is dividing by `n * m`. */
  lemma QuotientOfQuotient(a: nat, n: nat, m: nat)
    requires n > 0 && m > 0
    ensures a / n / m == a / (n * m)
  {
    var q, r1 := a / n, a % n;
    var q2, r2 := q / m, q % m;
    assert a == q * n + r1;
    assert q == q2 * m + r2;
    assert q * n == q2 * (n * m) + r2 * n;
    MulLe(r2, m - 1, n);
    assert (m - 1) * n == n * m - n;
    DivisionUnique(a, n * m, q2, r2 * n + r1);
  }

  lemma RealQuotientOfQuotient(i: nat, n: nat)
    requires n > 0
    ensures i as real / n as real / n as real == i as real / (n * n) as real
  {
    assert (n * n) as real == n as real * n as real;
  }

  /**
    The grid decomposition: the floating-point expressions of copy `i` are
    its integer digits in base `n`, each in [0, n) for `i < n³`, and they
    recompose `i`.
  */
  lemma GridCellDigits(i: nat, n: nat)
    requires n > 0
    ensures GridCell(i, n) == Cell((i % n) as real, ((i / n) % n) as real, (i / (n * n)) as real)
    ensures i == i % n + n * ((i / n) % n) + n * n * (i / (n * n))
    ensures i < n * n * n ==> 0 <= i / (n * n) < n
  {
    var q, r := i / n, i % n;
    var fn := n as real;
    FloorOfQuotient(i, n);
    assert JsRem(i as real, fn) == r as real by {
      assert i as real == q as real * fn + r as real;
    }
    FloorOfQuotient(i, n * n);
    QuotientOfQuotient(i, n, n);
    RealQuotientOfQuotient(i, n);
    var a := i as real / fn;
    assert Trunc(a / fn) == q / n;
    YDigit(a, fn, q, n, r);
    Recompose(i, n);
    if i < n * n * n && i / (n * n) >= n {
      MulLe(n, i / (n * n), n * n);
    }
  }

  /** The middle coordinate: `(q + r / n) % n` floors to `q % n`. */
  lemma YDigit(a: real, fn: real, q: nat, n: nat, r: nat)
    requires n > 0 && fn == n as real && r < n
    requires a == q as real + r as real / fn
    requires Trunc(a / fn) == q / n
    ensures JsRem(a, fn).Floor == q % n
  {
    assert q as real == (q / n) as real * fn + (q % n) as real by {
      assert q == (q / n) * n + q % n;
    }
    assert JsRem(a, fn) == (q % n) as real + r as real / fn;
    FractionBelowOne(r, n);
  }

  /** Three base-`n` digits recompose the number. */
  lemma Recompose(i: nat, n: nat)
    requires n > 0
    ensures i == i % n + n * ((i / n) % n) + n * n * (i / (n * n))
  {
    var q := i / n;
    QuotientOfQuotient(i, n, n);
    assert i == q * n + i % n;
    assert q == (q / n) * n + q % n;
    assert q * n == n * (q % n) + n * n * (q / n);
  }

  /** The centre of copy `i` of the box: its cell times the box size, less the offset `size / 2 + boundsStart`. */
  function GridPosition(i: nat, n: nat): Vec3
    requires n > 0
  {
    var size := Sub(BoundsEnd, BoundsStart);
    var offset := Add(Div(size, 2.0), BoundsStart);
    var c := GridCell(i, n);
    Vec3(c.x * size.x - offset.x, c.y * size.y - offset.y, c.z * size.z - offset.z)
  }

  /**
    For the scene's box the offset is zero, so copy `i` sits at its cell
    times 40; with the scene's `N == 1` the only copy is at the origin.
  */
  lemma GridPositionOfScene(i: nat, n: nat)
    requires n > 0
    ensures GridPosition(i, n) == Scale(Vec3((i % n) as real, ((i / n) % n) as real, (i / (n * n)) as real), 40.0)
    ensures n == N && i < N * N * N ==> GridPosition(i, n) == Zero
  {
    assert Sub(BoundsEnd, BoundsStart) == Vec3(40.0, 40.0, 40.0);
    assert Add(Div(Vec3(40.0, 40.0, 40.0), 2.0), BoundsStart) == Zero;
    GridCellDigits(i, n);
  }

  /** The mesh of copy `j` of boid `i` is at `j * count + i` in the flat array of mesh references. */
  function MeshIndex(j: nat, i: nat, count: nat): nat {
    j * count + i
  }

  /**
    The mesh indices of the `copies` copies of `count` boids are in range,
    distinct for distinct (copy, boid) pairs, and with one copy they are
    the boid indices.
  */
  lemma MeshIndexLayout(j1: nat, i1: nat, j2: nat, i2: nat, copies: nat, count: nat)
    requires j1 < copies && j2 < copies && i1 < count && i2 < count
    ensures MeshIndex(j1, i1, count) < copies * count
    ensures MeshIndex(j1, i1, count) == MeshIndex(j2, i2, count) <==> j1 == j2 && i1 == i2
    ensures copies == 1 ==> MeshIndex(j1, i1, count) == i1
  {
    assert j1 * count + i1 < (j1 + 1) * count;
    assert (j1 + 1) * count <= copies * count;
    DivisionUnique(MeshIndex(j1, i1, count), count, j1, i1);
    DivisionUnique(MeshIndex(j2, i2, count), count, j2, i2);
  }

  // ---------------------------------------------------------------------
  // One frame, as values

  /** The tuning every boid receives from the panel in the first pass; `avoidance` is the factor the boid already had. */
  function SceneTuning(c: Controls, avoidance: real): (t: Tuning)
    ensures t.perceptionRadius == c.perceptionRadius && t.avoidanceFactor == avoidance
    ensures t.alignFactor == c.alignmentWeight && t.cohereFactor == c.cohesionWeight && t.separateFactor == c.separationWeight
    ensures t.maxSpeed == 0.1 * c.maxSpeed && t.maxForce == 0.008 * c.maxForce
  {
    Tuning(c.perceptionRadius, c.alignmentWeight, c.cohesionWeight, c.separationWeight, avoidance,
           0.1 * c.maxSpeed, 0.008 * c.maxForce)
  }

  /** The tunings once the first `m` boids have taken the panel's values. */
  function PanelTunings(c: Controls, ts: seq<Tuning>, m: int): (r: seq<Tuning>)
    ensures |r| == |ts|
    ensures forall k :: 0 <= k < |ts| && k < m ==> r[k] == SceneTuning(c, ts[k].avoidanceFactor)
    ensures forall k :: 0 <= k < |ts| && m <= k ==> r[k] == ts[k]
  {
    seq(|ts|, k requires 0 <= k < |ts| => if k < m then SceneTuning(c, ts[k].avoidanceFactor) else ts[k])
  }

  /** Boid `m`'s turn gives it the panel's tuning. */
  lemma PanelTuningsStep(c: Controls, ts: seq<Tuning>, m: int)
    requires 0 <= m < |ts|
    ensures PanelTunings(c, ts, m)[m := SceneTuning(c, ts[m].avoidanceFactor)] == PanelTunings(c, ts, m + 1)
  {
    var a, b := PanelTunings(c, ts, m)[m := SceneTuning(c, ts[m].avoidanceFactor)], PanelTunings(c, ts, m + 1);
    forall k | 0 <= k < |ts|
      ensures a[k] == b[k]
    {
    }
  }

  /** The population's positions and velocities once the first `m` boids have been wrapped into the scene's box. */
  function WrapFirst(ks: seq<Kin>, m: int): (w: seq<Kin>)
    ensures |w| == |ks|
    ensures forall k :: 0 <= k < |ks| ==> w[k].velocity == ks[k].velocity
    ensures forall k :: 0 <= k < |ks| && k < m ==> w[k].position == Wrap(ks[k].position, BoundsStart, BoundsEnd)
    ensures forall k :: 0 <= k < |ks| && m <= k ==> w[k] == ks[k]
  {
    seq(|ks|, k requires 0 <= k < |ks| =>
      if k < m then Kin(Wrap(ks[k].position, BoundsStart, BoundsEnd), ks[k].velocity) else ks[k])
  }

  /**
    A steering rule: the acceleration a boid ends its turn with, from what
    it is, its tuning, what it sees, its random draw and its acceleration
    before the turn. The frame loops are stated for any rule; the boids
    use `FlockRule`.
  */
  type Rule = (Kin, Tuning, seq<Seen>, Draw, Vec3) -> Vec3

  /** `flock` as a rule. */
  function FlockRule(sqrt: real -> real): Rule {
    (me: Kin, t: Tuning, seen: seq<Seen>, d: Draw, acc: Vec3) => Flocking.Flock(sqrt, me, t, seen, d, acc)
  }

  /** `edges` on boid `i`. */
  function WrapAt(ms: seq<Motion>, i: int): seq<Motion>
    requires 0 <= i < |ms|
  {
    ms[i := ms[i].(position := Wrap(ms[i].position, BoundsStart, BoundsEnd))]
  }

  /**
    Boid `i`'s turn in the first pass, from the motions `ms` of the
    population at that moment: it wraps into the box, then steers against
    the population as it now is.
  */
  function SceneStep(rule: Rule, ms: seq<Motion>, i: int, t: Tuning, d: Draw): (r: seq<Motion>)
    requires 0 <= i < |ms|
    ensures |r| == |ms|
    ensures forall k :: 0 <= k < |ms| && k != i ==> r[k] == ms[k]
    ensures r[i].position == Wrap(ms[i].position, BoundsStart, BoundsEnd)
    ensures r[i].velocity == ms[i].velocity && r[i].lerpVelocity == ms[i].lerpVelocity
  {
    var w := WrapAt(ms, i);
    var ks := KinsOf(w);
    w[i := w[i].(acceleration := rule(ks[i], t, View(ks, i), d, w[i].acceleration))]
  }

  /**
    The acceleration the first pass leaves on boid `k` when the frame
    starts from `ks`: it steers at its wrapped position, seeing the boids
    before it wrapped and the boids after it as they were.
  */
  function SceneSteering(rule: Rule, ks: seq<Kin>, k: int, t: Tuning, d: Draw, acc: Vec3): Vec3
    requires 0 <= k < |ks|
  {
    var w := WrapFirst(ks, k + 1);
    rule(w[k], t, View(w, k), d, acc)
  }

  /**
    The motions after the first `m` turns of the first pass, from motions
    `ms` and tunings `ts`: each visited boid wrapped and carrying its
    `SceneSteering`, every other boid as it was.
  */
  function ScenePass(rule: Rule, ms: seq<Motion>, ts: seq<Tuning>, c: Controls, draws: seq<Draw>, m: int)
    : (r: seq<Motion>)
    requires |ts| == |ms| && |draws| == |ms|
    ensures |r| == |ms|
  {
    seq(|ms|, k requires 0 <= k < |ms| =>
      if k < m then
        Motion(Wrap(ms[k].position, BoundsStart, BoundsEnd), ms[k].velocity, ms[k].lerpVelocity,
               SceneSteering(rule, KinsOf(ms), k, SceneTuning(c, ts[k].avoidanceFactor), draws[k], ms[k].acceleration))
      else ms[k])
  }

  /**
    The loop computes the pass: boid `m`'s turn, taken on the motions of
    the first `m` turns, gives the motions of the first `m + 1` turns.
  */
  lemma ScenePassStep(rule: Rule, ms: seq<Motion>, ts: seq<Tuning>, c: Controls, draws: seq<Draw>, m: int)
    requires |ts| == |ms| && |draws| == |ms| && 0 <= m < |ms|
    ensures SceneStep(rule, ScenePass(rule, ms, ts, c, draws, m), m, SceneTuning(c, ts[m].avoidanceFactor), draws[m])
            == ScenePass(rule, ms, ts, c, draws, m + 1)
  {
    var p := ScenePass(rule, ms, ts, c, draws, m);
    var q := ScenePass(rule, ms, ts, c, draws, m + 1);
    var r := SceneStep(rule, p, m, SceneTuning(c, ts[m].avoidanceFactor), draws[m]);
    var ks := KinsOf(WrapAt(p, m));
    var goal := WrapFirst(KinsOf(ms), m + 1);
    forall j | 0 <= j < |ms|
      ensures ks[j] == goal[j]
    {
      assert WrapAt(p, m)[j] == (if j == m then p[m].(position := Wrap(ms[m].position, BoundsStart, BoundsEnd)) else p[j]);
    }
    assert ks == goal;
    forall k | 0 <= k < |ms|
      ensures r[k] == q[k]
    {
      if k == m {
        assert p[m] == ms[m];
      }
    }
  }

  /** Every boid visited by the first pass is inside the box and has the panel's tuning. */
  lemma ScenePassInBox(rule: Rule, ms: seq<Motion>, ts: seq<Tuning>, c: Controls, draws: seq<Draw>, m: int, k: int)
    requires |ts| == |ms| && |draws| == |ms| && 0 <= k < |ms| && k < m
    ensures InBox(ScenePass(rule, ms, ts, c, draws, m)[k].position, BoundsStart, BoundsEnd)
    ensures PanelTunings(c, ts, m)[k] == SceneTuning(c, ts[k].avoidanceFactor)
  {
  }

  /**
    When every boid is already in the box at the start of the frame, the
    order of the first pass does not matter: every boid steers against the
    frame-start population, exactly as in the variant that wraps in the
    second pass.
  */
  lemma SceneSteeringInsideBox(rule: Rule, ks: seq<Kin>, k: int, t: Tuning, d: Draw, acc: Vec3)
    requires 0 <= k < |ks|
    requires forall j :: 0 <= j < |ks| ==> InBox(ks[j].position, BoundsStart, BoundsEnd)
    ensures SceneSteering(rule, ks, k, t, d, acc) == rule(ks[k], t, View(ks, k), d, acc)
  {
    var w := WrapFirst(ks, k + 1);
    forall j | 0 <= j < |ks|
      ensures w[j] == ks[j]
    {
    }
    assert w == ks;
  }

  // ---------------------------------------------------------------------
  // One frame, on the boids

  /** The body of the first pass for one boid: the panel's tuning, `edges`, then `flock`. */
  method SceneSteerOne(sqrt: real -> real, b: Boid, boids: seq<Boid>, c: Controls, d: Draw)
    modifies b
    ensures b.position == Wrap(old(b.position), b.boundsStart, b.boundsEnd)
    ensures b.velocity == old(b.velocity) && b.lerpVelocity == old(b.lerpVelocity)
    ensures b.Settings() == SceneTuning(c, old(b.avoidanceFactor))
    ensures b.acceleration == Flocking.Flock(sqrt, b.Kinematics(), b.Settings(), b.Sees(boids), d, old(b.acceleration))
  {
    ghost var m := b.State();
    b.SetFactors(c.alignmentWeight, c.cohesionWeight, c.separationWeight, b.avoidanceFactor);
    b.SetLimits(c.maxSpeed, c.maxForce);
    b.SetPerceptionRadius(c.perceptionRadius);
    assert b.State() == m;
    assert b.Settings() == SceneTuning(c, old(b.avoidanceFactor));
    b.Edges();
    assert b.velocity == m.velocity && b.lerpVelocity == m.lerpVelocity && b.acceleration == m.acceleration;
    assert b.Settings() == SceneTuning(c, old(b.avoidanceFactor));
    ghost var p := b.position;
    b.Flock(sqrt, boids, d);
    assert b.position == p;
  }

  /** Boid `i`'s turn of the first pass, on the population: `SceneStep` on its motions. */
  method ScenePass1Step(sqrt: real -> real, boids: seq<Boid>, i: int, c: Controls, d: Draw,
                        ghost ms: seq<Motion>, ghost ts: seq<Tuning>, ghost t: Tuning)
    requires Distinct(boids) && 0 <= i < |boids|
    requires boids[i].boundsStart == BoundsStart && boids[i].boundsEnd == BoundsEnd
    requires Motions(boids) == ms && Tunings(boids) == ts && t == SceneTuning(c, boids[i].avoidanceFactor)
    modifies boids[i]
    ensures Motions(boids) == SceneStep(FlockRule(sqrt), ms, i, t, d)
    ensures Tunings(boids) == ts[i := t]
  {
    SceneSteerOne(sqrt, boids[i], boids, c, d);
    ghost var w := WrapAt(ms, i);
    ghost var ks := KinsOf(w);
    forall k | 0 <= k < |boids|
      ensures boids[k].position == w[k].position && boids[k].velocity == w[k].velocity
    {
      if k != i {
        assert boids[k] != boids[i];
      }
    }
    KinsPointwiseOf(boids, w);
    SeesIsView(boids, i);
    ghost var goal := SceneStep(FlockRule(sqrt), ms, i, t, d);
    assert boids[i].acceleration == Flocking.Flock(sqrt, ks[i], t, View(ks, i), d, ms[i].acceleration);
    forall k | 0 <= k < |boids|
      ensures boids[k].State() == goal[k] && boids[k].Settings() == ts[i := t][k]
    {
      if k != i {
        assert boids[k] != boids[i];
      }
    }
    MotionsPointwise(boids, goal);
    TuningsPointwise(boids, ts[i := t]);
  }

  /** `Kins` of a population whose positions and velocities are those of `w`. */
  lemma KinsPointwiseOf(boids: seq<Boid>, w: seq<Motion>)
    requires |w| == |boids|
    requires forall k :: 0 <= k < |boids| ==> boids[k].position == w[k].position && boids[k].velocity == w[k].velocity
    ensures Kins(boids) == KinsOf(w)
  {
    var ks, ws := Kins(boids), KinsOf(w);
    forall k | 0 <= k < |boids|
      ensures ks[k] == ws[k]
    {
    }
  }

  /**
    The first pass of the frame (`useFrame`, first `forEach`): every boid,
    in order, takes the panel's tuning, wraps into the box and flocks.
  */
  method ScenePass1(sqrt: real -> real, boids: seq<Boid>, c: Controls, draws: seq<Draw>)
    requires Distinct(boids) && |draws| == |boids|
    requires forall k :: 0 <= k < |boids| ==> boids[k].boundsStart == BoundsStart && boids[k].boundsEnd == BoundsEnd
    modifies boids
    ensures Motions(boids) == ScenePass(FlockRule(sqrt), old(Motions(boids)), old(Tunings(boids)), c, draws, |boids|)
    ensures Tunings(boids) == PanelTunings(c, old(Tunings(boids)), |boids|)
  {
    ghost var ms, ts := Motions(boids), Tunings(boids);
    var i := 0;
    while i < |boids|
      invariant 0 <= i <= |boids|
      invariant Motions(boids) == ScenePass(FlockRule(sqrt), ms, ts, c, draws, i)
      invariant Tunings(boids) == PanelTunings(c, ts, i)
    {
      ghost var t := SceneTuning(c, ts[i].avoidanceFactor);
      assert boids[i].avoidanceFactor == ts[i].avoidanceFactor by {
        assert Tunings(boids)[i] == ts[i];
      }
      ScenePass1Step(sqrt, boids, i, c, draws[i], ScenePass(FlockRule(sqrt), ms, ts, c, draws, i), PanelTunings(c, ts, i), t);
      ScenePassStep(FlockRule(sqrt), ms, ts, c, draws, i);
      PanelTuningsStep(c, ts, i);
      i := i + 1;
    }
  }

  // ---------------------------------------------------------------------
  // The second pass, as values

  /** The motions after the first `m` boids have been integrated, each under its own speed limit. */
  function UpdateFirst(sqrt: real -> real, ms: seq<Motion>, ts: seq<Tuning>, m: int): (r: seq<Motion>)
    requires |ts| == |ms|
    ensures |r| == |ms|
  {
    seq(|ms|, k requires 0 <= k < |ms| => if k < m then Integrate(sqrt, ms[k], ts[k].maxSpeed) else ms[k])
  }

  /** Integrating boid `m` on top of the first `m` integrated boids gives the first `m + 1`. */
  lemma UpdateFirstStep(sqrt: real -> real, ms: seq<Motion>, ts: seq<Tuning>, m: int)
    requires |ts| == |ms| && 0 <= m < |ms|
    ensures var p := UpdateFirst(sqrt, ms, ts, m);
            p[m := Integrate(sqrt, p[m], ts[m].maxSpeed)] == UpdateFirst(sqrt, ms, ts, m + 1)
  {
    var p := UpdateFirst(sqrt, ms, ts, m);
    var q, r := p[m := Integrate(sqrt, p[m], ts[m].maxSpeed)], UpdateFirst(sqrt, ms, ts, m + 1);
    forall k | 0 <= k < |ms|
      ensures q[k] == r[k]
    {
    }
  }

  /**
    After the second pass every boid has shed its acceleration and moves at
    exactly its speed limit, unless its velocity and acceleration cancelled.
  */
  lemma UpdateFirstSettles(sqrt: real -> real, ms: seq<Motion>, ts: seq<Tuning>, k: int)
    requires IsSqrt(sqrt) && |ts| == |ms| && 0 <= k < |ms|
    ensures UpdateFirst(sqrt, ms, ts, |ms|)[k].acceleration == Zero
    ensures UpdateFirst(sqrt, ms, ts, |ms|)[k].position == Add(ms[k].position, ms[k].lerpVelocity)
    ensures Add(ms[k].velocity, ms[k].acceleration) != Zero
            ==> Length(sqrt, UpdateFirst(sqrt, ms, ts, |ms|)[k].velocity) == Abs(ts[k].maxSpeed)
    ensures Add(ms[k].velocity, ms[k].acceleration) == Zero
            ==> UpdateFirst(sqrt, ms, ts, |ms|)[k].velocity == Zero
  {
    IntegrateProperties(sqrt, ms[k], ts[k].maxSpeed);
  }

  /** The positions of a sequence of motions. */
  function Positions(ms: seq<Motion>): (ps: seq<Vec3>)
    ensures |ps| == |ms| && forall k :: 0 <= k < |ms| ==> ps[k] == ms[k].position
  {
    seq(|ms|, k requires 0 <= k < |ms| => ms[k].position)
  }

  /** What the meshes show when mesh `idx` shows boid `idx % |ps|`. */
  function MeshPositions(ps: seq<Vec3>, size: nat): (r: seq<Vec3>)
    requires |ps| > 0 || size == 0
    ensures |r| == size
  {
    seq(size, idx requires 0 <= idx < size => ps[idx % |ps|])
  }

  /** Copy `j` of boid `k` shows the position of boid `k`. */
  lemma MeshPositionsAt(ps: seq<Vec3>, copies: nat, j: nat, k: nat)
    requires j < copies && k < |ps|
    ensures MeshIndex(j, k, |ps|) < copies * |ps|
    ensures MeshPositions(ps, copies * |ps|)[MeshIndex(j, k, |ps|)] == ps[k]
  {
    MeshIndexLayout(j, k, j, k, copies, |ps|);
    DivisionUnique(MeshIndex(j, k, |ps|), |ps|, j, k);
  }

  /**
    The meshes while boid `m` is being copied: the meshes of the boids
    before `m`, and the first `j` meshes of boid `m`, show `ps`; the rest
    still show `shown`.
  */
  function Copying(ps: seq<Vec3>, shown: seq<Vec3>, m: int, j: int): (r: seq<Vec3>)
    requires |ps| > 0 || |shown| == 0
    ensures |r| == |shown|
  {
    seq(|shown|, idx requires 0 <= idx < |shown| =>
      var k := idx % |ps|;
      if k < m || (k == m && idx / |ps| < j) then ps[k] else shown[idx])
  }

  /** Writing copy `j` of boid `m` extends the copied meshes by one. */
  lemma CopyingStep(ps: seq<Vec3>, shown: seq<Vec3>, m: nat, j: nat, copies: nat)
    requires m < |ps| && j < copies && |shown| == copies * |ps|
    ensures MeshIndex(j, m, |ps|) < |shown|
    ensures Copying(ps, shown, m, j)[MeshIndex(j, m, |ps|) := ps[m]] == Copying(ps, shown, m, j + 1)
  {
    var at := MeshIndex(j, m, |ps|);
    MeshIndexLayout(j, m, j, m, copies, |ps|);
    DivisionUnique(at, |ps|, j, m);
    var p, q := Copying(ps, shown, m, j)[at := ps[m]], Copying(ps, shown, m, j + 1);
    forall idx | 0 <= idx < |shown|
      ensures p[idx] == q[idx]
    {
      if idx != at && idx % |ps| == m {
        assert idx / |ps| != j;
      }
    }
  }

  /** Once all `copies` meshes of boid `m` are written, boid `m` is done. */
  lemma CopyingRow(ps: seq<Vec3>, shown: seq<Vec3>, m: nat, copies: nat)
    requires m < |ps| && |shown| == copies * |ps|
    ensures Copying(ps, shown, m, copies) == Copying(ps, shown, m + 1, 0)
  {
    var p, q := Copying(ps, shown, m, copies), Copying(ps, shown, m + 1, 0);
    forall idx | 0 <= idx < |shown|
      ensures p[idx] == q[idx]
    {
      var y := idx / |ps|;
      if y >= copies {
        MulLe(copies, y, |ps|);
        assert false;
      }
    }
  }

  /** Once every boid is copied, every mesh shows its boid. */
  lemma CopyingDone(ps: seq<Vec3>, shown: seq<Vec3>)
    requires |ps| > 0 || |shown| == 0
    ensures Copying(ps, shown, |ps|, 0) == MeshPositions(ps, |shown|)
  {
  }

  // ---------------------------------------------------------------------
  // The second pass, on the boids

  /** Copies the position of boid `i` into each of its `N`³ meshes. */
  method CopyToMeshes(meshes: array<Vec3>, i: int, count: nat, position: Vec3, ghost ps: seq<Vec3>, ghost shown: seq<Vec3>,
                      ghost boids: seq<Boid>, ghost ms: seq<Motion>, ghost ts: seq<Tuning>)
    requires 0 <= i < count == |ps| && ps[i] == position
    requires |shown| == meshes.Length == N * N * N * |ps| && meshes[..] == Copying(ps, shown, i, 0)
    requires Motions(boids) == ms && Tunings(boids) == ts
    modifies meshes
    ensures meshes[..] == Copying(ps, shown, i + 1, 0)
    ensures Motions(boids) == ms && Tunings(boids) == ts
  {
    var j := 0;
    while j < N * N * N
      invariant 0 <= j <= N * N * N
      invariant meshes[..] == Copying(ps, shown, i, j)
    {
      CopyingStep(ps, shown, i, j, N * N * N);
      meshes[MeshIndex(j, i, count)] := position;
      j := j + 1;
    }
    CopyingRow(ps, shown, i, N * N * N);
  }

  /** Integrates boid `i` alone: the other boids and every tuning stay as they were. */
  method UpdateOne(sqrt: real -> real, boids: seq<Boid>, i: int, ghost ms: seq<Motion>, ghost ts: seq<Tuning>)
    requires Distinct(boids) && 0 <= i < |boids|
    requires Motions(boids) == ms && Tunings(boids) == ts
    modifies boids[i]
    ensures Motions(boids) == ms[i := Integrate(sqrt, ms[i], ts[i].maxSpeed)]
    ensures Tunings(boids) == ts
    ensures boids[i].position == Integrate(sqrt, ms[i], ts[i].maxSpeed).position
  {
    boids[i].Update(sqrt);
    ghost var goal := ms[i := Integrate(sqrt, ms[i], ts[i].maxSpeed)];
    forall k | 0 <= k < |boids|
      ensures boids[k].State() == goal[k] && boids[k].Settings() == ts[k]
    {
      if k != i {
        assert boids[k] != boids[i];
      }
    }
    MotionsPointwise(boids, goal);
    TuningsPointwise(boids, ts);
  }

  /**
    The second pass of the frame (`useFrame`, second `forEach`): every boid
    integrates, and every copy of it on the grid shows its new position.
  */
  method ScenePass2(sqrt: real -> real, boids: seq<Boid>, meshes: array<Vec3>)
    requires Distinct(boids) && meshes.Length == N * N * N * |boids|
    modifies boids, meshes
    ensures Motions(boids) == UpdateFirst(sqrt, old(Motions(boids)), old(Tunings(boids)), |boids|)
    ensures Tunings(boids) == old(Tunings(boids))
    ensures meshes[..] == MeshPositions(Positions(Motions(boids)), meshes.Length)
  {
    ghost var ms, ts, shown := Motions(boids), Tunings(boids), meshes[..];
    ghost var ps := Positions(UpdateFirst(sqrt, ms, ts, |boids|));
    var i := 0;
    while i < |boids|
      invariant 0 <= i <= |boids|
      invariant Motions(boids) == UpdateFirst(sqrt, ms, ts, i)
      invariant Tunings(boids) == ts
      invariant meshes[..] == Copying(ps, shown, i, 0)
    {
      UpdateOne(sqrt, boids, i, UpdateFirst(sqrt, ms, ts, i), ts);
      UpdateFirstStep(sqrt, ms, ts, i);
      assert ps[i] == Integrate(sqrt, ms[i], ts[i].maxSpeed).position;
      CopyToMeshes(meshes, i, |boids|, boids[i].position, ps, shown, boids, UpdateFirst(sqrt, ms, ts, i + 1), ts);
      i := i + 1;
    }
    CopyingDone(ps, shown);
  }

  /**
    At the end of a frame every boid of the scene has shed its acceleration
    and moves at exactly the panel's speed limit (a tenth of the slider),
    unless its velocity and steering cancelled, and it has moved by its
    smoothed velocity from its wrapped position.
  */
  lemma FrameSettles(sqrt: real -> real, rule: Rule, ms: seq<Motion>, ts: seq<Tuning>, c: Controls, draws: seq<Draw>, k: int)
    requires IsSqrt(sqrt) && |ts| == |ms| == |draws| && 0 <= k < |ms|
    ensures var p := ScenePass(rule, ms, ts, c, draws, |ms|);
            var e := UpdateFirst(sqrt, p, PanelTunings(c, ts, |ms|), |ms|)[k];
            && e.acceleration == Zero
            && e.position == Add(Wrap(ms[k].position, BoundsStart, BoundsEnd), ms[k].lerpVelocity)
            && (Add(p[k].velocity, p[k].acceleration) != Zero ==> Length(sqrt, e.velocity) == Abs(0.1 * c.maxSpeed))
            && (Add(p[k].velocity, p[k].acceleration) == Zero ==> e.velocity == Zero)
  {
    var p := ScenePass(rule, ms, ts, c, draws, |ms|);
    UpdateFirstSettles(sqrt, p, PanelTunings(c, ts, |ms|), k);
  }

  /** One frame of the scene: the first pass, then the second. */
  method SceneTick(sqrt: real -> real, boids: seq<Boid>, meshes: array<Vec3>, c: Controls, draws: seq<Draw>)
    requires Distinct(boids) && |draws| == |boids| && meshes.Length == N * N * N * |boids|
    requires forall k :: 0 <= k < |boids| ==> boids[k].boundsStart == BoundsStart && boids[k].boundsEnd == BoundsEnd
    modifies boids, meshes
    ensures Motions(boids) == UpdateFirst(sqrt, ScenePass(FlockRule(sqrt), old(Motions(boids)), old(Tunings(boids)), c, draws, |boids|),
                                          PanelTunings(c, old(Tunings(boids)), |boids|), |boids|)
    ensures Tunings(boids) == PanelTunings(c, old(Tunings(boids)), |boids|)
    ensures meshes[..] == MeshPositions(Positions(Motions(boids)), meshes.Length)
  {
    ScenePass1(sqrt, boids, c, draws);
    ScenePass2(sqrt, boids, meshes);
  }
}
