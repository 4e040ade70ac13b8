/**
  The alternative frame loop of `src/objets/Boids.tsx`: `count` boids (300
  by default) in the box [-dim, dim]³ (80 by default), started in the
  middle quarter of the box, stepped once per frame in two passes, with a
  frame counter that picks a new boid for the camera every 1000 frames.

  Unlike the scene of `src/objets/Scene.tsx`, the first pass here changes
  only accelerations and tunings (every boid flocks and avoids the
  obstacles), and the second wraps and integrates every boid. So every boid
  steers on the motions the frame started with, and the order in which the
  first pass visits the boids does not matter (`VisitAnyOrder`).
*/
module BoidsFrame {
  import opened Vectors
  import opened Flocking
  import opened BoidAgent
  import SceneFrame

  function BoxStart(dim: real): Vec3 {
    Vec3(-dim, -dim, -dim)
  }

  function BoxEnd(dim: real): Vec3 {
    Vec3(dim, dim, dim)
  }

  /** The seven number sliders of the control panel (the camera toggle is rendering only). */
  datatype Controls = Controls(
    alignmentWeight: real,
    cohesionWeight: real,
    separationWeight: real,
    avoidanceWeight: real,
    maxSpeed: real,
    maxForce: real,
    perceptionRadius: real)

  // ---------------------------------------------------------------------
  // Initial positions

  /** `Math.random() * width`: with a draw in [0, 1) and a width >= 0 it lies in [0, width], below the width if that is positive. */
  function Stretch(u: real, w: real): (s: real)
    ensures 0.0 <= u < 1.0 && w >= 0.0 ==> 0.0 <= s <= w
    ensures 0.0 <= u < 1.0 && w > 0.0 ==> s < w
  {
    if 0.0 <= u < 1.0 && w >= 0.0 then
      MulNonNegative(u, w);
      MulMonotone(w, u, 1.0);
      if w > 0.0 then
        MulStrict(w, u, 1.0);
        u * w
      else
        u * w
    else
      u * w
  }

  /**
    `randomInBounds`: a uniform point of the box, scaled by 0.25 towards its
    centre. With `Math.random()` values in [0, 1) it lies in [-dim/4, dim/4)³
    (in the closed cube when `dim` is 0), hence inside the box.
  */
  function RandomInQuarter(dim: real, d: Draw): (p: Vec3)
    ensures InUnit(d) && dim >= 0.0 ==> InBox(p, Vec3(-dim / 4.0, -dim / 4.0, -dim / 4.0), Vec3(dim / 4.0, dim / 4.0, dim / 4.0))
    ensures InUnit(d) && dim > 0.0 ==> p.x < dim / 4.0 && p.y < dim / 4.0 && p.z < dim / 4.0
    ensures InUnit(d) && dim >= 0.0 ==> InBox(p, BoxStart(dim), BoxEnd(dim))
  {
    Scale(Vec3(Stretch(d.a, BoxEnd(dim).x - BoxStart(dim).x) + BoxStart(dim).x,
               Stretch(d.b, BoxEnd(dim).y - BoxStart(dim).y) + BoxStart(dim).y,
               Stretch(d.c, BoxEnd(dim).z - BoxStart(dim).z) + BoxStart(dim).z), 0.25)
  }

  /** The `count` boids of the component, boid `k` at `randomInBounds()` drawn from `places[k]`. */
  method Spawn(sqrt: real -> real, dim: real, places: seq<Draw>, headings: seq<Draw>) returns (boids: seq<Boid>)
    requires |headings| == |places|
    ensures |boids| == |places| && Distinct(boids)
    ensures forall k :: 0 <= k < |boids| ==> fresh(boids[k])
    ensures forall k :: 0 <= k < |boids| ==>
              boids[k].boundsStart == BoxStart(dim) && boids[k].boundsEnd == BoxEnd(dim)
              && boids[k].State() == Motion(RandomInQuarter(dim, places[k]), SetLength(sqrt, Direction(headings[k]), 0.2), Zero, Zero)
  {
    var starts := seq(|places|, k requires 0 <= k < |places| => RandomInQuarter(dim, places[k]));
    boids := SceneFrame.Populate(sqrt, BoxStart(dim), BoxEnd(dim), starts, headings);
  }

  // ---------------------------------------------------------------------
  // The first pass, as values

  /** The tuning every boid receives from the panel in the first pass: all seven values. */
  function BoidsTuning(c: Controls): (t: Tuning)
    ensures t.perceptionRadius == c.perceptionRadius && t.avoidanceFactor == c.avoidanceWeight
    ensures t.alignFactor == c.alignmentWeight && t.cohereFactor == c.cohesionWeight && t.separateFactor == c.separationWeight
    ensures t.maxSpeed == 0.1 * c.maxSpeed && t.maxForce == 0.008 * c.maxForce
  {
    Tuning(c.perceptionRadius, c.alignmentWeight, c.cohesionWeight, c.separationWeight, c.avoidanceWeight,
           0.1 * c.maxSpeed, 0.008 * c.maxForce)
  }

  /** The tunings after the first `m` boids have been set from the panel. */
  function Tuned(ts: seq<Tuning>, t: Tuning, m: int): (r: seq<Tuning>)
    ensures |r| == |ts|
  {
    seq(|ts|, k requires 0 <= k < |ts| => if k < m then t else ts[k])
  }

  /** Setting boid `m` on top of the first `m` set boids gives the first `m + 1`. */
  lemma TunedStep(ts: seq<Tuning>, t: Tuning, m: int)
    requires 0 <= m < |ts|
    ensures Tuned(ts, t, m)[m := t] == Tuned(ts, t, m + 1)
  {
    var p, q := Tuned(ts, t, m)[m := t], Tuned(ts, t, m + 1);
    forall k | 0 <= k < |ts|
      ensures p[k] == q[k]
    {
    }
  }

  /** After the first pass every boid has the panel's tuning, whatever it had before. */
  lemma TunedAll(ts: seq<Tuning>, t: Tuning, k: int)
    requires 0 <= k < |ts|
    ensures Tuned(ts, t, |ts|)[k] == t
  {
  }

  /** What `avoid` adds to a boid's acceleration, given its own motion and tuning. */
  type Avoidance = (Kin, Tuning) -> Option<Vec3>

  /** `avoid` against the obstacles, with the ray cast `cast` and the rotation `rotate`. */
  function AvoidRule(sqrt: real -> real, rotate: (Vec3, Vec3) -> Vec3, cast: (Vec3, Vec3) -> seq<Hit>): (a: Avoidance)
    requires IsSqrt(sqrt)
  {
    (me: Kin, t: Tuning) => Flocking.Avoid(sqrt, rotate, cast, me, t)
  }

  /** The acceleration boid `k` leaves behind on its first-pass turn: `flock`, then `avoid`, on the motions `ks`. */
  function Steering(rule: SceneFrame.Rule, avoid: Avoidance, ks: seq<Kin>, k: int, t: Tuning, d: Draw, acc: Vec3): Vec3
    requires 0 <= k < |ks|
  {
    Apply(rule(ks[k], t, View(ks, k), d, acc), avoid(ks[k], t))
  }

  /** Boid `i`'s first-pass turn on the motions `ms`: it steers on `ms`, and only its acceleration changes. */
  function SteerAt(rule: SceneFrame.Rule, avoid: Avoidance, ms: seq<Motion>, i: int, t: Tuning, d: Draw): (r: seq<Motion>)
    requires 0 <= i < |ms|
    ensures |r| == |ms| && r[i] == ms[i].(acceleration := r[i].acceleration)
    ensures forall k :: 0 <= k < |ms| && k != i ==> r[k] == ms[k]
  {
    ms[i := ms[i].(acceleration := Steering(rule, avoid, KinsOf(ms), i, t, d, ms[i].acceleration))]
  }

  /**
    The motions once the boids in `done` have had their first-pass turn,
    each having steered on the motions `ms` of the frame's start.
  */
  function SteeredOver(rule: SceneFrame.Rule, avoid: Avoidance, ms: seq<Motion>, c: Controls, draws: seq<Draw>, done: set<int>)
    : (r: seq<Motion>)
    requires |draws| == |ms|
    ensures |r| == |ms|
  {
    seq(|ms|, k requires 0 <= k < |ms| =>
      if k in done then
        ms[k].(acceleration := Steering(rule, avoid, KinsOf(ms), k, BoidsTuning(c), draws[k], ms[k].acceleration))
      else ms[k])
  }

  /** The indices before `m`. */
  function Below(m: nat): (s: set<int>)
    ensures forall k :: k in s <==> 0 <= k < m
  {
    if m == 0 then {} else Below(m - 1) + {m - 1}
  }

  lemma BelowStep(m: nat)
    ensures Below(m + 1) == Below(m) + {m}
  {
  }

  /** The first pass changes no position and no velocity. */
  lemma SteeredKeepsKinematics(rule: SceneFrame.Rule, avoid: Avoidance, ms: seq<Motion>, c: Controls, draws: seq<Draw>, done: set<int>)
    requires |draws| == |ms|
    ensures KinsOf(SteeredOver(rule, avoid, ms, c, draws, done)) == KinsOf(ms)
  {
    var p, q := KinsOf(SteeredOver(rule, avoid, ms, c, draws, done)), KinsOf(ms);
    forall k | 0 <= k < |ms|
      ensures p[k] == q[k]
    {
    }
  }

  /** The turn of a boid not yet visited adds it to the visited ones, in whatever order they came. */
  lemma SteeredStep(rule: SceneFrame.Rule, avoid: Avoidance, ms: seq<Motion>, c: Controls, draws: seq<Draw>, done: set<int>, i: int)
    requires |draws| == |ms| && 0 <= i < |ms| && i !in done
    ensures SteerAt(rule, avoid, SteeredOver(rule, avoid, ms, c, draws, done), i, BoidsTuning(c), draws[i])
            == SteeredOver(rule, avoid, ms, c, draws, done + {i})
  {
    var cur := SteeredOver(rule, avoid, ms, c, draws, done);
    SteeredKeepsKinematics(rule, avoid, ms, c, draws, done);
    var p, q := SteerAt(rule, avoid, cur, i, BoidsTuning(c), draws[i]), SteeredOver(rule, avoid, ms, c, draws, done + {i});
    forall k | 0 <= k < |ms|
      ensures p[k] == q[k]
    {
    }
  }

  /** The motions after the first pass has visited the boids before `m`, in the source's order. */
  function SteeredFirst(rule: SceneFrame.Rule, avoid: Avoidance, ms: seq<Motion>, c: Controls, draws: seq<Draw>, m: int)
    : (r: seq<Motion>)
    requires |draws| == |ms|
    ensures |r| == |ms|
  {
    seq(|ms|, k requires 0 <= k < |ms| =>
      if k < m then
        ms[k].(acceleration := Steering(rule, avoid, KinsOf(ms), k, BoidsTuning(c), draws[k], ms[k].acceleration))
      else ms[k])
  }

  /** Visiting the boids before `m` in the source's order is visiting the set of them. */
  lemma SteeredFirstIsOver(rule: SceneFrame.Rule, avoid: Avoidance, ms: seq<Motion>, c: Controls, draws: seq<Draw>, m: nat)
    requires |draws| == |ms|
    ensures SteeredFirst(rule, avoid, ms, c, draws, m) == SteeredOver(rule, avoid, ms, c, draws, Below(m))
  {
    var p, q := SteeredFirst(rule, avoid, ms, c, draws, m), SteeredOver(rule, avoid, ms, c, draws, Below(m));
    forall k | 0 <= k < |ms|
      ensures p[k] == q[k]
    {
    }
  }

  /** Boid `m`'s turn after the boids before it gives the first pass up to `m + 1`. */
  lemma SteeredFirstStep(rule: SceneFrame.Rule, avoid: Avoidance, ms: seq<Motion>, c: Controls, draws: seq<Draw>, m: nat)
    requires |draws| == |ms| && m < |ms|
    ensures SteerAt(rule, avoid, SteeredFirst(rule, avoid, ms, c, draws, m), m, BoidsTuning(c), draws[m])
            == SteeredFirst(rule, avoid, ms, c, draws, m + 1)
  {
    SteeredFirstIsOver(rule, avoid, ms, c, draws, m);
    SteeredFirstIsOver(rule, avoid, ms, c, draws, m + 1);
    SteeredStep(rule, avoid, ms, c, draws, Below(m), m);
    BelowStep(m);
  }

  /** The first pass visiting the boids in the order `order`, each turn on the motions the previous turns left. */
  function Visit(rule: SceneFrame.Rule, avoid: Avoidance, ms: seq<Motion>, c: Controls, draws: seq<Draw>, order: seq<int>)
    : (r: seq<Motion>)
    requires |draws| == |ms|
    requires forall j :: 0 <= j < |order| ==> 0 <= order[j] < |ms|
    ensures |r| == |ms|
    decreases |order|
  {
    if |order| == 0 then ms
    else Visit(rule, avoid, SteerAt(rule, avoid, ms, order[0], BoidsTuning(c), draws[order[0]]), c, draws, order[1..])
  }

  /** Visiting distinct, not yet visited boids in any order adds exactly them to the visited ones. */
  lemma {:induction false} VisitSteered(rule: SceneFrame.Rule, avoid: Avoidance, ms: seq<Motion>, c: Controls, draws: seq<Draw>,
                                        done: set<int>, order: seq<int>)
    requires |draws| == |ms|
    requires forall j :: 0 <= j < |order| ==> 0 <= order[j] < |ms| && order[j] !in done
    requires forall i, j :: 0 <= i < j < |order| ==> order[i] != order[j]
    ensures Visit(rule, avoid, SteeredOver(rule, avoid, ms, c, draws, done), c, draws, order)
            == SteeredOver(rule, avoid, ms, c, draws, done + (set x | x in order))
    decreases |order|
  {
    if |order| == 0 {
      assert done + (set x | x in order) == done;
    } else {
      var o, rest := order[0], order[1..];
      var before := SteeredOver(rule, avoid, ms, c, draws, done);
      var after := SteeredOver(rule, avoid, ms, c, draws, done + {o});
      SteeredStep(rule, avoid, ms, c, draws, done, o);
      assert Visit(rule, avoid, before, c, draws, order) == Visit(rule, avoid, after, c, draws, rest);
      VisitTail(order, done, |ms|);
      VisitSteered(rule, avoid, ms, c, draws, done + {o}, rest);
    }
  }

  /** Dropping the first of distinct, not yet visited boids leaves distinct boids not visited by then either, and the same set in all. */
  lemma VisitTail(order: seq<int>, done: set<int>, n: int)
    requires |order| > 0
    requires forall j :: 0 <= j < |order| ==> 0 <= order[j] < n && order[j] !in done
    requires forall i, j :: 0 <= i < j < |order| ==> order[i] != order[j]
    ensures forall j :: 0 <= j < |order| - 1 ==> 0 <= order[1..][j] < n && order[1..][j] !in done + {order[0]}
    ensures forall i, j :: 0 <= i < j < |order| - 1 ==> order[1..][i] != order[1..][j]
    ensures (done + {order[0]}) + (set x | x in order[1..]) == done + (set x | x in order)
  {
    var rest := order[1..];
    forall j | 0 <= j < |rest|
      ensures 0 <= rest[j] < n && rest[j] !in done + {order[0]}
    {
      assert rest[j] == order[j + 1];
    }
    forall i, j | 0 <= i < j < |rest|
      ensures rest[i] != rest[j]
    {
      assert rest[i] == order[i + 1] && rest[j] == order[j + 1];
    }
    forall x
      ensures x in order <==> x == order[0] || x in rest
    {
      assert order == [order[0]] + rest;
    }
  }

  /**
    The first pass does not depend on the order in which it visits the
    boids: any order that visits every boid exactly once ends as the
    source's order `0, 1, …` does.
  */
  lemma VisitAnyOrder(rule: SceneFrame.Rule, avoid: Avoidance, ms: seq<Motion>, c: Controls, draws: seq<Draw>, order: seq<int>)
    requires |draws| == |ms|
    requires forall j :: 0 <= j < |order| ==> 0 <= order[j] < |ms|
    requires forall i, j :: 0 <= i < j < |order| ==> order[i] != order[j]
    requires forall k :: 0 <= k < |ms| ==> k in order
    ensures Visit(rule, avoid, ms, c, draws, order) == SteeredFirst(rule, avoid, ms, c, draws, |ms|)
  {
    SteeredFirstIsOver(rule, avoid, ms, c, draws, |ms|);
    var none := SteeredOver(rule, avoid, ms, c, draws, {});
    assert none == ms;
    VisitSteered(rule, avoid, ms, c, draws, {}, order);
    assert {} + (set x | x in order) == Below(|ms|);
  }

  /** Boid `k` ends the first pass with `flock` and `avoid` applied on the starting motions of every boid. */
  lemma SteeredReadsFrameStart(rule: SceneFrame.Rule, avoid: Avoidance, ms: seq<Motion>, c: Controls, draws: seq<Draw>, k: int)
    requires |draws| == |ms| && 0 <= k < |ms|
    ensures var r := SteeredFirst(rule, avoid, ms, c, draws, |ms|);
            && r[k].position == ms[k].position && r[k].velocity == ms[k].velocity && r[k].lerpVelocity == ms[k].lerpVelocity
            && r[k].acceleration == Apply(rule(KinOf(ms[k]), BoidsTuning(c), View(KinsOf(ms), k), draws[k], ms[k].acceleration),
                                          avoid(KinOf(ms[k]), BoidsTuning(c)))
  {
  }

  // ---------------------------------------------------------------------
  // The second pass, as values

  /** Boid `k`'s second-pass turn: `edges`, then `update`. */
  function Settle(sqrt: real -> real, m: Motion, lo: Vec3, hi: Vec3, maxSpeed: real): Motion {
    Integrate(sqrt, m.(position := Wrap(m.position, lo, hi)), maxSpeed)
  }

  /** The motions after the first `m` boids have been wrapped and integrated. */
  function SettledFirst(sqrt: real -> real, ms: seq<Motion>, ts: seq<Tuning>, dim: real, m: int): (r: seq<Motion>)
    requires |ts| == |ms|
    ensures |r| == |ms|
  {
    seq(|ms|, k requires 0 <= k < |ms| =>
      if k < m then Settle(sqrt, ms[k], BoxStart(dim), BoxEnd(dim), ts[k].maxSpeed) else ms[k])
  }

  /** Settling boid `m` on top of the first `m` settled boids gives the first `m + 1`. */
  lemma SettledFirstStep(sqrt: real -> real, ms: seq<Motion>, ts: seq<Tuning>, dim: real, m: int)
    requires |ts| == |ms| && 0 <= m < |ms|
    ensures var p := SettledFirst(sqrt, ms, ts, dim, m);
            p[m := Settle(sqrt, p[m], BoxStart(dim), BoxEnd(dim), ts[m].maxSpeed)] == SettledFirst(sqrt, ms, ts, dim, m + 1)
  {
    var p := SettledFirst(sqrt, ms, ts, dim, m);
    var q, r := p[m := Settle(sqrt, p[m], BoxStart(dim), BoxEnd(dim), ts[m].maxSpeed)], SettledFirst(sqrt, ms, ts, dim, m + 1);
    forall k | 0 <= k < |ms|
      ensures q[k] == r[k]
    {
    }
  }

  /**
    A settled boid has no acceleration, moves at exactly its speed limit
    unless its velocity and acceleration cancelled, and sits at its wrapped
    position moved by its smoothed velocity, so it may be outside the box
    again (`BoidAgent.UpdateCanLeaveBox`).
  */
  lemma SettleProperties(sqrt: real -> real, m: Motion, dim: real, maxSpeed: real)
    requires IsSqrt(sqrt)
    ensures Settle(sqrt, m, BoxStart(dim), BoxEnd(dim), maxSpeed).acceleration == Zero
    ensures Settle(sqrt, m, BoxStart(dim), BoxEnd(dim), maxSpeed).position == Add(Wrap(m.position, BoxStart(dim), BoxEnd(dim)), m.lerpVelocity)
    ensures Add(m.velocity, m.acceleration) != Zero
            ==> Length(sqrt, Settle(sqrt, m, BoxStart(dim), BoxEnd(dim), maxSpeed).velocity) == Abs(maxSpeed)
    ensures Add(m.velocity, m.acceleration) == Zero ==> Settle(sqrt, m, BoxStart(dim), BoxEnd(dim), maxSpeed).velocity == Zero
  {
    IntegrateProperties(sqrt, m.(position := Wrap(m.position, BoxStart(dim), BoxEnd(dim))), maxSpeed);
  }

  /** The refs after the first `m` have been given the positions `ps`. */
  function Shown(ps: seq<Vec3>, shown: seq<Vec3>, m: int): (r: seq<Vec3>)
    requires |ps| == |shown|
    ensures |r| == |shown|
  {
    seq(|shown|, k requires 0 <= k < |shown| => if k < m then ps[k] else shown[k])
  }

  /** Once every boid is shown, the refs are `ps`. */
  lemma ShownAll(ps: seq<Vec3>, shown: seq<Vec3>)
    requires |ps| == |shown|
    ensures Shown(ps, shown, |ps|) == ps
  {
  }

  /** Showing boid `m` on top of the first `m` shown boids gives the first `m + 1`. */
  lemma ShownStep(ps: seq<Vec3>, shown: seq<Vec3>, m: int)
    requires |ps| == |shown| && 0 <= m < |ps|
    ensures Shown(ps, shown, m)[m := ps[m]] == Shown(ps, shown, m + 1)
  {
    var p, q := Shown(ps, shown, m)[m := ps[m]], Shown(ps, shown, m + 1);
    forall k | 0 <= k < |ps|
      ensures p[k] == q[k]
    {
    }
  }

  /**
    At the end of a frame every boid has shed its acceleration, moves at
    exactly the panel's speed limit (a tenth of the slider) unless its
    velocity and steering cancelled, and sits at its wrapped starting
    position moved by its smoothed velocity: the steering and the wrap both
    read the frame's starting positions.
  */
  lemma FrameSettles(sqrt: real -> real, rule: SceneFrame.Rule, avoid: Avoidance, ms: seq<Motion>, ts: seq<Tuning>,
                     c: Controls, draws: seq<Draw>, dim: real, k: int)
    requires IsSqrt(sqrt) && |ts| == |ms| == |draws| && 0 <= k < |ms|
    ensures var p := SteeredFirst(rule, avoid, ms, c, draws, |ms|);
            var e := SettledFirst(sqrt, p, Tuned(ts, BoidsTuning(c), |ms|), dim, |ms|)[k];
            && e.acceleration == Zero
            && e.position == Add(Wrap(ms[k].position, BoxStart(dim), BoxEnd(dim)), ms[k].lerpVelocity)
            && (Add(p[k].velocity, p[k].acceleration) != Zero ==> Length(sqrt, e.velocity) == Abs(0.1 * c.maxSpeed))
            && (Add(p[k].velocity, p[k].acceleration) == Zero ==> e.velocity == Zero)
  {
    var p := SteeredFirst(rule, avoid, ms, c, draws, |ms|);
    SettleProperties(sqrt, p[k], dim, Tuned(ts, BoidsTuning(c), |ms|)[k].maxSpeed);
  }

  // ---------------------------------------------------------------------
  // The frame counter

  /** `time.current += 1`, back to 0 on every thousandth frame. */
  function NextTime(time: int): (r: int)
    ensures 0 <= time ==> 0 <= r < 1000 || time >= 1000
    ensures 0 <= time < 1000 ==> r == (time + 1) % 1000
  {
    if (time + 1) % 1000 == 0 then 0 else time + 1
  }

  /** `Math.floor(Math.random() * count)`. */
  function PickCamera(rand: real, count: nat): (r: int)
    ensures 0.0 <= rand < 1.0 && count > 0 ==> 0 <= r < count
  {
    if 0.0 <= rand < 1.0 && count > 0 then
      MulMonotone(count as real, rand, 1.0);
      MulNonNegative(rand, count as real);
      assert (count as real) * (1.0 - rand) > 0.0;
      (rand * count as real).Floor
    else
      (rand * count as real).Floor
  }

  /** The camera boid: a new random pick on the frames where the counter resets, the old one otherwise. */
  function NextCamera(time: int, cameraIndex: int, rand: real, count: nat): (r: int)
    ensures r != cameraIndex ==> NextTime(time) == 0
    ensures 0.0 <= rand < 1.0 && count > 0 && 0 <= cameraIndex < count ==> 0 <= r < count
  {
    if (time + 1) % 1000 == 0 then PickCamera(rand, count) else cameraIndex
  }

  /** The counter after `k` frames from 0. */
  function TimeAfter(k: nat): int {
    if k == 0 then 0 else NextTime(TimeAfter(k - 1))
  }

  /** After `k` frames the counter reads `k mod 1000`, so it never leaves [0, 999]. */
  lemma {:induction false} TimeAfterIsRemainder(k: nat)
    ensures TimeAfter(k) == k % 1000
    ensures 0 <= TimeAfter(k) < 1000
  {
    if k > 0 {
      TimeAfterIsRemainder(k - 1);
      var q, r := (k - 1) / 1000, (k - 1) % 1000;
      assert k == q * 1000 + r + 1;
      if r < 999 {
        SceneFrame.DivisionUnique(k, 1000, q, r + 1);
      } else {
        SceneFrame.DivisionUnique(k, 1000, q + 1, 0);
      }
    }
  }

  /** The `time` and `cameraIndex` refs. */
  class FrameClock {
    var time: int
    var cameraIndex: int

    /** The counter is in [0, 999] and the camera looks at one of the `count` boids. */
    ghost predicate Valid(count: nat)
      reads this
    {
      0 <= time < 1000 && (count > 0 ==> 0 <= cameraIndex < count)
    }

    constructor()
      ensures time == 0 && cameraIndex == 0
      ensures forall count: nat :: Valid(count)
    {
      time := 0;
      cameraIndex := 0;
    }

    /** The end of `useFrame`: count the frame; on every thousandth, reset the count and pick a new camera boid. */
    method Advance(rand: real, count: nat)
      requires Valid(count) && 0.0 <= rand < 1.0
      modifies this`time, this`cameraIndex
      ensures time == NextTime(old(time)) && cameraIndex == NextCamera(old(time), old(cameraIndex), rand, count)
      ensures Valid(count)
    {
      time := time + 1;
      if time % 1000 == 0 {
        time := 0;
        cameraIndex := PickCamera(rand, count);
      }
    }
  }

  // ---------------------------------------------------------------------
  // The frame, on the boids

  /** One boid of the first pass: the panel's tuning, `setBounds` (which `Boid` lacks), `flock`, `avoid`. */
  method SteerOne(sqrt: real -> real, rotate: (Vec3, Vec3) -> Vec3, cast: (Vec3, Vec3) -> seq<Hit>,
                  b: Boid, boids: seq<Boid>, c: Controls, d: Draw)
    requires IsSqrt(sqrt)
    modifies b
    ensures b.State() == old(b.State()).(acceleration := b.acceleration)
    ensures b.Settings() == BoidsTuning(c)
    ensures b.acceleration == Apply(Flocking.Flock(sqrt, b.Kinematics(), BoidsTuning(c), b.Sees(boids), d, old(b.acceleration)),
                                    Flocking.Avoid(sqrt, rotate, cast, b.Kinematics(), BoidsTuning(c)))
  {
    ghost var m := b.State();
    b.SetFactors(c.alignmentWeight, c.cohesionWeight, c.separationWeight, c.avoidanceWeight);
    b.SetLimits(c.maxSpeed, c.maxForce);
    b.SetPerceptionRadius(c.perceptionRadius);
    assert b.State() == m;
    assert b.Settings() == BoidsTuning(c);
    ghost var me, seen := b.Kinematics(), b.Sees(boids);
    b.Flock(sqrt, boids, d);
    ghost var a := Flocking.Flock(sqrt, me, BoidsTuning(c), seen, d, m.acceleration);
    assert b.acceleration == a;
    assert b.Kinematics() == me && b.Settings() == BoidsTuning(c) && b.Sees(boids) == seen;
    b.Avoid(sqrt, rotate, cast);
    assert b.Kinematics() == me && b.Settings() == BoidsTuning(c) && b.Sees(boids) == seen;
    assert b.acceleration == Apply(a, Flocking.Avoid(sqrt, rotate, cast, me, BoidsTuning(c)));
  }

  /** Boid `i`'s first-pass turn on the boids: the value-level turn `SteerAt`, and its tuning set. */
  method Pass1Step(sqrt: real -> real, rotate: (Vec3, Vec3) -> Vec3, cast: (Vec3, Vec3) -> seq<Hit>,
                   boids: seq<Boid>, i: int, c: Controls, d: Draw, ghost ms: seq<Motion>, ghost ts: seq<Tuning>)
    requires IsSqrt(sqrt) && Distinct(boids) && 0 <= i < |boids|
    requires Motions(boids) == ms && Tunings(boids) == ts
    modifies boids[i]
    ensures Motions(boids) == SteerAt(SceneFrame.FlockRule(sqrt), AvoidRule(sqrt, rotate, cast), ms, i, BoidsTuning(c), d)
    ensures Tunings(boids) == ts[i := BoidsTuning(c)]
  {
    SteerOne(sqrt, rotate, cast, boids[i], boids, c, d);
    ghost var ks := KinsOf(ms);
    forall k | 0 <= k < |boids|
      ensures boids[k].position == ms[k].position && boids[k].velocity == ms[k].velocity
    {
      if k != i {
        assert boids[k] != boids[i];
      }
    }
    SceneFrame.KinsPointwiseOf(boids, ms);
    SeesIsView(boids, i);
    ghost var goal := SteerAt(SceneFrame.FlockRule(sqrt), AvoidRule(sqrt, rotate, cast), ms, i, BoidsTuning(c), d);
    assert boids[i].acceleration
           == Apply(Flocking.Flock(sqrt, ks[i], BoidsTuning(c), View(ks, i), d, ms[i].acceleration),
                    Flocking.Avoid(sqrt, rotate, cast, ks[i], BoidsTuning(c)));
    forall k | 0 <= k < |boids|
      ensures boids[k].State() == goal[k] && boids[k].Settings() == ts[i := BoidsTuning(c)][k]
    {
      if k != i {
        assert boids[k] != boids[i];
      }
    }
    MotionsPointwise(boids, goal);
    TuningsPointwise(boids, ts[i := BoidsTuning(c)]);
  }

  /**
    The first pass of the frame (`useFrame`, first `forEach`): every boid
    takes the panel's tuning, flocks and avoids, each on the motions the
    frame started with.
  */
  method Pass1(sqrt: real -> real, rotate: (Vec3, Vec3) -> Vec3, cast: (Vec3, Vec3) -> seq<Hit>,
               boids: seq<Boid>, c: Controls, draws: seq<Draw>)
    requires IsSqrt(sqrt) && Distinct(boids) && |draws| == |boids|
    modifies boids
    ensures Motions(boids)
            == SteeredFirst(SceneFrame.FlockRule(sqrt), AvoidRule(sqrt, rotate, cast), old(Motions(boids)), c, draws, |boids|)
    ensures Tunings(boids) == Tuned(old(Tunings(boids)), BoidsTuning(c), |boids|)
  {
    ghost var ms, ts := Motions(boids), Tunings(boids);
    ghost var rule, avoid := SceneFrame.FlockRule(sqrt), AvoidRule(sqrt, rotate, cast);
    var i := 0;
    while i < |boids|
      invariant 0 <= i <= |boids|
      invariant Motions(boids) == SteeredFirst(rule, avoid, ms, c, draws, i)
      invariant Tunings(boids) == Tuned(ts, BoidsTuning(c), i)
    {
      Pass1Step(sqrt, rotate, cast, boids, i, c, draws[i], SteeredFirst(rule, avoid, ms, c, draws, i), Tuned(ts, BoidsTuning(c), i));
      SteeredFirstStep(rule, avoid, ms, c, draws, i);
      TunedStep(ts, BoidsTuning(c), i);
      i := i + 1;
    }
  }

  /** Boid `i`'s second-pass turn: `edges`, then `update`; the other boids and every tuning stay as they were. */
  method SettleOne(sqrt: real -> real, boids: seq<Boid>, i: int, dim: real, ghost ms: seq<Motion>, ghost ts: seq<Tuning>)
    requires Distinct(boids) && 0 <= i < |boids|
    requires boids[i].boundsStart == BoxStart(dim) && boids[i].boundsEnd == BoxEnd(dim)
    requires Motions(boids) == ms && Tunings(boids) == ts
    modifies boids[i]
    ensures Motions(boids) == ms[i := Settle(sqrt, ms[i], BoxStart(dim), BoxEnd(dim), ts[i].maxSpeed)]
    ensures Tunings(boids) == ts
    ensures boids[i].position == Settle(sqrt, ms[i], BoxStart(dim), BoxEnd(dim), ts[i].maxSpeed).position
  {
    boids[i].Edges();
    boids[i].Update(sqrt);
    ghost var goal := ms[i := Settle(sqrt, ms[i], BoxStart(dim), BoxEnd(dim), ts[i].maxSpeed)];
    forall k | 0 <= k < |boids|
      ensures boids[k].State() == goal[k] && boids[k].Settings() == ts[k]
    {
      if k != i {
        assert boids[k] != boids[i];
      }
    }
    MotionsPointwise(boids, goal);
    TuningsPointwise(boids, ts);
  }

  /** Copies the position of boid `i` into its ref; the boids stay as they were. */
  method ShowOne(refs: array<Vec3>, i: int, position: Vec3, ghost ps: seq<Vec3>, ghost shown: seq<Vec3>,
                 ghost boids: seq<Boid>, ghost ms: seq<Motion>, ghost ts: seq<Tuning>)
    requires 0 <= i < |ps| == |shown| == refs.Length && ps[i] == position && refs[..] == Shown(ps, shown, i)
    requires Motions(boids) == ms && Tunings(boids) == ts
    modifies refs
    ensures refs[..] == Shown(ps, shown, i + 1)
    ensures Motions(boids) == ms && Tunings(boids) == ts
  {
    ShownStep(ps, shown, i);
    refs[i] := position;
  }

  /**
    The second pass of the frame (`useFrame`, second `forEach`): every boid
    wraps into the box and integrates, and its ref shows its new position.
  */
  method Pass2(sqrt: real -> real, boids: seq<Boid>, refs: array<Vec3>, dim: real)
    requires Distinct(boids) && refs.Length == |boids|
    requires forall k :: 0 <= k < |boids| ==> boids[k].boundsStart == BoxStart(dim) && boids[k].boundsEnd == BoxEnd(dim)
    modifies boids, refs
    ensures Motions(boids) == SettledFirst(sqrt, old(Motions(boids)), old(Tunings(boids)), dim, |boids|)
    ensures Tunings(boids) == old(Tunings(boids))
    ensures refs[..] == SceneFrame.Positions(Motions(boids))
  {
    ghost var ms, ts, shown := Motions(boids), Tunings(boids), refs[..];
    ghost var ps := SceneFrame.Positions(SettledFirst(sqrt, ms, ts, dim, |boids|));
    var i := 0;
    while i < |boids|
      invariant 0 <= i <= |boids|
      invariant Motions(boids) == SettledFirst(sqrt, ms, ts, dim, i)
      invariant Tunings(boids) == ts
      invariant refs[..] == Shown(ps, shown, i)
    {
      SettleOne(sqrt, boids, i, dim, SettledFirst(sqrt, ms, ts, dim, i), ts);
      SettledFirstStep(sqrt, ms, ts, dim, i);
      assert ps[i] == Settle(sqrt, ms[i], BoxStart(dim), BoxEnd(dim), ts[i].maxSpeed).position;
      ShowOne(refs, i, boids[i].position, ps, shown, boids, SettledFirst(sqrt, ms, ts, dim, i + 1), ts);
      i := i + 1;
    }
    ShownAll(ps, shown);
  }

  /** The frame counter's step at the end of the frame; the boids stay as they were. */
  method AdvanceClock(clock: FrameClock, rand: real, count: nat, ghost boids: seq<Boid>, ghost ms: seq<Motion>, ghost ts: seq<Tuning>)
    requires clock.Valid(count) && 0.0 <= rand < 1.0
    requires Motions(boids) == ms && Tunings(boids) == ts
    modifies clock`time, clock`cameraIndex
    ensures clock.time == NextTime(old(clock.time))
    ensures clock.cameraIndex == NextCamera(old(clock.time), old(clock.cameraIndex), rand, count)
    ensures clock.Valid(count)
    ensures Motions(boids) == ms && Tunings(boids) == ts
  {
    clock.Advance(rand, count);
  }

  /** One frame of the component: the first pass, the second, then the frame counter. */
  method Tick(sqrt: real -> real, rotate: (Vec3, Vec3) -> Vec3, cast: (Vec3, Vec3) -> seq<Hit>,
              boids: seq<Boid>, refs: array<Vec3>, clock: FrameClock, dim: real, c: Controls, draws: seq<Draw>, rand: real)
    requires IsSqrt(sqrt) && Distinct(boids) && |draws| == |boids| && refs.Length == |boids|
    requires forall k :: 0 <= k < |boids| ==> boids[k].boundsStart == BoxStart(dim) && boids[k].boundsEnd == BoxEnd(dim)
    requires clock.Valid(|boids|) && 0.0 <= rand < 1.0
    modifies boids, refs, clock
    ensures Motions(boids)
            == SettledFirst(sqrt,
                            SteeredFirst(SceneFrame.FlockRule(sqrt), AvoidRule(sqrt, rotate, cast), old(Motions(boids)), c, draws, |boids|),
                            Tuned(old(Tunings(boids)), BoidsTuning(c), |boids|), dim, |boids|)
    ensures Tunings(boids) == Tuned(old(Tunings(boids)), BoidsTuning(c), |boids|)
    ensures refs[..] == SceneFrame.Positions(Motions(boids))
    ensures clock.time == NextTime(old(clock.time))
    ensures clock.cameraIndex == NextCamera(old(clock.time), old(clock.cameraIndex), rand, |boids|)
    ensures clock.Valid(|boids|)
  {
    ghost var ms0, ts0 := Motions(boids), Tunings(boids);
    ghost var ms1 := SteeredFirst(SceneFrame.FlockRule(sqrt), AvoidRule(sqrt, rotate, cast), ms0, c, draws, |boids|);
    ghost var ts1 := Tuned(ts0, BoidsTuning(c), |boids|);
    Pass1(sqrt, rotate, cast, boids, c, draws);
    assert Motions(boids) == ms1 && Tunings(boids) == ts1;
    Pass2(sqrt, boids, refs, dim);
    ghost var ms2 := SettledFirst(sqrt, ms1, ts1, dim, |boids|);
    assert Motions(boids) == ms2 && Tunings(boids) == ts1 && refs[..] == SceneFrame.Positions(ms2);
    AdvanceClock(clock, rand, |boids|, boids, ms2, ts1);
  }
}
