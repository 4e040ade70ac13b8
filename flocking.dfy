/**
  The steering laws of a boid (`src/Boid.ts`), as pure functions of what the
  boid sees.

  A boid steers by three rules computed over the other boids of the
  population — alignment, cohesion and separation — plus a small random
  jitter and, in the obstacle variant, an avoidance force. Each rule looks
  only at the neighbours: the boids that are not the boid itself and whose
  distance is strictly below the perception radius. The loops of the class
  `BoidAgent.Boid` accumulate these sums one candidate at a time; the
  functions here define what they accumulate, from the first candidate to
  the last.
*/
module Flocking {
  import opened Vectors

  datatype Option<T> = None | Some(value: T)

  /** The motion state that steering reads from a boid: where it is and where it goes. */
  datatype Kin = Kin(position: Vec3, velocity: Vec3)

  /** A candidate in the population, as the steering boid sees it. `isSelf` is reference identity. */
  datatype Seen = Seen(isSelf: bool, position: Vec3, velocity: Vec3)

  /** The tuning fields of a boid. */
  datatype Tuning = Tuning(
    perceptionRadius: real,
    alignFactor: real,
    cohereFactor: real,
    separateFactor: real,
    avoidanceFactor: real,
    maxSpeed: real,
    maxForce: real)

  /** The three `Math.random()` values drawn for one random direction. */
  datatype Draw = Draw(a: real, b: real, c: real)

  predicate InUnit(d: Draw) {
    0.0 <= d.a < 1.0 && 0.0 <= d.b < 1.0 && 0.0 <= d.c < 1.0
  }

  /** `other !== this && d < this.perceptionRadius`, with `d` the distance from the boid to `other`. */
  predicate IsNeighbour(sqrt: real -> real, here: Vec3, radius: real, o: Seen) {
    !o.isSelf && DistanceTo(sqrt, here, o.position) < radius
  }

  // ---------------------------------------------------------------------
  // The sums the three `for` loops accumulate

  /** The value of `total` after the loop: how many candidates are neighbours. */
  function NeighbourCount(sqrt: real -> real, here: Vec3, radius: real, others: seq<Seen>): (n: nat)
    ensures n <= |others|
  {
    if |others| == 0 then 0
    else
      NeighbourCount(sqrt, here, radius, others[..|others| - 1])
      + (if IsNeighbour(sqrt, here, radius, others[|others| - 1]) then 1 else 0)
  }

  /** The sum of the neighbours' velocities (`align`). */
  function VelocitySum(sqrt: real -> real, here: Vec3, radius: real, others: seq<Seen>): (v: Vec3)
    ensures NeighbourCount(sqrt, here, radius, others) == 0 ==> v == Zero
  {
    if |others| == 0 then Zero
    else
      var rest := VelocitySum(sqrt, here, radius, others[..|others| - 1]);
      var o := others[|others| - 1];
      if IsNeighbour(sqrt, here, radius, o) then Add(rest, o.velocity) else rest
  }

  /** The sum of the neighbours' positions (`cohere`). */
  function PositionSum(sqrt: real -> real, here: Vec3, radius: real, others: seq<Seen>): (v: Vec3)
    ensures NeighbourCount(sqrt, here, radius, others) == 0 ==> v == Zero
  {
    if |others| == 0 then Zero
    else
      var rest := PositionSum(sqrt, here, radius, others[..|others| - 1]);
      var o := others[|others| - 1];
      if IsNeighbour(sqrt, here, radius, o) then Add(rest, o.position) else rest
  }

  /**
    The repulsion one neighbour exerts in `separate`: the unit vector from the
    neighbour to the boid, divided by their distance. A neighbour at distance
    zero contributes nothing (see `RepulsionAsWritten` for what the source
    computes there).
  */
  function Repulsion(sqrt: real -> real, here: Vec3, o: Seen): (v: Vec3)
    ensures DistanceTo(sqrt, here, o.position) == 0.0 ==> v == Zero
  {
    var d := DistanceTo(sqrt, here, o.position);
    if d == 0.0 then Zero else Div(Normalize(sqrt, Sub(here, o.position)), d)
  }

  /** The sum of the neighbours' repulsions (`separate`). */
  function RepulsionSum(sqrt: real -> real, here: Vec3, radius: real, others: seq<Seen>): (v: Vec3)
    ensures NeighbourCount(sqrt, here, radius, others) == 0 ==> v == Zero
  {
    if |others| == 0 then Zero
    else
      var rest := RepulsionSum(sqrt, here, radius, others[..|others| - 1]);
      var o := others[|others| - 1];
      if IsNeighbour(sqrt, here, radius, o) then Add(rest, Repulsion(sqrt, here, o)) else rest
  }

  // ---------------------------------------------------------------------
  // The three rules

  /**
    The tail every rule shares: with at least one neighbour, the mean minus
    `offset`, clamped to length `maxForce`; then, in every case, scaled by the
    rule's factor.
  */
  function Steer(sqrt: real -> real, n: nat, sum: Vec3, offset: Vec3, maxForce: real, factor: real): Vec3 {
    Scale(if n > 0 then Clamped(sqrt, n, sum, offset, maxForce) else sum, factor)
  }

  /** `divideScalar(total)`, `sub(offset)`, `clampLength(0, maxForce)`. */
  function Clamped(sqrt: real -> real, n: nat, sum: Vec3, offset: Vec3, maxForce: real): Vec3
    requires n > 0
  {
    ClampLength(sqrt, Sub(Div(sum, n as real), offset), 0.0, maxForce)
  }

  /** `align`: steer towards the mean velocity of the neighbours. */
  function Align(sqrt: real -> real, me: Kin, t: Tuning, others: seq<Seen>): (v: Vec3)
    ensures NeighbourCount(sqrt, me.position, t.perceptionRadius, others) == 0 ==> v == Zero
  {
    var r := t.perceptionRadius;
    Steer(sqrt, NeighbourCount(sqrt, me.position, r, others), VelocitySum(sqrt, me.position, r, others),
          me.velocity, t.maxForce, t.alignFactor)
  }

  /** `cohere`: steer towards the mean position of the neighbours (less the boid's position and velocity). */
  function Cohere(sqrt: real -> real, me: Kin, t: Tuning, others: seq<Seen>): (v: Vec3)
    ensures NeighbourCount(sqrt, me.position, t.perceptionRadius, others) == 0 ==> v == Zero
  {
    var r := t.perceptionRadius;
    Steer(sqrt, NeighbourCount(sqrt, me.position, r, others), PositionSum(sqrt, me.position, r, others),
          Add(me.position, me.velocity), t.maxForce, t.cohereFactor)
  }

  /** `separate`: steer away from the neighbours, more strongly from the nearer ones. */
  function Separate(sqrt: real -> real, me: Kin, t: Tuning, others: seq<Seen>): (v: Vec3)
    ensures NeighbourCount(sqrt, me.position, t.perceptionRadius, others) == 0 ==> v == Zero
  {
    var r := t.perceptionRadius;
    Steer(sqrt, NeighbourCount(sqrt, me.position, r, others), RepulsionSum(sqrt, me.position, r, others),
          me.velocity, t.maxForce, t.separateFactor)
  }

  // ---------------------------------------------------------------------
  // The random jitter and the combined flocking force

  /** `new Vector3(Math.random() * 2 - 1, ...)`: a direction in the cube [-1, 1)³. */
  function Direction(d: Draw): (v: Vec3)
    ensures InUnit(d) ==> -1.0 <= v.x < 1.0 && -1.0 <= v.y < 1.0 && -1.0 <= v.z < 1.0
  {
    Vec3(d.a * 2.0 - 1.0, d.b * 2.0 - 1.0, d.c * 2.0 - 1.0)
  }

  /** `addRandomForce`: a random direction of length `maxForce / 100`. */
  function RandomForce(sqrt: real -> real, d: Draw, maxForce: real): Vec3 {
    SetLength(sqrt, Direction(d), maxForce / 100.0)
  }

  /**
    What `flock` leaves in `acceleration`, starting from `acc`: separation,
    then alignment, then cohesion, then the random jitter, each added in turn.
  */
  function Flock(sqrt: real -> real, me: Kin, t: Tuning, others: seq<Seen>, d: Draw, acc: Vec3): Vec3 {
    var afterSeparate := Add(acc, Separate(sqrt, me, t, others));
    var afterAlign := Add(afterSeparate, Align(sqrt, me, t, others));
    var afterCohere := Add(afterAlign, Cohere(sqrt, me, t, others));
    Add(afterCohere, RandomForce(sqrt, d, t.maxForce))
  }

  // ---------------------------------------------------------------------
  // Obstacle avoidance

  /** A ray hit: its distance along the ray, the hit point, and the face normal if the hit has a face. */
  datatype Hit = Hit(distance: real, point: Vec3, normal: Option<Vec3>)

  /** `clamp(1 - d / r, 0, 1)` squared: how strongly an obstacle at distance `d` repels. */
  function AvoidScale(d: real, r: real): (s: real)
    requires r != 0.0
    ensures 0.0 <= s <= 1.0
  {
    var c := Min(Max(1.0 - d / r, 0.0), 1.0);
    UnitSquare(c);
    Sq(c)
  }

  lemma UnitSquare(c: real)
    requires 0.0 <= c <= 1.0
    ensures 0.0 <= Sq(c) <= 1.0
  {
    SquareNonNegative(c);
    assert c * Id(c) <= 1.0 * Id(c);
  }

  /**
    `doAvoid(point, normal)`: `None` when the hit point is at least the
    perception radius away (the boid's acceleration is left as it is);
    otherwise the force, the normal turned about `normal × velocity` by
    `rotate` minus the velocity, scaled by the avoidance factor and the
    distance scale.
  */
  function DoAvoid(sqrt: real -> real, rotate: (Vec3, Vec3) -> Vec3, me: Kin, t: Tuning, point: Vec3, normal: Vec3)
    : (f: Option<Vec3>)
    requires IsSqrt(sqrt)
    ensures f.None? <==> DistanceTo(sqrt, point, me.position) >= t.perceptionRadius
    ensures f.Some? ==>
              Length(sqrt, f.value)
              <= Abs(t.avoidanceFactor) * Length(sqrt, Sub(rotate(normal, Cross(normal, me.velocity)), me.velocity))
  {
    var d := DistanceTo(sqrt, point, me.position);
    if d >= t.perceptionRadius then None
    else
      LengthNonNegative(sqrt, Sub(point, me.position));
      var scale := AvoidScale(d, t.perceptionRadius);
      var avoidNormal := rotate(normal, Cross(normal, me.velocity));
      Some(Damped(sqrt, Sub(avoidNormal, me.velocity), t.avoidanceFactor, scale))
  }

  /** `base` scaled by `factor * scale`, for a damping `scale` in `[0, 1]`: never longer than `|factor|` times `base`. */
  function Damped(sqrt: real -> real, base: Vec3, factor: real, scale: real): (r: Vec3)
    requires IsSqrt(sqrt) && 0.0 <= scale <= 1.0
    ensures Length(sqrt, r) <= Abs(factor) * Length(sqrt, base)
  {
    DampedBound(sqrt, base, factor, scale);
    Scale(base, factor * scale)
  }

  /**
    `avoid`: cast a ray from the boid along its normalised velocity and, if
    the first hit is within the perception radius and has a face normal,
    avoid it. `None` means the acceleration is left as it is.
  */
  function Avoid(sqrt: real -> real, rotate: (Vec3, Vec3) -> Vec3, cast: (Vec3, Vec3) -> seq<Hit>, me: Kin, t: Tuning)
    : (f: Option<Vec3>)
    requires IsSqrt(sqrt)
  {
    var hits := cast(me.position, Normalize(sqrt, me.velocity));
    if |hits| == 0 then None
    else if hits[0].distance > t.perceptionRadius then None
    else if hits[0].normal.None? then None
    else DoAvoid(sqrt, rotate, me, t, hits[0].point, hits[0].normal.value)
  }

  /** Add an optional force to an acceleration. */
  function Apply(acc: Vec3, f: Option<Vec3>): Vec3 {
    if f.Some? then Add(acc, f.value) else acc
  }

  // ---------------------------------------------------------------------
  // Properties of the rules

  /** The candidates `align`, `cohere` and `separate` take into account, in order. */
  function Neighbours(sqrt: real -> real, here: Vec3, radius: real, others: seq<Seen>): (ns: seq<Seen>)
    ensures |ns| <= |others|
    ensures forall o :: o in ns ==> o in others && IsNeighbour(sqrt, here, radius, o)
    ensures forall o :: o in others && IsNeighbour(sqrt, here, radius, o) ==> o in ns
  {
    if |others| == 0 then []
    else
      var rest := Neighbours(sqrt, here, radius, others[..|others| - 1]);
      var o := others[|others| - 1];
      assert others == others[..|others| - 1] + [o];
      if IsNeighbour(sqrt, here, radius, o) then rest + [o] else rest
  }

  /** Plain sums over a sequence of candidates, with no filtering. */
  function VelocityTotal(s: seq<Seen>): Vec3 {
    if |s| == 0 then Zero else Add(VelocityTotal(s[..|s| - 1]), s[|s| - 1].velocity)
  }

  function PositionTotal(s: seq<Seen>): Vec3 {
    if |s| == 0 then Zero else Add(PositionTotal(s[..|s| - 1]), s[|s| - 1].position)
  }

  function RepulsionTotal(sqrt: real -> real, here: Vec3, s: seq<Seen>): Vec3 {
    if |s| == 0 then Zero else Add(RepulsionTotal(sqrt, here, s[..|s| - 1]), Repulsion(sqrt, here, s[|s| - 1]))
  }

  /**
    The loops' accumulators are the plain count and sums over exactly the
    neighbours: a candidate that is the boid itself, or is not strictly
    inside the perception radius, contributes nothing.
  */
  lemma {:induction false} SumsOverNeighbours(sqrt: real -> real, here: Vec3, radius: real, others: seq<Seen>)
    ensures NeighbourCount(sqrt, here, radius, others) == |Neighbours(sqrt, here, radius, others)|
    ensures VelocitySum(sqrt, here, radius, others) == VelocityTotal(Neighbours(sqrt, here, radius, others))
    ensures PositionSum(sqrt, here, radius, others) == PositionTotal(Neighbours(sqrt, here, radius, others))
    ensures RepulsionSum(sqrt, here, radius, others) == RepulsionTotal(sqrt, here, Neighbours(sqrt, here, radius, others))
  {
    if |others| > 0 {
      var init := others[..|others| - 1];
      var o := others[|others| - 1];
      SumsOverNeighbours(sqrt, here, radius, init);
      var rest := Neighbours(sqrt, here, radius, init);
      if IsNeighbour(sqrt, here, radius, o) {
        assert (rest + [o])[..|rest|] == rest;
      }
    }
  }

  /**
    The rules depend on the population only through the neighbours: two
    populations with the same neighbours, in the same order, give the same
    three steering forces, whatever else they contain.
  */
  lemma RulesSeeOnlyNeighbours(sqrt: real -> real, me: Kin, t: Tuning, others1: seq<Seen>, others2: seq<Seen>)
    requires Neighbours(sqrt, me.position, t.perceptionRadius, others1)
          == Neighbours(sqrt, me.position, t.perceptionRadius, others2)
    ensures Align(sqrt, me, t, others1) == Align(sqrt, me, t, others2)
    ensures Cohere(sqrt, me, t, others1) == Cohere(sqrt, me, t, others2)
    ensures Separate(sqrt, me, t, others1) == Separate(sqrt, me, t, others2)
  {
    SumsOverNeighbours(sqrt, me.position, t.perceptionRadius, others1);
    SumsOverNeighbours(sqrt, me.position, t.perceptionRadius, others2);
  }

  /** A clamped and scaled steering force is no longer than `factor * maxForce` (zero if `maxForce` is negative). */
  lemma SteerBounded(sqrt: real -> real, n: nat, sum: Vec3, offset: Vec3, maxForce: real, factor: real)
    requires IsSqrt(sqrt)
    requires factor >= 0.0
    requires n > 0 || sum == Zero
    ensures Length(sqrt, Steer(sqrt, n, sum, offset, maxForce, factor)) <= factor * Max(0.0, maxForce)
  {
    if n > 0 {
      SteerBoundedWithNeighbours(sqrt, n, sum, offset, maxForce, factor);
    } else {
      SteerBoundedWithoutNeighbours(sqrt, n, sum, offset, maxForce, factor);
    }
  }

  lemma SteerBoundedWithNeighbours(sqrt: real -> real, n: nat, sum: Vec3, offset: Vec3, maxForce: real, factor: real)
    requires IsSqrt(sqrt)
    requires factor >= 0.0 && n > 0
    ensures Length(sqrt, Steer(sqrt, n, sum, offset, maxForce, factor)) <= factor * Max(0.0, maxForce)
  {
    var raw := Sub(Div(sum, n as real), offset);
    ClampedBound(sqrt, raw, maxForce);
    ScaledBound(sqrt, ClampLength(sqrt, raw, 0.0, maxForce), factor, Max(0.0, maxForce));
  }

  lemma SteerBoundedWithoutNeighbours(sqrt: real -> real, n: nat, sum: Vec3, offset: Vec3, maxForce: real, factor: real)
    requires IsSqrt(sqrt)
    requires factor >= 0.0 && n == 0 && sum == Zero
    ensures Length(sqrt, Steer(sqrt, n, sum, offset, maxForce, factor)) <= factor * Max(0.0, maxForce)
  {
    assert Steer(sqrt, n, sum, offset, maxForce, factor) == Scale(Zero, factor);
    ScaledZeroBound(sqrt, factor, Max(0.0, maxForce));
  }

  lemma ScaledZeroBound(sqrt: real -> real, f: real, m: real)
    requires IsSqrt(sqrt) && f >= 0.0 && m >= 0.0
    ensures Length(sqrt, Scale(Zero, f)) <= f * m
  {
    assert Scale(Zero, f) == Zero;
    LengthOfZero(sqrt);
    MulNonNegative(f, m);
  }

  lemma ClampedBound(sqrt: real -> real, raw: Vec3, maxForce: real)
    requires IsSqrt(sqrt)
    ensures Length(sqrt, ClampLength(sqrt, raw, 0.0, maxForce)) <= Max(0.0, maxForce)
  {
    ClampLengthLength(sqrt, raw, maxForce);
  }

  lemma ScaledBound(sqrt: real -> real, v: Vec3, factor: real, bound: real)
    requires IsSqrt(sqrt)
    requires factor >= 0.0 && Length(sqrt, v) <= bound
    ensures Length(sqrt, Scale(v, factor)) <= factor * bound
  {
    LengthOfScale(sqrt, v, factor);
    MulMonotone(factor, Length(sqrt, v), bound);
  }

  /** With a non-negative factor, `align` returns a force no longer than `alignFactor * maxForce`. */
  lemma AlignBounded(sqrt: real -> real, me: Kin, t: Tuning, others: seq<Seen>)
    requires IsSqrt(sqrt)
    requires t.alignFactor >= 0.0
    ensures Length(sqrt, Align(sqrt, me, t, others)) <= t.alignFactor * Max(0.0, t.maxForce)
  {
    var r := t.perceptionRadius;
    SteerBounded(sqrt, NeighbourCount(sqrt, me.position, r, others), VelocitySum(sqrt, me.position, r, others),
                 me.velocity, t.maxForce, t.alignFactor);
  }

  /** With a non-negative factor, `cohere` returns a force no longer than `cohereFactor * maxForce`. */
  lemma CohereBounded(sqrt: real -> real, me: Kin, t: Tuning, others: seq<Seen>)
    requires IsSqrt(sqrt)
    requires t.cohereFactor >= 0.0
    ensures Length(sqrt, Cohere(sqrt, me, t, others)) <= t.cohereFactor * Max(0.0, t.maxForce)
  {
    var r := t.perceptionRadius;
    SteerBounded(sqrt, NeighbourCount(sqrt, me.position, r, others), PositionSum(sqrt, me.position, r, others),
                 Add(me.position, me.velocity), t.maxForce, t.cohereFactor);
  }

  /** With a non-negative factor, `separate` returns a force no longer than `separateFactor * maxForce`. */
  lemma SeparateBounded(sqrt: real -> real, me: Kin, t: Tuning, others: seq<Seen>)
    requires IsSqrt(sqrt)
    requires t.separateFactor >= 0.0
    ensures Length(sqrt, Separate(sqrt, me, t, others)) <= t.separateFactor * Max(0.0, t.maxForce)
  {
    var r := t.perceptionRadius;
    SteerBounded(sqrt, NeighbourCount(sqrt, me.position, r, others), RepulsionSum(sqrt, me.position, r, others),
                 me.velocity, t.maxForce, t.separateFactor);
  }

  /** The random jitter has length `|maxForce| / 100`, except for the one draw whose direction is zero. */
  lemma RandomForceLength(sqrt: real -> real, d: Draw, maxForce: real)
    requires IsSqrt(sqrt)
    ensures Direction(d) != Zero ==> Length(sqrt, RandomForce(sqrt, d, maxForce)) == Abs(maxForce) / 100.0
    ensures Direction(d) == Zero ==> RandomForce(sqrt, d, maxForce) == Zero
  {
    SetLengthLength(sqrt, Direction(d), maxForce / 100.0);
  }

  /** With no neighbours, `flock` adds only the random jitter. */
  lemma FlockWithoutNeighbours(sqrt: real -> real, me: Kin, t: Tuning, others: seq<Seen>, d: Draw, acc: Vec3)
    requires NeighbourCount(sqrt, me.position, t.perceptionRadius, others) == 0
    ensures Flock(sqrt, me, t, others, d, acc) == Add(acc, RandomForce(sqrt, d, t.maxForce))
  {
  }

  /** The avoidance scale is one at distance zero, zero from the radius on, and never grows with the distance. */
  lemma AvoidScaleMonotone(d1: real, d2: real, r: real)
    requires r > 0.0
    requires d1 <= d2
    ensures AvoidScale(d2, r) <= AvoidScale(d1, r)
  {
    assert d1 / r <= d2 / r;
    var c1 := Min(Max(1.0 - d1 / r, 0.0), 1.0);
    var c2 := Min(Max(1.0 - d2 / r, 0.0), 1.0);
    assert 0.0 <= c2 <= c1 <= 1.0;
    SquareMonotone(c2, c1);
  }

  lemma AvoidScaleEnds(d: real, r: real)
    requires r > 0.0
    ensures AvoidScale(0.0, r) == 1.0
    ensures d >= r ==> AvoidScale(d, r) == 0.0
  {
    if d >= r {
      assert d / r >= 1.0;
    }
  }

  lemma SquareMonotone(a: real, b: real)
    requires 0.0 <= a <= b
    ensures Sq(a) <= Sq(b)
  {
    MulMonotone(a, a, b);
    MulMonotone(b, a, b);
    assert Sq(a) == a * a && Sq(b) == b * b;
  }

  /**
    `avoid` leaves the acceleration as it is when the ray hits nothing, when
    the first hit is beyond the perception radius, when it has no face
    normal, and when the hit point is at least the radius away from the boid.
  */
  lemma AvoidNoOp(sqrt: real -> real, rotate: (Vec3, Vec3) -> Vec3, cast: (Vec3, Vec3) -> seq<Hit>, me: Kin, t: Tuning)
    requires IsSqrt(sqrt)
    ensures var hits := cast(me.position, Normalize(sqrt, me.velocity));
            (|hits| == 0
             || hits[0].distance > t.perceptionRadius
             || hits[0].normal.None?
             || DistanceTo(sqrt, hits[0].point, me.position) >= t.perceptionRadius)
            ==> Avoid(sqrt, rotate, cast, me, t) == None
  {
  }

  /**
    When `avoid` does act, the first hit is within the radius and has a face
    normal, and the force is the one `doAvoid` computes for that hit.
  */
  lemma AvoidActs(sqrt: real -> real, rotate: (Vec3, Vec3) -> Vec3, cast: (Vec3, Vec3) -> seq<Hit>, me: Kin, t: Tuning)
    requires IsSqrt(sqrt)
    ensures var hits := cast(me.position, Normalize(sqrt, me.velocity));
            var f := Avoid(sqrt, rotate, cast, me, t);
            f.Some? ==>
              |hits| > 0 && hits[0].distance <= t.perceptionRadius && hits[0].normal.Some?
              && DistanceTo(sqrt, hits[0].point, me.position) < t.perceptionRadius
              && f == DoAvoid(sqrt, rotate, me, t, hits[0].point, hits[0].normal.value)
  {
  }

  /** Scaling by `k * s` with `s` in `[0, 1]` gives a vector no longer than `|k|` times the original. */
  lemma DampedBound(sqrt: real -> real, base: Vec3, k: real, s: real)
    requires IsSqrt(sqrt)
    requires 0.0 <= s <= 1.0
    ensures Length(sqrt, Scale(base, k * s)) <= Abs(k) * Length(sqrt, base)
  {
    LengthOfScale(sqrt, base, k * s);
    LengthNonNegative(sqrt, base);
    ScaledFactorBound(k, s, Length(sqrt, base));
  }

  lemma ScaledFactorBound(k: real, s: real, l: real)
    requires 0.0 <= s <= 1.0 && l >= 0.0
    ensures Abs(k * s) * l <= Abs(k) * l
  {
    var a := Abs(k);
    var b := a * s;
    assert Abs(k * s) == b;
    assert a - b == a * (1.0 - s);
    MulNonNegative(a, 1.0 - s);
    MulMonotone(l, b, a);
    assert b * l == l * b && a * l == l * a;
  }

  /** The closer of two points within the radius gets at least as strong an avoidance force, for the same hit normal. */
  lemma DoAvoidMonotone(sqrt: real -> real, rotate: (Vec3, Vec3) -> Vec3, me: Kin, t: Tuning, p1: Vec3, p2: Vec3, normal: Vec3)
    requires IsSqrt(sqrt)
    requires DistanceTo(sqrt, p1, me.position) <= DistanceTo(sqrt, p2, me.position) < t.perceptionRadius
    ensures DoAvoid(sqrt, rotate, me, t, p1, normal).Some? && DoAvoid(sqrt, rotate, me, t, p2, normal).Some?
    ensures Length(sqrt, DoAvoid(sqrt, rotate, me, t, p2, normal).value)
            <= Length(sqrt, DoAvoid(sqrt, rotate, me, t, p1, normal).value)
  {
    var r := t.perceptionRadius;
    var d1 := DistanceTo(sqrt, p1, me.position);
    var d2 := DistanceTo(sqrt, p2, me.position);
    LengthNonNegative(sqrt, Sub(p1, me.position));
    LengthNonNegative(sqrt, Sub(p2, me.position));
    AvoidScaleMonotone(d1, d2, r);
    var base := Sub(rotate(normal, Cross(normal, me.velocity)), me.velocity);
    DampedMonotone(sqrt, base, t.avoidanceFactor, AvoidScale(d2, r), AvoidScale(d1, r));
  }

  /** A smaller scale in `[0, 1]` gives a force no longer than a larger one. */
  lemma DampedMonotone(sqrt: real -> real, base: Vec3, k: real, s2: real, s1: real)
    requires IsSqrt(sqrt)
    requires 0.0 <= s2 <= s1 <= 1.0
    ensures Length(sqrt, Damped(sqrt, base, k, s2)) <= Length(sqrt, Damped(sqrt, base, k, s1))
  {
    AbsOfProduct(k, s2);
    AbsOfProduct(k, s1);
    MulMonotone(Abs(k), s2, s1);
    LengthOfScaleMonotone(sqrt, base, k * s2, k * s1);
  }

  lemma AbsOfProduct(k: real, s: real)
    requires s >= 0.0
    ensures Abs(k * s) == Abs(k) * s
  {
  }

  /** A neighbour at a positive distance `d` pushes with strength `1 / d`. */
  lemma RepulsionLength(sqrt: real -> real, here: Vec3, o: Seen)
    requires IsSqrt(sqrt)
    requires DistanceTo(sqrt, here, o.position) > 0.0
    ensures Length(sqrt, Repulsion(sqrt, here, o)) == 1.0 / DistanceTo(sqrt, here, o.position)
  {
    var d := DistanceTo(sqrt, here, o.position);
    var off := Sub(here, o.position);
    LengthZeroIff(sqrt, off);
    NormalizeLength(sqrt, off);
    LengthOfScale(sqrt, Normalize(sqrt, off), 1.0 / d);
    assert Abs(1.0 / d) == 1.0 / d;
  }

  /** Two boids repel each other equally and in opposite directions. */
  lemma RepulsionAntisymmetric(sqrt: real -> real, a: Vec3, b: Vec3, selfA: bool, velA: Vec3, selfB: bool, velB: Vec3)
    ensures Repulsion(sqrt, a, Seen(selfB, b, velB)) == Scale(Repulsion(sqrt, b, Seen(selfA, a, velA)), -1.0)
  {
    var ab := Sub(a, b);
    var ba := Sub(b, a);
    assert ba == Scale(ab, -1.0);
    SquareOfNegation(ab.x);
    SquareOfNegation(ab.y);
    SquareOfNegation(ab.z);
    assert LengthSq(ba) == LengthSq(ab);
    var d := DistanceTo(sqrt, a, b);
    assert DistanceTo(sqrt, b, a) == d;
    if d != 0.0 {
      var u := 1.0 / NonZero(d);
      var w := 1.0 / d;
      assert Repulsion(sqrt, a, Seen(selfB, b, velB)) == Scale(Scale(ab, u), w);
      assert Repulsion(sqrt, b, Seen(selfA, a, velA)) == Scale(Scale(ba, u), w);
    }
  }

  // ---------------------------------------------------------------------
  // `separate` as written: dividing by a zero distance

  /**
    The repulsion as the source computes it: `diff.normalize()` then
    `diff.divideScalar(d)`. At distance zero the normalised offset is the
    zero vector and the division multiplies it by `1 / 0 = Infinity`, which
    gives NaN in every component; `None` stands for that NaN vector.
  */
  function RepulsionAsWritten(sqrt: real -> real, here: Vec3, o: Seen): (v: Option<Vec3>)
    ensures v.None? <==> DistanceTo(sqrt, here, o.position) == 0.0
  {
    var d := DistanceTo(sqrt, here, o.position);
    if d == 0.0 then None else Some(Div(Normalize(sqrt, Sub(here, o.position)), d))
  }

  /** `separate` as written; a NaN from one neighbour makes the whole sum, and so the result, NaN. */
  function RepulsionSumAsWritten(sqrt: real -> real, here: Vec3, radius: real, others: seq<Seen>): Option<Vec3> {
    if |others| == 0 then Some(Zero)
    else
      var rest := RepulsionSumAsWritten(sqrt, here, radius, others[..|others| - 1]);
      var o := others[|others| - 1];
      if !IsNeighbour(sqrt, here, radius, o) then rest
      else match (rest, RepulsionAsWritten(sqrt, here, o))
        case (Some(s), Some(p)) => Some(Add(s, p))
        case _ => None
  }

  function SeparateAsWritten(sqrt: real -> real, me: Kin, t: Tuning, others: seq<Seen>): Option<Vec3> {
    var r := t.perceptionRadius;
    match RepulsionSumAsWritten(sqrt, me.position, r, others)
    case None => None
    case Some(sum) =>
      Some(Steer(sqrt, NeighbourCount(sqrt, me.position, r, others), sum, me.velocity, t.maxForce, t.separateFactor))
  }

  predicate HasCoincidentNeighbour(sqrt: real -> real, here: Vec3, radius: real, others: seq<Seen>) {
    exists i :: 0 <= i < |others| && IsNeighbour(sqrt, here, radius, others[i])
                && DistanceTo(sqrt, here, others[i].position) == 0.0
  }

  /**
    The source's `separate` is NaN exactly when a neighbour sits at distance
    zero; otherwise it agrees with `Separate`.
  */
  lemma {:induction false} RepulsionSumAsWrittenNaN(sqrt: real -> real, here: Vec3, radius: real, others: seq<Seen>)
    ensures RepulsionSumAsWritten(sqrt, here, radius, others).None? <==> HasCoincidentNeighbour(sqrt, here, radius, others)
    ensures !HasCoincidentNeighbour(sqrt, here, radius, others)
            ==> RepulsionSumAsWritten(sqrt, here, radius, others) == Some(RepulsionSum(sqrt, here, radius, others))
  {
    if |others| > 0 {
      var init := others[..|others| - 1];
      var o := others[|others| - 1];
      RepulsionSumAsWrittenNaN(sqrt, here, radius, init);
      if HasCoincidentNeighbour(sqrt, here, radius, init) {
        var i :| 0 <= i < |init| && IsNeighbour(sqrt, here, radius, init[i])
                 && DistanceTo(sqrt, here, init[i].position) == 0.0;
        assert others[i] == init[i];
      }
      if HasCoincidentNeighbour(sqrt, here, radius, others) {
        var i :| 0 <= i < |others| && IsNeighbour(sqrt, here, radius, others[i])
                 && DistanceTo(sqrt, here, others[i].position) == 0.0;
        if i < |init| {
          assert init[i] == others[i];
        }
      }
    }
  }

  lemma SeparateAsWrittenAgrees(sqrt: real -> real, me: Kin, t: Tuning, others: seq<Seen>)
    ensures SeparateAsWritten(sqrt, me, t, others).None?
            <==> HasCoincidentNeighbour(sqrt, me.position, t.perceptionRadius, others)
    ensures !HasCoincidentNeighbour(sqrt, me.position, t.perceptionRadius, others)
            ==> SeparateAsWritten(sqrt, me, t, others) == Some(Separate(sqrt, me, t, others))
  {
    RepulsionSumAsWrittenNaN(sqrt, me.position, t.perceptionRadius, others);
  }

  /**
    Two distinct boids at the same point, with a positive perception radius:
    the source's `separate` is NaN, while `Separate` gives a force of length
    at most `separateFactor * maxForce`.
  */
  lemma CoincidentBoidsGiveNaN(sqrt: real -> real, p: Vec3, v: Vec3, w: Vec3, t: Tuning)
    requires IsSqrt(sqrt)
    requires t.perceptionRadius > 0.0
    ensures SeparateAsWritten(sqrt, Kin(p, v), t, [Seen(false, p, w)]).None?
    ensures t.separateFactor >= 0.0
            ==> Length(sqrt, Separate(sqrt, Kin(p, v), t, [Seen(false, p, w)])) <= t.separateFactor * Max(0.0, t.maxForce)
  {
    var others := [Seen(false, p, w)];
    assert Sub(p, p) == Zero;
    LengthZeroIff(sqrt, Zero);
    assert IsNeighbour(sqrt, p, t.perceptionRadius, others[0]);
    assert HasCoincidentNeighbour(sqrt, p, t.perceptionRadius, others);
    SeparateAsWrittenAgrees(sqrt, Kin(p, v), t, others);
    if t.separateFactor >= 0.0 {
      SeparateBounded(sqrt, Kin(p, v), t, others);
    }
  }
}
