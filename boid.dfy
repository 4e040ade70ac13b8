/**
  The boid agent of `src/Boid.ts`: a class whose methods update its motion
  state and tuning in place.

  three.js `Vector3` objects are modelled as `Vec3` values. No two boids
  share a position, velocity, lerped velocity or acceleration object, and
  the frame loops copy positions rather than keep references, so value
  semantics loses nothing; the bounds objects, which all boids of a
  population share, are never written and become `const` fields.
*/
module BoidAgent {
  import opened Vectors
  import opened Flocking

  // ---------------------------------------------------------------------
  // The boundary rule of `edges`

  /**
    One axis of `edges`: a coordinate above the end wraps to exactly the
    start, one below the start wraps to exactly the end, and one in range
    stays where it is.
  */
  function WrapAxis(p: real, lo: real, hi: real): (r: real)
    ensures lo <= hi ==> lo <= r <= hi
    ensures lo <= p <= hi ==> r == p
    ensures p > hi ==> r == lo
    ensures p < lo && lo <= hi ==> r == hi
  {
    if p > hi then lo else if p < lo then hi else p
  }

  predicate Ordered(lo: Vec3, hi: Vec3) {
    lo.x <= hi.x && lo.y <= hi.y && lo.z <= hi.z
  }

  predicate InBox(p: Vec3, lo: Vec3, hi: Vec3) {
    lo.x <= p.x <= hi.x && lo.y <= p.y <= hi.y && lo.z <= p.z <= hi.z
  }

  /** The position after `edges`: every axis wrapped. */
  function Wrap(p: Vec3, lo: Vec3, hi: Vec3): (r: Vec3)
    ensures Ordered(lo, hi) ==> InBox(r, lo, hi)
    ensures InBox(p, lo, hi) ==> r == p
  {
    Vec3(WrapAxis(p.x, lo.x, hi.x), WrapAxis(p.y, lo.y, hi.y), WrapAxis(p.z, lo.z, hi.z))
  }

  /** Wrapping twice is wrapping once, even for a box whose start lies beyond its end on some axis. */
  lemma WrapIdempotent(p: Vec3, lo: Vec3, hi: Vec3)
    ensures Wrap(Wrap(p, lo, hi), lo, hi) == Wrap(p, lo, hi)
  {
    WrapAxisIdempotent(p.x, lo.x, hi.x);
    WrapAxisIdempotent(p.y, lo.y, hi.y);
    WrapAxisIdempotent(p.z, lo.z, hi.z);
  }

  lemma WrapAxisIdempotent(p: real, lo: real, hi: real)
    ensures WrapAxis(WrapAxis(p, lo, hi), lo, hi) == WrapAxis(p, lo, hi)
  {
    if lo > hi && p <= hi && p < lo {
      assert WrapAxis(p, lo, hi) == hi;
    }
  }

  // ---------------------------------------------------------------------
  // The integration step of `update`

  /** The four vectors a boid updates in place. */
  datatype Motion = Motion(position: Vec3, velocity: Vec3, lerpVelocity: Vec3, acceleration: Vec3)

  /**
    What `update` leaves: the position moves by the old lerped velocity, the
    acceleration is added to the velocity and then multiplied by zero, the
    velocity is set to length `maxSpeed`, and the lerped velocity moves 90%
    of the way towards the new velocity.
  */
  function Integrate(sqrt: real -> real, m: Motion, maxSpeed: real): Motion {
    var v := SetLength(sqrt, Add(m.velocity, m.acceleration), maxSpeed);
    Motion(Add(m.position, m.lerpVelocity), v, Lerp(m.lerpVelocity, v, 0.9), Scale(m.acceleration, 0.0))
  }

  /**
    After `update` the acceleration is zero and the speed is `|maxSpeed|`,
    unless velocity plus acceleration was the zero vector, which stays zero.
  */
  lemma IntegrateProperties(sqrt: real -> real, m: Motion, maxSpeed: real)
    requires IsSqrt(sqrt)
    ensures Integrate(sqrt, m, maxSpeed).acceleration == Zero
    ensures Add(m.velocity, m.acceleration) != Zero
            ==> Length(sqrt, Integrate(sqrt, m, maxSpeed).velocity) == Abs(maxSpeed)
    ensures Add(m.velocity, m.acceleration) == Zero ==> Integrate(sqrt, m, maxSpeed).velocity == Zero
  {
    SetLengthLength(sqrt, Add(m.velocity, m.acceleration), maxSpeed);
  }

  /**
    The position after `update` is outside the box whenever a wrapped
    position sits on a face and the lerped velocity points out through it:
    the in-box guarantee belongs to `edges`, not to `update`.
  */
  lemma UpdateCanLeaveBox(sqrt: real -> real, lo: Vec3, hi: Vec3, v: Vec3, l: Vec3, a: Vec3, maxSpeed: real)
    requires Ordered(lo, hi)
    requires l.x > 0.0
    ensures var m := Motion(Wrap(Vec3(lo.x - 1.0, lo.y, lo.z), lo, hi), v, l, a);
            InBox(m.position, lo, hi) && !InBox(Integrate(sqrt, m, maxSpeed).position, lo, hi)
  {
    var p := Wrap(Vec3(lo.x - 1.0, lo.y, lo.z), lo, hi);
    assert p.x == hi.x;
  }

  // ---------------------------------------------------------------------
  // The population as values

  /** The candidates a boid at index `j` sees in a population whose motion is `ks`. */
  function View(ks: seq<Kin>, j: int): (s: seq<Seen>)
    ensures |s| == |ks|
    ensures forall k :: 0 <= k < |ks| ==> s[k] == Seen(k == j, ks[k].position, ks[k].velocity)
  {
    if |ks| == 0 then [] else View(ks[..|ks| - 1], j) + [Seen(|ks| - 1 == j, ks[|ks| - 1].position, ks[|ks| - 1].velocity)]
  }

  /**
    A boid never counts itself: in the view of boid `j`, exactly the entry
    at `j` is marked as itself, so it is never one of its own neighbours.
  */
  lemma ViewExcludesSelf(sqrt: real -> real, ks: seq<Kin>, j: int, radius: real)
    requires 0 <= j < |ks|
    ensures !IsNeighbour(sqrt, ks[j].position, radius, View(ks, j)[j])
    ensures forall k :: 0 <= k < |ks| && k != j ==> !View(ks, j)[k].isSelf
  {
  }

  predicate Distinct(boids: seq<Boid>) {
    forall i, j :: 0 <= i < j < |boids| ==> boids[i] != boids[j]
  }

  /** Position and velocity of every boid, in order. */
  function Kins(boids: seq<Boid>): (ks: seq<Kin>)
    reads boids`position, boids`velocity
    ensures |ks| == |boids|
    ensures forall k :: 0 <= k < |boids| ==> ks[k] == Kin(boids[k].position, boids[k].velocity)
  {
    if |boids| == 0 then []
    else Kins(boids[..|boids| - 1]) + [Kin(boids[|boids| - 1].position, boids[|boids| - 1].velocity)]
  }

  /** The position and velocity a motion state shows to the other boids. */
  function KinOf(m: Motion): Kin {
    Kin(m.position, m.velocity)
  }

  function KinsOf(ms: seq<Motion>): (ks: seq<Kin>)
    ensures |ks| == |ms|
    ensures forall k :: 0 <= k < |ms| ==> ks[k] == KinOf(ms[k])
  {
    seq(|ms|, k requires 0 <= k < |ms| => KinOf(ms[k]))
  }

  /** The motion state of every boid, in order. */
  function Motions(boids: seq<Boid>): (ms: seq<Motion>)
    reads boids`position, boids`velocity, boids`lerpVelocity, boids`acceleration
    ensures |ms| == |boids|
    ensures forall k :: 0 <= k < |boids| ==> ms[k] == boids[k].State()
  {
    if |boids| == 0 then []
    else Motions(boids[..|boids| - 1]) + [boids[|boids| - 1].State()]
  }

  /** The tuning of every boid, in order. */
  function Tunings(boids: seq<Boid>): (ts: seq<Tuning>)
    reads boids`perceptionRadius, boids`alignFactor, boids`cohereFactor, boids`separateFactor,
          boids`avoidanceFactor, boids`maxSpeed, boids`maxForce
    ensures |ts| == |boids|
    ensures forall k :: 0 <= k < |boids| ==> ts[k] == boids[k].Settings()
  {
    if |boids| == 0 then []
    else Tunings(boids[..|boids| - 1]) + [boids[|boids| - 1].Settings()]
  }

  /** `Kins` is the visible part of `Motions`. */
  lemma KinsOfMotions(boids: seq<Boid>)
    ensures Kins(boids) == KinsOf(Motions(boids))
  {
    var ks, ws := Kins(boids), KinsOf(Motions(boids));
    forall k | 0 <= k < |boids|
      ensures ks[k] == ws[k]
    {
    }
  }

  /** `Motions` is determined by the boids' motion states. */
  lemma MotionsPointwise(boids: seq<Boid>, ms: seq<Motion>)
    requires |ms| == |boids|
    requires forall k :: 0 <= k < |boids| ==> boids[k].State() == ms[k]
    ensures Motions(boids) == ms
  {
    var now := Motions(boids);
    forall k | 0 <= k < |boids|
      ensures now[k] == ms[k]
    {
    }
  }

  /** `Tunings` is determined by the boids' tunings. */
  lemma TuningsPointwise(boids: seq<Boid>, ts: seq<Tuning>)
    requires |ts| == |boids|
    requires forall k :: 0 <= k < |boids| ==> boids[k].Settings() == ts[k]
    ensures Tunings(boids) == ts
  {
    var now := Tunings(boids);
    forall k | 0 <= k < |boids|
      ensures now[k] == ts[k]
    {
    }
  }

  // ---------------------------------------------------------------------
  // The class

  class Boid {
    var position: Vec3
    var velocity: Vec3
    var lerpVelocity: Vec3
    var acceleration: Vec3

    var perceptionRadius: real

    var alignFactor: real
    var cohereFactor: real
    var separateFactor: real
    var avoidanceFactor: real

    const baseMaxForce: real := 0.008
    const baseMaxSpeed: real := 0.1
    var maxForce: real
    var maxSpeed: real

    const boundsStart: Vec3
    const boundsEnd: Vec3

    /** The motion state. */
    function State(): Motion
      reads this`position, this`velocity, this`lerpVelocity, this`acceleration
    {
      Motion(position, velocity, lerpVelocity, acceleration)
    }

    /** What the steering rules read from the boid itself. */
    function Kinematics(): Kin
      reads this`position, this`velocity
    {
      Kin(position, velocity)
    }

    /** The tuning fields. */
    function Settings(): Tuning
      reads this`perceptionRadius, this`alignFactor, this`cohereFactor, this`separateFactor,
            this`avoidanceFactor, this`maxSpeed, this`maxForce
    {
      Tuning(perceptionRadius, alignFactor, cohereFactor, separateFactor, avoidanceFactor, maxSpeed, maxForce)
    }

    /** The population as this boid iterates over it: `other !== this` becomes `isSelf`. */
    function Sees(boids: seq<Boid>): (s: seq<Seen>)
      reads boids`position, boids`velocity
      ensures |s| == |boids|
      ensures forall k :: 0 <= k < |boids| ==> s[k] == Seen(boids[k] == this, boids[k].position, boids[k].velocity)
    {
      if |boids| == 0 then []
      else
        var o := boids[|boids| - 1];
        Sees(boids[..|boids| - 1]) + [Seen(o == this, o.position, o.velocity)]
    }

    /**
      A new boid: at the origin, at rest apart from its random heading scaled
      to the initial `maxSpeed`, with the default tuning.
    */
    constructor(boundsStart: Vec3, boundsEnd: Vec3, sqrt: real -> real, heading: Draw)
      ensures this.boundsStart == boundsStart && this.boundsEnd == boundsEnd
      ensures position == Zero && lerpVelocity == Zero && acceleration == Zero
      ensures velocity == SetLength(sqrt, Direction(heading), 0.2)
      ensures Settings() == Tuning(5.0, 1.0, 1.0, 1.0, 1.0, 0.2, 0.05)
    {
      this.boundsStart := boundsStart;
      this.boundsEnd := boundsEnd;
      position := Zero;
      lerpVelocity := Zero;
      acceleration := Zero;
      perceptionRadius := 5.0;
      alignFactor := 1.0;
      cohereFactor := 1.0;
      separateFactor := 1.0;
      avoidanceFactor := 1.0;
      maxForce := 0.05;
      maxSpeed := 0.2;
      new;
      velocity := Scale(Normalize(sqrt, Direction(heading)), maxSpeed);
    }

    /** `edges`: wrap each coordinate that has left the box to the opposite face. */
    method Edges()
      modifies this`position
      ensures position == Wrap(old(position), boundsStart, boundsEnd)
    {
      if position.x > boundsEnd.x {
        position := position.(x := boundsStart.x);
      } else if position.x < boundsStart.x {
        position := position.(x := boundsEnd.x);
      }
      if position.y > boundsEnd.y {
        position := position.(y := boundsStart.y);
      } else if position.y < boundsStart.y {
        position := position.(y := boundsEnd.y);
      }
      if position.z > boundsEnd.z {
        position := position.(z := boundsStart.z);
      } else if position.z < boundsStart.z {
        position := position.(z := boundsEnd.z);
      }
    }

    /** The tail of `align`: average the sum, subtract the velocity, clamp, then weight. */
    method AlignTail(sqrt: real -> real, total: nat, sum: Vec3, factor: real) returns (steering: Vec3)
      ensures steering == Steer(sqrt, total, sum, velocity, maxForce, factor)
    {
      steering := sum;
      if total > 0 {
        steering := Div(steering, total as real);
        steering := Sub(steering, velocity);
        steering := ClampLength(sqrt, steering, 0.0, maxForce);
      }
      steering := Scale(steering, factor);
    }

    /** `align`: the loop sums the neighbours' velocities and counts them. */
    method Align(sqrt: real -> real, boids: seq<Boid>) returns (steering: Vec3)
      ensures steering == Flocking.Align(sqrt, Kinematics(), Settings(), Sees(boids))
    {
      steering := Zero;
      var total: nat := 0;
      ghost var seen := Sees(boids);
      for i := 0 to |boids|
        invariant total == NeighbourCount(sqrt, position, perceptionRadius, seen[..i])
        invariant steering == VelocitySum(sqrt, position, perceptionRadius, seen[..i])
      {
        var other := boids[i];
        var d := DistanceTo(sqrt, position, other.position);
        assert seen[..i + 1][..i] == seen[..i];
        if other != this && d < perceptionRadius {
          steering := Add(steering, other.velocity);
          total := total + 1;
        }
      }
      assert seen[..|boids|] == seen;
      steering := AlignTail(sqrt, total, steering, alignFactor);
    }

    /** `cohere`: the loop sums the neighbours' positions and counts them. */
    method Cohere(sqrt: real -> real, boids: seq<Boid>) returns (steering: Vec3)
      ensures steering == Flocking.Cohere(sqrt, Kinematics(), Settings(), Sees(boids))
    {
      steering := Zero;
      var total: nat := 0;
      ghost var seen := Sees(boids);
      for i := 0 to |boids|
        invariant total == NeighbourCount(sqrt, position, perceptionRadius, seen[..i])
        invariant steering == PositionSum(sqrt, position, perceptionRadius, seen[..i])
      {
        var other := boids[i];
        var d := DistanceTo(sqrt, position, other.position);
        assert seen[..i + 1][..i] == seen[..i];
        if other != this && d < perceptionRadius {
          steering := Add(steering, other.position);
          total := total + 1;
        }
      }
      assert seen[..|boids|] == seen;
      ghost var sum := steering;
      if total > 0 {
        steering := Div(steering, total as real);
        ghost var mean := steering;
        steering := Sub(steering, position);
        steering := Sub(steering, velocity);
        assert steering == Sub(mean, Add(position, velocity));
        steering := ClampLength(sqrt, steering, 0.0, maxForce);
        assert steering == Clamped(sqrt, total, sum, Add(position, velocity), maxForce);
      }
      steering := Scale(steering, cohereFactor);
      assert steering == Steer(sqrt, total, sum, Add(position, velocity), maxForce, cohereFactor);
    }

    /**
      `separate`: the loop sums, over the neighbours, the unit offset from the
      neighbour divided by its distance. A neighbour at distance zero adds the
      zero vector here; the source divides by zero there (see
      `Flocking.SeparateAsWritten`).
    */
    method Separate(sqrt: real -> real, boids: seq<Boid>) returns (steering: Vec3)
      ensures steering == Flocking.Separate(sqrt, Kinematics(), Settings(), Sees(boids))
    {
      steering := Zero;
      var total: nat := 0;
      ghost var seen := Sees(boids);
      for i := 0 to |boids|
        invariant total == NeighbourCount(sqrt, position, perceptionRadius, seen[..i])
        invariant steering == RepulsionSum(sqrt, position, perceptionRadius, seen[..i])
      {
        var other := boids[i];
        var d := DistanceTo(sqrt, position, other.position);
        assert seen[..i + 1][..i] == seen[..i];
        if other != this && d < perceptionRadius {
          var diff := Sub(position, other.position);
          diff := Normalize(sqrt, diff);
          if d != 0.0 {
            diff := Div(diff, d);
          } else {
            diff := Zero;
          }
          steering := Add(steering, diff);
          total := total + 1;
        }
      }
      assert seen[..|boids|] == seen;
      if total > 0 {
        steering := Div(steering, total as real);
        steering := Sub(steering, velocity);
        steering := ClampLength(sqrt, steering, 0.0, maxForce);
      }
      steering := Scale(steering, separateFactor);
    }

    /** `addRandomForce`: add a random direction of length `maxForce / 100`. */
    method AddRandomForce(sqrt: real -> real, d: Draw)
      modifies this`acceleration
      ensures acceleration == Add(old(acceleration), RandomForce(sqrt, d, maxForce))
    {
      var force := Direction(d);
      force := Normalize(sqrt, force);
      force := Scale(force, maxForce / 100.0);
      acceleration := Add(acceleration, force);
    }

    /** `flock`: add separation, alignment and cohesion, then the random jitter. */
    method Flock(sqrt: real -> real, boids: seq<Boid>, d: Draw)
      modifies this`acceleration
      ensures acceleration == Flocking.Flock(sqrt, Kinematics(), Settings(), Sees(boids), d, old(acceleration))
    {
      ghost var me, t, seen, acc0 := Kinematics(), Settings(), Sees(boids), acceleration;
      var s := Separate(sqrt, boids);
      assert Kinematics() == me && Settings() == t && Sees(boids) == seen;
      acceleration := Add(acceleration, s);
      var a := Align(sqrt, boids);
      assert Kinematics() == me && Settings() == t && Sees(boids) == seen;
      acceleration := Add(acceleration, a);
      var c := Cohere(sqrt, boids);
      assert Kinematics() == me && Settings() == t && Sees(boids) == seen;
      acceleration := Add(acceleration, c);
      AddRandomForce(sqrt, d);
      assert Kinematics() == me && Settings() == t && Sees(boids) == seen;
      FlockSum(sqrt, me, t, seen, d, acc0, s, a, c);
    }

    /**
      `doAvoid`: for a hit point closer than the perception radius, add the
      face normal turned about `normal × velocity`, minus the velocity,
      scaled by the avoidance factor and by how close the point is.
    */
    method DoAvoid(sqrt: real -> real, rotate: (Vec3, Vec3) -> Vec3, point: Vec3, normal: Vec3)
      requires IsSqrt(sqrt)
      modifies this`acceleration
      ensures acceleration == Apply(old(acceleration), Flocking.DoAvoid(sqrt, rotate, Kinematics(), Settings(), point, normal))
    {
      var steering := Zero;
      var distance := DistanceTo(sqrt, point, position);
      if distance >= perceptionRadius {
        return;
      }
      LengthNonNegative(sqrt, Sub(point, position));
      var scale := 1.0 - distance / perceptionRadius;
      scale := Min(Max(scale, 0.0), 1.0);
      scale := Sq(scale);
      assert scale == AvoidScale(distance, perceptionRadius);
      var cross := Cross(normal, velocity);
      var avoidNormal := rotate(normal, cross);
      steering := Add(steering, avoidNormal);
      steering := Sub(steering, velocity);
      steering := Scale(steering, avoidanceFactor * scale);
      assert Add(Zero, avoidNormal) == avoidNormal;
      assert steering == Damped(sqrt, Sub(avoidNormal, velocity), avoidanceFactor, scale);
      acceleration := Add(acceleration, steering);
    }

    /**
      `avoid`: cast a ray from the position along the normalised velocity;
      if the first hit is within the perception radius and has a face
      normal, avoid it.
    */
    method Avoid(sqrt: real -> real, rotate: (Vec3, Vec3) -> Vec3, cast: (Vec3, Vec3) -> seq<Hit>)
      requires IsSqrt(sqrt)
      modifies this`acceleration
      ensures acceleration == Apply(old(acceleration), Flocking.Avoid(sqrt, rotate, cast, Kinematics(), Settings()))
    {
      var v := GetVelocity();
      var intersects := cast(position, Normalize(sqrt, v));
      if |intersects| > 0 {
        var intersect := intersects[0];
        if intersect.distance > perceptionRadius {
          return;
        }
        if intersect.normal.Some? {
          DoAvoid(sqrt, rotate, intersect.point, intersect.normal.value);
        }
      }
    }

    /** `update`: integrate the acceleration into the velocity and the lerped velocity into the position. */
    method Update(sqrt: real -> real)
      modifies this`position, this`velocity, this`lerpVelocity, this`acceleration
      ensures State() == Integrate(sqrt, old(State()), maxSpeed)
    {
      position := Add(position, lerpVelocity);
      velocity := Add(velocity, acceleration);
      acceleration := Scale(acceleration, 0.0);
      velocity := SetLength(sqrt, velocity, maxSpeed);
      lerpVelocity := Lerp(lerpVelocity, velocity, 0.9);
    }

    method SetFactors(alignFactor: real, cohereFactor: real, separateFactor: real, avoidanceFactor: real)
      modifies this`alignFactor, this`cohereFactor, this`separateFactor, this`avoidanceFactor
      ensures this.alignFactor == alignFactor && this.cohereFactor == cohereFactor
      ensures this.separateFactor == separateFactor && this.avoidanceFactor == avoidanceFactor
    {
      this.alignFactor := alignFactor;
      this.cohereFactor := cohereFactor;
      this.separateFactor := separateFactor;
      this.avoidanceFactor := avoidanceFactor;
    }

    method SetPerceptionRadius(perceptionRadius: real)
      modifies this`perceptionRadius
      ensures this.perceptionRadius == perceptionRadius
    {
      this.perceptionRadius := perceptionRadius;
    }

    /** `setLimits`: the limits are the constant bases times the factors, whatever they were before. */
    method SetLimits(maxSpeedFactor: real, maxForceFactor: real)
      modifies this`maxSpeed, this`maxForce
      ensures maxSpeed == 0.1 * maxSpeedFactor && maxForce == 0.008 * maxForceFactor
    {
      maxSpeed := baseMaxSpeed * maxSpeedFactor;
      maxForce := baseMaxForce * maxForceFactor;
    }

    /** `getVelocity`: a copy of the velocity. */
    method GetVelocity() returns (v: Vec3)
      ensures v == velocity
    {
      v := velocity;
    }
  }

  /** The four additions of `flock`, in order, give `Flocking.Flock`. */
  lemma FlockSum(sqrt: real -> real, me: Kin, t: Tuning, seen: seq<Seen>, d: Draw, acc: Vec3, s: Vec3, a: Vec3, c: Vec3)
    requires s == Flocking.Separate(sqrt, me, t, seen)
    requires a == Flocking.Align(sqrt, me, t, seen)
    requires c == Flocking.Cohere(sqrt, me, t, seen)
    ensures Add(Add(Add(Add(acc, s), a), c), RandomForce(sqrt, d, t.maxForce)) == Flocking.Flock(sqrt, me, t, seen, d, acc)
  {
  }

  /**
    In a population of distinct boids, what boid `j` sees is the view of
    index `j` over the population's positions and velocities.
  */
  lemma SeesIsView(boids: seq<Boid>, j: int)
    requires Distinct(boids) && 0 <= j < |boids|
    ensures boids[j].Sees(boids) == View(Kins(boids), j)
    ensures boids[j].Kinematics() == Kins(boids)[j]
  {
    var s := boids[j].Sees(boids);
    var w := View(Kins(boids), j);
    forall k | 0 <= k < |boids|
      ensures s[k] == w[k]
    {
      assert (boids[k] == boids[j]) == (k == j);
    }
  }
}
