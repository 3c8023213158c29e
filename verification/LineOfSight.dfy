/** Line of sight between two spacecraft past a spherical asteroid at the origin
    (LOS_Determination/defineLOS.cpp), over exact reals and without square roots. */
module LineOfSight {
  import opened Reals

  datatype Vec = Vec(x: real, y: real, z: real)

  function Add(a: Vec, b: Vec): Vec { Vec(a.x + b.x, a.y + b.y, a.z + b.z) }

  function Sub(a: Vec, b: Vec): Vec { Vec(a.x - b.x, a.y - b.y, a.z - b.z) }

  function Scale(k: real, a: Vec): Vec { Vec(k * a.x, k * a.y, k * a.z) }

  function Dot(a: Vec, b: Vec): real { a.x * b.x + a.y * b.y + a.z * b.z }

  function NormSq(a: Vec): real { Dot(a, a) }

  /** `norm(a) >= r` and `norm(a) > r`, also for a negative radius. */
  predicate NormAtLeast(a: Vec, r: real) { r <= 0.0 || NormSq(a) >= r * r }

  predicate NormAbove(a: Vec, r: real) { r < 0.0 || NormSq(a) > r * r }

  /** Step 3 and 4 of `isThereLOS`. With coinciding craft `t` is 0/0, which fails both
      comparisons, so the endpoints decide. */
  predicate Clear(r1: Vec, r2: Vec, radius: real) {
    var r21 := Sub(r2, r1);
    var denominator := NormSq(r21);
    if denominator != 0.0 && 0.0 <= Closest(r1, r21) <= 1.0
    then NormAtLeast(Add(Scale(Closest(r1, r21), r21), r1), radius)
    else NormAbove(r1, radius) && NormAbove(r2, radius)
  }

  /** Where along the line the point closest to the origin lies; 0 and 1 are the craft. */
  function Closest(r1: Vec, r21: Vec): real
    requires NormSq(r21) != 0.0
  {
    -(Dot(r1, r21) / NormSq(r21))
  }

  /** The point a fraction `s` of the way from one craft to the other. */
  function Along(r1: Vec, r2: Vec, s: real): Vec { Add(Scale(s, Sub(r2, r1)), r1) }

  // ----- Distances along the segment

  lemma NormSqIsPositive(a: Vec)
    ensures NormSq(a) >= 0.0 && (NormSq(a) == 0.0 ==> a == Vec(0.0, 0.0, 0.0))
  {
    SquareSign(a.x);
    SquareSign(a.y);
    SquareSign(a.z);
  }

  /** The squared distance from the origin along the line is a parabola. */
  lemma AlongIsParabola(r1: Vec, r21: Vec, s: real)
    ensures NormSq(Add(Scale(s, r21), r1)) == NormSq(r21) * (s * s) + 2.0 * s * Dot(r1, r21) + NormSq(r1)
  {
  }

  function Gap(s: real, t: real): real { (s - t) * (s - t) }

  /** A parabola `d s^2 + 2 s e + f` relative to its vertex at `t`, where `d t == -e`. */
  lemma FromVertex(d: real, e: real, f: real, t: real, s: real)
    requires d * t == -e
    ensures d * (s * s) + 2.0 * s * e + f == (d * (t * t) + 2.0 * t * e + f) + d * Gap(s, t)
  {
    assert d * (s * t) == s * (d * t);
    assert d * (t * t) == t * (d * t);
    assert Gap(s, t) == s * s - 2.0 * (s * t) + t * t;
    assert d * Gap(s, t) == d * (s * s) - 2.0 * (d * (s * t)) + d * (t * t);
  }

  /** The squared distance grows with the gap to the vertex. */
  lemma DistanceGrows(r1: Vec, r21: Vec, s: real, u: real)
    requires NormSq(r21) != 0.0 && Gap(u, Closest(r1, r21)) <= Gap(s, Closest(r1, r21))
    ensures NormSq(Add(Scale(u, r21), r1)) <= NormSq(Add(Scale(s, r21), r1))
  {
    NormSqIsPositive(r21);
    AlongIsParabola(r1, r21, s);
    AlongIsParabola(r1, r21, u);
    ParabolaGrows(NormSq(r21), Dot(r1, r21), NormSq(r1), Closest(r1, r21), s, u);
  }

  lemma ParabolaGrows(d: real, e: real, f: real, t: real, s: real, u: real)
    requires d > 0.0 && t == -(e / d) && Gap(u, t) <= Gap(s, t)
    ensures d * (u * u) + 2.0 * u * e + f <= d * (s * s) + 2.0 * s * e + f
  {
    assert d * t == -e;
    FromVertex(d, e, f, t, s);
    FromVertex(d, e, f, t, u);
    TimesGrows(d, Gap(u, t), Gap(s, t));
  }

  lemma GapGrows(s: real, u: real, t: real)
    requires t <= u <= s || s <= u <= t
    ensures Gap(u, t) <= Gap(s, t)
  {
    if t <= u <= s {
      TimesGrows(u - t, u - t, s - t);
      TimesGrows(s - t, u - t, s - t);
    } else {
      TimesGrows(t - u, t - u, t - s);
      TimesGrows(t - s, t - u, t - s);
      assert Gap(u, t) == (t - u) * (t - u) && Gap(s, t) == (t - s) * (t - s);
    }
  }

  lemma Ends(r1: Vec, r2: Vec)
    ensures Along(r1, r2, 0.0) == r1 && Along(r1, r2, 1.0) == r2
  {
  }

  lemma SamePoint(r1: Vec, r2: Vec)
    requires Sub(r2, r1) == Vec(0.0, 0.0, 0.0)
    ensures r1 == r2
  {
  }

  lemma SameAlong(r: Vec, s: real)
    ensures Along(r, r, s) == r
  {
  }

  /** The nearest point of the segment to the origin: the vertex, or an endpoint. */
  function Nearest(r1: Vec, r2: Vec): real {
    if NormSq(Sub(r2, r1)) == 0.0 then 0.0
    else
      var t := Closest(r1, Sub(r2, r1));
      if t < 0.0 then 0.0 else if t > 1.0 then 1.0 else t
  }

  lemma NearestIsNearest(r1: Vec, r2: Vec, s: real)
    requires 0.0 <= s <= 1.0
    ensures 0.0 <= Nearest(r1, r2) <= 1.0
    ensures NormSq(Along(r1, r2, Nearest(r1, r2))) <= NormSq(Along(r1, r2, s))
  {
    var r21 := Sub(r2, r1);
    if NormSq(r21) == 0.0 {
      NormSqIsPositive(r21);
      SamePoint(r1, r2);
      SameAlong(r1, s);
      SameAlong(r1, 0.0);
    } else {
      var t := Closest(r1, r21);
      if 0.0 <= t <= 1.0 {
        SquareSign(s - t);
      } else {
        GapGrows(s, Nearest(r1, r2), t);
      }
      DistanceGrows(r1, r21, s, Nearest(r1, r2));
    }
  }

  // ----- What the answer means

  /** Strictly inside the sphere, and not outside it. */
  predicate Inside(p: Vec, radius: real) { 0.0 < radius && p.x * p.x + p.y * p.y + p.z * p.z < radius * radius }

  predicate InsideOrOn(p: Vec, radius: real) { 0.0 <= radius && p.x * p.x + p.y * p.y + p.z * p.z <= radius * radius }

  /** No point of the segment is strictly inside the sphere. */
  ghost predicate Unobstructed(r1: Vec, r2: Vec, radius: real) {
    forall s: real {:trigger Along(r1, r2, s)} :: 0.0 <= s <= 1.0 ==> !Inside(Along(r1, r2, s), radius)
  }

  /** The line through the craft comes nearest to the origin beyond one of them, or they
      coincide. */
  predicate NearestIsCraft(r1: Vec, r2: Vec) {
    r1 == r2 || Dot(r1, r2) > NormSq(r1) || Dot(r1, r2) > NormSq(r2)
  }

  /** The nearest point of the segment is a craft, and some craft is on or in the sphere. */
  predicate CraftTouches(r1: Vec, r2: Vec, radius: real) {
    NearestIsCraft(r1, r2) && (InsideOrOn(r1, radius) || InsideOrOn(r2, radius))
  }

  /** On which side of 0 and 1 a quotient lies. */
  lemma QuotientSide(e: real, d: real)
    requires d > 0.0
    ensures (-(e / d) < 0.0 <==> e > 0.0) && (-(e / d) > 1.0 <==> e < -d)
  {
    var q := e / d;
    assert e == q * d;
    TimesKeepsOrder(d, 0.0, q);
    TimesKeepsOrder(d, q, -1.0);
  }

  lemma NearestIsCraftWhenNotBetween(r1: Vec, r2: Vec)
    ensures NearestIsCraft(r1, r2) <==> !Between(r1, r2)
  {
    var r21 := Sub(r2, r1);
    NormSqIsPositive(r21);
    if NormSq(r21) == 0.0 {
      SamePoint(r1, r2);
    } else {
      QuotientSide(Dot(r1, r21), NormSq(r21));
      assert Dot(r1, r21) == Dot(r1, r2) - NormSq(r1);
      assert NormSq(r21) == NormSq(r2) - 2.0 * Dot(r1, r2) + NormSq(r1);
    }
  }

  lemma InsideWhen(a: Vec, r: real)
    ensures Inside(a, r) <==> !NormAtLeast(a, r)
    ensures InsideOrOn(a, r) <==> !NormAbove(a, r)
  {
  }

  lemma CraftTouchesWhen(r1: Vec, r2: Vec, radius: real)
    ensures CraftTouches(r1, r2, radius) <==> !Between(r1, r2) && !(NormAbove(r1, radius) && NormAbove(r2, radius))
  {
    NearestIsCraftWhenNotBetween(r1, r2);
    InsideWhen(r1, radius);
    InsideWhen(r2, radius);
  }

  lemma AtLeastGrows(a: Vec, b: Vec, r: real)
    requires NormSq(a) <= NormSq(b) && NormAtLeast(a, r)
    ensures NormAtLeast(b, r)
  {
  }

  /** The segment is unobstructed when its nearest point is. */
  lemma NearestDecides(r1: Vec, r2: Vec, radius: real)
    ensures Unobstructed(r1, r2, radius) <==> NormAtLeast(Along(r1, r2, Nearest(r1, r2)), radius)
  {
    NearestIsNearest(r1, r2, 0.0);
    InsideWhen(Along(r1, r2, Nearest(r1, r2)), radius);
    if NormAtLeast(Along(r1, r2, Nearest(r1, r2)), radius) {
      forall s: real {:trigger Along(r1, r2, s)} | 0.0 <= s <= 1.0
        ensures !Inside(Along(r1, r2, s), radius)
      {
        NearestIsNearest(r1, r2, s);
        AtLeastGrows(Along(r1, r2, Nearest(r1, r2)), Along(r1, r2, s), radius);
        InsideWhen(Along(r1, r2, s), radius);
      }
    }
  }

  /** Does the nearest point lie between the craft, rather than at one of them? */
  predicate Between(r1: Vec, r2: Vec): (b: bool)
    ensures b ==> NormSq(Sub(r2, r1)) != 0.0
    ensures b ==> Along(r1, r2, Nearest(r1, r2)) == Add(Scale(Closest(r1, Sub(r2, r1)), Sub(r2, r1)), r1)
    ensures !b ==> Nearest(r1, r2) == 0.0 || Nearest(r1, r2) == 1.0
  {
    NormSq(Sub(r2, r1)) != 0.0 && 0.0 <= Closest(r1, Sub(r2, r1)) <= 1.0
  }

  /** `isThereLOS` says true exactly when no point of the segment is strictly inside the
      sphere, except that it also says false when the nearest point is a craft and some
      craft is exactly on the sphere. */
  lemma ClearIsUnobstructed(r1: Vec, r2: Vec, radius: real)
    ensures Clear(r1, r2, radius) <==> Unobstructed(r1, r2, radius) && !CraftTouches(r1, r2, radius)
  {
    Ends(r1, r2);
    NearestDecides(r1, r2, radius);
    CraftTouchesWhen(r1, r2, radius);
    assert Clear(r1, r2, radius) <==> if Between(r1, r2) then NormAtLeast(Along(r1, r2, Nearest(r1, r2)), radius)
                                      else NormAbove(r1, radius) && NormAbove(r2, radius);
  }

  /** A false answer means that some point of the segment is inside or on the sphere. */
  lemma BlockedHasWitness(r1: Vec, r2: Vec, radius: real) returns (s: real)
    requires !Clear(r1, r2, radius)
    ensures 0.0 <= s <= 1.0 && InsideOrOn(Along(r1, r2, s), radius)
  {
    Ends(r1, r2);
    NearestIsNearest(r1, r2, 0.0);
    s := if Between(r1, r2) then Nearest(r1, r2) else if NormAbove(r1, radius) then 1.0 else 0.0;
    InsideWhen(Along(r1, r2, s), radius);
  }

  // ----- Symmetry

  lemma SwapVectors(r1: Vec, r2: Vec)
    ensures NormSq(Sub(r1, r2)) == NormSq(Sub(r2, r1))
    ensures Dot(r2, Sub(r1, r2)) == -(Dot(r1, Sub(r2, r1)) + NormSq(Sub(r2, r1)))
  {
  }

  lemma NegatedSum(e: real, d: real)
    requires d != 0.0
    ensures -(-(e + d) / d) == 1.0 - -(e / d)
  {
    QuotientIs(-(e + d), d, -(e / d) - 1.0);
  }

  lemma SwapClosest(r1: Vec, r2: Vec)
    requires NormSq(Sub(r2, r1)) != 0.0
    ensures NormSq(Sub(r1, r2)) != 0.0 && Closest(r2, Sub(r1, r2)) == 1.0 - Closest(r1, Sub(r2, r1))
  {
    SwapVectors(r1, r2);
    NegatedSum(Dot(r1, Sub(r2, r1)), NormSq(Sub(r2, r1)));
  }

  lemma SwapAlong(r1: Vec, r2: Vec, s: real)
    ensures Along(r2, r1, 1.0 - s) == Along(r1, r2, s)
  {
  }

  /** The answer does not depend on which craft asks. */
  lemma ClearIsSymmetric(r1: Vec, r2: Vec, radius: real)
    ensures Clear(r1, r2, radius) == Clear(r2, r1, radius)
  {
    SwapVectors(r1, r2);
    if NormSq(Sub(r2, r1)) != 0.0 {
      SwapClosest(r1, r2);
      SwapAlong(r1, r2, Closest(r1, Sub(r2, r1)));
    }
  }

  // ----- Scaling

  lemma ScaleVectors(k: real, a: Vec, b: Vec)
    ensures Dot(Scale(k, a), Scale(k, b)) == k * k * Dot(a, b)
    ensures Sub(Scale(k, a), Scale(k, b)) == Scale(k, Sub(a, b))
  {
  }

  lemma ScaledQuotient(q: real, e: real, d: real)
    requires q != 0.0 && d != 0.0
    ensures q * d != 0.0 && (q * e) / (q * d) == e / d
  {
    if q * d == 0.0 { Cancel(d, q); }
    assert e == (e / d) * d;
    assert q * ((e / d) * d) == (e / d) * (q * d);
    QuotientIs(q * e, q * d, e / d);
  }

  lemma ScaleClosest(k: real, r1: Vec, r21: Vec)
    requires k != 0.0 && NormSq(r21) != 0.0
    ensures NormSq(Scale(k, r21)) != 0.0 && Closest(Scale(k, r1), Scale(k, r21)) == Closest(r1, r21)
  {
    ScaleVectors(k, r1, r21);
    ScaleVectors(k, r21, r21);
    SquareSign(k);
    ScaledQuotient(k * k, Dot(r1, r21), NormSq(r21));
  }

  lemma ScaleNorm(k: real, a: Vec, r: real)
    requires k > 0.0
    ensures NormAtLeast(Scale(k, a), k * r) == NormAtLeast(a, r) && NormAbove(Scale(k, a), k * r) == NormAbove(a, r)
  {
    ScaleVectors(k, a, a);
    SquareSign(k);
    assert (k * r) * (k * r) == (k * k) * (r * r);
    TimesKeepsOrder(k * k, NormSq(a), r * r);
    TimesKeepsOrder(k, r, 0.0);
    TimesKeepsOrder(k, 0.0, r);
  }

  lemma ScaleAlong(k: real, r1: Vec, r21: Vec, s: real)
    ensures Add(Scale(s, Scale(k, r21)), Scale(k, r1)) == Scale(k, Add(Scale(s, r21), r1))
  {
    FactorOut(k, s, r21.x, r1.x);
    FactorOut(k, s, r21.y, r1.y);
    FactorOut(k, s, r21.z, r1.z);
  }

  lemma FactorOut(k: real, s: real, a: real, b: real)
    ensures s * (k * a) + k * b == k * (s * a + b)
  {
  }

  /** Scaling every position and the radius by a positive factor changes no answer. */
  lemma ClearScales(k: real, r1: Vec, r2: Vec, radius: real)
    requires k > 0.0
    ensures Clear(Scale(k, r1), Scale(k, r2), k * radius) == Clear(r1, r2, radius)
  {
    var r21 := Sub(r2, r1);
    ScaleVectors(k, r2, r1);
    ScaleVectors(k, r21, r21);
    ScaleNorm(k, r1, radius);
    ScaleNorm(k, r2, radius);
    if NormSq(r21) != 0.0 {
      var t := Closest(r1, r21);
      ScaleClosest(k, r1, r21);
      ScaleAlong(k, r1, r21, t);
      ScaleNorm(k, Add(Scale(t, r21), r1), radius);
    }
  }

  // ----- The object

  class Los {
    var orbitData: map<int, seq<Vec>>
    const homeId: int
    const numSc: nat
    const timestepSize: int
    const timestepNum: nat
    var asteroidRadius: real

    /** Every craft has a position at every timestep. */
    ghost predicate Valid()
      reads this
    {
      && timestepSize > 0
      && forall id :: 0 <= id <= numSc ==> id in orbitData && |orbitData[id]| == timestepNum
    }

    constructor (homeId: int, numSc: nat, timestepSize: int, timestepNum: nat, orbitData: map<int, seq<Vec>>)
      requires timestepSize > 0
      requires forall id :: 0 <= id <= numSc ==> id in orbitData && |orbitData[id]| == timestepNum
      ensures Valid() && this.orbitData == orbitData && asteroidRadius == 1.0
      ensures this.homeId == homeId && this.numSc == numSc && this.timestepSize == timestepSize
              && this.timestepNum == timestepNum
    {
      this.homeId, this.numSc, this.timestepSize, this.timestepNum := homeId, numSc, timestepSize, timestepNum;
      this.orbitData, asteroidRadius := orbitData, 1.0;
    }

    /** Is the time between two of the stored timesteps? */
    ghost predicate Covers(time: real)
      reads this
    {
      timestepSize > 0 && -(timestepSize as real) < time && StepBelow(timestepSize, time) + 1 < timestepNum
    }

    /** The interpolated position of a craft. */
    ghost function Position(id: int, time: real): Vec
      requires Valid() && 0 <= id <= numSc && Covers(time)
      reads this
    {
      PositionIn(orbitData[id], timestepSize, time)
    }

    method IsThereLos(otherId: int, time: real) returns (los: bool)
      requires Valid() && 0 <= homeId <= numSc && 0 <= otherId <= numSc && Covers(time)
      ensures los == Clear(Position(homeId, time), Position(otherId, time), asteroidRadius)
      ensures forall k: nat :: StoredAt(k, time) ==>
                los == Clear(orbitData[homeId][k], orbitData[otherId][k], asteroidRadius)
      ensures forall k: nat, p: Vec, v: Vec, q: Vec, w: Vec ::
                InStep(k, timestepSize, time) && MovesOn(orbitData[homeId], k, p, v)
                && MovesOn(orbitData[otherId], k, q, w) ==>
                  los == Clear(Drifted(p, v, time / timestepSize as real), Drifted(q, w, time / timestepSize as real),
                               asteroidRadius)
    {
      var below := StepBelow(timestepSize, time);
      var above := below + 1;
      var t1, t2 := (below * timestepSize) as real, (above * timestepSize) as real;
      var r1 := Interpolate(orbitData[homeId][below], orbitData[homeId][above], time, t1, t2);
      var r2 := Interpolate(orbitData[otherId][below], orbitData[otherId][above], time, t1, t2);
      los := Clear(r1, r2, asteroidRadius);
      StoredAndEven(otherId, time);
    }

    /** The time of the `k`-th stored positions. */
    predicate StoredAt(k: nat, time: real)
      reads this
    {
      k + 1 < timestepNum && time == (k * timestepSize) as real
    }

    lemma StoredAndEven(otherId: int, time: real)
      requires Valid() && 0 <= homeId <= numSc && 0 <= otherId <= numSc && Covers(time)
      ensures forall k: nat :: StoredAt(k, time) ==>
                Position(homeId, time) == orbitData[homeId][k] && Position(otherId, time) == orbitData[otherId][k]
      ensures forall k: nat, p: Vec, v: Vec :: InStep(k, timestepSize, time) && MovesOn(orbitData[homeId], k, p, v) ==>
                Position(homeId, time) == Drifted(p, v, time / timestepSize as real)
      ensures forall k: nat, p: Vec, v: Vec :: InStep(k, timestepSize, time) && MovesOn(orbitData[otherId], k, p, v) ==>
                Position(otherId, time) == Drifted(p, v, time / timestepSize as real)
    {
      forall k: nat | StoredAt(k, time)
        ensures Position(homeId, time) == orbitData[homeId][k] && Position(otherId, time) == orbitData[otherId][k]
      {
        StoredPosition(orbitData[homeId], k, timestepSize, time);
        StoredPosition(orbitData[otherId], k, timestepSize, time);
      }
      forall k: nat, p: Vec, v: Vec, id |
        id in {homeId, otherId} && InStep(k, timestepSize, time) && MovesOn(orbitData[id], k, p, v)
        ensures Position(id, time) == Drifted(p, v, time / timestepSize as real)
      {
        PositionIsOnLine(orbitData[id], k, timestepSize, time, p, v);
      }
    }

    /** Every stored position and the radius are multiplied in place. */
    method ScalePositions(scaleFactor: real)
      requires Valid()
      modifies this`orbitData, this`asteroidRadius
      ensures Valid() && asteroidRadius == scaleFactor * old(asteroidRadius)
      ensures orbitData.Keys == old(orbitData.Keys)
      ensures forall id :: 0 <= id <= numSc ==> orbitData[id] == ScaleAll(scaleFactor, old(orbitData)[id])
      ensures forall id :: id in orbitData && !(0 <= id <= numSc) ==> orbitData[id] == old(orbitData)[id]
    {
      asteroidRadius := scaleFactor * asteroidRadius;
      for i := 0 to numSc + 1
        invariant Valid() && orbitData.Keys == old(orbitData.Keys)
                  && asteroidRadius == scaleFactor * old(asteroidRadius)
        invariant forall id :: 0 <= id < i ==> orbitData[id] == ScaleAll(scaleFactor, old(orbitData)[id])
        invariant forall id :: id in orbitData && !(0 <= id < i) ==> orbitData[id] == old(orbitData)[id]
      {
        var row := orbitData[i];
        for j := 0 to timestepNum
          invariant |row| == timestepNum
          invariant forall k :: 0 <= k < j ==> row[k] == Scale(scaleFactor, old(orbitData)[i][k])
          invariant forall k :: j <= k < timestepNum ==> row[k] == old(orbitData)[i][k]
        {
          row := row[j := Scale(scaleFactor, row[j])];
        }
        assert row == ScaleAll(scaleFactor, old(orbitData)[i]);
        orbitData := orbitData[i := row];
      }
    }
  }

  function ScaleAll(k: real, ps: seq<Vec>): seq<Vec> { seq(|ps|, i requires 0 <= i < |ps| => Scale(k, ps[i])) }

  /** Linear interpolation between the positions at `t1` and `t2`. */
  function Interpolate(below: Vec, above: Vec, time: real, t1: real, t2: real): Vec
    requires t1 < t2
  {
    Along(below, above, (time - t1) / (t2 - t1))
  }

  /** The conversion of a double to int. */
  function Truncated(x: real): int { if x < 0.0 then -((-x).Floor) else x.Floor }

  /** `current_time / timestep_size`, truncated: a time less than one step before 0 still
      belongs to step 0. */
  function StepBelow(step: int, time: real): (below: nat)
    requires step > 0 && -(step as real) < time
  {
    QuotientAboveMinusOne(time, step as real);
    Truncated(time / step as real)
  }

  lemma QuotientAboveMinusOne(x: real, d: real)
    requires d > 0.0 && -d < x
    ensures x / d > -1.0
  {
    QuotientIsPositive(x + d, d);
    QuotientIs(x + d, d, x / d + 1.0);
  }

  function PositionIn(ps: seq<Vec>, step: int, time: real): Vec
    requires step > 0 && -(step as real) < time && StepBelow(step, time) + 1 < |ps|
  {
    var below := StepBelow(step, time);
    Interpolate(ps[below], ps[below + 1], time, (below * step) as real, ((below + 1) * step) as real)
  }

  /** Where a craft that moves evenly from `p`, by `v` in every timestep, is after `t` of them. */
  function Drifted(p: Vec, v: Vec, t: real): Vec { Vec(p.x + t * v.x, p.y + t * v.y, p.z + t * v.z) }

  /** A time in the step from `k` on; step 0 also has the times less than a step before 0. */
  predicate InStep(k: nat, step: int, time: real) {
    (k * step) as real <= time < ((k + 1) * step) as real || (k == 0 && -(step as real) < time < 0.0)
  }

  /** In the step from `k` on, a craft moves evenly along the line from `p` by `v`. */
  predicate MovesOn(ps: seq<Vec>, k: nat, p: Vec, v: Vec) {
    k + 1 < |ps| && ps[k] == Drifted(p, v, k as real) && ps[k + 1] == Drifted(p, v, (k + 1) as real)
  }

  lemma QuotientInStep(k: nat, step: int, time: real)
    requires step > 0 && InStep(k, step, time)
    ensures k as real <= time / step as real < (k + 1) as real || (k == 0 && -1.0 < time / step as real < 0.0)
  {
    RealProduct(k, step);
    RealProduct(k + 1, step);
    if (k * step) as real <= time { QuotientAtLeast(time, step as real, k as real); }
    QuotientBelow(time, step as real, if time < 0.0 then 0.0 else (k + 1) as real);
    QuotientAboveMinusOne(time, step as real);
  }

  lemma RealProduct(a: int, b: int)
    ensures (a * b) as real == a as real * b as real
  {
  }

  lemma QuotientAtLeast(x: real, d: real, q: real)
    requires d > 0.0 && q * d <= x
    ensures q <= x / d
  {
    assert x / d * d == x;
    TimesKeepsOrder(d, x / d, q);
  }

  lemma QuotientBelow(x: real, d: real, q: real)
    requires d > 0.0 && x < q * d
    ensures x / d < q
  {
    assert x / d * d == x;
    TimesKeepsOrder(d, q, x / d);
  }

  lemma StepBelowIs(k: nat, step: int, time: real)
    requires step > 0 && InStep(k, step, time)
    ensures -(step as real) < time && StepBelow(step, time) == k
  {
    QuotientInStep(k, step, time);
  }

  /** The part of the step that has passed. */
  lemma FractionInStep(k: nat, step: int, time: real)
    requires step > 0
    ensures (k * step) as real < ((k + 1) * step) as real
    ensures var t1, t2 := (k * step) as real, ((k + 1) * step) as real;
            (time - t1) / (t2 - t1) == time / step as real - k as real
  {
    var d := step as real;
    RealProduct(k, step);
    RealProduct(k + 1, step);
    QuotientIs(time - d * k as real, d, time / d - k as real);
  }

  lemma AlongDrifted(p: Vec, v: Vec, k: real, s: real)
    ensures Along(Drifted(p, v, k), Drifted(p, v, k + 1.0), s) == Drifted(p, v, k + s)
  {
  }

  /** Between two stored positions a craft is where even motion has brought it; any two
      positions are on such a line. */
  lemma PositionIsOnLine(ps: seq<Vec>, k: nat, step: int, time: real, p: Vec, v: Vec)
    requires step > 0 && InStep(k, step, time) && MovesOn(ps, k, p, v)
    ensures -(step as real) < time && StepBelow(step, time) == k
    ensures PositionIn(ps, step, time) == Drifted(p, v, time / step as real)
  {
    StepBelowIs(k, step, time);
    FractionInStep(k, step, time);
    AlongDrifted(p, v, k as real, time / step as real - k as real);
  }

  lemma EveryStepIsOnALine(ps: seq<Vec>, k: nat)
    requires k + 1 < |ps|
    ensures MovesOn(ps, k, Drifted(ps[k], Sub(ps[k + 1], ps[k]), -(k as real)), Sub(ps[k + 1], ps[k]))
  {
  }

  /** At a stored time the stored position is used. */
  lemma StoredPosition(ps: seq<Vec>, k: nat, step: int, time: real)
    requires step > 0 && k + 1 < |ps| && time == (k * step) as real
    ensures -(step as real) < time && StepBelow(step, time) == k && PositionIn(ps, step, time) == ps[k]
  {
    var v := Sub(ps[k + 1], ps[k]);
    EveryStepIsOnALine(ps, k);
    FractionInStep(k, step, time);
    PositionIsOnLine(ps, k, step, time, Drifted(ps[k], v, -(k as real)), v);
    assert time / step as real == k as real;
  }

  lemma InterpolateScales(k: real, below: Vec, above: Vec, time: real, t1: real, t2: real)
    requires t1 < t2
    ensures Interpolate(Scale(k, below), Scale(k, above), time, t1, t2) ==
            Scale(k, Interpolate(below, above, time, t1, t2))
  {
    ScaleVectors(k, above, below);
    ScaleAlong(k, below, Sub(above, below), (time - t1) / (t2 - t1));
  }

  /** After `scalePositions` by any positive factor, every query has its old answer. */
  lemma ScalingKeepsLineOfSight(k: real, home: seq<Vec>, other: seq<Vec>, step: int, time: real, radius: real)
    requires k > 0.0 && step > 0 && -(step as real) < time
    requires StepBelow(step, time) + 1 < |home| && StepBelow(step, time) + 1 < |other|
    ensures Clear(PositionIn(ScaleAll(k, home), step, time), PositionIn(ScaleAll(k, other), step, time), k * radius)
         == Clear(PositionIn(home, step, time), PositionIn(other, step, time), radius)
  {
    var below := StepBelow(step, time);
    var t1, t2 := (below * step) as real, ((below + 1) * step) as real;
    InterpolateScales(k, home[below], home[below + 1], time, t1, t2);
    InterpolateScales(k, other[below], other[below + 1], time, t1, t2);
    ClearScales(k, PositionIn(home, step, time), PositionIn(other, step, time), radius);
  }
}
