/** What `Farm.set_yaw_angles` (floris/simulation/farm.py) does to the
    turbines' yaw angles, stated on values: a scalar is broadcast to every
    turbine, then angles and turbines are paired by `zip`, which stops at the
    shorter of the two and raises nothing on a length mismatch. */
module YawAssignment {

  /** The argument of `set_yaw_angles`: a single number (Python `int` or
      `float`) or a sequence of per-turbine angles, in degrees. */
  datatype YawInput = Uniform(angle: real) | PerTurbine(angles: seq<real>)

  /** The angle list the loop walks: a scalar becomes `[angle] * count`,
      a sequence is used as given. */
  function AngleList(input: YawInput, count: nat): (r: seq<real>)
    ensures input.Uniform? ==> |r| == count && forall i :: 0 <= i < count ==> r[i] == input.angle
    ensures input.PerTurbine? ==> r == input.angles
  {
    match input
    case Uniform(a) => seq(count, _ => a)
    case PerTurbine(s) => s
  }

  function Min(a: nat, b: nat): nat
  {
    if a <= b then a else b
  }

  /** The yaw angles after `for yaw_angle, turbine in zip(angles, turbines):
      turbine.yaw_angle = yaw_angle`, given the yaw angles before, in
      turbine order: one pairing step per element, until either list runs out. */
  function Zipped(yaws: seq<real>, angles: seq<real>): seq<real>
  {
    if yaws == [] || angles == [] then yaws
    else [angles[0]] + Zipped(yaws[1..], angles[1..])
  }

  /** Turbine `k` gets the `k`-th angle when there is one and keeps its yaw
      otherwise; the number of turbines does not change. */
  lemma {:induction false} ZippedAt(yaws: seq<real>, angles: seq<real>, k: nat)
    requires k < |yaws|
    ensures |Zipped(yaws, angles)| == |yaws|
    ensures Zipped(yaws, angles)[k] == if k < |angles| then angles[k] else yaws[k]
  {
    if yaws != [] && angles != [] {
      if k == 0 {
        ZippedLength(yaws[1..], angles[1..]);
      } else {
        ZippedAt(yaws[1..], angles[1..], k - 1);
      }
    }
  }

  /** Pairing keeps the turbine count. */
  lemma {:induction false} ZippedLength(yaws: seq<real>, angles: seq<real>)
    ensures |Zipped(yaws, angles)| == |yaws|
  {
    if yaws != [] && angles != [] {
      ZippedLength(yaws[1..], angles[1..]);
    }
  }

  /** The pointwise description of `Zipped`, for every index at once. */
  lemma ZippedPointwise(yaws: seq<real>, angles: seq<real>)
    ensures |Zipped(yaws, angles)| == |yaws|
    ensures forall k :: 0 <= k < |yaws| ==>
      Zipped(yaws, angles)[k] == if k < |angles| then angles[k] else yaws[k]
  {
    ZippedLength(yaws, angles);
    forall k | 0 <= k < |yaws|
      ensures Zipped(yaws, angles)[k] == if k < |angles| then angles[k] else yaws[k]
    {
      ZippedAt(yaws, angles, k);
    }
  }

  /** A scalar argument leaves every turbine at that angle, whatever the
      yaws were before. */
  lemma UniformSetsAll(yaws: seq<real>, v: real)
    ensures |Zipped(yaws, AngleList(Uniform(v), |yaws|))| == |yaws|
    ensures forall k :: 0 <= k < |yaws| ==> Zipped(yaws, AngleList(Uniform(v), |yaws|))[k] == v
  {
    ZippedPointwise(yaws, AngleList(Uniform(v), |yaws|));
  }

  /** Angles beyond the last turbine are ignored: only the first
      `min(|angles|, |yaws|)` of them matter. */
  lemma {:induction false} SurplusIgnored(yaws: seq<real>, angles: seq<real>)
    ensures Zipped(yaws, angles) == Zipped(yaws, angles[..Min(|angles|, |yaws|)])
  {
    if yaws != [] && angles != [] {
      var m := Min(|angles|, |yaws|);
      assert angles[..m][1..] == angles[1..][..Min(|angles| - 1, |yaws| - 1)];
      SurplusIgnored(yaws[1..], angles[1..]);
    }
  }

  /** A sequence exactly as long as the turbine list replaces every yaw. */
  lemma {:induction false} FullLengthReplaces(yaws: seq<real>, angles: seq<real>)
    requires |angles| == |yaws|
    ensures Zipped(yaws, angles) == angles
  {
    if yaws != [] {
      FullLengthReplaces(yaws[1..], angles[1..]);
    }
  }

  /** Assigning the same angles twice has the effect of assigning them once. */
  lemma {:induction false} ZippedIdempotent(yaws: seq<real>, angles: seq<real>)
    ensures Zipped(Zipped(yaws, angles), angles) == Zipped(yaws, angles)
  {
    if yaws != [] && angles != [] {
      ZippedIdempotent(yaws[1..], angles[1..]);
      assert Zipped(yaws, angles)[1..] == Zipped(yaws[1..], angles[1..]);
    }
  }
}
