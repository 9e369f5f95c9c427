/** The gravitational force model of the simulator: body i is pulled towards
    every other body j by `mu_j / |p_j - p_i|^3 * (p_j - p_i)`. The library
    call `pow(dist(p_j, p_i), 3)` is not modelled: `mu_j` is multiplied by
    the parameter `invCube`, applied to (p_j, p_i), which stands for the
    reciprocal of the cubed distance. */
module Gravity {
  import opened Bodies
  import opened Integrator

  /** The pull that `source` exerts on `target`. */
  function Pull(source: Body, target: Body, invCube: (Vector3, Vector3) -> real): (pull: Vector3)
    ensures source.mu == 0.0 ==> pull == Zero()
    ensures source.pos == target.pos ==> pull == Zero()
  {
    Scale(source.mu * invCube(source.pos, target.pos), Sub(source.pos, target.pos))
  }

  /** The acceleration of body i accumulated over bodies 0 .. k-1 in ascending
      order, starting from the zero vector and skipping body i itself. */
  function PullSum(state: State, i: nat, k: nat, invCube: (Vector3, Vector3) -> real): Vector3
    requires i < |state| && k <= |state|
    decreases k
  {
    if k == 0 then Zero()
    else if k - 1 == i then PullSum(state, i, k - 1, invCube)
    else Add(PullSum(state, i, k - 1, invCube), Pull(state[k - 1], state[i], invCube))
  }

  /** The accelerations the force model assigns: entry i is the pull of all
      bodies other than i on body i. */
  function Accelerations(state: State, invCube: (Vector3, Vector3) -> real): (rates: seq<Vector3>)
    ensures |rates| == |state|
  {
    seq(|state|, i requires 0 <= i < |state| => PullSum(state, i, |state|, invCube))
  }

  /** `rate_func` as a value the integrator can hold; the time argument is
      accepted and not used. */
  function GravityModel(invCube: (Vector3, Vector3) -> real): (rate: RateFunction)
    ensures ForceModel(rate)
    ensures forall s: State, t: real :: rate(s, t) == Accelerations(s, invCube)
  {
    (s: State, t: real) => Accelerations(s, invCube)
  }

  /** `rate_func`: for each body in order, the sum of the pulls of all other
      bodies in ascending index order, appended to the result. */
  method RateFunc(state: State, t: real, invCube: (Vector3, Vector3) -> real) returns (rates: seq<Vector3>)
    ensures rates == Accelerations(state, invCube)
    ensures |rates| == |state|
  {
    rates := [];
    for i := 0 to |state|
      invariant rates == Accelerations(state, invCube)[..i]
    {
      var rate := Zero();
      for j := 0 to |state|
        invariant rate == PullSum(state, i, j, invCube)
      {
        AccumulateStep(state, i, j, invCube, rate);
        if j == i {
          continue;
        }
        var rateScal := state[j].mu * invCube(state[j].pos, state[i].pos);
        var diff := Sub(state[j].pos, state[i].pos);
        rate := Vector3(rate.x + rateScal * diff.x, rate.y + rateScal * diff.y, rate.z + rateScal * diff.z);
      }
      assert rate == Accelerations(state, invCube)[i];
      rates := rates + [rate];
    }
    assert Accelerations(state, invCube)[..|state|] == Accelerations(state, invCube);
  }

  /** One turn of the inner loop of `rate_func`: the self-term leaves the sum
      as it is, any other term is added component by component. */
  lemma AccumulateStep(state: State, i: nat, j: nat, invCube: (Vector3, Vector3) -> real, sum: Vector3)
    requires i < |state| && j < |state| && sum == PullSum(state, i, j, invCube)
    ensures j == i ==> PullSum(state, i, j + 1, invCube) == sum
    ensures j != i ==>
      var k := state[j].mu * invCube(state[j].pos, state[i].pos);
      var d := Sub(state[j].pos, state[i].pos);
      PullSum(state, i, j + 1, invCube) == Vector3(sum.x + k * d.x, sum.y + k * d.y, sum.z + k * d.z)
  {
  }

  /** A massless body pulls nothing, wherever it is. */
  lemma MasslessPullIsZero(source: Body, target: Body, invCube: (Vector3, Vector3) -> real)
    requires source.mu == 0.0
    ensures Pull(source, target, invCube) == Zero()
  {
  }

  /** With at most one body there are no pairs, so every acceleration is zero. */
  lemma {:induction false} AtMostOneBodyFeelsNoPull(state: State, invCube: (Vector3, Vector3) -> real)
    requires |state| <= 1
    ensures forall i :: 0 <= i < |state| ==> Accelerations(state, invCube)[i] == Zero()
  {
    if |state| == 1 {
      assert PullSum(state, 0, 1, invCube) == PullSum(state, 0, 0, invCube);
    }
  }

  /** Replacing body j (j != i) by any other body with mu = 0 leaves the first
      k terms of body i's sum as they were, provided body j had mu = 0 too. */
  lemma {:induction false} PullSumIgnoresMassless(state: State, i: nat, j: nat, b: Body, k: nat,
                                                  invCube: (Vector3, Vector3) -> real)
    requires i < |state| && j < |state| && i != j && k <= |state|
    requires state[j].mu == 0.0 && b.mu == 0.0
    ensures PullSum(state[j := b], i, k, invCube) == PullSum(state, i, k, invCube)
    decreases k
  {
    if k > 0 {
      PullSumIgnoresMassless(state, i, j, b, k - 1, invCube);
      if k - 1 == j {
        MasslessPullIsZero(state[j], state[i], invCube);
        MasslessPullIsZero(b, state[i], invCube);
      }
    }
  }

  /** A body with mu = 0 contributes nothing to any other body's acceleration:
      body i accelerates the same whatever position, velocity and name the
      massless body j has. */
  lemma MasslessBodyContributesNothing(state: State, i: nat, j: nat, b: Body,
                                       invCube: (Vector3, Vector3) -> real)
    requires i < |state| && j < |state| && i != j
    requires state[j].mu == 0.0 && b.mu == 0.0
    ensures Accelerations(state[j := b], invCube)[i] == Accelerations(state, invCube)[i]
  {
    PullSumIgnoresMassless(state, i, j, b, |state|, invCube);
  }

  /** If every body is massless, no body accelerates. */
  lemma AllMasslessFeelNoPull(state: State, invCube: (Vector3, Vector3) -> real)
    requires forall j :: 0 <= j < |state| ==> state[j].mu == 0.0
    ensures forall i :: 0 <= i < |state| ==> Accelerations(state, invCube)[i] == Zero()
  {
    forall i | 0 <= i < |state|
      ensures Accelerations(state, invCube)[i] == Zero()
    {
      MasslessSumIsZero(state, i, |state|, invCube);
    }
  }

  /** When every body other than body i among 0 .. k-1 is massless, the
      first k terms of body i's sum add up to the zero vector. */
  lemma {:induction false} MasslessSumIsZero(state: State, i: nat, k: nat, invCube: (Vector3, Vector3) -> real)
    requires i < |state| && k <= |state|
    requires forall j :: 0 <= j < k && j != i ==> state[j].mu == 0.0
    ensures PullSum(state, i, k, invCube) == Zero()
    decreases k
  {
    if k > 0 {
      MasslessSumIsZero(state, i, k - 1, invCube);
      if k - 1 != i {
        MasslessPullIsZero(state[k - 1], state[i], invCube);
      }
    }
  }

  /** Two bodies, A massless and B with any mu: A is pulled towards B by
      `mu_B * invCube(p_B, p_A)` times their separation, and B does not
      accelerate at all. */
  lemma TwoBodyAccelerations(a: Body, b: Body, invCube: (Vector3, Vector3) -> real)
    requires a.mu == 0.0
    ensures var rates := Accelerations([a, b], invCube);
      rates[0] == Pull(b, a, invCube) && rates[1] == Zero()
  {
    FirstOfTwo(a, b, invCube);
    SecondOfTwo(a, b, invCube);
  }

  lemma FirstOfTwo(a: Body, b: Body, invCube: (Vector3, Vector3) -> real)
    ensures PullSum([a, b], 0, 2, invCube) == Pull(b, a, invCube)
  {
    assert PullSum([a, b], 0, 2, invCube) == Add(Zero(), Pull(b, a, invCube));
    ZeroIsIdentity(Pull(b, a, invCube));
  }

  lemma SecondOfTwo(a: Body, b: Body, invCube: (Vector3, Vector3) -> real)
    requires a.mu == 0.0
    ensures PullSum([a, b], 1, 2, invCube) == Zero()
  {
    LastOfTwoMassless([a, b], invCube);
  }

  lemma LastOfTwoMassless(s: State, invCube: (Vector3, Vector3) -> real)
    requires |s| == 2 && s[0].mu == 0.0
    ensures PullSum(s, 1, |s|, invCube) == Zero()
  {
    MasslessPullIsZero(s[0], s[1], invCube);
  }

  /** One Euler step of a massless body at the origin and a body with mu = 1
      one unit along x, both at rest, with dt = 1 and 1/|d|^3 = 1: the massless
      body gains velocity (1, 0, 0) but keeps its position, because position
      moves with the velocity from before the step; the other body stays put. */
  lemma EulerTwoBodyScenario(a: Body, b: Body, dt: real, invCube: (Vector3, Vector3) -> real)
    requires a.pos == Zero() && a.vel == Zero() && a.mu == 0.0
    requires b.pos == Vector3(1.0, 0.0, 0.0) && b.vel == Zero() && b.mu == 1.0
    requires dt == 1.0 && invCube(b.pos, a.pos) == 1.0
    ensures var h := History([a, b], dt, 1, GravityModel(invCube));
      |h[1]| == 2 &&
      h[1][0].vel == Vector3(1.0, 0.0, 0.0) && h[1][0].pos == Zero() &&
      h[1][1].vel == Zero() && h[1][1].pos == Vector3(1.0, 0.0, 0.0)
  {
    var h := History([a, b], dt, 1, GravityModel(invCube));
    var next := [a.(vel := Vector3(1.0, 0.0, 0.0)), b];
    assert h[1] == next by {
      OneStepOfMasslessAndMassive(a, b, dt, invCube);
      UnitPull(a, b, invCube);
      StepFromRest(a, Vector3(1.0, 0.0, 0.0));
      StepFromRest(b, Zero());
    }
  }

  /** Unit mu at unit distance along x with inverse cube 1 pulls by (1, 0, 0). */
  lemma UnitPull(a: Body, b: Body, invCube: (Vector3, Vector3) -> real)
    requires a.pos == Zero() && b.pos == Vector3(1.0, 0.0, 0.0) && b.mu == 1.0
    requires invCube(b.pos, a.pos) == 1.0
    ensures Pull(b, a, invCube) == Vector3(1.0, 0.0, 0.0)
  {
    assert Sub(b.pos, a.pos) == Vector3(1.0, 0.0, 0.0);
  }

  /** A body at rest, stepped with dt = 1, takes the acceleration as its
      velocity and stays where it is. */
  lemma StepFromRest(x: Body, acc: Vector3)
    requires x.vel == Zero()
    ensures StepBody(x, 1.0, acc) == x.(vel := acc)
  {
    ZeroIsIdentity(acc);
    ZeroIsIdentity(x.pos);
  }

  /** One Euler step of a massless body a and any body b: a moves under the
      pull of b, b moves under no acceleration. */
  lemma OneStepOfMasslessAndMassive(a: Body, b: Body, dt: real, invCube: (Vector3, Vector3) -> real)
    requires a.mu == 0.0
    ensures History([a, b], dt, 1, GravityModel(invCube))[1]
      == [StepBody(a, dt, Pull(b, a, invCube)), StepBody(b, dt, Zero())]
  {
    var s := [a, b];
    var rate := GravityModel(invCube);
    var rates := Accelerations(s, invCube);
    TwoBodyAccelerations(a, b, invCube);
    OneStepHistory(s, dt, rate);
    assert rate(s, 0.0) == rates;
    StepOfPair(a, b, dt, rates);
  }
}
