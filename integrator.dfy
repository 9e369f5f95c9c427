/** The forward Euler time-stepping engine: a state is a sequence of bodies,
    index position is identity over time, and a run produces the history of
    states from the initial one. */
module Integrator {
  import opened Bodies
  import opened Results

  type State = seq<Body>

  /** A rate function is what the integrator calls once per step: a state and
      the time of that state in, one acceleration per body out. */
  type RateFunction = (State, real) -> seq<Vector3>

  /** The force-model contract the per-body loop of `run` relies on: exactly
      one acceleration per body. */
  ghost predicate ForceModel(rate: RateFunction)
  {
    forall s: State, t: real :: |rate(s, t)| == |s|
  }

  /** One body advanced by one step under acceleration `a`: velocity gains
      `dt * a`, position gains `dt` times the velocity it had before the step. */
  function StepBody(b: Body, dt: real, a: Vector3): (next: Body)
    ensures next.name == b.name && next.mu == b.mu
    ensures Sub(next.vel, b.vel) == Scale(dt, a)
    ensures Sub(next.pos, b.pos) == Scale(dt, b.vel)
  {
    b.(vel := Add(b.vel, Scale(dt, a)), pos := Add(b.pos, Scale(dt, b.vel)))
  }

  /** A whole state advanced by one step, body i under `rates[i]`. */
  function Step(s: State, dt: real, rates: seq<Vector3>): (r: State)
    requires |rates| == |s|
    ensures |r| == |s|
  {
    seq(|s|, i requires 0 <= i < |s| => StepBody(s[i], dt, rates[i]))
  }

  /** The history that `n` steps of forward Euler produce: state 0 is the
      initial state and state n is state n-1 advanced under the rates the rate
      function gives for state n-1 at time (n-1)*dt. */
  function History(init: State, dt: real, steps: nat, rate: RateFunction): (h: seq<State>)
    requires ForceModel(rate)
    ensures |h| == steps + 1
    decreases steps
  {
    if steps == 0 then [init]
    else
      var h := History(init, dt, steps - 1, rate);
      var last := h[steps - 1];
      h + [Step(last, dt, rate(last, (steps - 1) as real * dt))]
  }

  /** Which step of `run` read out of range, and at which body index. */
  datatype RunFault = RateIndexOutOfRange(step: nat, index: nat)

  /** The per-body loop of `run` on a copy of the previous state: body i gets
      `dt * rate[i]` added to its velocity and `dt` times its previous velocity
      added to its position. Reading `rate[i]` past the end of `rate` is
      undefined in the program; here it stops the loop with the index read. */
  method Advance(prev: State, rate: seq<Vector3>, dt: real) returns (r: Result<State, nat>)
    ensures r.Success? <==> |prev| <= |rate|
    ensures r.Success? ==> r.value == Step(prev, dt, rate[..|prev|])
    ensures r.Failure? ==> r.error == |rate|
  {
    var stateN := prev;
    for i := 0 to |stateN|
      invariant |stateN| == |prev| && i <= |rate|
      invariant forall k :: 0 <= k < i ==> stateN[k] == StepBody(prev[k], dt, rate[k])
      invariant forall k :: i <= k < |prev| ==> stateN[k] == prev[k]
    {
      if i >= |rate| {
        return Failure(i);
      }
      var b, a, v := stateN[i], rate[i], prev[i].vel;
      assert b == prev[i];
      var dv := Vector3(dt * a.x, dt * a.y, dt * a.z);
      var dp := Vector3(dt * v.x, dt * v.y, dt * v.z);
      assert dv == Scale(dt, a) && dp == Scale(dt, v);
      var vel := Vector3(b.vel.x + dv.x, b.vel.y + dv.y, b.vel.z + dv.z);
      var pos := Vector3(b.pos.x + dp.x, b.pos.y + dp.y, b.pos.z + dp.z);
      stateN := stateN[i := b.(vel := vel, pos := pos)];
    }
    return Success(stateN);
  }

  /** `grav_rate_func` as written: it computes each body's acceleration and
      then drops it, because nothing is ever appended to `rates`. */
  method GravRateFunc(state: State, t: real, invCube: (Vector3, Vector3) -> real) returns (rates: seq<Vector3>)
    ensures rates == []
  {
    rates := [];
    for i := 0 to |state| {
      var rate := Zero();
      for j := 0 to |state| {
        if j == i {
          continue;
        }
        var rateScal := state[j].mu * invCube(state[j].pos, state[i].pos);
        var diff := Sub(state[j].pos, state[i].pos);
        rate := Vector3(rate.x + rateScal * diff.x, rate.y + rateScal * diff.y, rate.z + rateScal * diff.z);
      }
    }
  }

  /** The forward Euler integrator: the fields of `Integrator`, assigned once
      by the constructor and only read afterwards. */
  class ForwardEuler {
    const dt: real
    const steps: nat
    const initialConditions: State
    const rateFunc: RateFunction

    constructor (dt: real, steps: nat, initial: State, rate: RateFunction)
      ensures this.dt == dt && this.steps == steps
      ensures this.initialConditions == initial && this.rateFunc == rate
    {
      this.dt := dt;
      this.steps := steps;
      this.initialConditions := initial;
      this.rateFunc := rate;
    }

    /** `run` with the stored rate function, which is what the constructor's
        rate argument is for: the history of `steps` Euler steps. */
    method Run() returns (states: seq<State>)
      requires ForceModel(rateFunc)
      ensures states == History(initialConditions, dt, steps, rateFunc)
      ensures |states| == steps + 1 && states[0] == initialConditions
    {
      states := [initialConditions];
      for n := 1 to steps + 1
        invariant states == History(initialConditions, dt, n - 1, rateFunc)
      {
        var time := dt * n as real;
        var prev := states[n - 1];
        var rate := rateFunc(prev, time - dt);
        var stateN := Advance(prev, rate, dt);
        assert rate[..|prev|] == rate;
        StepTime(dt, n);
        HistoryExtend(initialConditions, dt, n, rateFunc, prev, time - dt);
        states := states + [stateN.value];
      }
      HistoryHead(initialConditions, dt, steps, rateFunc);
    }

    /** `run` as written: it calls `grav_rate_func`, never the stored rate
        function, and then reads `rate[i]` for every body. The result is a
        fault exactly when there is a step to take and a body to update. */
    method RunAsWritten(invCube: (Vector3, Vector3) -> real) returns (r: Result<seq<State>, RunFault>)
      ensures r.Failure? <==> steps >= 1 && |initialConditions| > 0
      ensures r.Failure? ==> r.error == RateIndexOutOfRange(1, 0)
      ensures r.Success? ==> |r.value| == steps + 1
      ensures r.Success? ==> forall n :: 0 <= n < |r.value| ==> r.value[n] == initialConditions
    {
      var states := [initialConditions];
      for n := 1 to steps + 1
        invariant |states| == n
        invariant forall m :: 0 <= m < n ==> states[m] == initialConditions
        invariant n > 1 ==> |initialConditions| == 0
      {
        var time := dt * n as real;
        var rate := GravRateFunc(states[n - 1], time - dt, invCube);
        var stateN := Advance(states[n - 1], rate, dt);
        if stateN.Failure? {
          return Failure(RateIndexOutOfRange(n, stateN.error));
        }
        states := states + [stateN.value];
      }
      return Success(states);
    }
  }

  /** The time `run` passes for step n, `dt * n - dt`, is `(n-1) * dt`. */
  lemma StepTime(dt: real, n: nat)
    requires n >= 1
    ensures dt * n as real - dt == (n - 1) as real * dt
  {
  }

  /** A history of n steps is the history of n-1 steps with one more state. */
  lemma HistoryExtend(init: State, dt: real, n: nat, rate: RateFunction, prev: State, t: real)
    requires ForceModel(rate) && n >= 1
    requires prev == History(init, dt, n - 1, rate)[n - 1]
    requires t == (n - 1) as real * dt
    ensures History(init, dt, n, rate) == History(init, dt, n - 1, rate) + [Step(prev, dt, rate(prev, t))]
  {
  }

  /** The first state of every history is the initial state, unchanged. */
  lemma {:induction false} HistoryHead(init: State, dt: real, steps: nat, rate: RateFunction)
    requires ForceModel(rate)
    ensures History(init, dt, steps, rate)[0] == init
    decreases steps
  {
    if steps > 0 {
      HistoryHead(init, dt, steps - 1, rate);
    }
  }

  /** A shorter run is a prefix of a longer one with the same parameters. */
  lemma {:induction false} HistoryPrefix(init: State, dt: real, steps: nat, k: nat, rate: RateFunction)
    requires ForceModel(rate) && k <= steps
    ensures History(init, dt, steps, rate)[..k + 1] == History(init, dt, k, rate)
    decreases steps
  {
    if k < steps {
      HistoryPrefix(init, dt, steps - 1, k, rate);
      var h := History(init, dt, steps - 1, rate);
      assert History(init, dt, steps, rate)[..steps] == h;
    }
  }

  /** State n depends on state n-1 only, through one call of the rate function
      on state n-1 with time (n-1)*dt. */
  lemma HistoryStepRule(init: State, dt: real, steps: nat, n: nat, rate: RateFunction)
    requires ForceModel(rate) && 1 <= n <= steps
    ensures var h := History(init, dt, steps, rate);
      h[n] == Step(h[n - 1], dt, rate(h[n - 1], (n - 1) as real * dt))
  {
    HistoryPrefix(init, dt, steps, n, rate);
    var h := History(init, dt, steps, rate);
    assert h[n] == h[..n + 1][n] && h[n - 1] == h[..n + 1][n - 1];
  }

  /** Every state of the history has as many bodies as the initial state, in
      the same order: body i of state n keeps the name and mu of body i of the
      initial state. */
  lemma {:induction false} HistoryShape(init: State, dt: real, steps: nat, n: nat, rate: RateFunction)
    requires ForceModel(rate) && n <= steps
    ensures var h := History(init, dt, steps, rate);
      |h[n]| == |init| &&
      forall i :: 0 <= i < |init| ==> h[n][i].name == init[i].name && h[n][i].mu == init[i].mu
    decreases n
  {
    if n == 0 {
      HistoryHead(init, dt, steps, rate);
    } else {
      HistoryShape(init, dt, steps, n - 1, rate);
      HistoryStepRule(init, dt, steps, n, rate);
    }
  }

  /** Between consecutive states only pos and vel change; velocity gains
      `dt * rates[i]` and position gains `dt` times the OLD velocity. */
  lemma StepUpdatesMotionOnly(s: State, dt: real, rates: seq<Vector3>, i: nat)
    requires |rates| == |s| && i < |s|
    ensures Step(s, dt, rates)[i].name == s[i].name && Step(s, dt, rates)[i].mu == s[i].mu
    ensures Step(s, dt, rates)[i].vel == Add(s[i].vel, Scale(dt, rates[i]))
    ensures Step(s, dt, rates)[i].pos == Add(s[i].pos, Scale(dt, s[i].vel))
  {
  }

  /** The position update is not the symplectic one: whenever `dt` is non-zero
      and the body is accelerated, the new position differs from the one the
      NEW velocity would give. */
  lemma PositionUsesOldVelocity(s: State, dt: real, rates: seq<Vector3>, i: nat)
    requires |rates| == |s| && i < |s|
    requires dt != 0.0 && rates[i] != Zero()
    ensures var b := Step(s, dt, rates)[i];
      b.pos != Add(s[i].pos, Scale(dt, b.vel))
  {
    StepUpdatesMotionOnly(s, dt, rates, i);
    OldVelocityMoves(s[i].pos, s[i].vel, rates[i], dt);
  }

  /** The vector form of the lemma above: moving `p` by `dt` times `v` and by
      `dt` times `v + dt * a` give points `dt * dt * a` apart. */
  lemma OldVelocityMoves(p: Vector3, v: Vector3, a: Vector3, dt: real)
    requires dt != 0.0 && a != Zero()
    ensures Add(p, Scale(dt, v)) != Add(p, Scale(dt, Add(v, Scale(dt, a))))
  {
    var gap := Scale(dt, Scale(dt, a));
    assert Add(p, Scale(dt, Add(v, Scale(dt, a)))) == Add(Add(p, Scale(dt, v)), gap);
    ProductNonZero(dt, a.x);
    ProductNonZero(dt, a.y);
    ProductNonZero(dt, a.z);
  }

  lemma ProductNonZero(dt: real, c: real)
    requires dt != 0.0
    ensures c != 0.0 <==> dt * (dt * c) != 0.0
  {
    if c != 0.0 {
      assert dt * c != 0.0;
    }
  }

  /** With no bodies every state of the history is empty. */
  lemma EmptyStateHistory(dt: real, steps: nat, rate: RateFunction, n: nat)
    requires ForceModel(rate) && n <= steps
    ensures History([], dt, steps, rate)[n] == []
  {
    HistoryShape([], dt, steps, n, rate);
  }

  /** A run of one step is the initial state followed by its successor. */
  lemma OneStepHistory(init: State, dt: real, rate: RateFunction)
    requires ForceModel(rate)
    ensures History(init, dt, 1, rate) == [init, Step(init, dt, rate(init, 0.0))]
  {
    assert History(init, dt, 0, rate) == [init];
  }

  /** Stepping a pair of bodies steps each one under its own rate. */
  lemma StepOfPair(a: Body, b: Body, dt: real, rates: seq<Vector3>)
    requires |rates| == 2
    ensures Step([a, b], dt, rates) == [StepBody(a, dt, rates[0]), StepBody(b, dt, rates[1])]
  {
  }
}
