/**
 Concrete behaviours of the shipped arm: the worked moves, the order in
 which a stop is attributed, the odd-step remainder, and what the home
 position does to outward moves.
 */
module Scenarios {
  import opened Hardware
  import opened Profile
  import opened Motor
  import opened Queue

  /**
   A 10 degree rotational request is 710 steps, planned 355/0/355. With no
   interruption it completes, leaves the error code nominal and drives the
   direction output HIGH.
   */
  lemma TenDegreeMove(env: Env, t: nat)
    requires ClearRun(env, RotPlus, t, t + 710)
    ensures 10 * RotStepsPerDeg == 710
    ensures Split(710, RotMaxSpeed, RotAccel) == Plan(355, 0, 355, true)
    ensures IntRotMotion(710, env, t, Nominal) == Move(0, Nominal, t + 710, High)
  {
    var m := IntRotMotion(710, env, t, Nominal);
    ConstantsPositive(RotAxis);
    ShippedSplit(RotAxis, 710);
    assert m.remaining == 0;
  }

  /**
   A 2000-step linear request whose positive limit switch is found pressed
   after 500 pulses reports 1500 steps remaining and error code 3 (switch
   index 2, LIN+, plus one); the mirrored negative request reports -1500 and
   error code 4.
   */
  lemma LinearStoppedAfter500(env: Env, t: nat)
    requires ClearRun(env, LinPlus, t, t + 500) && Pressed(env(t + 500).levels, LinPlus)
    ensures IntLinMotion(2000, env, t, Nominal) == Move(1500, LinPlus + 1, t + 501, High)
  {
    StoppedAt(LinAxis, 2000, 500, env, t);
  }

  lemma LinearReverseStoppedAfter500(env: Env, t: nat)
    requires ClearRun(env, LinMinus, t, t + 500) && Pressed(env(t + 500).levels, LinMinus)
    ensures IntLinMotion(-2000, env, t, Nominal) == Move(-1500, LinMinus + 1, t + 501, Low)
  {
    StoppedAt(LinAxis, -2000, 500, env, t);
  }

  /**
   If the first halting sample of a shipped move comes after `k` clear ones,
   with `k` short of the scheduled steps, exactly `k` steps are completed and
   the rest is reported with the sign of the request.
   */
  lemma {:induction false} StoppedAt(a: AxisIndex, steps: int, k: nat, env: Env, t: nat)
    requires steps != 0 && k < ShippedTotal(a, Abs(steps))
    requires ClearRun(env, LimitSwitch(a, steps > 0), t, t + k)
    requires Halts(env(t + k), LimitSwitch(a, steps > 0))
    ensures Accel(a) > 0
    ensures RunMotor(a, steps, MaxSpeed(a), Accel(a), env, t, Nominal) ==
              Move(WithSign(steps, Abs(steps) - k), StopCode(env(t + k), LimitSwitch(a, steps > 0)), t + k + 1,
                   if steps > 0 then High else Low)
  {
    ConstantsPositive(a);
    ShippedSplit(a, Abs(steps));
    var sw := LimitSwitch(a, steps > 0);
    var m := RunMotor(a, steps, MaxSpeed(a), Accel(a), env, t, Nominal);
    var done := Completed(steps, m.remaining);
    FirstHaltUnique(env, sw, t, done, k);
  }

  /**
   The first halting sample from `t` is unique: a clear prefix of length `j`
   that is followed by a halt whenever it is shorter than `k` meets the halt
   at `t + k` exactly.
   */
  lemma FirstHaltUnique(env: Env, sw: SwitchIndex, t: nat, j: int, k: int)
    requires 0 <= j && 0 <= k
    requires ClearRun(env, sw, t, t + j) && (j < k ==> Halts(env(t + j), sw))
    requires ClearRun(env, sw, t, t + k) && Halts(env(t + k), sw)
    ensures j == k
  {
  }

  /**
   When the limit switch and the pause flag are both asserted at the first
   check of a move, the switch is reported, not the pause.
   */
  lemma LimitBeatsPause(a: AxisIndex, steps: int, env: Env, t: nat)
    requires Abs(steps) >= 2
    requires Pressed(env(t).levels, LimitSwitch(a, steps > 0)) && env(t).paused
    ensures Accel(a) > 0
    ensures RunMotor(a, steps, MaxSpeed(a), Accel(a), env, t, Nominal).err == LimitSwitch(a, steps > 0) + 1
    ensures RunMotor(a, steps, MaxSpeed(a), Accel(a), env, t, Nominal).remaining == steps
  {
    ConstantsPositive(a);
    assert ClearRun(env, LimitSwitch(a, steps > 0), t, t + 0);
    StoppedAt(a, steps, 0, env, t);
  }

  /**
   At home the rotational "plus" and linear "minus" switches are pressed, so a
   positive rotational move or a negative linear move stops before its first
   pulse with the switch's code.
   */
  lemma HomedBlocksOutward(steps: int, env: Env, t: nat)
    requires Homed(env(t).levels)
    ensures steps >= 2 ==> IntRotMotion(steps, env, t, Nominal) == Move(steps, RotPlus + 1, t + 1, High)
    ensures steps <= -2 ==> IntLinMotion(steps, env, t, Nominal) == Move(steps, LinMinus + 1, t + 1, Low)
  {
    if steps >= 2 {
      assert ClearRun(env, RotPlus, t, t + 0);
      StoppedAt(RotAxis, steps, 0, env, t);
    }
    if steps <= -2 {
      assert ClearRun(env, LinMinus, t, t + 0);
      StoppedAt(LinAxis, steps, 0, env, t);
    }
  }

  /**
   An odd triangular move leaves one step behind even when nothing interrupts
   it, so a queue run can end nominal with a non-zero entry: 711 rotational
   steps settle to 1, and 9601 (just trapezoidal) settle to 0.
   */
  lemma OddStepRemains()
    ensures Settled(Motion(false, 711)) == Motion(false, 1)
    ensures Settled(Motion(false, -711)) == Motion(false, -1)
    ensures Settled(Motion(false, 9601)) == Motion(false, 0)
    ensures Settled(Motion(true, 31999)) == Motion(true, 1)
  {
  }

  /** An uninterrupted odd triangular rotational move reports one step remaining and stays nominal. */
  lemma OddTriangularResidue(steps: int, env: Env, t: nat)
    requires Abs(steps) <= TriangularLimit(RotAxis) && Abs(steps) % 2 == 1
    requires ClearRun(env, LimitSwitch(RotAxis, steps > 0), t, t + Abs(steps))
    ensures IntRotMotion(steps, env, t, Nominal).remaining == WithSign(steps, 1)
    ensures IntRotMotion(steps, env, t, Nominal).err == Nominal
  {
  }
}
