/**
 Running one axis by a signed number of steps: direction and limit-switch
 selection, the profile split, and the three pulse trains run in order with
 an early exit after the first one that falls short.
 */
module Motor {
  import opened Hardware
  import PulseTrain
  import opened Profile

  /** The direction output of the axis: left alone, or written HIGH (positive) or LOW (negative). */
  datatype DirPin = Untouched | High | Low

  /**
   Outcome of one move: the signed steps not completed, the error code
   afterwards, the next sensor sample index and the direction output written.
   */
  datatype Move = Move(remaining: int, err: int, next: nat, dir: DirPin)

  /** Steps completed by a move that was asked for `steps` and left `remaining` of the same sign. */
  function Completed(steps: int, remaining: int): int {
    Abs(steps) - Abs(remaining)
  }

  /** Steps the profile schedules for a request of `steps` on an axis. */
  function Scheduled(steps: int, maxSpeed: int, accel: int): nat
    requires accel > 0
  {
    Total(Split(Abs(steps), maxSpeed, accel))
  }

  /** Progress of the three phases of one move: steps done, error code, next sample index. */
  datatype Progress = Progress(done: nat, err: int, next: nat)

  /** Total steps of a list of phases. */
  function Sum(phases: seq<nat>): nat {
    if phases == [] then 0 else phases[0] + Sum(phases[1..])
  }

  /**
   Runs one pulse train per phase, in order, all guarded by switch `sw`, and
   stops after the first train that emits fewer pulses than it was given.
   */
  function RunTrains(sw: SwitchIndex, phases: seq<nat>, env: Env, t: nat, err: int): (g: Progress)
    decreases |phases|
    ensures g.done <= Sum(phases)
    ensures ClearRun(env, sw, t, t + g.done)
    // stopped by the first halting sample; no later phase runs
    ensures g.done < Sum(phases) ==>
              && Halts(env(t + g.done), sw)
              && g.err == StopCode(env(t + g.done), sw)
              && g.next == t + g.done + 1
    ensures g.done == Sum(phases) ==> g.err == err && g.next == t + g.done
  {
    if phases == [] then Progress(0, err, t)
    else
      var a := PulseTrain.Run(sw, phases[0], env, t, err);
      if a.count != phases[0] then
        Progress(a.count, a.err, a.next)
      else
        var rest := RunTrains(sw, phases[1..], env, a.next, a.err);
        Progress(a.count + rest.done, rest.err, rest.next)
  }

  /** The three phases of a plan, in the order they run. */
  function Phases(p: Plan): (phases: seq<nat>)
    ensures Sum(phases) == Total(p)
  {
    var phases := [p.accel, p.cruise, p.decel];
    assert phases[1..] == [p.cruise, p.decel];
    assert phases[1..][1..] == [p.decel];
    assert Sum([p.decel]) == p.decel by {
      assert [p.decel][1..] == [];
    }
    phases
  }

  /**
   Moves axis `axis` by `steps` (its sign is the direction) with the given
   speed and acceleration, reading sensor samples from `env(t)` on.
   */
  function RunMotor(axis: int, steps: int, maxSpeed: int, accel: int, env: Env, t: nat, err: int): (m: Move)
    requires accel > 0
    // nothing requested, or no such axis: report nothing remaining without moving
    ensures steps == 0 || !IsAxis(axis) ==> m == Move(0, err, t, Untouched)
    ensures steps != 0 && IsAxis(axis) ==>
              var sw := LimitSwitch(axis, steps > 0);
              var done := Completed(steps, m.remaining);
              && m.dir == (if steps > 0 then High else Low)
              // the remainder is zero or has the sign of the request, and is no larger than it
              && (steps > 0 ==> 0 <= m.remaining <= steps)
              && (steps < 0 ==> steps <= m.remaining <= 0)
              && 0 <= done <= Scheduled(steps, maxSpeed, accel)
              // each completed step was preceded by a clear observation of the direction's switch
              && ClearRun(env, sw, t, t + done)
              // a short move stopped at the first halting sample and read nothing after it
              && (done < Scheduled(steps, maxSpeed, accel) ==>
                    && Halts(env(t + done), sw)
                    && m.err == StopCode(env(t + done), sw)
                    && m.next == t + done + 1)
              // a move that ran every scheduled step leaves the error code alone
              && (done == Scheduled(steps, maxSpeed, accel) ==>
                    m.err == err && m.next == t + done)
    ensures m.err != err ==> IsErrorCode(m.err)
  {
    if steps == 0 then Move(0, err, t, Untouched)
    else if axis != 0 && axis != 1 then Move(0, err, t, Untouched)
    else
      var n := Abs(steps);
      var sw := LimitSwitch(axis, steps > 0);
      var p := Split(n, maxSpeed, accel);
      SplitBounds(n, maxSpeed, accel);
      var g := RunTrains(sw, Phases(p), env, t, err);
      Move(WithSign(steps, n - g.done), g.err, g.next, if steps > 0 then High else Low)
  }

  /** Remainder of a move on which nothing interrupts any scheduled step. */
  function Residue(steps: int, maxSpeed: int, accel: int): int
    requires accel > 0
  {
    WithSign(steps, Abs(steps) - Scheduled(steps, maxSpeed, accel))
  }

  /** An uninterrupted move leaves only the steps the profile split did not schedule. */
  lemma {:induction false} UninterruptedResidue(axis: AxisIndex, steps: int, maxSpeed: int, accel: int, env: Env, t: nat, err: int)
    requires accel > 0
    requires ClearRun(env, LimitSwitch(axis, steps > 0), t, t + Abs(steps))
    ensures RunMotor(axis, steps, maxSpeed, accel, env, t, err).remaining == Residue(steps, maxSpeed, accel)
    ensures RunMotor(axis, steps, maxSpeed, accel, env, t, err).err == err
  {
    if steps != 0 {
      var m := RunMotor(axis, steps, maxSpeed, accel, env, t, err);
      var sw := LimitSwitch(axis, steps > 0);
      var done := Completed(steps, m.remaining);
      SplitBounds(Abs(steps), maxSpeed, accel);
    }
  }

  /** The rotational move, with the rotational constants. */
  function IntRotMotion(steps: int, env: Env, t: nat, err: int): (m: Move)
    ensures m.err in {err, PausedCode, RotPlus + 1, RotMinus + 1}
    // uninterrupted, a short (triangular) move misses only the odd step, a long one completes
    ensures ClearRun(env, LimitSwitch(RotAxis, steps > 0), t, t + Abs(steps)) ==>
              m.err == err && m.remaining == (if Abs(steps) <= TriangularLimit(RotAxis) then WithSign(steps, Abs(steps) % 2) else 0)
  {
    ConstantsPositive(RotAxis);
    ShippedResidue(RotAxis, steps, env, t, err);
    RunMotor(RotAxis, steps, RotMaxSpeed, RotAccel, env, t, err)
  }

  /** The linear move, with the linear constants. */
  function IntLinMotion(steps: int, env: Env, t: nat, err: int): (m: Move)
    ensures m.err in {err, PausedCode, LinPlus + 1, LinMinus + 1}
    ensures ClearRun(env, LimitSwitch(LinAxis, steps > 0), t, t + Abs(steps)) ==>
              m.err == err && m.remaining == (if Abs(steps) <= TriangularLimit(LinAxis) then WithSign(steps, Abs(steps) % 2) else 0)
  {
    ConstantsPositive(LinAxis);
    ShippedResidue(LinAxis, steps, env, t, err);
    RunMotor(LinAxis, steps, LinMaxSpeed, LinAccel, env, t, err)
  }

  /** On the shipped axes an uninterrupted move misses at most the odd step of a triangular profile. */
  lemma ShippedResidue(a: AxisIndex, steps: int, env: Env, t: nat, err: int)
    ensures Accel(a) > 0
    ensures ClearRun(env, LimitSwitch(a, steps > 0), t, t + Abs(steps)) ==>
              var m := RunMotor(a, steps, MaxSpeed(a), Accel(a), env, t, err);
              m.err == err && m.remaining == (if Abs(steps) <= TriangularLimit(a) then WithSign(steps, Abs(steps) % 2) else 0)
  {
    ConstantsPositive(a);
    if ClearRun(env, LimitSwitch(a, steps > 0), t, t + Abs(steps)) {
      UninterruptedResidue(a, steps, MaxSpeed(a), Accel(a), env, t, err);
      ShippedSplit(a, Abs(steps));
    }
  }

  /** Largest move that is planned triangular on each axis. */
  function TriangularLimit(a: AxisIndex): nat {
    if a == RotAxis then 9600 else 32000
  }

  /** Steps scheduled for an `n`-step move on a shipped axis: all of them, except the odd step of a triangular move. */
  function ShippedTotal(a: AxisIndex, n: nat): nat {
    if n <= TriangularLimit(a) then n - n % 2 else n
  }

  /**
   With the shipped constants the nominal ramp is a whole number of steps
   (4800 rotational, 16000 linear), so a move is triangular exactly up to
   twice that length and a trapezoidal split schedules every step.
   */
  lemma ShippedSplit(a: AxisIndex, n: nat)
    ensures Split(n, MaxSpeed(a), Accel(a)).triangular <==> n <= TriangularLimit(a)
    ensures !Split(n, MaxSpeed(a), Accel(a)).triangular ==> Total(Split(n, MaxSpeed(a), Accel(a))) == n
    ensures Split(n, MaxSpeed(a), Accel(a)).triangular ==> Total(Split(n, MaxSpeed(a), Accel(a))) == n - n % 2
    ensures Total(Split(n, MaxSpeed(a), Accel(a))) == ShippedTotal(a, n)
  {
    SplitBounds(n, MaxSpeed(a), Accel(a));
    if !Split(n, MaxSpeed(a), Accel(a)).triangular {
      WholeRampIsLossless(n, MaxSpeed(a), Accel(a));
    }
  }
}
