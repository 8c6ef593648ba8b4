/**
 The stored motion queue and its fail-fast runner. Entries hold signed step
 counts; the float unit conversion done when the queue is filled is not
 modelled.
 */
module Queue {
  import opened Hardware
  import opened Profile
  import opened Motor

  /** One stored motion: which motor (false = rotational, true = linear) and the signed steps still to go. */
  datatype Motion = Motion(linear: bool, steps: int)

  function AxisOf(m: Motion): AxisIndex {
    if m.linear then LinAxis else RotAxis
  }

  /** The switch that would stop this motion. */
  function SwitchOf(m: Motion): SwitchIndex {
    LimitSwitch(AxisOf(m), m.steps > 0)
  }

  /** Runs one stored motion on its motor with that motor's constants. */
  function Execute(m: Motion, env: Env, t: nat, err: int): Move {
    if m.linear then IntLinMotion(m.steps, env, t, err) else IntRotMotion(m.steps, env, t, err)
  }

  /** Steps the profile schedules for a stored motion (none for an empty one). */
  function PlannedSteps(m: Motion): nat {
    if m.steps == 0 then 0 else ShippedTotal(AxisOf(m), Abs(m.steps))
  }

  /** The entry a motion leaves behind when it runs every scheduled step. */
  function Settled(m: Motion): (r: Motion)
    ensures r.linear == m.linear
    // empty entries stay empty; others keep only the odd step of a triangular profile
    ensures r.steps == (if Abs(m.steps) <= TriangularLimit(AxisOf(m)) then WithSign(m.steps, Abs(m.steps) % 2) else 0)
  {
    m.(steps := WithSign(m.steps, Abs(m.steps) - PlannedSteps(m)))
  }

  /** Sensor samples consumed by the entries before `i` when none of them is interrupted. */
  function Offset(q: seq<Motion>, i: nat): nat
    requires i <= |q|
  {
    if i == 0 then 0 else Offset(q, i - 1) + PlannedSteps(q[i - 1])
  }

  /** Entry `i` sees no halting sample in the window it would read when reached without interruption. */
  ghost predicate WindowClear(q: seq<Motion>, i: nat, env: Env, t: nat)
    requires i < |q|
  {
    ClearRun(env, SwitchOf(q[i]), t + Offset(q, i), t + Offset(q, i) + PlannedSteps(q[i]))
  }

  /**
   Entry `m`, started at sample `start`, was stopped after `k` steps by the
   first halting sample of its window: `a` holds the non-zero remainder, with
   the sign of the request, and `err` the code that sample records.
   */
  ghost predicate EntryHalted(m: Motion, a: Motion, err: int, env: Env, start: nat) {
    var sw := SwitchOf(m);
    var k := Abs(m.steps) - Abs(a.steps);
    && a.linear == m.linear
    && (m.steps > 0 ==> 0 < a.steps <= m.steps)
    && (m.steps < 0 ==> m.steps <= a.steps < 0)
    && 0 <= k < PlannedSteps(m)
    && ClearRun(env, sw, start, start + k)
    && Halts(env(start + k), sw)
    && err == StopCode(env(start + k), sw)
  }

  /**
   The queue was halted at entry `b`: every earlier entry settled and every
   later one is untouched.
   */
  ghost predicate HaltedAt(q: seq<Motion>, after: seq<Motion>, b: nat, err: int, env: Env, t: nat)
    requires |after| == |q|
  {
    && b < |q|
    && (forall i :: 0 <= i < b ==> after[i] == Settled(q[i]))
    && (forall i :: 0 <= i < b ==> WindowClear(q, i, env, t))
    && !WindowClear(q, b, env, t)
    && (forall i :: b < i < |q| ==> after[i] == q[i])
    && EntryHalted(q[b], after[b], err, env, t + Offset(q, b))
  }

  /** The stored motion list: the first `count` distances paired with their motor selectors. */
  function SetStates(count: int, distances: seq<int>, motors: seq<bool>): (q: seq<Motion>)
    requires 0 <= count <= QueueCapacity
    requires count <= |distances| && count <= |motors|
    ensures |q| == count
    ensures forall i :: 0 <= i < count ==> q[i].steps == distances[i] && q[i].linear == motors[i]
    // a false selector runs the rotational motor, anything else the linear one
    ensures forall i :: 0 <= i < count ==> AxisOf(q[i]) == (if motors[i] then LinAxis else RotAxis)
  {
    seq(count, i requires 0 <= i < count => Motion(motors[i], distances[i]))
  }

  /** The signed step counts held by a queue, in order. */
  function StoredSteps(q: seq<Motion>): (d: seq<int>)
    ensures |d| == |q| && forall i :: 0 <= i < |q| ==> d[i] == q[i].steps
  {
    seq(|q|, i requires 0 <= i < |q| => q[i].steps)
  }

  /** The motor selectors held by a queue, in order. */
  function StoredMotors(q: seq<Motion>): (m: seq<bool>)
    ensures |m| == |q| && forall i :: 0 <= i < |q| ==> m[i] == q[i].linear
  {
    seq(|q|, i requires 0 <= i < |q| => q[i].linear)
  }

  /** Reading a filled queue back gives exactly the first `count` distances and selectors. */
  lemma SetStatesReadBack(count: int, distances: seq<int>, motors: seq<bool>)
    requires 0 <= count <= QueueCapacity
    requires count <= |distances| && count <= |motors|
    ensures StoredSteps(SetStates(count, distances, motors)) == distances[..count]
    ensures StoredMotors(SetStates(count, distances, motors)) == motors[..count]
  {
  }

  /**
   Runs the stored motions in order from sensor sample `t` on, with the error
   code reset to nominal. Empty entries are skipped; each processed entry is
   replaced by its remainder; the run stops at the first non-zero error code.
   */
  method RunAll(q: seq<Motion>, env: Env, t: nat) returns (err: int, after: seq<Motion>)
    requires |q| <= QueueCapacity
    ensures |after| == |q|
    ensures forall i :: 0 <= i < |q| ==> after[i].linear == q[i].linear
    // nominal exactly when no entry met a halting sample
    ensures err == Nominal <==> forall i :: 0 <= i < |q| ==> WindowClear(q, i, env, t)
    ensures err == Nominal ==> forall i :: 0 <= i < |q| ==> after[i] == Settled(q[i])
    ensures err != Nominal ==> IsErrorCode(err) && exists b :: HaltedAt(q, after, b, err, env, t)
  {
    err := Nominal;
    after := q;
    var cursor := t;
    var i := 0;
    while i < |q|
      invariant 0 <= i <= |q|
      invariant |after| == |q|
      invariant err == Nominal
      invariant cursor == t + Offset(q, i)
      invariant forall j :: 0 <= j < i ==> after[j] == Settled(q[j])
      invariant forall j :: 0 <= j < i ==> WindowClear(q, j, env, t)
      invariant forall j :: i <= j < |q| ==> after[j] == q[j]
    {
      if q[i].steps == 0 {
        i := i + 1;
        continue;
      }
      var m := RunEntry(q[i], env, cursor);
      after := after[i := q[i].(steps := m.remaining)];
      err := m.err;
      if err != Nominal {
        HaltStep(q, after, i, err, env, t, cursor);
        return;
      }
      SettleStep(q, i, env, t, cursor, m.next);
      cursor := m.next;
      i := i + 1;
    }
  }

  /**
   Runs one non-empty stored motion from sample `t` with a nominal error code:
   either it read its whole window, ended nominal and settled, or it was
   stopped inside its window.
   */
  method RunEntry(m: Motion, env: Env, t: nat) returns (mv: Move)
    requires m.steps != 0
    ensures mv.err == Nominal ==>
              && ClearRun(env, SwitchOf(m), t, t + PlannedSteps(m))
              && m.(steps := mv.remaining) == Settled(m)
              && mv.next == t + PlannedSteps(m)
    ensures mv.err != Nominal ==>
              && !ClearRun(env, SwitchOf(m), t, t + PlannedSteps(m))
              && EntryHalted(m, m.(steps := mv.remaining), mv.err, env, t)
              && IsErrorCode(mv.err)
  {
    mv := Execute(m, env, t, Nominal);
    if mv.err == Nominal {
      ExecuteSettled(m, env, t);
    } else {
      ExecuteHalted(m, env, t);
    }
  }

  /** Entry `i`, reached without interruption, that read its whole window. */
  lemma SettleStep(q: seq<Motion>, i: nat, env: Env, t: nat, cursor: nat, next: nat)
    requires i < |q|
    requires cursor == t + Offset(q, i)
    requires ClearRun(env, SwitchOf(q[i]), cursor, cursor + PlannedSteps(q[i]))
    requires next == cursor + PlannedSteps(q[i])
    ensures WindowClear(q, i, env, t)
    ensures next == t + Offset(q, i + 1)
  {
  }

  /** Entry `i`, reached without interruption and stopped inside its window, is where the queue halted. */
  lemma HaltStep(q: seq<Motion>, after: seq<Motion>, i: nat, err: int, env: Env, t: nat, cursor: nat)
    requires i < |q| && |after| == |q|
    requires cursor == t + Offset(q, i)
    requires forall j :: 0 <= j < i ==> after[j] == Settled(q[j])
    requires forall j :: 0 <= j < i ==> WindowClear(q, j, env, t)
    requires forall j :: i < j < |q| ==> after[j] == q[j]
    requires !ClearRun(env, SwitchOf(q[i]), cursor, cursor + PlannedSteps(q[i]))
    requires EntryHalted(q[i], after[i], err, env, cursor)
    ensures HaltedAt(q, after, i, err, env, t)
  {
  }

  /** An executed entry that ends nominal ran its whole window and settled. */
  lemma ExecuteSettled(m: Motion, env: Env, t: nat)
    requires m.steps != 0
    requires Execute(m, env, t, Nominal).err == Nominal
    ensures ClearRun(env, SwitchOf(m), t, t + PlannedSteps(m))
    ensures m.(steps := Execute(m, env, t, Nominal).remaining) == Settled(m)
    ensures Execute(m, env, t, Nominal).next == t + PlannedSteps(m)
  {
    var a := AxisOf(m);
    ConstantsPositive(a);
    ShippedSplit(a, Abs(m.steps));
    var mv := RunMotor(a, m.steps, MaxSpeed(a), Accel(a), env, t, Nominal);
    assert Execute(m, env, t, Nominal) == mv;
  }

  /** An executed entry that ends with an error stopped inside its window with a non-zero remainder. */
  lemma ExecuteHalted(m: Motion, env: Env, t: nat)
    requires m.steps != 0
    requires Execute(m, env, t, Nominal).err != Nominal
    ensures !ClearRun(env, SwitchOf(m), t, t + PlannedSteps(m))
    ensures EntryHalted(m, m.(steps := Execute(m, env, t, Nominal).remaining), Execute(m, env, t, Nominal).err, env, t)
    ensures IsErrorCode(Execute(m, env, t, Nominal).err)
  {
    var a := AxisOf(m);
    ConstantsPositive(a);
    ShippedSplit(a, Abs(m.steps));
    SplitBounds(Abs(m.steps), MaxSpeed(a), Accel(a));
    var mv := RunMotor(a, m.steps, MaxSpeed(a), Accel(a), env, t, Nominal);
    assert Execute(m, env, t, Nominal) == mv;
    var done := Completed(m.steps, mv.remaining);
    assert done < PlannedSteps(m);
    assert Halts(env(t + done), SwitchOf(m));
  }
}
