/**
 The fixed configuration of the SCARA arm: the two stepper axes, their motion
 constants, the four limit switches and how the controller observes them.

 Index layout used throughout the controller:
 - axis 0 is the rotational motor, axis 1 the linear motor;
 - switch 0 is ROT+, 1 is ROT-, 2 is LIN+, 3 is LIN-, so the switch guarding
   travel of axis `a` is `2*a` in the positive direction and `2*a + 1` in the
   negative direction.
 */
module Hardware {

  /** Capacity of the stored motion queue. */
  const QueueCapacity := 16

  /** Steps per unit of travel for each axis (unit conversion is not modelled). */
  const RotStepsPerDeg := 71
  const LinStepsPerCm := 5328

  /** Maximum speed (steps per second) and acceleration (steps per second squared). */
  const RotMaxSpeed := 1200
  const LinMaxSpeed := 4800
  const RotAccel := 150
  const LinAccel := 720

  /** Error codes: 0 is nominal, -1 means the pause flag was seen, N > 0 means switch N-1 was pressed. */
  const Nominal := 0
  const PausedCode := -1

  type AxisIndex = a: int | 0 <= a < 2
  type SwitchIndex = s: int | 0 <= s < 4

  const RotAxis: AxisIndex := 0
  const LinAxis: AxisIndex := 1

  const RotPlus: SwitchIndex := 0
  const RotMinus: SwitchIndex := 1
  const LinPlus: SwitchIndex := 2
  const LinMinus: SwitchIndex := 3

  /** Input pins of the four microswitches. */
  const RotPlsPin := 30
  const RotMinPin := 31
  const LinPlsPin := 33
  const LinMinPin := 32

  predicate IsAxis(a: int) {
    a == 0 || a == 1
  }

  function MaxSpeed(a: AxisIndex): int {
    if a == RotAxis then RotMaxSpeed else LinMaxSpeed
  }

  function Accel(a: AxisIndex): int {
    if a == RotAxis then RotAccel else LinAccel
  }

  function StepsPerUnit(a: AxisIndex): int {
    if a == RotAxis then RotStepsPerDeg else LinStepsPerCm
  }

  /** Every configured constant is positive, so the profile split never divides by zero. */
  lemma ConstantsPositive(a: AxisIndex)
    ensures MaxSpeed(a) > 0 && Accel(a) > 0 && StepsPerUnit(a) > 0
  {
  }

  /** The switch guarding travel of `axis` in the given direction. */
  function LimitSwitch(axis: AxisIndex, positive: bool): (sw: SwitchIndex)
    ensures sw / 2 == axis
    ensures sw % 2 == 0 <==> positive
  {
    if positive then 2 * axis else 2 * axis + 1
  }

  /** The pin table built by the constructor: switch index to input pin. */
  function SwitchPin(sw: SwitchIndex): int {
    match sw
    case 0 => RotPlsPin
    case 1 => RotMinPin
    case 2 => LinPlsPin
    case 3 => LinMinPin
  }

  /** The switch table is a bijection onto the four microswitch pins. */
  lemma SwitchPinsDistinct(i: SwitchIndex, j: SwitchIndex)
    ensures SwitchPin(i) == SwitchPin(j) <==> i == j
    ensures SwitchPin(i) in {RotPlsPin, RotMinPin, LinPlsPin, LinMinPin}
  {
  }

  /**
   Logic levels of the four microswitch inputs at one instant. The inputs are
   pulled up, so `true` (HIGH) means released and `false` (LOW) means pressed.
   */
  datatype SwitchLevels = SwitchLevels(rotPls: bool, rotMin: bool, linPls: bool, linMin: bool)

  predicate IsSwitchPin(pin: int) {
    pin == RotPlsPin || pin == RotMinPin || pin == LinPlsPin || pin == LinMinPin
  }

  /** Reading one microswitch pin. */
  function ReadPin(levels: SwitchLevels, pin: int): bool
    requires IsSwitchPin(pin)
  {
    if pin == RotPlsPin then levels.rotPls
    else if pin == RotMinPin then levels.rotMin
    else if pin == LinPlsPin then levels.linPls
    else levels.linMin
  }

  /** Reading a switch through the controller's switch table. */
  function Level(levels: SwitchLevels, sw: SwitchIndex): bool {
    ReadPin(levels, SwitchPin(sw))
  }

  predicate Pressed(levels: SwitchLevels, sw: SwitchIndex) {
    !Level(levels, sw)
  }

  /**
   The arm is home (full outboard, full down) when the rotational "plus" and the
   linear "minus" microswitches are both pressed.
   */
  function Homed(levels: SwitchLevels): (r: bool)
    ensures r <==> Pressed(levels, LimitSwitch(RotAxis, true)) && Pressed(levels, LimitSwitch(LinAxis, false))
  {
    !ReadPin(levels, LinMinPin) && !ReadPin(levels, RotPlsPin)
  }

  /** What one iteration of the pulse loop observes: the switch levels and the pause flag. */
  datatype Sample = Sample(levels: SwitchLevels, paused: bool)

  /**
   The environment as seen by the controller: the `i`-th sensor observation it
   makes. The pause flag's interrupt-driven writer and the physical switches are
   folded into this sequence.
   */
  type Env = nat -> Sample

  /** A sample that stops travel guarded by `sw`: the switch is pressed or the pause flag is set. */
  predicate Halts(s: Sample, sw: SwitchIndex) {
    Pressed(s.levels, sw) || s.paused
  }

  /** The error code recorded for a halting sample; the switch takes precedence over the pause flag. */
  function StopCode(s: Sample, sw: SwitchIndex): (code: int)
    requires Halts(s, sw)
    ensures code == PausedCode || code == sw + 1
    ensures code != Nominal
    ensures code == PausedCode <==> !Pressed(s.levels, sw)
  {
    if Pressed(s.levels, sw) then sw + 1 else PausedCode
  }

  /** No sample with index in [from, to) halts travel guarded by `sw`. */
  ghost predicate ClearRun(env: Env, sw: SwitchIndex, from: nat, to: int) {
    forall i: nat :: from <= i < to ==> !Halts(env(i), sw)
  }

  /** The error codes the controller can ever record. */
  predicate IsErrorCode(code: int) {
    code in {PausedCode, 1, 2, 3, 4}
  }

  function Abs(x: int): nat {
    if x < 0 then -x else x
  }

  /** The magnitude `x` given the sign of `steps`, i.e. `x` times the sign of `steps`. */
  function WithSign(steps: int, x: int): int {
    if steps > 0 then x else if steps < 0 then -x else 0
  }
}
