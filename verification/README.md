# SCARA arm stepper sequencer

A Dafny model of the open-loop stepper controller of the two-axis SCARA arm
(class `Scara`): the pulse loop that stops on a limit switch or the pause
flag, the planner that splits a signed move into acceleration, constant-speed
and deceleration phases, the per-axis entry points, the fail-fast motion
queue, and the home check.

The hardware is abstracted as follows.

- **Sensors.** Each pulse-loop iteration makes one observation, a `Sample`: the
  four microswitch levels and the pause flag. The world is a function
  `Env = nat -> Sample` from observation index to sample, and a cursor says
  which observation comes next. A stop consumes the sample that showed it.
  The interrupt-driven writer of the pause flag is folded into this sequence.
- **Switches.** The switches are indexed 0..3 as ROT+, ROT-, LIN+, LIN-
  (`Hardware.SwitchPin`). The inputs are pulled up, so a level of `false`
  means pressed.
- **Direction output.** The direction pin write is a returned `DirPin`
  value, not a pin write.
- **Profile arithmetic.** The planner's floating-point ramp length
  `maxSpeed^2 / (2*accel)` is kept as an exact rational. Truncation is
  integer division. Speeds and periods only set pulse timing and are dropped.

Modules: `Hardware` (constants, index layout, sensors, `homed`),
`PulseTrain` (`pulseTrain`), `Profile` (the phase split), `Motor`
(`runMotor`, `intRotMotion`, `intLinMotion`), `Queue` (`setStates`,
`runAll`) and `Scenarios` (worked moves and quirks).

Quirks of `Scara.cpp` that the model keeps:

- A triangular profile gives both ramps `abs(steps) div 2` steps. An
  uninterrupted odd move of at most 9600 rotational or 32000 linear steps
  therefore reports one step remaining, with the sign of the request, while
  the error code stays 0. The three phases do not always add up to the
  request.
- `runAll` can return 0 while an entry is non-zero: an odd triangular entry
  settles to ±1.
- A trapezoidal split truncates the ramp and constant-phase lengths, so in
  general up to two steps go unscheduled. With the shipped constants the ramp
  is a whole number of steps (4800 and 16000), so no step is lost.
- An axis index other than 0 or 1 returns 0 ("nothing remaining") without
  moving.

## Model

| member | source | states |
|---|---|---|
| Hardware.LimitSwitch | Scara.cpp:154-160 | the switch for a move is `2*axis` when it is positive and `2*axis+1` when it is negative: halving it gives the axis, and its parity gives the direction |
| Hardware.SwitchPinsDistinct | Scara.cpp:16-17 | the constructor's switch table maps the four indices one-to-one onto the four microswitch pins |
| Hardware.ConstantsPositive | Scara.h:40-46 | every steps-per-unit, max-speed and acceleration constant is positive, so the planner's division is defined |
| Hardware.Homed | Scara.cpp:103-106 | the arm is home exactly when the switch that stops positive rotation (ROT+) and the switch that stops negative linear travel (LIN-) both read pressed |
| Hardware.StopCode | Scara.cpp:114-122 | a halting sample records `switch+1` when the switch is pressed, and -1 (pause) only when it is not; the code is never 0 |
| PulseTrain.Run | Scara.cpp:108-130 | pulses emitted are between 0 and `steps`; every pulse was preceded by a clear sample. An early return happens at the first halting sample, records its code and reads nothing after it. A full train leaves the error code unchanged. The train is full exactly when no halting sample is observed. A call with nothing to do reads no sensor |
| Profile.Split | Scara.cpp:146-181 | triangular exactly when `2*maxSpeed^2 >= abs(steps)*2*accel`, which is `2a >= abs(steps)`. Triangular: equal ramps of `abs(steps) div 2` and no constant phase. Trapezoidal: equal ramps of `trunc(a)`, and a constant phase of `trunc(abs(steps) - 2a)` |
| Profile.SplitBounds | Scara.cpp:166-181 | the phases never schedule more than `abs(steps)` steps and lose at most two. A triangular plan schedules `abs(steps) - abs(steps) mod 2` |
| Profile.WholeRampIsLossless | Scara.cpp:172-181 | when the ramp length `maxSpeed^2/(2*accel)` is a whole number, a trapezoidal plan schedules exactly `abs(steps)` |
| Motor.RunTrains | Scara.cpp:196-214 | the phases run in order under one switch. The steps done never exceed the phase total. A shortfall stops at the first halting sample with its code, and no later phase reads a sample. A full run leaves the error code unchanged |
| Motor.RunMotor | Scara.cpp:142-215 | zero steps or a bad axis gives 0 remaining, the error code unchanged, no sample read and no direction written. Otherwise: the direction is HIGH exactly for positive moves. The remainder is 0 or has the request's sign, and its magnitude is at most `abs(steps)`. The steps done are at most the plan total, and all of them were preceded by clear samples of the direction's switch. A short move stopped at the first halting sample with that sample's code. A full move leaves the error code unchanged. Any new code is in {-1,1,2,3,4} |
| Motor.UninterruptedResidue | Scara.cpp:166-214 | with no halting sample in the move's window, the remainder is the signed count of steps the plan did not schedule, and the error code is unchanged |
| Motor.IntRotMotion | Scara.cpp:218-221 | a rotational move can only record -1, 1 or 2. Uninterrupted, it reports `sign*(abs(steps) mod 2)` up to 9600 steps and 0 beyond |
| Motor.IntLinMotion | Scara.cpp:224-227 | a linear move can only record -1, 3 or 4. Uninterrupted, it reports `sign*(abs(steps) mod 2)` up to 32000 steps and 0 beyond |
| Motor.ShippedSplit | Scara.h:43-46 | with the shipped constants a move is triangular exactly when it is at most 9600 (rotational) or 32000 (linear) steps. A trapezoidal plan schedules every step, and a triangular plan all but the odd one |
| Motor.ShippedResidue | Scara.cpp:166-169 | on either shipped axis, an uninterrupted move leaves only the odd step of a triangular profile and keeps the error code |
| Queue.SetStates | Scara.cpp:82-101 | the queue holds the first `count` (at most 16) distances, each paired with its motor selector. A false selector means the rotational axis and true means the linear axis |
| Queue.SetStatesReadBack | Scara.cpp:82-101 | reading the filled queue back yields exactly the first `count` distances and the first `count` motor selectors, in order; nothing else is stored |
| Queue.Settled | Scara.cpp:166-169 | an entry that runs uninterrupted keeps its motor. It settles to `sign*(abs(steps) mod 2)` when triangular and to 0 otherwise, and an empty entry stays empty |
| Queue.RunEntry | Scara.cpp:259-267 | one non-empty entry, run with a nominal code, ends in one of two ways. Either it read its whole window clear, stayed nominal and settled. Or it met a halting sample inside its window: it completed exactly the clear prefix, kept a non-zero remainder with the request's sign, and recorded that sample's code |
| Queue.RunAll | Scara.cpp:256-271 | entries keep their motors. The result is 0 exactly when no entry meets a halting sample in its window; then every entry is replaced by its settled remainder. Otherwise the code is in {-1,1,2,3,4}, and there is a break entry `b`. Earlier entries settled with clear windows, and later entries are unchanged. Entry `b` is non-empty and was stopped by the first halting sample of its window. It holds the non-zero remainder with the request's sign, and the code is that sample's |
| Scenarios.TenDegreeMove | Scara.cpp:166-169 | 10 degrees is 710 rotational steps, split 355/0/355. Uninterrupted, the move returns 0 remaining with the code nominal and the direction HIGH |
| Scenarios.LinearStoppedAfter500 | Scara.cpp:196-200 | a 2000-step linear move whose LIN+ switch reads pressed after 500 pulses returns 1500 with code 3 |
| Scenarios.LinearReverseStoppedAfter500 | Scara.cpp:196-200 | the mirrored -2000-step move stopped by LIN- after 500 pulses returns -1500 with code 4 |
| Scenarios.StoppedAt | Scara.cpp:196-214 | on a shipped axis, if the first halting sample comes after `k` clear ones and `k` is less than the scheduled steps, the move returns `sign*(abs(steps)-k)` with that sample's code, and reads nothing more |
| Scenarios.LimitBeatsPause | Scara.cpp:114-122 | with the switch pressed and the pause flag set at the first check, the switch's code is recorded, not -1, and nothing moves |
| Scenarios.HomedBlocksOutward | Scara.cpp:103-106 | at home, a positive rotational move or a negative linear move of two or more steps stops before its first pulse, with code 1 or 4 respectively |
| Scenarios.OddStepRemains | Scara.cpp:168-169 | 711 and -711 rotational steps settle to 1 and -1. 9601 rotational steps (trapezoidal) settle to 0. 31999 linear steps settle to 1 |
| Scenarios.OddTriangularResidue | Scara.cpp:166-169 | an uninterrupted odd rotational move of at most 9600 steps reports one step remaining, with the request's sign, and the code stays 0 |

## Left out

- Speed and period arithmetic: the start and peak speeds, `M/currentSpeed` and the speed update. They are floating point and set only the timing of pulses, never the step counts.
- `pulse()` and its busy-wait timing, and every pin write other than the direction choice.
- `enable` and `disable`: relay and enable-pin sequencing around one-second delays.
- `rotMotion`, `linMotion` and the float conversion in `setStates`, that is `(long)(factor*d)` and `remaining/factor`. Queue entries are integer steps, and `Queue.SetStates` takes them directly.
- Profile.Split: the comparison `accelSteps*2 >= steps` is modelled with exact arithmetic. Float rounding of the ramp length, or of step counts above 2^24, is not modelled. With the shipped constants the ramp lengths 4800 and 16000 are exact.
- Motor.RunMotor: step counts are unbounded integers. The 32-bit `long` range, and the overflow of `abs` on its most negative value, are not modelled.
- Linear.cpp, Output.cpp and Input.cpp: timed relay loops, lights, horn, LCD and button reads. These are hardware wrappers outside the stepper controller.
- The pause flag's interrupt-driven writer: it appears only through the samples of the environment.
