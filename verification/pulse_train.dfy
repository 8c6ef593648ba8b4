/**
 The pulse loop: emits up to `steps` pulses, checking the direction's limit
 switch and then the pause flag before each one. Speed and period arithmetic
 only shape timing and are not modelled.
 */
module PulseTrain {
  import opened Hardware

  /**
   Outcome of one pulse train: pulses emitted, the error code afterwards, and
   the index of the next sensor sample the controller will read.
   */
  datatype Train = Train(count: nat, err: int, next: nat)

  /**
   Runs a pulse train guarded by switch `sw`, reading samples `env(t)`,
   `env(t+1)`, ... one per loop iteration. Each iteration first reads the
   switch, then the pause flag, and only then emits a pulse.
   */
  function Run(sw: SwitchIndex, steps: int, env: Env, t: nat, err: int): (r: Train)
    decreases steps
    // a call with nothing to do reads no sensor and leaves the error code alone
    ensures steps <= 0 ==> r == Train(0, err, t)
    ensures r.count <= steps || r.count == 0
    // every pulse emitted was preceded by a clear observation
    ensures ClearRun(env, sw, t, t + r.count)
    // an early return is caused by the sample right after the last pulse, and nothing follows it
    ensures r.count < steps ==>
              && Halts(env(t + r.count), sw)
              && r.err == StopCode(env(t + r.count), sw)
              && r.next == t + r.count + 1
    // the limit switch is checked before the pause flag
    ensures r.count < steps && Pressed(env(t + r.count).levels, sw) ==> r.err == sw + 1
    // a full train changes nothing but the sample cursor
    ensures r.count == steps ==> r.err == err && r.next == t + steps
    // the train is full exactly when no interruption is observed
    ensures steps >= 0 ==> (r.count == steps <==> ClearRun(env, sw, t, t + steps))
  {
    if steps <= 0 then Train(0, err, t)
    else if Pressed(env(t).levels, sw) then Train(0, sw + 1, t + 1)
    else if env(t).paused then Train(0, PausedCode, t + 1)
    else
      var rest := Run(sw, steps - 1, env, t + 1, err);
      Train(rest.count + 1, rest.err, rest.next)
  }
}
