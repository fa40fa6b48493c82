# Smart Throttle Adapter — control logic in Dafny

This project models the control logic of the throttle adapter in
`Smart_Throttle_Analog_output_rx0.py`. The adapter sits between a throttle and a
motor controller. Each supervisor cycle reads one 16-bit throttle sample and the
brake pin, then runs a three-mode machine:

- IDLE commands standstill.
- RUN passes the throttle through.
- HOLD is cruise: it commands a speed latched when the throttle has been steady.

A 100-slot ring of recent samples decides when the throttle is steady. On every
timer tick, an output step picks a speed from the mode, maps it with the integer
slope and offset, and clamps it to the duty-cycle range.

Everything is integer-only and modelled as pure functions over an immutable state:

- `constants.dfy` (module `Constants`): the fixed levels, the active-low LED and
  brake conventions, and the integer mapping `Slope = 1`, `Offset = 0`.
- `stabilizer.dfy` (module `Stabilizer`): the ring (`Ring`) with `Record`, `Flush` and
  the floor `Average`.
- `supervisor.dfy` (module `Supervisor`): `State`, `Init` and `Step` (one pass of
  the main loop's body). It also has `Steps` (a run over a sequence of cycles) and
  lemmas about single transitions and reachable states.
- `output.dfy` (module `Output`): speed selection, mapping, clamp and `OutputCommand`.
- `scenarios.dfy` (module `Scenarios`): multi-cycle facts. These are stabilization
  within one window and runs of a constant throttle from an empty ring.

The model follows the code. What the code does, including where it differs
from the comment at line 169:

- The recording branch (lines 168–181) is reached in three situations, not only
  in RUN: any RUN sample; IDLE with a sample at most three mph; HOLD with a
  sample from one mph up to the threshold. So IDLE can enter HOLD without ever
  passing through RUN (`Scenarios.IdleEntersHoldDirectly`: 93 cycles of 15000
  from power-up or any other IDLE state with an empty ring). HOLD can also re-latch its speed and threshold
  (`Scenarios.HoldRelatchReachable`: after the steady
  17000 run latches, 92 cycles of 20000 re-latch at 20000 without leaving HOLD).
- Flushing the ring zeroes the slots but keeps the write position.
- Braking only changes the mode. The LED, latched speed, threshold and ring are
  all kept.
- The exit threshold `target` is an unbound global until HOLD is first entered.
  The model writes it as `Target = Unset | Set(value)`.
  `Supervisor.ReachableInvariant` proves that every reachable HOLD state has it set.
  So the read at line 161 never fails.
- The brake is read as a pin level: 0 means braking.
- The mapping uses `int(...)`, which truncates. With the active integer slope and
  offset, that truncation is exact.
- Python's `//` with the positive divisor 100 is floor division. That is also what
  Dafny's `/` computes for a positive divisor.

## Model

| member | source | states |
|---|---|---|
| `Stabilizer.Record` | Smart_Throttle_Analog_output_rx0.py:170-171 | the sample lands at the write position, the other 99 slots are unchanged, the position advances modulo 100, the ring keeps 100 slots, and the sum changes by the new sample minus the overwritten one |
| `Stabilizer.Flush` | Smart_Throttle_Analog_output_rx0.py:107-109 | afterwards all 100 slots are zero, and the write position is not reset (their sum and average are stated by `Stabilizer.FlushedAverage`) |
| `Stabilizer.Average` | Smart_Throttle_Analog_output_rx0.py:112-113 | the result is the floor of the mean of all 100 slots: `100*a <= sum < 100*(a+1)` |
| `Stabilizer.AverageWithin` | Smart_Throttle_Analog_output_rx0.py:112-113 | if every slot lies in `[lo, hi]`, so does the average |
| `Stabilizer.FlushedAverage` | Smart_Throttle_Analog_output_rx0.py:107-113 | a flushed ring sums to 0 and, when its kept write position is in range, averages to 0 |
| `Stabilizer.ConstantAverage` | Smart_Throttle_Analog_output_rx0.py:112-113 | a ring holding one value in every slot averages to that value |
| `Supervisor.Init` | Smart_Throttle_Analog_output_rx0.py:82-89 | the power-up state is valid: IDLE, threshold not yet bound, empty ring at write position 0, and the LED off as the loop sets it before its first pass (line 146) |
| `Supervisor.Step` | Smart_Throttle_Analog_output_rx0.py:151-181 | one loop pass keeps the state valid (ring shape, and a threshold whenever in HOLD); braking always gives IDLE; entering HOLD from another mode latches the sample as hold speed and sample + one mph as threshold, turns the LED on and leaves every slot zero |
| `Supervisor.RecordSample` | Smart_Throttle_Analog_output_rx0.py:168-181 | the recording branch advances the write position; when the average after recording is stable it is HOLD with the sample latched, threshold sample + one mph and LED on (also when already in HOLD, at any speed), and otherwise the mode is unchanged |
| `Supervisor.Steps` | Smart_Throttle_Analog_output_rx0.py:148-181 | repeated loop passes keep the state valid, and a run whose last cycle brakes ends in IDLE |
| `Supervisor.BrakeForcesIdle` | Smart_Throttle_Analog_output_rx0.py:153-155 | brake level 0 gives IDLE from any mode with any sample, and nothing else changes, so the LED stays on after braking out of HOLD |
| `Supervisor.DefaultBranchCases` | Smart_Throttle_Analog_output_rx0.py:158-171 | the recording branch is taken exactly when not braking and in RUN, in IDLE with sample <= three mph, or in HOLD with one mph <= sample <= threshold |
| `Supervisor.IdleToRun` | Smart_Throttle_Analog_output_rx0.py:158-160 | in IDLE without braking, the next mode is RUN exactly when the sample exceeds three mph, and that step changes nothing but the mode |
| `Supervisor.HoldExit` | Smart_Throttle_Analog_output_rx0.py:161-165 | in HOLD without braking, the next mode is RUN exactly when the sample exceeds the threshold; the exit turns the LED off and zeroes every slot, and keeps write position, hold speed and threshold |
| `Supervisor.TargetRearm` | Smart_Throttle_Analog_output_rx0.py:166-167 | in HOLD without braking, a sample at most the threshold and below one mph sets the threshold to three mph and changes nothing else |
| `Supervisor.RecordBranch` | Smart_Throttle_Analog_output_rx0.py:168-181 | on the recording branch HOLD is entered exactly when the average after recording is within one mph of the sample and above one mph (both strict), with the full latch; otherwise only the ring changes |
| `Supervisor.StepKeepsHoldSpeedSane` | Smart_Throttle_Analog_output_rx0.py:166-181 | a step keeps the latched speed of a HOLD state strictly above standstill, because a stable average above one mph forces the sample above it, and keeps a bound threshold at or above three mph (a latch sets it above 26000, a re-arm sets it to three mph) |
| `Supervisor.ReachableInvariant` | Smart_Throttle_Analog_output_rx0.py:158-181 | every state reached from power-up is valid, and when in HOLD it has a bound threshold and a hold speed above standstill; every bound threshold is at least three mph |
| `Supervisor.ReachableRearm` | Smart_Throttle_Analog_output_rx0.py:161-167 | in any reachable HOLD state, a brake-released sample below one mph re-arms the threshold to three mph without leaving HOLD, and changes nothing else |
| `Output.MapSpeed` | Smart_Throttle_Analog_output_rx0.py:129 | with integer slope 1 and offset 0 the mapped duty cycle equals the speed |
| `Output.Clamp` | Smart_Throttle_Analog_output_rx0.py:132-136 | the result lies in `[MINPWM, MAXPWM]`, equals the input when the input is in range, and otherwise is one of the bounds |
| `Output.ClampIsNearest` | Smart_Throttle_Analog_output_rx0.py:132-136 | the clamp returns the point of the output range nearest the input |
| `Output.ClampIdempotentMonotone` | Smart_Throttle_Analog_output_rx0.py:132-136 | clamping twice is clamping once, and the clamp preserves order |
| `Output.OutputCommand` | Smart_Throttle_Analog_output_rx0.py:119-139 | the tick's duty cycle lies in `[12153, 60927]` for every mode and sample; it equals the selected speed whenever that speed is in range, and in IDLE it is exactly MINPWM |
| `Output.RunTracksThrottle` | Smart_Throttle_Analog_output_rx0.py:125-136 | in RUN the output follows the live sample inside the range and saturates at the nearer bound outside it |
| `Output.OutputIgnores` | Smart_Throttle_Analog_output_rx0.py:120-126 | outside RUN the live sample does not affect the output; outside HOLD a stale hold speed or threshold does not either |
| `Output.ReachableHoldOutput` | Smart_Throttle_Analog_output_rx0.py:123-136 | at the end of every loop pass, in any reachable HOLD state the output is the latched speed capped at MAXPWM, and strictly above MINPWM |
| `Scenarios.StabilizationTrigger` | Smart_Throttle_Analog_output_rx0.py:168-181 | from RUN, 100 brake-released cycles with samples inside one band `[lo, lo + 1742)`, `lo` above one mph, always end in HOLD with a threshold above all of them |
| `Scenarios.ConstantFeed` | Smart_Throttle_Analog_output_rx0.py:168-172 | feeding one value k < 100 times into an empty ring without a stable window keeps mode, latch and LED; the slots then sum to k times the value, and the slots not yet reached are still zero |
| `Scenarios.ConstantFeedEntersHold` | Smart_Throttle_Analog_output_rx0.py:172-181 | the first constant cycle whose window is stable enters HOLD latching that value and empties the ring |
| `Scenarios.SteadyThrottleEntersHold` | Smart_Throttle_Analog_output_rx0.py:168-181 | from an empty ring in RUN, the state after each of the first 89 cycles of 17000 is RUN, and the 90th (average 15300) enters HOLD with hold speed 17000 and threshold 30895 |
| `Scenarios.SteadyThrottleHundred` | Smart_Throttle_Analog_output_rx0.py:161-181 | 100 cycles of 17000 from an empty ring in RUN end in HOLD latched at 17000 with threshold 30895 |
| `Scenarios.SteadyThrottleScenario` | Smart_Throttle_Analog_output_rx0.py:161-181 | 100 cycles of 17000 from an empty ring in RUN end in HOLD at 17000 with threshold 30895; a following 31000 returns to RUN with the LED off and the ring zeroed |
| `Scenarios.IdleEntersHoldDirectly` | Smart_Throttle_Analog_output_rx0.py:158-181 | from IDLE with an empty ring (power-up is one, by `Supervisor.Init`), the state after each of the first 92 cycles of 15000 is IDLE, and the 93rd enters HOLD latching 15000, so it never passes through RUN |
| `Scenarios.HoldRelatchReachable` | Smart_Throttle_Analog_output_rx0.py:166-181 | from HOLD with threshold 30895 and an empty ring (the state `SteadyThrottleEntersHold` ends in), the state after each of the first 91 cycles of 20000 is HOLD with the old hold speed, and the 92nd (average 18400) re-latches hold speed 20000 and threshold 33895 without leaving HOLD |

## Left out

- Hardware I/O (ADC, PWM and its frequency, the brake and LED pins, the `read_adc` / `update_pwm` wrappers, the timer set-up and the call to `main`). The sample and the brake level are inputs of `Step` and `OutputCommand`. The duty cycle and the LED level are outputs.
- The 0.1 s sleep and every `print`: they affect only timing and logging.
- Concurrency between the timer interrupt and the main loop. `Step` and `OutputCommand` are independent functions over one shared state, and `OutputCommand` sees only states between loop passes. Interleavings and races are not modelled. In particular, the code sets the mode to HOLD (line 176) before it latches the hold speed (line 179). A timer tick in between commands the previous hold speed, which on the first entry is STOPPED (line 87), so the output is MINPWM for that tick.
- The commented-out floating-point PWM preset (slope 1/14.884, offset 2461). Only the active integer mapping is modelled.
- The `speed` and `avg` globals. They are only written, never read by the other activity, so they are not state fields.
- The 32-bit element type of the ring array. Slots are unbounded integers, and every stored value is a 16-bit sample, so it never overflows.
- A fail-safe on device errors, a flush or latch reset on braking, and an index reset on flush. The code has none of these, so the model has none.
