/** The output step: one timer tick selects a speed from the mode, maps it to a
    duty cycle with the integer slope and offset, and clamps the result. */
module Output {
  import opened Constants
  import opened Supervisor

  /** IDLE commands standstill, HOLD the latched speed, RUN the live sample. */
  function SelectSpeed(s: State, sample: U16): int {
    match s.mode
    case Idle => Stopped
    case Hold => s.holdSpeed
    case Run => sample
  }

  /** The active linear mapping; with slope 1 and offset 0 (both integers)
      the truncating conversion is exact and the mapping is the identity. */
  function MapSpeed(speed: int): (duty: int)
    ensures duty == speed
  {
    speed * Slope + Offset
  }

  /** Saturates a duty cycle to the output range. */
  function Clamp(duty: int): (c: int)
    ensures MinPwm <= c <= MaxPwm
    ensures MinPwm <= duty <= MaxPwm ==> c == duty
    ensures c == duty || c == MinPwm || c == MaxPwm
  {
    if duty < MinPwm then MinPwm
    else if duty > MaxPwm then MaxPwm
    else duty
  }

  /** The duty cycle one timer tick writes to the PWM output. */
  function OutputCommand(s: State, sample: U16): (duty: int)
    ensures MinPwm <= duty <= MaxPwm
    ensures MinPwm <= SelectSpeed(s, sample) <= MaxPwm ==> duty == SelectSpeed(s, sample)
    ensures s.mode == Idle ==> duty == MinPwm
  {
    Clamp(MapSpeed(SelectSpeed(s, sample)))
  }

  /** The clamp returns the point of `[MinPwm, MaxPwm]` nearest its input. */
  lemma ClampIsNearest(duty: int, y: int)
    requires MinPwm <= y <= MaxPwm
    ensures Abs(Clamp(duty) - duty) <= Abs(y - duty)
  {
  }

  /** Clamping is idempotent and monotone. */
  lemma ClampIdempotentMonotone(a: int, b: int)
    ensures Clamp(Clamp(a)) == Clamp(a)
    ensures a <= b ==> Clamp(a) <= Clamp(b)
  {
  }

  /** In RUN the output follows the throttle inside the range and saturates
      outside it. */
  lemma RunTracksThrottle(s: State, sample: U16)
    requires s.mode == Run
    ensures sample < MinPwm ==> OutputCommand(s, sample) == MinPwm
    ensures MinPwm <= sample <= MaxPwm ==> OutputCommand(s, sample) == sample
    ensures sample > MaxPwm ==> OutputCommand(s, sample) == MaxPwm
  {
  }

  /** Outside RUN the live sample has no influence on the output, and outside
      HOLD a stale hold speed or threshold has none either. */
  lemma OutputIgnores(s: State, x: U16, y: U16, h: int, t: Target)
    ensures s.mode != Run ==> OutputCommand(s, x) == OutputCommand(s, y)
    ensures s.mode != Hold ==> OutputCommand(s, x) == OutputCommand(s.(holdSpeed := h, target := t), x)
  {
  }

  /** In any state reachable from power-up, HOLD commands the latched speed,
      capped at full speed, and never the standstill level. */
  lemma ReachableHoldOutput(inputs: seq<Input>, sample: U16)
    ensures var s := Steps(Init(), inputs);
            s.mode == Hold ==>
              MinPwm < OutputCommand(s, sample)
              && OutputCommand(s, sample) == (if s.holdSpeed > MaxPwm then MaxPwm else s.holdSpeed)
  {
    ReachableInvariant(inputs);
  }
}
