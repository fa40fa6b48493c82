/** Fixed configuration of the throttle adapter. Every level is a raw count:
    throttle levels are 16-bit ADC readings, output levels are 16-bit PWM duty
    values, so the analog-output preset passes one straight through to the other. */
module Constants {

  /** Throttle level at standstill; also the lowest output command. */
  const Stopped: int := 12153
  /** Throttle level at full speed; also the highest output command. */
  const FullSpeed: int := 60927
  const MinPwm: int := Stopped
  const MaxPwm: int := FullSpeed

  /** Throttle level for 1 mph, for 3 mph, and the spread that counts as "steady". */
  const OneMph: int := 13895
  const ThreeMph: int := 16163
  const DeltaOneMph: int := 1742

  /** The hold indicator LED is active low. */
  const LedOn: int := 0
  const LedOff: int := 1

  /** Capacity of the stabilization ring: 10 seconds of supervisor cycles. */
  const ArraySize: int := 100

  /** The brake input is active low: a pin level of 0 means braking. */
  const BrakeOn: int := 0

  /** The active (analog-output) linear mapping from speed to duty cycle. */
  const Slope: int := 1
  const Offset: int := 0

  /** A reading of the 16-bit ADC (`read_u16`). */
  type U16 = x: int | 0 <= x < 0x1_0000

  function Abs(x: int): int {
    if x < 0 then -x else x
  }
}
