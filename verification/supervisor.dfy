/** The supervisor: one pass of the main loop, a three-mode machine (IDLE, RUN,
    HOLD) driven by one throttle sample and one brake level per cycle. */
module Supervisor {
  import opened Constants
  import opened Stabilizer

  datatype Mode = Idle | Run | Hold

  /** The exit threshold is a global that does not exist until HOLD is first
      entered; reading it before that would fail. */
  datatype Target = Unset | Set(value: int)

  /** The shared state the supervisor writes and the output step reads.
      `led` is the indicator pin level (active low). */
  datatype State = State(mode: Mode, holdSpeed: int, target: Target, ring: Ring, led: int)

  /** One supervisor cycle's inputs: the ADC sample and the brake pin level. */
  datatype Input = Input(sample: U16, brakeLevel: int)

  /** What every reachable state satisfies, and what a step needs: a
      well-formed ring, and an exit threshold whenever the mode is HOLD. */
  predicate Valid(s: State) {
    WellFormed(s.ring) && (s.mode == Hold ==> s.target.Set?)
  }

  /** The state before the first cycle: IDLE, LED off, empty ring at slot 0. */
  function Init(): (s: State)
    ensures Valid(s)
    ensures s.mode == Idle && s.led == LedOff && s.target == Unset
    ensures s.ring.index == 0 && forall j :: 0 <= j < ArraySize ==> s.ring.slots[j] == 0
  {
    State(Idle, Stopped, Unset, Ring(Zeros(), 0), LedOff)
  }

  /** The stabilization condition: the sample is within one mph of the
      average, and the average is above one mph (both strict). */
  predicate Stable(sample: int, avg: int) {
    Abs(sample - avg) < DeltaOneMph && avg > OneMph
  }

  /** True when a cycle falls through to the final (recording) branch. */
  predicate TakesDefault(s: State, sample: U16, brakeLevel: int)
    requires Valid(s)
  {
    brakeLevel != BrakeOn
    && !(s.mode == Idle && sample > ThreeMph)
    && !(s.mode == Hold && sample > s.target.value)
    && !(s.mode == Hold && sample < OneMph)
  }

  /** The final branch: record the sample, then enter HOLD if the window is stable. */
  function RecordSample(s: State, sample: U16): (r: State)
    requires Valid(s)
    ensures Valid(r)
    ensures r.ring.index == (s.ring.index + 1) % ArraySize
    ensures r.mode == s.mode || r.mode == Hold
    ensures r.mode == Hold && (s.mode != Hold || r.holdSpeed != s.holdSpeed) ==>
              r.holdSpeed == sample && r.target == Set(sample + OneMph) && r.led == LedOn
    ensures Stable(sample, Average(Record(s.ring, sample))) ==>
              r.mode == Hold && r.holdSpeed == sample && r.target == Set(sample + OneMph) && r.led == LedOn
    ensures !Stable(sample, Average(Record(s.ring, sample))) ==> r.mode == s.mode
  {
    var ring := Record(s.ring, sample);
    if Stable(sample, Average(ring)) then
      s.(mode := Hold, led := LedOn, holdSpeed := sample,
         target := Set(sample + OneMph), ring := Flush(ring))
    else
      s.(ring := ring)
  }

  /** One iteration of the main loop. */
  function Step(s: State, sample: U16, brakeLevel: int): (r: State)
    requires Valid(s)
    ensures Valid(r)
    ensures brakeLevel == BrakeOn ==> r.mode == Idle
    ensures r.mode == Hold && s.mode != Hold ==>
              r.holdSpeed == sample && r.target == Set(sample + OneMph)
              && r.led == LedOn && forall j :: 0 <= j < ArraySize ==> r.ring.slots[j] == 0
  {
    if brakeLevel == BrakeOn then
      s.(mode := Idle)
    else if s.mode == Idle && sample > ThreeMph then
      s.(mode := Run)
    else if s.mode == Hold && sample > s.target.value then
      s.(mode := Run, led := LedOff, ring := Flush(s.ring))
    else if s.mode == Hold && sample < OneMph then
      s.(target := Set(ThreeMph))
    else
      RecordSample(s, sample)
  }

  /** The supervisor run over a sequence of cycles, oldest first. */
  function Steps(s: State, inputs: seq<Input>): (r: State)
    requires Valid(s)
    ensures Valid(r)
    ensures |inputs| > 0 && inputs[|inputs| - 1].brakeLevel == BrakeOn ==> r.mode == Idle
    decreases |inputs|
  {
    if |inputs| == 0 then s
    else Steps(Step(s, inputs[0].sample, inputs[0].brakeLevel), inputs[1..])
  }

  lemma {:induction false} StepsAppend(s: State, a: seq<Input>, b: seq<Input>)
    requires Valid(s)
    ensures Steps(s, a + b) == Steps(Steps(s, a), b)
    decreases |a|
  {
    if |a| > 0 {
      assert (a + b)[1..] == a[1..] + b;
      StepsAppend(Step(s, a[0].sample, a[0].brakeLevel), a[1..], b);
    } else {
      assert a + b == b;
    }
  }

  /** Running one more cycle after a run is one more step. */
  lemma StepsSnoc(s: State, inputs: seq<Input>, x: Input)
    requires Valid(s)
    ensures Steps(s, inputs + [x]) == Step(Steps(s, inputs), x.sample, x.brakeLevel)
  {
    StepsAppend(s, inputs, [x]);
    var t := Steps(s, inputs);
    assert Steps(t, [x]) == Steps(Step(t, x.sample, x.brakeLevel), []);
  }

  // ---------------------------------------------------------------------
  // Single-cycle transitions

  /** Braking forces IDLE from any mode and with any sample; nothing else
      changes, so the LED stays on after braking out of HOLD and the latched
      hold speed, threshold and ring survive. */
  lemma BrakeForcesIdle(s: State, sample: U16)
    requires Valid(s)
    ensures Step(s, sample, BrakeOn) == s.(mode := Idle)
  {
  }

  /** The final branch fires in exactly three situations, not only in RUN. */
  lemma DefaultBranchCases(s: State, sample: U16, brakeLevel: int)
    requires Valid(s)
    ensures TakesDefault(s, sample, brakeLevel) <==>
              brakeLevel != BrakeOn
              && (s.mode == Run
                  || (s.mode == Idle && sample <= ThreeMph)
                  || (s.mode == Hold && OneMph <= sample <= s.target.value))
    ensures TakesDefault(s, sample, brakeLevel) ==> Step(s, sample, brakeLevel) == RecordSample(s, sample)
  {
  }

  /** Leaving IDLE: a sample above three mph switches to RUN and touches nothing else. */
  lemma IdleToRun(s: State, sample: U16, brakeLevel: int)
    requires Valid(s) && s.mode == Idle && brakeLevel != BrakeOn
    ensures Step(s, sample, brakeLevel).mode == Run <==> sample > ThreeMph
    ensures sample > ThreeMph ==> Step(s, sample, brakeLevel) == s.(mode := Run)
  {
    if sample <= ThreeMph {
      assert Step(s, sample, brakeLevel) == RecordSample(s, sample);
    }
  }

  /** Leaving HOLD: a sample above the threshold returns to RUN with the LED
      off and every slot zeroed; the write position, hold speed and
      threshold are kept. */
  lemma HoldExit(s: State, sample: U16, brakeLevel: int)
    requires Valid(s) && s.mode == Hold && brakeLevel != BrakeOn
    ensures Step(s, sample, brakeLevel).mode == Run <==> sample > s.target.value
    ensures sample > s.target.value ==>
              Step(s, sample, brakeLevel) == s.(mode := Run, led := LedOff, ring := Flush(s.ring))
  {
  }

  /** Re-arming: in HOLD, a sample at or below the threshold but under one mph
      lowers the threshold to three mph and changes nothing else. */
  lemma TargetRearm(s: State, sample: U16, brakeLevel: int)
    requires Valid(s) && s.mode == Hold && brakeLevel != BrakeOn
    requires sample <= s.target.value && sample < OneMph
    ensures Step(s, sample, brakeLevel) == s.(target := Set(ThreeMph))
  {
  }

  /** The recording branch: the sample lands at the write position, which
      advances; HOLD is entered exactly when the average of the updated ring
      is stable, latching the sample and emptying the ring; otherwise mode,
      hold speed, threshold and LED are unchanged. */
  lemma RecordBranch(s: State, sample: U16, brakeLevel: int)
    requires Valid(s) && TakesDefault(s, sample, brakeLevel)
    ensures var r := Step(s, sample, brakeLevel);
            var avg := Average(Record(s.ring, sample));
            r.ring.index == (s.ring.index + 1) % ArraySize
            && (Stable(sample, avg) ==>
                  r.mode == Hold && r.holdSpeed == sample && r.target == Set(sample + OneMph)
                  && r.led == LedOn && forall j :: 0 <= j < ArraySize ==> r.ring.slots[j] == 0)
            && (!Stable(sample, avg) ==>
                  r == s.(ring := Record(s.ring, sample)))
  {
  }

  // ---------------------------------------------------------------------
  // Reachable-state facts

  /** In HOLD the latched speed is a real ADC reading strictly above the
      standstill level; a bound exit threshold is never below three mph. */
  predicate HoldSpeedSane(s: State) {
    (s.mode == Hold ==> Stopped < s.holdSpeed < 0x1_0000)
    && (s.target.Set? ==> s.target.value >= ThreeMph)
  }

  lemma StepKeepsHoldSpeedSane(s: State, sample: U16, brakeLevel: int)
    requires Valid(s) && HoldSpeedSane(s)
    ensures HoldSpeedSane(Step(s, sample, brakeLevel))
  {
    var avg := Average(Record(s.ring, sample));
    if TakesDefault(s, sample, brakeLevel) && Stable(sample, avg) {
      assert sample > avg - DeltaOneMph;
    }
  }

  lemma {:induction false} StepsKeepHoldSpeedSane(s: State, inputs: seq<Input>)
    requires Valid(s) && HoldSpeedSane(s)
    ensures HoldSpeedSane(Steps(s, inputs))
    decreases |inputs|
  {
    if |inputs| > 0 {
      StepKeepsHoldSpeedSane(s, inputs[0].sample, inputs[0].brakeLevel);
      StepsKeepHoldSpeedSane(Step(s, inputs[0].sample, inputs[0].brakeLevel), inputs[1..]);
    }
  }

  /** Every state reachable from power-up has a threshold whenever it is in
      HOLD (so the threshold is always assigned before it is read) and a
      latched hold speed above standstill; a bound threshold is at least
      three mph. */
  lemma ReachableInvariant(inputs: seq<Input>)
    ensures Valid(Steps(Init(), inputs))
    ensures Steps(Init(), inputs).mode == Hold ==>
              Steps(Init(), inputs).target.Set? && Stopped < Steps(Init(), inputs).holdSpeed
    ensures Steps(Init(), inputs).target.Set? ==> Steps(Init(), inputs).target.value >= ThreeMph
  {
    StepsKeepHoldSpeedSane(Init(), inputs);
  }

  /** In any state reachable from power-up, HOLD with the brake released and
      a sample below one mph always re-arms the threshold to three mph and
      changes nothing else: the exit test before it can never fire, because
      the threshold is at least three mph. */
  lemma ReachableRearm(inputs: seq<Input>, sample: U16, brakeLevel: int)
    requires brakeLevel != BrakeOn && sample < OneMph && Steps(Init(), inputs).mode == Hold
    ensures Step(Steps(Init(), inputs), sample, brakeLevel)
            == Steps(Init(), inputs).(target := Set(ThreeMph))
  {
    ReachableInvariant(inputs);
    TargetRearm(Steps(Init(), inputs), sample, brakeLevel);
  }
}
