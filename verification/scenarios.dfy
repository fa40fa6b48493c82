/** Multi-cycle behaviour of the supervisor: the stabilization window always
    closes within one ring's worth of steady samples, and concrete runs of a
    constant throttle from an empty ring. */
module Scenarios {
  import opened Constants
  import opened Stabilizer
  import opened Supervisor

  /** `n` cycles, brake released, all with sample `v`. */
  function Repeat(v: U16, n: nat): (inputs: seq<Input>)
    ensures |inputs| == n
    ensures forall i :: 0 <= i < n ==> inputs[i] == Input(v, 1)
  {
    seq(n, _ => Input(v, 1))
  }

  /** How many records after write position `start` the ring reaches slot `j`. */
  function Age(start: int, j: int): int {
    if j >= start then j - start else j - start + ArraySize
  }

  /** `k` records after `start` the write position is the slot of age `k`,
      and it is the only such slot. */
  lemma AgeOfIndex(start: int, k: int, j: int)
    requires 0 <= start < ArraySize && 0 <= k < ArraySize && 0 <= j < ArraySize
    ensures Age(start, (start + k) % ArraySize) == k
    ensures 0 <= Age(start, j) < ArraySize
    ensures Age(start, j) == k <==> j == (start + k) % ArraySize
  {
  }

  lemma RepeatSplit(v: U16, a: nat, b: nat)
    ensures Repeat(v, a + b) == Repeat(v, a) + Repeat(v, b)
  {
  }

  // ---------------------------------------------------------------------
  // Stabilization within one window

  /** Every cycle has the brake released and a sample in `[lo, lo + DeltaOneMph)`. */
  predicate InBand(inputs: seq<Input>, lo: int) {
    forall i :: 0 <= i < |inputs| ==>
      inputs[i].brakeLevel != BrakeOn && lo <= inputs[i].sample < lo + DeltaOneMph
  }

  /** After `k` in-band cycles started in RUN at write position `start`:
      either still RUN, with the `k` slots written since `start` all in band,
      or HOLD with an exit threshold no in-band sample can pass. */
  predicate TriggerInv(s: State, start: int, k: int, lo: int) {
    Valid(s)
    && ((s.mode == Run && k < ArraySize && s.ring.index == (start + k) % ArraySize
         && forall j :: 0 <= j < ArraySize && Age(start, j) < k ==>
              lo <= s.ring.slots[j] < lo + DeltaOneMph)
        || (s.mode == Hold && s.target.Set? && s.target.value >= lo + OneMph))
  }

  /** The ring part of one more in-band record: the slots written since
      `start` grow by one, all still in band. */
  lemma TriggerRecord(start: int, ring: Ring, k: nat, lo: int, x: int)
    requires WellFormed(ring) && 0 <= start < ArraySize && k < ArraySize
    requires ring.index == (start + k) % ArraySize
    requires forall j :: 0 <= j < ArraySize && Age(start, j) < k ==>
               lo <= ring.slots[j] < lo + DeltaOneMph
    requires lo <= x < lo + DeltaOneMph
    ensures var r := Record(ring, x);
            r.index == (start + k + 1) % ArraySize
            && forall j :: 0 <= j < ArraySize && Age(start, j) < k + 1 ==>
                 lo <= r.slots[j] < lo + DeltaOneMph
  {
    var r := Record(ring, x);
    assert r.index == (start + k + 1) % ArraySize by {
      AgeOfIndex(start, k, ring.index);
    }
    forall j | 0 <= j < ArraySize && Age(start, j) < k + 1
      ensures lo <= r.slots[j] < lo + DeltaOneMph
    {
      AgeOfIndex(start, k, j);
      if j != ring.index {
        assert Age(start, j) < k;
        assert r.slots[j] == ring.slots[j];
      }
    }
  }

  /** A full window of in-band slots is stable for any in-band sample. */
  lemma FullWindowStable(start: int, ring: Ring, lo: int, x: int)
    requires WellFormed(ring) && 0 <= start < ArraySize && OneMph < lo
    requires forall j :: 0 <= j < ArraySize && Age(start, j) < ArraySize ==>
               lo <= ring.slots[j] < lo + DeltaOneMph
    requires lo <= x < lo + DeltaOneMph
    ensures Stable(x, Average(ring))
  {
    forall j | 0 <= j < ArraySize ensures lo <= ring.slots[j] <= lo + DeltaOneMph - 1 {
      AgeOfIndex(start, 0, j);
    }
    AverageWithin(ring, lo, lo + DeltaOneMph - 1);
  }

  lemma TriggerStepHold(s: State, start: int, k: nat, lo: int, x: Input)
    requires OneMph < lo && Valid(s) && s.mode == Hold && s.target.value >= lo + OneMph
    requires x.brakeLevel != BrakeOn && lo <= x.sample < lo + DeltaOneMph
    ensures TriggerInv(Step(s, x.sample, x.brakeLevel), start, k + 1, lo)
  {
    assert TakesDefault(s, x.sample, x.brakeLevel);
    RecordBranch(s, x.sample, x.brakeLevel);
  }

  lemma TriggerStepRun(s: State, start: int, k: nat, lo: int, x: Input)
    requires 0 <= start < ArraySize && OneMph < lo
    requires TriggerInv(s, start, k, lo) && s.mode == Run
    requires x.brakeLevel != BrakeOn && lo <= x.sample < lo + DeltaOneMph
    ensures TriggerInv(Step(s, x.sample, x.brakeLevel), start, k + 1, lo)
  {
    assert TakesDefault(s, x.sample, x.brakeLevel);
    RecordBranch(s, x.sample, x.brakeLevel);
    TriggerRecord(start, s.ring, k, lo, x.sample);
    if k + 1 == ArraySize {
      FullWindowStable(start, Record(s.ring, x.sample), lo, x.sample);
    }
  }

  lemma TriggerStep(s: State, start: int, k: nat, lo: int, x: Input)
    requires 0 <= start < ArraySize && OneMph < lo
    requires TriggerInv(s, start, k, lo)
    requires x.brakeLevel != BrakeOn && lo <= x.sample < lo + DeltaOneMph
    ensures TriggerInv(Step(s, x.sample, x.brakeLevel), start, k + 1, lo)
  {
    if s.mode == Run {
      TriggerStepRun(s, start, k, lo, x);
    } else {
      TriggerStepHold(s, start, k, lo, x);
    }
  }

  lemma {:induction false} TriggerSteps(s: State, start: int, k: nat, lo: int, inputs: seq<Input>)
    requires 0 <= start < ArraySize && OneMph < lo
    requires TriggerInv(s, start, k, lo) && InBand(inputs, lo)
    ensures TriggerInv(Steps(s, inputs), start, k + |inputs|, lo)
    decreases |inputs|
  {
    if |inputs| > 0 {
      TriggerStep(s, start, k, lo, inputs[0]);
      TriggerSteps(Step(s, inputs[0].sample, inputs[0].brakeLevel), start, k + 1, lo, inputs[1..]);
    }
  }

  /** From RUN, a full window of cycles whose samples lie within one mph of
      each other and above one mph always ends in HOLD, with an exit
      threshold above every one of those samples. */
  lemma StabilizationTrigger(s: State, inputs: seq<Input>, lo: int)
    requires Valid(s) && s.mode == Run
    requires |inputs| == ArraySize && OneMph < lo && InBand(inputs, lo)
    ensures Steps(s, inputs).mode == Hold
    ensures forall i :: 0 <= i < |inputs| ==> inputs[i].sample < Steps(s, inputs).target.value
  {
    TriggerSteps(s, s.ring.index, 0, lo, inputs);
  }

  // ---------------------------------------------------------------------
  // A constant throttle fed into an empty ring

  /** The average after `i` records of `v` into an all-zero ring. */
  function FeedAverage(v: int, i: int): int {
    i * v / ArraySize
  }

  /** After `k` records of `v` into the all-zero ring of `s0`, with no window
      stable: mode, hold speed, threshold and LED as in `s0`; the slots sum to
      `k * v`; the slots not yet reached are still zero. */
  predicate FedConstant(s0: State, s: State, v: int, k: nat) {
    s.mode == s0.mode && s.holdSpeed == s0.holdSpeed && s.target == s0.target && s.led == s0.led
    && WellFormed(s.ring) && s.ring.index == (s0.ring.index + k) % ArraySize
    && Sum(s.ring.slots) == k * v
    && forall j :: 0 <= j < ArraySize && Age(s0.ring.index, j) >= k ==> s.ring.slots[j] == 0
  }

  predicate EmptyRing(s: State) {
    forall j :: 0 <= j < |s.ring.slots| ==> s.ring.slots[j] == 0
  }

  /** The ring part of one more record of `v`: the slot written is one not
      yet reached, so the sum grows by exactly `v`. */
  lemma FeedRecord(start: int, ring: Ring, v: int, k: nat)
    requires WellFormed(ring) && 0 <= start < ArraySize && k < ArraySize
    requires ring.index == (start + k) % ArraySize && Sum(ring.slots) == k * v
    requires forall j :: 0 <= j < ArraySize && Age(start, j) >= k ==> ring.slots[j] == 0
    ensures var r := Record(ring, v);
            r.index == (start + k + 1) % ArraySize
            && Sum(r.slots) == (k + 1) * v && Average(r) == FeedAverage(v, k + 1)
            && forall j :: 0 <= j < ArraySize && Age(start, j) >= k + 1 ==> r.slots[j] == 0
  {
    AgeOfIndex(start, k, ring.index);
    assert ring.slots[ring.index] == 0;
    assert (k + 1) * v == k * v + v;
    var r := Record(ring, v);
    forall j | 0 <= j < ArraySize && Age(start, j) >= k + 1
      ensures r.slots[j] == 0
    {
      AgeOfIndex(start, k, j);
    }
  }

  /** One more cycle of `v`: the window then decides the mode. */
  lemma FeedStep(s0: State, s: State, v: U16, k: nat)
    requires Valid(s0) && TakesDefault(s0, v, 1) && k < ArraySize
    requires FedConstant(s0, s, v, k)
    ensures Valid(s)
    ensures var r := Step(s, v, 1);
            (!Stable(v, FeedAverage(v, k + 1)) ==> FedConstant(s0, r, v, k + 1))
            && (Stable(v, FeedAverage(v, k + 1)) ==>
                  r.mode == Hold && r.holdSpeed == v && r.target == Set(v + OneMph)
                  && r.led == LedOn && EmptyRing(r))
  {
    FeedRecord(s0.ring.index, s.ring, v, k);
    assert TakesDefault(s, v, 1);
    RecordBranch(s, v, 1);
  }

  lemma {:induction false} ConstantFeed(s0: State, v: U16, k: nat)
    requires Valid(s0) && EmptyRing(s0) && TakesDefault(s0, v, 1) && k < ArraySize
    requires forall i :: 1 <= i <= k ==> !Stable(v, FeedAverage(v, i))
    ensures FedConstant(s0, Steps(s0, Repeat(v, k)), v, k)
  {
    if k == 0 {
      SumConstant(ArraySize, 0);
      assert s0.ring.slots == seq(ArraySize, _ => 0);
      assert Repeat(v, 0) == [];
    } else {
      ConstantFeed(s0, v, k - 1);
      var s := Steps(s0, Repeat(v, k - 1));
      FeedStep(s0, s, v, k - 1);
      assert !Stable(v, FeedAverage(v, k));
      LastStep(s0, v, k - 1);
    }
  }

  /** Running `k + 1` constant cycles is running `k` and then one more. */
  lemma LastStep(s0: State, v: U16, k: nat)
    requires Valid(s0)
    ensures Steps(s0, Repeat(v, k + 1)) == Step(Steps(s0, Repeat(v, k)), v, 1)
  {
    assert Repeat(v, k + 1) == Repeat(v, k) + [Input(v, 1)];
    StepsSnoc(s0, Repeat(v, k), Input(v, 1));
  }

  /** The cycle on which a constant throttle, fed into an empty ring, first
      makes the window stable enters HOLD, latching that throttle. */
  lemma ConstantFeedEntersHold(s0: State, v: U16, k: nat)
    requires Valid(s0) && EmptyRing(s0) && TakesDefault(s0, v, 1) && k < ArraySize
    requires forall i :: 1 <= i <= k ==> !Stable(v, FeedAverage(v, i))
    requires Stable(v, FeedAverage(v, k + 1))
    ensures var r := Steps(s0, Repeat(v, k + 1));
            r.mode == Hold && r.holdSpeed == v && r.target == Set(v + OneMph)
            && r.led == LedOn && EmptyRing(r)
  {
    ConstantFeed(s0, v, k);
    FeedStep(s0, Steps(s0, Repeat(v, k)), v, k);
    LastStep(s0, v, k);
  }

  /** 17000 is in RUN's recording branch and the window of `i` records
      averages `170 * i`, which is stable first at `i == 90` (average 15300). */
  lemma Feed17000(i: int)
    ensures FeedAverage(17000, i) == 170 * i
    ensures 1 <= i <= 89 ==> !Stable(17000, FeedAverage(17000, i))
    ensures i == 90 ==> Stable(17000, FeedAverage(17000, i))
  {
    assert i * 17000 == ArraySize * (170 * i);
  }

  /** Holding 17000 from an empty ring in RUN: RUN for 89 cycles, HOLD on
      the 90th with hold speed 17000 and threshold 30895. */
  lemma SteadyThrottleEntersHold(s0: State, inputs: seq<Input>)
    requires Valid(s0) && s0.mode == Run && EmptyRing(s0)
    requires inputs == Repeat(17000, 90)
    ensures forall k :: 0 <= k <= 89 ==> Steps(s0, inputs[..k]).mode == Run
    ensures var h := Steps(s0, inputs);
            h.mode == Hold && h.holdSpeed == 17000 && h.target == Set(30895) && EmptyRing(h)
  {
    forall i | 1 <= i <= 89 ensures !Stable(17000, FeedAverage(17000, i)) {
      Feed17000(i);
    }
    forall k | 0 <= k <= 89 ensures Steps(s0, inputs[..k]).mode == Run {
      assert inputs[..k] == Repeat(17000, k);
      ConstantFeed(s0, 17000, k);
    }
    Feed17000(90);
    ConstantFeedEntersHold(s0, 17000, 89);
  }

  /** Ten further cycles of 17000 after entering HOLD with an empty ring
      stay in HOLD with the same latch: the refilling window averages at most
      1700, far below one mph. */
  lemma SteadyThrottleStaysHeld(h: State, inputs: seq<Input>)
    requires Valid(h) && h.mode == Hold && h.target == Set(30895) && EmptyRing(h)
    requires inputs == Repeat(17000, 10)
    ensures var h2 := Steps(h, inputs);
            h2.mode == Hold && h2.holdSpeed == h.holdSpeed && h2.target == Set(30895)
  {
    forall i | 1 <= i <= 10 ensures !Stable(17000, FeedAverage(17000, i)) {
      Feed17000(i);
    }
    ConstantFeed(h, 17000, 10);
  }

  /** A hundred cycles of 17000 from an empty ring in RUN end in HOLD
      latched at 17000 with threshold 30895. */
  lemma SteadyThrottleHundred(s0: State, inputs: seq<Input>)
    requires Valid(s0) && s0.mode == Run && EmptyRing(s0)
    requires inputs == Repeat(17000, 100)
    ensures var h := Steps(s0, inputs);
            h.mode == Hold && h.holdSpeed == 17000 && h.target == Set(30895)
  {
    SteadyThrottleEntersHold(s0, Repeat(17000, 90));
    var h := Steps(s0, Repeat(17000, 90));
    SteadyThrottleStaysHeld(h, Repeat(17000, 10));
    RepeatSplit(17000, 90, 10);
    StepsAppend(s0, Repeat(17000, 90), Repeat(17000, 10));
  }

  /** The whole run: a hundred cycles of 17000 from an empty ring in RUN end
      in HOLD latched at 17000 with threshold 30895, and a following 31000
      returns to RUN with the LED off and the ring zeroed. */
  lemma SteadyThrottleScenario(s0: State, inputs: seq<Input>)
    requires Valid(s0) && s0.mode == Run && EmptyRing(s0)
    requires inputs == Repeat(17000, 100) + [Input(31000, 1)]
    ensures var h := Steps(s0, inputs[..100]);
            h.mode == Hold && h.holdSpeed == 17000 && h.target == Set(30895)
    ensures var r := Steps(s0, inputs);
            r.mode == Run && r.led == LedOff && r.holdSpeed == 17000 && EmptyRing(r)
  {
    SteadyThrottleHundred(s0, Repeat(17000, 100));
    assert inputs[..100] == Repeat(17000, 100);
    var h := Steps(s0, Repeat(17000, 100));
    StepsSnoc(s0, Repeat(17000, 100), Input(31000, 1));
    HoldExit(h, 31000, 1);
  }

  /** A throttle at 15000 (between one and three mph) fed into an empty ring
      in IDLE: records build up while IDLE, and on the 93rd record the
      window is stable (average 13950), so IDLE enters HOLD directly. */
  lemma Feed15000(i: int)
    ensures FeedAverage(15000, i) == 150 * i
    ensures 1 <= i <= 92 ==> !Stable(15000, FeedAverage(15000, i))
    ensures i == 93 ==> Stable(15000, FeedAverage(15000, i))
  {
    assert i * 15000 == ArraySize * (150 * i);
  }

  /** Power-up is an IDLE state with an empty ring. */
  lemma PowerUpIsEmptyIdle()
    ensures Valid(Init()) && Init().mode == Idle && EmptyRing(Init())
  {
  }

  /** From IDLE with an empty ring (power-up is such a state, by the contract
      of `Init`), the state after each of the first 92 cycles of a 15000
      throttle with the brake released is IDLE, and the 93rd puts the
      machine in HOLD without ever passing through RUN. */
  lemma IdleEntersHoldDirectly(s0: State, inputs: seq<Input>)
    requires Valid(s0) && s0.mode == Idle && EmptyRing(s0)
    requires inputs == Repeat(15000, 93)
    ensures forall k :: 0 <= k <= 92 ==> Steps(s0, inputs[..k]).mode == Idle
    ensures var h := Steps(s0, inputs);
            h.mode == Hold && h.holdSpeed == 15000 && h.target == Set(28895) && h.led == LedOn
  {
    forall i | 1 <= i <= 92 ensures !Stable(15000, FeedAverage(15000, i)) {
      Feed15000(i);
    }
    forall k | 0 <= k <= 92 ensures Steps(s0, inputs[..k]).mode == Idle {
      assert inputs[..k] == Repeat(15000, k);
      ConstantFeed(s0, 15000, k);
    }
    Feed15000(93);
    ConstantFeedEntersHold(s0, 15000, 92);
  }

  /** 20000 is in HOLD's recording branch under a threshold of 30895, and
      the window of `i` records averages `200 * i`, which is stable first at
      `i == 92` (average 18400). */
  lemma Feed20000(i: int)
    ensures FeedAverage(20000, i) == 200 * i
    ensures 1 <= i <= 91 ==> !Stable(20000, FeedAverage(20000, i))
    ensures i == 92 ==> Stable(20000, FeedAverage(20000, i))
  {
    assert i * 20000 == ArraySize * (200 * i);
  }

  /** HOLD re-latches without leaving HOLD: from the state the steady-throttle
      run ends in (HOLD, threshold 30895, empty ring), 91 cycles of 20000 stay
      in HOLD with the old latch, and the 92nd latches 20000 with threshold
      33895. */
  lemma HoldRelatchReachable(h: State, inputs: seq<Input>)
    requires Valid(h) && h.mode == Hold && h.target == Set(30895) && EmptyRing(h)
    requires inputs == Repeat(20000, 92)
    ensures forall k :: 0 <= k <= 91 ==>
              Steps(h, inputs[..k]).mode == Hold && Steps(h, inputs[..k]).holdSpeed == h.holdSpeed
    ensures var r := Steps(h, inputs);
            r.mode == Hold && r.holdSpeed == 20000 && r.target == Set(33895)
  {
    forall i | 1 <= i <= 91 ensures !Stable(20000, FeedAverage(20000, i)) {
      Feed20000(i);
    }
    forall k | 0 <= k <= 91
      ensures Steps(h, inputs[..k]).mode == Hold && Steps(h, inputs[..k]).holdSpeed == h.holdSpeed
    {
      assert inputs[..k] == Repeat(20000, k);
      ConstantFeed(h, 20000, k);
    }
    Feed20000(92);
    ConstantFeedEntersHold(h, 20000, 91);
  }
}
