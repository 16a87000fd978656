/** The flow-gated pump override controller as a state machine on values:
    the configuration, the pulse-to-flow conversion, one sampling tick, the
    reset command, and runs of many ticks. The class in module Pump is proved
    to implement these definitions. */
module Control {
  import opened Window
  import Request

  /** The tuning constants of the controller. */
  datatype Config = Config(
    capacity: nat,         // FLOW_BUFFER_SIZE, slots in the ring buffer
    minSamples: nat,       // FLOW_MIN_SAMPLES, samples needed before the average is used
    minFlow: real,         // MIN_FLOW, litres/hour; the average must be above it
    pumpOnThreshold: nat,  // PUMP_ON_THRESHOLD, ADC code meaning "pump commanded on"
    retryPeriod: nat,      // flow_retry_period, seconds between override and retry
    maxAttempts: nat)      // flow_retry_max_attempts

  /** What the firmware's types and comments demand of the constants: a
      non-empty buffer indexable by a 16-bit length, the minimum sample count
      at most the buffer size, and the widths of the period and attempt
      counters. */
  predicate ValidConfig(c: Config)
  {
    && 0 < c.capacity < 0x1_0000
    && c.minSamples <= c.capacity
    && c.retryPeriod < 0x1_0000
    && c.maxAttempts < 0x100
  }

  /** The build with TESTING defined. */
  const Testing := Config(8, 8, 100.0, 150, 10, 2)

  /** The build without TESTING. */
  const Production := Config(256, 180, 100.0, 150, 600, 2)

  /** Litres per hour from the pulses counted in one second: the sensor emits
      4.8 pulses per second per litre/minute. */
  function FlowRate(pulses: nat): (r: real)
    ensures r == 12.5 * (pulses as real)
  {
    ((pulses * 60) as real) / 4.8
  }

  /** The controller state that persists between ticks; window is the logical
      contents of the ring buffer, oldest first. */
  datatype State = State(overrideOff: bool, lastRetry: nat, attempts: nat, window: seq<real>)

  /** The state at power-up. */
  const Initial := State(false, 0, 0, [])

  /** What every tick and command preserves. */
  predicate Inv(c: Config, s: State)
  {
    |s.window| <= c.capacity && s.attempts <= c.maxAttempts
  }

  /** The inputs of one tick: the ADC code of the pump-on line, the pulses
      counted since the previous tick, and the time in milliseconds. */
  datatype Input = Input(waterLevelPumpOn: nat, pulses: nat, now: nat)

  predicate PumpOn(c: Config, i: Input)
  {
    i.waterLevelPumpOn >= c.pumpOnThreshold
  }

  /** The window after this tick's sample has been appended. */
  function Sampled(c: Config, s: State, i: Input): seq<real>
    requires ValidConfig(c) && Inv(c, s)
  {
    Append(s.window, FlowRate(i.pulses), c.capacity)
  }

  /** Enough samples are present for the average to be used. */
  predicate Assessed(c: Config, w: seq<real>)
  {
    0 < |w| && c.minSamples <= |w|
  }

  predicate Healthy(c: Config, w: seq<real>)
  {
    Assessed(c, w) && Mean(w) > c.minFlow
  }

  predicate RetryDue(c: Config, s: State, now: nat)
  {
    now >= s.lastRetry + c.retryPeriod * 1000
  }

  /** The assessment of a tick, on the window that already holds the sample. */
  function Assess(c: Config, s: State, now: nat): (t: State)
    ensures t.attempts <= s.attempts && |t.window| <= |s.window|
    ensures t.overrideOff != s.overrideOff ==> Assessed(c, s.window)
    ensures t.overrideOff && !s.overrideOff ==> t == State(true, now, s.attempts, [])
    ensures t.lastRetry != s.lastRetry ==> t.overrideOff && !s.overrideOff
  {
    if !Assessed(c, s.window) then s
    else if Mean(s.window) > c.minFlow then s.(overrideOff := false, attempts := 0)
    else if !s.overrideOff then s.(overrideOff := true, lastRetry := now, window := [])
    else s
  }

  /** The optimistic retry; it leaves lastRetry where the override set it. */
  function Retry(c: Config, s: State, now: nat): (t: State)
    ensures t.lastRetry == s.lastRetry
    ensures t.overrideOff ==> s.overrideOff
    ensures t.attempts != s.attempts <==> s.overrideOff && !t.overrideOff
    ensures s.attempts <= c.maxAttempts ==> t.attempts <= c.maxAttempts
  {
    if s.overrideOff && RetryDue(c, s, now) && s.attempts < c.maxAttempts
    then s.(overrideOff := false, attempts := s.attempts + 1, window := [])
    else s
  }

  /** One sampling tick of the control loop. */
  function Step(c: Config, s: State, i: Input): (t: State)
    requires ValidConfig(c) && Inv(c, s)
    ensures Inv(c, t)
    ensures !PumpOn(c, i) ==> t == State(false, s.lastRetry, 0, [])
  {
    if !PumpOn(c, i) then State(false, s.lastRetry, 0, [])
    else Retry(c, Assess(c, s.(window := Sampled(c, s, i)), i.now), i.now)
  }

  /** A healthy average over enough samples clears the override and forgives
      past retries, whether or not the override was set. */
  lemma HealthyClears(c: Config, s: State, i: Input)
    requires ValidConfig(c) && Inv(c, s)
    requires PumpOn(c, i) && Healthy(c, Sampled(c, s, i))
    ensures Step(c, s, i) == s.(overrideOff := false, attempts := 0, window := Sampled(c, s, i))
  {
  }

  /** The override is only engaged by a low average over enough samples; that
      stamps the tick's time, discards the samples and keeps the retry count. */
  lemma EngagedOnlyByTrip(c: Config, s: State, i: Input)
    requires ValidConfig(c) && Inv(c, s) && !s.overrideOff
    ensures Step(c, s, i).overrideOff <==>
              && PumpOn(c, i) && Assessed(c, Sampled(c, s, i))
              && Mean(Sampled(c, s, i)) <= c.minFlow
              && !(RetryDue(c, s.(lastRetry := i.now), i.now) && s.attempts < c.maxAttempts)
    ensures Step(c, s, i).overrideOff ==> Step(c, s, i) == State(true, i.now, s.attempts, [])
  {
  }

  /** An engaged override is lifted only by the gate, a healthy average, or a
      due retry that still has budget; the retry is counted and does not move
      the retry time. */
  lemma LiftedOnlyBy(c: Config, s: State, i: Input)
    requires ValidConfig(c) && Inv(c, s) && s.overrideOff
    requires PumpOn(c, i) && !Healthy(c, Sampled(c, s, i))
    ensures !Step(c, s, i).overrideOff <==> RetryDue(c, s, i.now) && s.attempts < c.maxAttempts
    ensures !Step(c, s, i).overrideOff ==> Step(c, s, i) == State(false, s.lastRetry, s.attempts + 1, [])
    ensures Step(c, s, i).overrideOff ==> Step(c, s, i) == s.(window := Sampled(c, s, i))
  {
  }

  /** A tick on which there are too few samples to decide, with the override
      lifted, only appends the sample. */
  lemma StepUndecided(c: Config, s: State, i: Input)
    requires ValidConfig(c) && Inv(c, s) && !s.overrideOff
    requires PumpOn(c, i) && !Assessed(c, Sampled(c, s, i))
    ensures Step(c, s, i) == s.(window := Sampled(c, s, i))
  {
  }

  /** The state effect of a status request: "/LED=ON" resets the monitor,
      "/LED=OFF" (only an LED toggle) leaves it alone. */
  function Command(s: State, request: string): (t: State)
    ensures (exists i: nat :: Request.OccursAt(request, "/LED=ON", i)) ==>
              t == State(false, s.lastRetry, 0, [])
    ensures !(exists i: nat :: Request.OccursAt(request, "/LED=ON", i)) ==> t == s
  {
    Request.ContainsIff(request, "/LED=ON");
    if Request.IndexOf(request, "/LED=ON") != -1
    then s.(overrideOff := false, attempts := 0, window := [])
    else s
  }

  /** The reset command keeps the invariant. */
  lemma CommandKeepsInv(c: Config, s: State, request: string)
    requires Inv(c, s)
    ensures Inv(c, Command(s, request))
  {
  }

  /** The ticks ins, first to last. */
  function Run(c: Config, s: State, ins: seq<Input>): (t: State)
    requires ValidConfig(c) && Inv(c, s)
    ensures Inv(c, t)
  {
    if ins == [] then s else Step(c, Run(c, s, ins[..|ins| - 1]), ins[|ins| - 1])
  }

  /** The flows of the ticks ins. */
  function Flows(ins: seq<Input>): (r: seq<real>)
    ensures |r| == |ins|
    ensures forall k :: 0 <= k < |ins| ==> r[k] == FlowRate(ins[k].pulses)
  {
    if ins == [] then [] else Flows(ins[..|ins| - 1]) + [FlowRate(ins[|ins| - 1].pulses)]
  }

  predicate AllPumpOn(c: Config, ins: seq<Input>)
  {
    forall k :: 0 <= k < |ins| ==> PumpOn(c, ins[k])
  }

  /** Before enough samples are present nothing is decided: with the override
      lifted, the ticks only accumulate their flows. */
  lemma {:induction false} Accumulates(c: Config, s: State, ins: seq<Input>)
    requires ValidConfig(c) && Inv(c, s) && !s.overrideOff
    requires AllPumpOn(c, ins) && |s.window| + |ins| < c.minSamples
    ensures Run(c, s, ins) == s.(window := s.window + Flows(ins))
  {
    if ins == [] {
      assert s.window + Flows(ins) == s.window;
    } else {
      var init, i := ins[..|ins| - 1], ins[|ins| - 1];
      Accumulates(c, s, init);
      var p := Run(c, s, init);
      assert PumpOn(c, i);
      assert Sampled(c, p, i) == p.window + [FlowRate(i.pulses)];
      StepUndecided(c, p, i);
    }
  }

  /** Low flow trips the override exactly on the tick that completes the
      minimum sample count, stamping that tick's time and leaving the retry
      count alone; the ticks before it keep the override lifted. */
  lemma TripsOnMinSamples(c: Config, s: State, ins: seq<Input>)
    requires ValidConfig(c) && Inv(c, s) && !s.overrideOff && s.window == []
    requires 0 < c.retryPeriod && 0 < c.minSamples == |ins|
    requires AllPumpOn(c, ins) && Mean(Flows(ins)) <= c.minFlow
    ensures forall k :: 0 <= k < |ins| ==> !Run(c, s, ins[..k]).overrideOff
    ensures Run(c, s, ins) == State(true, ins[|ins| - 1].now, s.attempts, [])
  {
    forall k | 0 <= k < |ins| ensures !Run(c, s, ins[..k]).overrideOff {
      PrefixAccumulates(c, s, ins, k);
    }
    var init, i := ins[..|ins| - 1], ins[|ins| - 1];
    PrefixAccumulates(c, s, ins, |ins| - 1);
    var p := Run(c, s, init);
    assert Run(c, s, ins) == Step(c, p, i);
    assert Sampled(c, p, i) == Flows(ins) by {
      assert p.window == Flows(init);
    }
    EngagedOnlyByTrip(c, p, i);
  }

  /** Every proper prefix of such a run only accumulates its samples. */
  lemma PrefixAccumulates(c: Config, s: State, ins: seq<Input>, k: nat)
    requires ValidConfig(c) && Inv(c, s) && !s.overrideOff && s.window == []
    requires c.minSamples == |ins| && AllPumpOn(c, ins) && k < |ins|
    ensures Run(c, s, ins[..k]) == s.(window := Flows(ins[..k]))
  {
    assert AllPumpOn(c, ins[..k]);
    Accumulates(c, s, ins[..k]);
    assert s.window + Flows(ins[..k]) == Flows(ins[..k]);
  }

  /** From a freshly lifted override, the minimum sample count of flow whose
      average is above MIN_FLOW keeps the override lifted and forgives every
      retry. */
  lemma RecoversOnMinSamples(c: Config, s: State, ins: seq<Input>)
    requires ValidConfig(c) && Inv(c, s) && !s.overrideOff && s.window == []
    requires 0 < c.minSamples == |ins| && AllPumpOn(c, ins)
    requires Mean(Flows(ins)) > c.minFlow
    ensures Run(c, s, ins) == State(false, s.lastRetry, 0, Flows(ins))
  {
    var init, i := ins[..|ins| - 1], ins[|ins| - 1];
    PrefixAccumulates(c, s, ins, |ins| - 1);
    var p := Run(c, s, init);
    assert Run(c, s, ins) == Step(c, p, i);
    assert Sampled(c, p, i) == Flows(ins) by {
      assert p.window == Flows(init);
    }
    HealthyClears(c, p, i);
  }

  /** Once the retry budget is spent, low flow keeps the override engaged for
      good: only the gate or the reset command can lift it. */
  lemma {:induction false} ExhaustedStaysOff(c: Config, s: State, ins: seq<Input>)
    requires ValidConfig(c) && Inv(c, s) && s.overrideOff && s.attempts == c.maxAttempts
    requires AllAtMost(s.window, c.minFlow) && AllPumpOn(c, ins)
    requires AllAtMost(Flows(ins), c.minFlow)
    ensures Run(c, s, ins).overrideOff
    ensures Run(c, s, ins).attempts == s.attempts
    ensures Run(c, s, ins).lastRetry == s.lastRetry
    ensures AllAtMost(Run(c, s, ins).window, c.minFlow)
  {
    if ins != [] {
      var init, i := ins[..|ins| - 1], ins[|ins| - 1];
      assert AllPumpOn(c, init) && PumpOn(c, i);
      assert AllAtMost(Flows(init), c.minFlow) && FlowRate(i.pulses) <= c.minFlow by {
        assert Flows(ins) == Flows(init) + [FlowRate(i.pulses)];
      }
      ExhaustedStaysOff(c, s, init);
      var p := Run(c, s, init);
      var w := Sampled(c, p, i);
      AppendAtMost(p.window, FlowRate(i.pulses), c.capacity, c.minFlow);
      if Assessed(c, w) {
        MeanAtMost(w, c.minFlow);
      }
      LiftedOnlyBy(c, p, i);
    }
  }

  /** In the testing build, eight ticks of 7 pulses (87.5 litres/hour) trip
      the override on the eighth. */
  lemma TestingTripsAfterEightLowTicks(s: State, ins: seq<Input>)
    requires Inv(Testing, s) && !s.overrideOff && s.window == []
    requires |ins| == 8 && AllPumpOn(Testing, ins)
    requires forall k :: 0 <= k < |ins| ==> ins[k].pulses == 7
    ensures Run(Testing, s, ins).overrideOff
    ensures Run(Testing, s, ins).lastRetry == ins[7].now
  {
    assert AllAtMost(Flows(ins), Testing.minFlow);
    MeanAtMost(Flows(ins), Testing.minFlow);
    TripsOnMinSamples(Testing, s, ins);
  }
}
