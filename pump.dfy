/** The controller as the firmware runs it: one mutable record holding the
    ADC readings, the override state and the ring buffer of flow samples,
    together with the pulse counter, the output pins and the time of the last
    tick. Each method is proved against the value-level definitions of
    modules Window and Control. */
module Pump {
  import opened Window
  import opened Control
  import opened Ring
  import Request

  class PumpController {
    const cfg: Config
    /** The ring-buffer part of the state record, kept as an object of its
        own that the controller owns. */
    const buffer: FlowBuffer

    var batteryReading: nat
    var solarReading: nat
    var waterLevelPumpOn: nat

    var pumpOverrideOff: bool
    var lastFlowRetry: nat
    var flowRetryAttempts: nat

    /** Pulses counted by the sensor interrupt since the last tick. */
    var flowFrequency: nat
    /** Level of the relay line; true is HIGH, which opens the normally closed
        relay and stops the pump. */
    var pumpOffPin: bool
    /** Level of the status LED line (the LED lights when it is LOW). */
    var ledPin: bool
    /** Time of the last tick, in milliseconds. */
    var cloopTime: nat

    ghost predicate Valid()
      reads this, buffer, buffer.flowRingBuffer
    {
      && ValidConfig(cfg)
      && buffer.Valid()
      && buffer.capacity == cfg.capacity
      && flowRetryAttempts <= cfg.maxAttempts
    }

    /** The persistent control state. */
    ghost function Model(): State
      reads this, buffer
    {
      State(pumpOverrideOff, lastFlowRetry, flowRetryAttempts, buffer.Samples)
    }

    /** The state at power-up: every field and buffer slot zero, both output
        lines LOW, the tick clock started at bootTime. */
    constructor (c: Config, bootTime: nat)
      requires ValidConfig(c)
      ensures Valid() && fresh(buffer) && fresh(buffer.flowRingBuffer)
      ensures cfg == c && Model() == Initial
      ensures buffer.ringBufferLen == 0 && buffer.ringBufferStartIdx == 0
      ensures forall k :: 0 <= k < c.capacity ==> buffer.flowRingBuffer[k] == 0.0
      ensures batteryReading == 0 && solarReading == 0 && waterLevelPumpOn == 0
      ensures flowFrequency == 0 && !pumpOffPin && !ledPin && cloopTime == bootTime
    {
      cfg := c;
      buffer := new FlowBuffer(c.capacity);
      batteryReading, solarReading, waterLevelPumpOn := 0, 0, 0;
      pumpOverrideOff, lastFlowRetry, flowRetryAttempts := false, 0, 0;
      flowFrequency := 0;
      pumpOffPin, ledPin := false, false;
      cloopTime := bootTime;
    }

    /** Converts the pulses of the last second to litres/hour and restarts the
        count. */
    method CalculateFlow() returns (lHour: real)
      modifies this`flowFrequency
      ensures lHour == FlowRate(old(flowFrequency))
      ensures flowFrequency == 0
    {
      lHour := FlowRate(flowFrequency);
      flowFrequency := 0;
    }

    /** The once-per-second body of the main loop: store the ADC readings,
        take the flow sample, then gate, assess, retry and drive the relay. */
    method Tick(battery: nat, solar: nat, waterLevel: nat, now: nat)
      requires Valid()
      modifies this`batteryReading, this`solarReading, this`waterLevelPumpOn, this`flowFrequency
      modifies this`pumpOverrideOff, this`lastFlowRetry, this`flowRetryAttempts, this`pumpOffPin
      modifies buffer, buffer.flowRingBuffer
      ensures Valid()
      ensures Model() == Step(cfg, old(Model()), Input(waterLevel, old(flowFrequency), now))
      ensures pumpOffPin == pumpOverrideOff
      ensures waterLevel < cfg.pumpOnThreshold ==>
                !pumpOffPin && buffer.ringBufferLen == 0 && buffer.ringBufferStartIdx == 0
      ensures flowFrequency == 0
      ensures batteryReading == battery && solarReading == solar && waterLevelPumpOn == waterLevel
    {
      ghost var s0 := Model();
      ghost var input := Input(waterLevel, flowFrequency, now);
      Sample(battery, solar, waterLevel);
      assert Model() == s0.(window := Sampled(cfg, s0, input));

      if waterLevelPumpOn < cfg.pumpOnThreshold {
        // the pump is not running: nothing to monitor
        pumpOverrideOff := false;
        pumpOffPin := false;
        flowRetryAttempts := 0;
        buffer.ResetRingBuffer();
        return;
      }
      Monitor(now);
    }

    /** The part of a tick that runs whether or not the pump is on: store the
        ADC readings and append the flow of the last second to the window. */
    method Sample(battery: nat, solar: nat, waterLevel: nat)
      requires Valid()
      modifies this`batteryReading, this`solarReading, this`waterLevelPumpOn, this`flowFrequency
      modifies buffer, buffer.flowRingBuffer
      ensures Valid()
      ensures buffer.Samples == Append(old(buffer.Samples), FlowRate(old(flowFrequency)), cfg.capacity)
      ensures 0 < buffer.ringBufferLen
      ensures flowFrequency == 0
      ensures batteryReading == battery && solarReading == solar && waterLevelPumpOn == waterLevel
    {
      batteryReading, solarReading, waterLevelPumpOn := battery, solar, waterLevel;
      var flowLPerHour := CalculateFlow();
      buffer.AddToRingBuffer(flowLPerHour);
    }

    /** The part of a tick that runs while the pump is on: average the
        window, assess it, retry, and drive the relay line from the override. */
    method Monitor(now: nat)
      requires Valid() && 0 < buffer.ringBufferLen
      modifies this`pumpOverrideOff, this`lastFlowRetry, this`flowRetryAttempts, this`pumpOffPin, buffer
      ensures Valid()
      ensures Model() == Retry(cfg, Assess(cfg, old(Model()), now), now)
      ensures pumpOffPin == pumpOverrideOff
    {
      var avgFlow := buffer.AverageFlowFromBuffer();
      AssessFlow(avgFlow, now);
      RetryOverride(now);
      if pumpOverrideOff {
        pumpOffPin := true;
      } else {
        pumpOffPin := false;
      }
    }

    /** The decision on a window holding enough samples: a healthy average
        clears the override and the retry count, a low one engages the
        override (once) and restarts the window. */
    method AssessFlow(avgFlow: real, now: nat)
      requires Valid() && 0 < buffer.ringBufferLen && avgFlow == Mean(buffer.Samples)
      modifies this`pumpOverrideOff, this`lastFlowRetry, this`flowRetryAttempts, buffer
      ensures Valid()
      ensures Model() == Assess(cfg, old(Model()), now)
    {
      if buffer.ringBufferLen >= cfg.minSamples {
        if avgFlow > cfg.minFlow {
          pumpOverrideOff := false;
          flowRetryAttempts := 0;
        } else if avgFlow <= cfg.minFlow && !pumpOverrideOff {
          pumpOverrideOff := true;
          lastFlowRetry := now;
          buffer.ResetRingBuffer();
        }
      }
    }

    /** The optimistic retry: once the retry period has passed since the
        override was engaged, and attempts remain, the override is lifted
        without re-checking the flow and the window restarts. */
    method RetryOverride(now: nat)
      requires Valid()
      modifies this`pumpOverrideOff, this`flowRetryAttempts, buffer
      ensures Valid()
      ensures Model() == Retry(cfg, old(Model()), now)
    {
      if pumpOverrideOff
        && now >= lastFlowRetry + cfg.retryPeriod * 1000
        && flowRetryAttempts < cfg.maxAttempts
      {
        pumpOverrideOff := false;
        flowRetryAttempts := flowRetryAttempts + 1;
        buffer.ResetRingBuffer();
      }
    }

    /** One pass of the main loop's sampling part: a tick runs only once at
        least 1000 ms have passed since the previous one. */
    method Loop(battery: nat, solar: nat, waterLevel: nat, now: nat) returns (ticked: bool)
      requires Valid()
      modifies this`batteryReading, this`solarReading, this`waterLevelPumpOn, this`flowFrequency
      modifies this`pumpOverrideOff, this`lastFlowRetry, this`flowRetryAttempts, this`pumpOffPin
      modifies this`cloopTime, buffer, buffer.flowRingBuffer
      ensures Valid()
      ensures ticked <==> now >= old(cloopTime) + 1000
      ensures ticked ==>
                && cloopTime == now
                && Model() == Step(cfg, old(Model()), Input(waterLevel, old(flowFrequency), now))
                && pumpOffPin == pumpOverrideOff && flowFrequency == 0
                && batteryReading == battery && solarReading == solar && waterLevelPumpOn == waterLevel
      ensures ledPin == old(ledPin)
      ensures !ticked ==> unchanged(this) && unchanged(buffer) && unchanged(buffer.flowRingBuffer)
    {
      ticked := now >= cloopTime + 1000;
      if ticked {
        cloopTime := now;
        Tick(battery, solar, waterLevel, now);
      }
    }

    /** The state effects of a status request line: "/LED=ON" lights the LED
        and resets the monitor, "/LED=OFF" only darkens the LED. Neither
        drives the relay line; it follows the override at the next tick. */
    method HandleRequest(request: string)
      requires Valid()
      modifies this`ledPin, this`pumpOverrideOff, this`flowRetryAttempts, buffer
      ensures Valid()
      ensures Model() == Command(old(Model()), request)
      ensures ledPin == if Request.IndexOf(request, "/LED=OFF") != -1 then true
                        else if Request.IndexOf(request, "/LED=ON") != -1 then false
                        else old(ledPin)
      ensures Request.IndexOf(request, "/LED=ON") != -1 ==> buffer.ringBufferStartIdx == 0
      ensures pumpOffPin == old(pumpOffPin)
    {
      if Request.IndexOf(request, "/LED=ON") != -1 {
        ledPin := false;
        pumpOverrideOff := false;
        flowRetryAttempts := 0;
        buffer.ResetRingBuffer();
      }
      if Request.IndexOf(request, "/LED=OFF") != -1 {
        ledPin := true;
      }
    }
  }
}
