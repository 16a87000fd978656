# Flow-gated pump override controller

A Dafny model of the pump safety controller in the waterpump firmware
(`src/main.cpp`). The controller runs once a second. It:

1. reads three ADC lines (battery, solar and the "pump commanded on" line);
2. converts the flow-sensor pulses of the last second to litres per hour;
3. appends that sample to a fixed-size ring buffer.

When the pump is not commanded on, it resets the monitor. Otherwise, once
enough samples are present, it compares their average against `MIN_FLOW`:

- a healthy average clears the override and forgives past retries;
- a low one engages the override, which opens the normally closed relay and
  stops the pump.

After a retry period an engaged override is lifted optimistically, at most
`flow_retry_max_attempts` times. A status request containing `/LED=ON` resets
the monitor.

The project has five modules:

- `Window` (window.dfy): the window of samples as a value.
  - `Append` evicts the oldest sample once the window is full.
  - `Sum` and `Mean` compute the average.
  - The FIFO lemma says that a run of appends keeps exactly the last
    `capacity` samples.
  - Bounds on the mean follow from bounds on the samples.
- `Request` (request.dfy): `String::indexOf` as used to match a request
  line.
- `Control` (control.dfy): the controller as a state machine on values.
  - `Config` holds the build constants. `Testing` and `Production` are the
    two builds.
  - `FlowRate`, `Step` (one tick), `Command` (the request effect) and `Run`
    (many ticks).
  - Lemmas state what a tick does, and what the trip, recovery and
    exhausted-retry runs lead to.
- `Ring` (ring.dfy): the in-place ring buffer.
  - `FlowBuffer` holds the `FLOW_BUFFER_SIZE` array and the
    `ring_buffer_len` and `ring_buffer_start_idx` fields of `PumpState`.
  - A ghost sequence holds its logical contents, oldest first.
  - Its methods are proved against `Window.Append` and `Window.Mean`.
- `Pump` (pump.dfy): `PumpController`, the `PumpState` record with the
  pulse counter, the two output lines and the tick clock.
  - `Tick` is proved to implement `Control.Step`.
  - `HandleRequest` is proved to implement `Control.Command`.

Points where the firmware's order of operations and its exact conditions
matter, which the model follows:

- The new sample is appended before the pump-on gate (line 326). On a gated
  tick that sample is discarded with the rest of the window.
- The average is computed on every non-gated tick, before the minimum-sample
  check (line 340). It is never taken over an empty buffer, because the
  sample was just appended.
- The healthy branch clears the override even when it is already set. The
  guard that would prevent this is commented out on line 351.
- A retry does not move `last_flow_retry` (lines 371-376). With the testing
  constants, an override engaged at time T is retried at T + 10 s. If the
  flow is then still low over a full window, it is engaged again at that
  later tick T'. The second retry is at T' + 10 s, not at T + 20 s.
- Deadlines are compared as absolute `millis()` values (lines 318 and 368),
  not by difference, so the model does not claim wraparound safety.
- `/LED=ON` resets the override but does not write the relay line. The line
  follows the override at the next tick.

## Model

| member | source | states |
|---|---|---|
| Window.Append | src/main.cpp:93-108 | appending to a window below capacity adds the sample at the end; at capacity the length stays at capacity; the new sample is always the newest element |
| Window.AppendIsLastN | src/main.cpp:93-108 | after an append the window is the last `capacity` samples of the old window followed by the new sample |
| Window.AppendAllIsLastN | src/main.cpp:84-108 | FIFO: after any run of appends the window holds exactly the last `capacity` samples of the old window followed by the appended ones, oldest first |
| Window.MeanAtMost | src/main.cpp:84-91 | the average of samples that are all at most m is at most m |
| Window.MeanAbove | src/main.cpp:84-91 | the average of samples that are all above m is above m |
| Window.AppendAtMost | src/main.cpp:93-108 | appending a sample at most m to a window of samples at most m keeps every sample at most m |
| Request.IndexOfFrom | src/main.cpp:215 | the result is -1 or a position at or after k where the pattern occurs, and the pattern occurs nowhere between k and the result (nowhere at all after k when -1) |
| Request.ContainsIff | src/main.cpp:215-229 | the search answers something other than -1 exactly when the pattern occurs somewhere in the request line |
| Control.FlowRate | src/main.cpp:278-292 | the conversion pulses * 60 / 4.8 equals 12.5 litres/hour per pulse counted in the second |
| Control.Step | src/main.cpp:326-383 | a tick keeps the window within the buffer size and the retry count within the maximum; when the pump is not commanded on the tick ends with the override lifted, no retries and an empty window, whatever the previous state |
| Control.Assess | src/main.cpp:349-365 | the assessment never adds retries or grows the window; it changes the override only on a window with enough samples; it engages the override only by stamping the time, emptying the window and keeping the retry count, and that is the only way it moves the retry time; its cases are stated by HealthyClears, EngagedOnlyByTrip, LiftedOnlyBy and StepUndecided |
| Control.Retry | src/main.cpp:367-377 | the retry never moves the retry time and never engages the override; it changes the retry count exactly when it lifts an engaged override, and keeps the count within the maximum; its condition is stated by EngagedOnlyByTrip and LiftedOnlyBy |
| Control.HealthyClears | src/main.cpp:349-355 | with the pump on and enough samples averaging above MIN_FLOW, the tick lifts the override and zeroes the retry count even if the override was set, and keeps the window |
| Control.EngagedOnlyByTrip | src/main.cpp:349-377 | from a lifted override, the tick leaves it engaged if and only if the pump is on, enough samples are present, their average is at most MIN_FLOW, and an immediate retry is not due; when it does, the time is stamped, the window emptied and the retry count kept |
| Control.LiftedOnlyBy | src/main.cpp:356-377 | an engaged override with the pump on and no healthy average is lifted if and only if the retry period has passed since the last retry time and attempts remain; a lift adds one attempt, empties the window and keeps the retry time; otherwise only the sample is appended |
| Control.StepUndecided | src/main.cpp:326-349 | with the override lifted, the pump on and too few samples, a tick only appends the sample |
| Control.Command | src/main.cpp:215-229 | a request line in which /LED=ON occurs somewhere lifts the override, zeroes the retry count and empties the window, keeping the retry time; any other line, /LED=OFF included, leaves the control state unchanged |
| Control.CommandKeepsInv | src/main.cpp:215-229 | the reset command keeps the window within the buffer size and the retry count within the maximum |
| Control.Run | src/main.cpp:316-389 | any sequence of ticks keeps the window within the buffer size and the retry count within the maximum |
| Control.Flows | src/main.cpp:278-292 | the samples of a run of ticks are the flow rates of their pulse counts, one per tick |
| Control.Accumulates | src/main.cpp:326-349 | while the override is lifted, the pump is on and fewer than FLOW_MIN_SAMPLES samples are present, ticks only accumulate their samples |
| Control.TripsOnMinSamples | src/main.cpp:326-377 | from an empty window with the override lifted, low-average flow engages the override exactly on the tick that completes FLOW_MIN_SAMPLES samples, stamping that tick's time and keeping the retry count; no earlier tick engages it |
| Control.RecoversOnMinSamples | src/main.cpp:326-355 | from an empty window with the override lifted, FLOW_MIN_SAMPLES ticks whose average is above MIN_FLOW leave the override lifted, zero the retry count and keep the samples |
| Control.ExhaustedStaysOff | src/main.cpp:349-377 | once the retries are spent, ticks with the pump on and flow never above MIN_FLOW keep the override engaged with the same retry count and retry time |
| Control.TestingTripsAfterEightLowTicks | src/main.cpp:36-44 | in the testing build, eight ticks of 7 pulses (87.5 litres/hour) from an empty window engage the override on the eighth, stamped with its time |
| Ring.ModBelowTwice | src/main.cpp:94 | the firmware's `% FLOW_BUFFER_SIZE` of a position at most once around the buffer is that position wrapped once |
| Ring.SlotIndex | src/main.cpp:94 | the slot index computed by the modulo is the wrapped position and lies inside the buffer |
| Ring.OccupiedAt | src/main.cpp:84-91 | the i-th logical sample is stored in slot (start + i) mod size |
| Ring.OccupiedGrow | src/main.cpp:93-98 | writing the slot after the newest sample of a buffer that is not full extends the logical contents by that sample |
| Ring.OccupiedRotate | src/main.cpp:99-105 | in a full buffer, overwriting the oldest slot and advancing the start by one drops the oldest sample and adds the new one at the end |
| Ring.FlowBuffer.constructor | src/main.cpp:72-76 | the buffer starts empty, with length and start 0 and FLOW_BUFFER_SIZE slots all holding 0.0 |
| Ring.FlowBuffer.AverageFlowFromBuffer | src/main.cpp:84-91 | the loop over the occupied slots returns the arithmetic mean of the logical samples |
| Ring.FlowBuffer.AddToRingBuffer | src/main.cpp:93-108 | the logical contents become the append of the sample; length and start stay in bounds; a buffer that is not full grows by one with the start kept; a full one keeps its length and advances the start by one, wrapping |
| Ring.FlowBuffer.ResetRingBuffer | src/main.cpp:333-335 | clearing sets length and start to 0 and empties the logical contents |
| Pump.PumpController.constructor | src/main.cpp:56-78 | at power-up every field and every buffer slot is zero and the override is lifted; as `setup` does at lines 145-155, both output lines are LOW and the tick clock starts at the boot time |
| Pump.PumpController.CalculateFlow | src/main.cpp:278-292 | returns the flow rate of the pulses counted so far and leaves the counter at 0 |
| Pump.PumpController.Sample | src/main.cpp:322-326 | stores the three readings, zeroes the pulse counter and appends the flow rate of the old count to the window, which is then non-empty |
| Pump.PumpController.AssessFlow | src/main.cpp:349-365 | with the mean of the window in hand, the state becomes the value-level assessment of the old state |
| Pump.PumpController.RetryOverride | src/main.cpp:367-377 | the state becomes the value-level retry of the old state |
| Pump.PumpController.Monitor | src/main.cpp:340-383 | the state becomes the retry of the assessment of the old state, and the relay line is HIGH exactly when the override is engaged |
| Pump.PumpController.Tick | src/main.cpp:320-389 | the new control state is Control.Step of the old state on this tick's pump-on reading, pulse count and time; the relay line is HIGH exactly when the override is engaged; on a gated tick the relay is LOW and the buffer length and start are 0; the counter is 0 and the readings are stored |
| Pump.PumpController.Loop | src/main.cpp:316-320 | a tick runs exactly when at least 1000 ms have passed since the previous one, and then restamps the clock, does Control.Step, stores the readings and drives the relay from the override; otherwise nothing changes; the LED line is never written |
| Pump.PumpController.HandleRequest | src/main.cpp:215-229 | the control state becomes Control.Command of the old state; the LED line is HIGH if the line contains /LED=OFF, else LOW if it contains /LED=ON, else unchanged; the relay line is not written |

## Left out

- WiFi, the HTTP server and the response text of `handleWifiClient`, the WiFi and serial parts of `setup` (its pin and clock initialisation is the constructor), and the client plumbing of `loop` (lines 296-314) are left out. They are I/O over libraries that are not part of this model. The request line is a parameter of `HandleRequest`.
- `pump_state_to_string` and all `Serial` debug output are left out. They only render the state for people.
- The MCP3008 ADC driver and `readADCState` are left out. The three readings are parameters of `Tick`.
- The interrupt handler `rising` is left out, together with the race between it and `calculateFlow`, which reads and zeroes the counter without disabling interrupts. The pulse count is the field `flowFrequency`, which the environment sets between ticks.
- Float rounding is left out. Flows, sums and averages are exact reals, and the firmware's `float` rounding in the sum, in the division and in `/ 4.8` is not modelled.
- Integer widths are not modelled. Times are unbounded naturals, so `millis()` wraparound and unsigned-long overflow of `last_flow_retry + flow_retry_period * 1000` are outside the model. The `int` overflow of `flow_frequency * 60` is also outside it. `ValidConfig` keeps the constants within the widths of their C types.
- Ring.FlowBuffer.AverageFlowFromBuffer requires a non-empty buffer. On an empty one the firmware divides 0.0 by 0 and gets NaN. No caller in the firmware reaches that case, because the tick appends a sample first.
- Request.IndexOfFrom: the Arduino `String` search stops at an embedded NUL character; the model searches the whole sequence.
- The ring-buffer fields of `PumpState` are kept in a `FlowBuffer` object that the controller owns, rather than as fields of the controller itself. Nothing else can reach that object, so no aliasing is lost.
- The tick body is split into the helper methods `Sample`, `Monitor`, `AssessFlow` and `RetryOverride`. They follow the order of the statements in `loop`.
