# Three-pulse T1 sweeps and SR830 lock-in drivers, modelled in Dafny

This project models the logic of a pulsed-measurement setup. A TTL pulse
sequencer (a PulseBlaster, driven through SpinAPI) plays a looping
three-pulse program. An SR830 lock-in amplifier, reached over VISA/GPIB,
measures the response.

The model covers three pieces:

- **The three-pulse sequence compiler**, in both of its variants. It checks
  two timing budgets. It then emits the first half of the reference period:
  the reference-high baseline and the INIT laser pulse. Then it emits the
  second half: the second pulse, an optional dark step of length tau, the
  read pulse, and a BRANCH filler that loops the program.
  - `T1Experiment` is the nanosecond variant (`t1_experiment.py`). It emits
    INIT first, then the baseline.
  - `T1` is the microsecond variant (`t1.py`). It emits the baseline first,
    then INIT.
  - The second half is shared in `PulseProgram`.
- **The two sweep runners (`run`).** The hardware is a `Hardware.Rig` object
  that records every call in a trace. It answers lock-in reads from a given
  list of readings. A given set of teardown calls raise.
  - `T1Experiment.Run` repeats the tau sweep `loops` times. Each point does
    stop, reset, load, start, settle and read, then redraws a live plot of
    the readings so far against the taus of the current pass.
  - `T1.Run` primes the sequencer with the first tau, then makes one pass.
    Each point does stop, load, start, settle and read, with no reset.
  - Both runners poll an interruption flag before each point. Both tear
    down in `finally` and re-raise a timing error (or, in `T1Experiment`, a
    plot error) after teardown.
- **The SR830 drivers.**
  - `Piglet` models `piglet.py`, which serves both the finite-sampling and
    the fast-counter interfaces. It covers the setters, `configure` with its
    clamping, the fast-counter status machine (0 unconfigured, 1 idle,
    2 running, 3 paused), the volts-to-counts scale from the SENS table, and
    the shaping of `get_data_trace`.
  - `LockInSR830` models `lock_in_SR830.py`, which reads X and Y and drops
    the last parsed value.
  - `LockInSR830XOnly` models `lock_in_SR830_x_only.py`, which accepts only
    X, never sends STRT and never pauses during a frame.
  - Their shared logic lives in `LockIn`: the SRAT rate table, the choice of
    the nearest rate (lowest index on ties), the inclusive range checks,
    channel validation and buffer polling.
  - Each driver is a class whose fields are the driver's attributes. `sent`
    is the log of everything written to or queried from the instrument.

Durations are natural numbers in the variant's own time unit. Rates, waits,
sensitivities and voltages are exact `real`s.

## Model

| member | source | states |
|---|---|---|
| PulseProgram.SecondHalfShape | Other/experiments/t1.py:50-61 | the second half is second pulse, optional dark step, read pulse, then BRANCH with `max(1, half - (second+tau+read))`; every earlier step continues; its lengths sum to the half exactly, or to the half plus 1 when the clamp applies |
| PulseProgram.TotalLengthAppend | Other/experiments/t1_experiment.py:35-41 | the length of a program is additive over concatenation |
| PulseProgram.FirstBad | Other/experiments/t1.py:101 | the first tau of a sweep whose program fails to compile: every earlier one compiles, and that one does not |
| Hardware.SecondsFacts | Other/experiments/t1.py:78 | the sweep in seconds is converted tau by tau: converting joined sweeps joins the conversions, the order of the taus is kept, and multiplying back by 10^6 gives each tau in microseconds again |
| Hardware.Rig.Attempt | Other/experiments/t1.py:116-123 | a teardown call inside `try` is always made, and returns normally exactly when it is not one that raises |
| Hardware.Rig.ReadR | Other/experiments/t1.py:39 | one R query appends a QueryR call and returns the next reading in order |
| Hardware.FirstInterrupt | Other/experiments/t1.py:96-98 | the first poll that sees an interruption request: no earlier poll saw one |
| Hardware.FirstInterruptAt | Other/experiments/t1_experiment.py:66-68 | a poll that sees a request, with none before it, is the first interruption |
| Hardware.MulIsProduct | Other/experiments/t1_experiment.py:64-65 | the slot count of `loops` passes over `p` points is `loops * p` |
| Hardware.SlotBounds | Other/experiments/t1_experiment.py:64-65 | slot `c*p + i` of pass `c`, point `i` lies inside the sweep and measures point `i` |
| T1Experiment.CompileErrors | Other/experiments/t1_experiment.py:20-29 | compilation fails with the INIT error exactly when `init*1000 > half`, with the second-half error exactly when INIT fits but `(second+tau+read)*1000 > half`, and succeeds exactly when both fit |
| T1Experiment.CompileShape | Other/experiments/t1_experiment.py:31-41 | `(REF\|LASER, init)` then `(REF, half - init)`, summing to the half; then `(LASER, second)`, the dark step `(0, tau)` only when tau > 0, `(LASER, read)`, and BRANCH with the clamped filler, all in nanoseconds; 6 instructions when tau > 0 and 5 otherwise; the program loops forever; the second half sums to the half, plus 1 when the clamp applies |
| T1Experiment.SettleWait | Other/experiments/t1_experiment.py:48 | the settle wait is at least 1 s and at least `10 * tau_LI`, and equals one of the two |
| T1Experiment.Points | Other/experiments/t1_experiment.py:70-77 | the calls of `n` completed points: six per point |
| T1Experiment.Completed | Other/experiments/t1_experiment.py:64-84 | how many points the loops complete, leaving the plot aside: at most `loops * points`, and every completed slot compiled |
| T1Experiment.CompletedOnFailure | Other/experiments/t1_experiment.py:72 | a sweep that fails stops at the first tau that does not compile |
| T1Experiment.PointsAt | Other/experiments/t1_experiment.py:70-77 | the calls of slot `k` are stop, reset, load the program of `taus[k mod points]`, start, settle, read, in that order |
| T1Experiment.PointsPrefix | Other/experiments/t1_experiment.py:65-77 | the calls of fewer points are a prefix of the calls of more |
| T1Experiment.InterruptionShortens | Other/experiments/t1_experiment.py:66-68 | no more points complete with interruption requests than without, so the readings are a prefix of the uninterrupted ones |
| T1Experiment.FullSweep | Other/experiments/t1_experiment.py:64-84 | leaving the plot aside, with no interruption and every tau compiling the loops complete all `loops * points` slots |
| T1Experiment.PlotBroadcastsAt | Other/experiments/t1_experiment.py:79-81 | after point `i` of pass `c` the plot pairs `i + 1` taus with all readings so far; it can be drawn exactly in the first pass or at the first point of a pass |
| T1Experiment.Measured | Other/experiments/t1_experiment.py:64-84 | the points actually measured: never more than the loops complete, and every one of them compiled |
| T1Experiment.PlotFailsWhen | Other/experiments/t1_experiment.py:64-84 | the plot stops the sweep exactly when there are at least two points and two passes, every tau compiles, and no request comes before the second point of the second pass; a sweep is never stopped by both the plot and a timing error |
| T1Experiment.FullSweepMeasures | Other/experiments/t1_experiment.py:64-84 | with no interruption and every tau compiling, all `loops * points` readings are taken exactly when there is one pass or one point; otherwise the run stops after `points + 2` readings |
| T1Experiment.TeardownCalls | Other/experiments/t1_experiment.py:85-89 | teardown always stops the sequencer first and always closes the lock-in; reset follows exactly when the stop did not raise, close exactly when neither stop nor reset raised, and the manager closes exactly when the lock-in close did not raise |
| T1Experiment.RunTeardown | Other/experiments/t1_experiment.py:85-89 | the teardown calls are made in the order and under the conditions that `TeardownCalls` states |
| T1Experiment.MeasurePoint | Other/experiments/t1_experiment.py:70-77 | a point that compiles makes the six calls and takes the next reading; one that does not compile makes only stop and reset, reads nothing, and reports the timing error |
| T1Experiment.SweepEnds | Other/experiments/t1_experiment.py:64-84 | at the end of the loops, the trace is the measured points plus stop and reset on a timing error; the readings are the measured count, in order, and the read count moved by as many; the sweep stopped exactly when `Fails` or `PlotFails` holds, with the timing error or the plot error respectively |
| T1Experiment.SweepStep | Other/experiments/t1_experiment.py:65-81 | one poll plus at most one point keeps the sweep invariant, the interrupted flag persists once set, and a point the plot cannot draw stops the sweep with the plot error |
| T1Experiment.PlotRejected | Other/experiments/t1_experiment.py:77-81 | a measured point the plot cannot draw is the second point of the second pass, reached with every tau compiling and no request |
| T1Experiment.SweepPass | Other/experiments/t1_experiment.py:65-83 | one pass of the inner `for` keeps the sweep invariant and moves on by one pass |
| T1Experiment.SweepLoop | Other/experiments/t1_experiment.py:64-84 | the `while loop_counter < loops` loop ends with all passes done or stopped on a timing error or the plot |
| T1Experiment.SweepAll | Other/experiments/t1_experiment.py:64-84 | the loops as a whole: the trace of the measured points, the readings taken and the read count, a stop exactly when `Fails` or `PlotFails`, with the matching error |
| T1Experiment.SweepThenTeardown | Other/experiments/t1_experiment.py:64-91 | with the settle wait known: the trace is the measured points (plus stop and reset when a timing error stops the sweep), then teardown, and the read count moves by the measured points; the outcome raises exactly when a tau that does not compile is reached before an interruption, with that tau's error, or when the plot stops the sweep, with the plot error; otherwise it returns the sweep in seconds and the readings taken, in order |
| T1Experiment.Run | Other/experiments/t1_experiment.py:44-91 | an OFLT index the lock-in setup has no time constant for raises after connecting, with no teardown and no reading; otherwise the trace is init and connect, the measured points (plus stop and reset when a timing error stops the sweep), then teardown, and the read count moves by the measured points; the run raises exactly when a tau that does not compile is reached before an interruption, with that tau's error, or when the plot cannot draw the second point of the second pass; otherwise it returns the full sweep in seconds and the readings taken, in order |
| T1.CompileErrors | Other/experiments/t1.py:42-47 | compilation fails with the INIT error exactly when `init > half`, with the second-half error exactly when INIT fits but `second+tau+read > half`, and succeeds exactly when both fit |
| T1.CompileShape | Other/experiments/t1.py:49-61 | `(REF, half - init)` then `(REF\|LASER, init)`, summing to the half (a zero-length baseline when INIT fills it); second pulse; the dark step only when tau > 0; read pulse; the clamped BRANCH filler; 6 or 5 instructions; the program loops; the second half sums to the half, plus 1 when the clamp applies |
| T1.TimeConstantFacts | Other/experiments/t1.py:28-38 | the reported time constant is positive; the table steps by 3 and by 10/3 alternately, so it strictly increases; an index outside 0..19 gives the 10 ms of index 6 |
| T1.SettleWait | Other/experiments/t1.py:75 | the settle wait is at least 0.02 s and at least `5 * tau_LI`, and equals one of the two |
| T1.PrimeWait | Other/experiments/t1.py:93 | the priming wait is at least the settle wait and at least two reference periods, and equals one of the two |
| T1.DefaultsFit | Other/experiments/t1.py:14-24 | with the module defaults, a tau compiles exactly when it is at most 1987 us, and the settle wait is 50 ms |
| T1.Points | Other/experiments/t1.py:100-106 | the calls of `n` completed points: five per point |
| T1.PointsAt | Other/experiments/t1.py:100-106 | the calls of point `k` are stop, load the program of `taus[k]`, start, settle, read, with no reset |
| T1.PointsPrefix | Other/experiments/t1.py:95-106 | the calls of fewer points are a prefix of the calls of more |
| T1.CompletedBounds | Other/experiments/t1.py:95-106 | the pass completes at most up to the first tau that does not compile and the first interruption; it covers the whole sweep exactly when every tau compiles and no poll sees a request; on failure it ends at the tau that does not compile |
| T1.PassEnds | Other/experiments/t1.py:95-106 | a pass that stops at the end of the sweep, at a poll that sees a request, or at a polled tau that does not compile has completed exactly `Completed` points, and has failed exactly in the last case |
| T1.InterruptionShortens | Other/experiments/t1.py:96-98 | no more points complete with interruption requests than without |
| T1.TeardownCalls | Other/experiments/t1.py:115-123 | stop, reset and close of the sequencer and the lock-in close are always made; the manager closes exactly when the lock-in close did not raise |
| T1.RunTeardown | Other/experiments/t1.py:115-123 | the teardown calls are made in order, each in its own `try` |
| T1.MeasurePoint | Other/experiments/t1.py:100-106 | a point that compiles makes its five calls and takes the next reading; one that does not compile makes only the stop and reports the timing error |
| T1.SweepOnce | Other/experiments/t1.py:95-106 | the `for` loop ends after the completed points, plus the stop when a tau does not compile; the readings are the completed count, in order, and the read count moves by as many; it failed exactly when such a tau precedes the interruption |
| T1.Run | Other/experiments/t1.py:64-125 | an empty sweep raises when priming and only tears down; a first tau that does not compile raises before anything is loaded; in both cases nothing is read; otherwise the trace is init, connect, priming with the first program and the priming wait, the completed points (plus a stop on failure), then teardown, and the read count moves by the completed points; the run raises exactly on a timing error reached before an interruption; it returns the full sweep in seconds even when fewer readings were taken |
| LockIn.NearestIndex | src/qudi/hardware/lock_in/piglet.py:146 | the chosen index has the least distance to the request among all entries, and every lower index is strictly farther (the first minimum wins ties) |
| LockIn.RatesDouble | src/qudi/hardware/lock_in/piglet.py:142-145 | each SRAT rate is double the one before it |
| LockIn.RatesIncrease | src/qudi/hardware/lock_in/piglet.py:142-145 | the SRAT table strictly increases |
| LockIn.RatesInRange | src/qudi/hardware/lock_in/piglet.py:93-145 | every table rate passes the rate range check and is positive |
| LockIn.TableRateSnapsToItself | src/qudi/hardware/lock_in/piglet.py:146-148 | requesting a table rate selects that very entry, so setting the stored rate again changes nothing |
| LockIn.NearestBetweenNeighbours | src/qudi/hardware/lock_in/piglet.py:146 | between two neighbouring table rates, the lower is chosen up to and including the midpoint and the upper beyond it |
| LockIn.FirstInvalid | src/qudi/hardware/lock_in/piglet.py:153-155 | the position of the first unknown channel: all earlier channels are valid and this one is not |
| LockIn.FirstInvalidMeansSubset | src/qudi/hardware/lock_in/piglet.py:151-156 | a channel request passes exactly when every channel it names is valid |
| LockIn.FirstReady | src/qudi/hardware/lock_in/lock_in_SR830.py:185 | the first buffer-count reply that reaches the frame size: every earlier reply is below it |
| LockIn.PollsLength | src/qudi/hardware/lock_in/lock_in_SR830.py:185-187 | `k` unsuccessful polls take `k` times one poll plus one wait |
| LockIn.PollsOnlyQueryAndWait | src/qudi/hardware/lock_in/lock_in_SR830.py:185-187 | waiting for the buffer sends nothing but buffer-count queries and waits |
| Piglet.SensStep | src/qudi/hardware/lock_in/piglet.py:216-223 | the sensitivities step by 2, 2.5 and 2 within each decade |
| Piglet.SensIncrease | src/qudi/hardware/lock_in/piglet.py:216-223 | the sensitivity table strictly increases, from 2 nV to 1 V |
| Piglet.ScaleForFacts | src/qudi/hardware/lock_in/piglet.py:206-230 | with a known sensitivity, the scale times the sensitivity is the 10^6 count full scale; otherwise the scale is the 10^9 fallback; the scale always lies between 10^6 and 5*10^14 |
| Piglet.RoundHalfEven | src/qudi/hardware/lock_in/piglet.py:245 | rounding moves a value by at most one half, and an exact half goes to the even integer |
| Piglet.RoundIsNearest | src/qudi/hardware/lock_in/piglet.py:316 | no integer is closer to the value than its rounding |
| Piglet.RecordSamples | src/qudi/hardware/lock_in/piglet.py:245-247 | the record length in samples always fits the buffer limits 1..16383 |
| Piglet.RecordSamplesClamps | src/qudi/hardware/lock_in/piglet.py:245-247 | the rounded `length * 100 * rate` is kept when it fits, and is otherwise moved to 1 or 16383 |
| Piglet.PadOrTruncate | src/qudi/hardware/lock_in/piglet.py:310-313 | the result has exactly `n` values: the trace's own values where it has them, zeros after |
| Piglet.PadOrTruncateFacts | src/qudi/hardware/lock_in/piglet.py:310-313 | shaping twice is shaping once; a long trace keeps its first `n` values; a short trace is a prefix of the result |
| Piglet.VoltagesChoose | src/qudi/hardware/lock_in/piglet.py:303-313 | X when it holds values, else Y when it does, else zeros; padded or truncated to the record samples |
| Piglet.Counts | src/qudi/hardware/lock_in/piglet.py:316 | one count per voltage, each within one half of the voltage times the scale |
| Piglet.SR830.constructor | src/qudi/hardware/lock_in/piglet.py:52-100 | initial state: X active, 512 Hz, frame 1024, unconfigured with status 0, record length 2 s; activation sends *IDN?, REST, ERES and SENS? and sets the scale from the reply |
| Piglet.SR830.SetSampleRate | src/qudi/hardware/lock_in/piglet.py:138-149 | an out-of-range rate raises with no state change and nothing written; otherwise SRAT is written with the nearest index, the rate becomes that entry and the bin width its inverse |
| Piglet.SR830.SetActiveChannels | src/qudi/hardware/lock_in/piglet.py:151-156 | raises on the first unknown channel and keeps the active set; otherwise the active set becomes the channels named |
| Piglet.SR830.SetFrameSize | src/qudi/hardware/lock_in/piglet.py:158-163 | an out-of-range size raises with no change; otherwise frame size and record samples become the size, and the record length becomes size over rate |
| Piglet.SR830.UpdateScale | src/qudi/hardware/lock_in/piglet.py:206-232 | SENS? is queried; the scale becomes full scale over the sensitivity, or 10^9 with the previous sensitivity kept |
| Piglet.SR830.Configure | src/qudi/hardware/lock_in/piglet.py:239-259 | the gate count is zeroed; a rate out of range raises with nothing else changed; otherwise the rate snaps to the table, the record samples are clamped, the counter is configured and idle, the scale is reread, and it returns `(1/rate, samples/rate, 0)` |
| Piglet.SR830.ConfigureRecord | src/qudi/hardware/lock_in/piglet.py:245-257 | after the rate is set: the clamped record samples become frame size and record samples, bin width and record length follow the rate, and the status becomes configured and idle |
| Piglet.SR830.StartMeasure | src/qudi/hardware/lock_in/piglet.py:261-268 | before `configure` it returns -1 and changes nothing; otherwise it sends REST and STRT, sets status 2 and returns 0 |
| Piglet.SR830.StopMeasure | src/qudi/hardware/lock_in/piglet.py:270-273 | sends PAUS, sets status 1 from any status, and returns 0 |
| Piglet.SR830.PauseMeasure | src/qudi/hardware/lock_in/piglet.py:275-279 | only running (2) moves to paused (3), with PAUS; any other status is unchanged; returns 0 |
| Piglet.SR830.ContinueMeasure | src/qudi/hardware/lock_in/piglet.py:281-285 | only paused (3) moves to running (2), with REST and STRT; any other status is unchanged; returns 0 |
| Piglet.SR830.GetBufferedSamples | src/qudi/hardware/lock_in/piglet.py:177-194 | with no count it asks SPTS? (0 on an unreadable reply); no points gives empty arrays for the active channels; otherwise TRCA? X then Y, keeping the active channels |
| Piglet.SR830.GetDataTrace | src/qudi/hardware/lock_in/piglet.py:290-316 | before `configure` it returns an empty trace and sends nothing; otherwise it returns exactly `record_samples` counts from the shaped voltages and the current scale |
| Piglet.SR830.StartBufferedAcquisition | src/qudi/hardware/lock_in/piglet.py:166-170 | REST then STRT are written |
| Piglet.SR830.StopBufferedAcquisition | src/qudi/hardware/lock_in/piglet.py:172-175 | PAUS is written |
| Piglet.SR830.SamplesInBuffer | src/qudi/hardware/lock_in/piglet.py:128-135 | one SPTS? query; the count is the reply, or 0 when it does not parse |
| Piglet.AcquireStartsPollsOncePausesOnce | src/qudi/hardware/lock_in/piglet.py:196-203 | a frame acquisition sends REST and STRT first, then alternates one SPTS? and one wait per poll, then one SPTS? and one PAUS, then only the reads |
| Piglet.SR830.AcquireFrame | src/qudi/hardware/lock_in/piglet.py:196-203 | the log grows by the acquisition log up to the first count that reaches the frame size (an unparsable reply counts as 0), with each wait a tenth of the frame time; the result is the buffer read of the frame, keeping the active channels |
| Piglet.SR830.PollFrame | src/qudi/hardware/lock_in/piglet.py:200-201 | the polling stops at the first reply whose count reaches the frame size; the log holds one SPTS? per poll, with a wait after each poll that fell short |
| Piglet.SR830.AcquireFrameOf | src/qudi/hardware/lock_in/piglet.py:199-203 | for a given frame size and wait: the log is start, the polls, pause and, for a positive size, the read of both channels; the result is empty arrays for the active channels when the size is not positive, else the buffer read keeping the active channels |
| LockInSR830.DropLastRestores | src/qudi/hardware/lock_in/lock_in_SR830.py:175 | the dropped value is exactly the last one of the reply |
| LockInSR830.ReadIgnoresActiveChannels | src/qudi/hardware/lock_in/lock_in_SR830.py:162-177 | a read of a positive count returns X and Y whatever the active channels are, each one value shorter than its reply; a read of no points returns exactly the active channels |
| LockInSR830.AcquireStartsOncePausesOnce | src/qudi/hardware/lock_in/lock_in_SR830.py:179-190 | a frame acquisition sends REST and STRT first, then only polls and waits, then one PAUS, then only the reads |
| LockInSR830.SR830.constructor | src/qudi/hardware/lock_in/lock_in_SR830.py:48-80 | initial state: X active, 512 Hz, frame 1024; activation sends *IDN?, REST and ERES |
| LockInSR830.SR830.SetSampleRate | src/qudi/hardware/lock_in/lock_in_SR830.py:118-129 | an out-of-range rate raises with rate and log unchanged; otherwise SRAT is written with the nearest index and the rate becomes that entry |
| LockInSR830.SR830.SetActiveChannels | src/qudi/hardware/lock_in/lock_in_SR830.py:131-136 | raises on the first unknown channel and keeps the active set; otherwise the active set becomes the channels named |
| LockInSR830.SR830.SetFrameSize | src/qudi/hardware/lock_in/lock_in_SR830.py:138-141 | an out-of-range size raises; otherwise only the frame size changes |
| LockInSR830.SR830.StartBufferedAcquisition | src/qudi/hardware/lock_in/lock_in_SR830.py:145-155 | REST then STRT are written |
| LockInSR830.SR830.StopBufferedAcquisition | src/qudi/hardware/lock_in/lock_in_SR830.py:157-160 | PAUS is written |
| LockInSR830.SR830.SamplesInBuffer | src/qudi/hardware/lock_in/lock_in_SR830.py:107-114 | SPTS? is queried twice and the second reply is the count |
| LockInSR830.SR830.GetBufferedSamples | src/qudi/hardware/lock_in/lock_in_SR830.py:162-177 | with no count the buffer count decides; the result is the read result for that count; TRCA? X and Y are sent only for a positive count |
| LockInSR830.SR830.AcquireFrame | src/qudi/hardware/lock_in/lock_in_SR830.py:179-190 | the log grows by the acquisition log up to the first count that reaches the frame size, with each wait a tenth of the frame time; the result is the read of the frame |
| LockInSR830XOnly.AcquireNeverStartsOrPauses | src/qudi/hardware/lock_in/lock_in_SR830_x_only.py:160-167 | a frame acquisition never sends STRT or PAUS; it sends REST once, first, and reads X at most once, last |
| LockInSR830XOnly.SR830.constructor | src/qudi/hardware/lock_in/lock_in_SR830_x_only.py:35-71 | initial state: X active, 512 Hz, frame 1024; activation sends *IDN?, REST and ERES |
| LockInSR830XOnly.SR830.SetSampleRate | src/qudi/hardware/lock_in/lock_in_SR830_x_only.py:110-121 | an out-of-range rate raises with no state change; otherwise the nearest table rate is stored and its index written |
| LockInSR830XOnly.SR830.SetActiveChannels | src/qudi/hardware/lock_in/lock_in_SR830_x_only.py:123-127 | succeeds exactly when the channels named form the set {X}; X is the only active channel afterwards either way |
| LockInSR830XOnly.SR830.SetFrameSize | src/qudi/hardware/lock_in/lock_in_SR830_x_only.py:129-132 | an out-of-range size raises; otherwise only the frame size changes |
| LockInSR830XOnly.SR830.StartBufferedAcquisition | src/qudi/hardware/lock_in/lock_in_SR830_x_only.py:138-140 | only REST is written; there is no STRT |
| LockInSR830XOnly.SR830.StopBufferedAcquisition | src/qudi/hardware/lock_in/lock_in_SR830_x_only.py:142-145 | PAUS is written |
| LockInSR830XOnly.SR830.SamplesInBuffer | src/qudi/hardware/lock_in/lock_in_SR830_x_only.py:101-104 | one SPTS? query, whose reply is the count |
| LockInSR830XOnly.SR830.GetBufferedSamples | src/qudi/hardware/lock_in/lock_in_SR830_x_only.py:147-158 | with no count one SPTS? decides; no points gives `{X: empty}`; otherwise one binary TRAC? of X, and only X is returned |
| LockInSR830XOnly.SR830.AcquireFrame | src/qudi/hardware/lock_in/lock_in_SR830_x_only.py:160-167 | the log grows by REST, the polls and waits up to the first count that reaches the frame size, and the read; there is no PAUS |

## Left out

- The sequencer and lock-in I/O are left out: SpinAPI calls, GPIB command
  strings, `np.fromstring` and binary parsing, and NaN filtering. The
  sequencer calls are events in `Hardware.Rig.trace`. The drivers' exchanges
  are `LockIn.Command` entries in `sent`. Replies are parameters: readings,
  SPTS? counts, the SENS? index, and the parsed X/Y values after NaN
  filtering.
- The drivers' thread lock (`Mutex`) is not modelled: each driver call is
  modelled as running alone. `get_buffered_samples` with no count calls
  `samples_in_buffer` while it already holds the lock (`piglet.py:178-180`
  with 130, `lock_in_SR830.py:163-165` with 110,
  `lock_in_SR830_x_only.py:148-150` with 103). The model's `count == None`
  path assumes that the lock can be taken again by the thread holding it.
- Interruption, threads and the GUI are left out. `QThread` polling becomes
  a list of booleans, one per poll. `t1_experiment.py` checks the Qt flag,
  which stays set once requested, so in `T1Experiment` a request stays in
  effect for every later poll. `t1.py:96` uses `QThread` without importing
  it, and is modelled by the same abstract poll. Drawing, `emit` calls and
  progress fractions are left out. Of the live plot, only whether it can
  pair its two arrays is modelled (`T1Experiment.PlotBroadcasts`): the
  line's recomputation in matplotlib broadcasts the tau and reading arrays
  against each other, which raises unless their lengths agree or one of
  them is 1. matplotlib itself is not part of this model. In `t1.py` the
  two arrays always have the same length, so its plot never raises.
- Clocks are left out. `time.sleep` becomes a `Sleep` event carrying its
  duration. `piglet.py`'s `_measure_start_time` and the elapsed time in
  `get_data_trace` are not modelled. So is its wall-clock wait loop
  (`piglet.py:295-300`) with its SPTS? polls, which are not in `sent`: the
  loop only delays the read, and the read is modelled.
- The sweep generation is left out. `np.linspace` generates the taus, and
  the model takes them as a given list of natural numbers. The
  microseconds-to-nanoseconds factor of `t1_experiment.py` is exact
  integer scaling. How the hardware interprets the units is not modelled.
- Fractional widths and taus are not modelled: all durations are whole
  units. `np.linspace(10, 1000, 15)` in `t1.py:20` steps by 70.71… us, so
  the default sweep itself lies outside the model. For a fractional
  remainder r with 0 < r < 1, the filler clamp makes the second half
  1 - r units longer, not 0 or 1 as `CompileShape` states for whole units.
- The trivial getters are not modelled: `get_status`, `get_binwidth`,
  `get_constraints`, `is_gated` and the properties.
  `on_deactivate` (closing the session) is not modelled either.
- The drivers are modelled after `on_activate`. Before it, `_constraints`
  is `None`. Every setter that consults it then raises an `AttributeError`:
  the rate and frame-size setters always do, and the channel setters of
  `piglet.py` and `lock_in_SR830.py` do for a non-empty list. An empty list
  makes the active set empty instead. The X-only channel setter never
  consults `_constraints`.
- `Piglet.SR830.AcquireFrame`, `LockInSR830.SR830.AcquireFrame` and
  `LockInSR830XOnly.SR830.AcquireFrame` require that some buffer count
  reaches the frame size. Without one, the drivers poll forever.
- LockInSR830.SR830.SamplesInBuffer and LockInSR830XOnly.SR830.SamplesInBuffer
  take the reply as a number. `int(...)` raises a `ValueError` on a reply that
  does not parse (`lock_in_SR830.py:114`, `lock_in_SR830_x_only.py:104`,
  with no `try`). That error is not modelled, nor is it modelled where
  `get_buffered_samples` and `acquire_frame` call these methods.
- T1Experiment.Run takes the OFLT index as given. The `OFLT?` query
  and its parsing in `Other/hardware/sr830_control.py` are not part of this
  model. Only the table lookup of that file's line 30 is modelled, by
  `SetupTimeConstants`.
- Piglet.RoundHalfEven rounds exact reals, not binary floating point. A
  float product such as `length * 100 * rate` may already be off by one
  ulp before numpy rounds it.
- Piglet.Counts does not model the wrap-around of `astype('int64')` for
  counts beyond 64 bits.
- Hardware.Rig.ReadR: a lock-in read that raises (a bus error) is not
  modelled. Only timing errors, the empty sweep, an unknown time constant
  and the live plot abort a run.

Behaviours of the code worth noting, which the model keeps:

- The BRANCH filler is `max(1.0, …)`: a second half filled exactly still
  gets a filler of 1 time unit.
- When INIT fills the half exactly, both variants emit a baseline step of
  length 0.
- The budgets are checked per half, in order: first `init ≤ half`, then
  `second + tau + read ≤ half`.
- An interrupted run returns normally, with fewer readings.
- In `t1_experiment.py`, a repeat pass after an interruption polls once more
  and breaks again, because the Qt flag stays set.
- In `t1_experiment.py`, the readings are never cleared between passes,
  while the plot's tau axis starts again with each pass. The second point of
  the second pass therefore pairs 2 taus with `points + 2` readings, and the
  plot raises. A run of two or more passes over two or more points that is
  not cut short never returns: it reads `points + 2` values, tears down and
  raises (`T1Experiment.PlotFailsWhen`, `T1Experiment.FullSweepMeasures`).
- In `t1_experiment.py`, stop, reset and close share one `try`, so a stop
  that raises skips reset and close (`T1Experiment.Teardown`).
- `t1.py` neither stops nor resets before priming, and resets nothing
  between points.
- `configure` in `piglet.py` raises from `set_sample_rate` for a rate out of
  range, after zeroing the gate count. It clamps only the record length,
  whose sample count is `length * 100 * rate`; the record length it returns
  is that count over the rate.
- The buffer read of `lock_in_SR830.py` returns X and Y whatever the active
  channels, each without its last parsed value.
