# Output devices of rust_gpiozero, modelled in Dafny

This project models the output-device core of `rust_gpiozero` (`src/output_devices_rppal.rs`):

- the output primitive `OutputDeviceR` with its polarity;
- the digital blink controller `DigitalOutputDeviceR` with its cancellation flag, join handle
  and blink count;
- the fade waveform that `PWMOutputDeviceR::blinker` builds;
- the PWM task that replays that waveform as duty-cycle writes.

The hardware pin is a boolean level (`true` is `Level::High`). PWM duty writes are recorded
in order. The digital task's writes are recorded as a trace: `true` for `on()`, `false` for
`off()`. Sleeps are dropped.

A concurrent `stop()` is an input, `StopPoint`. `BeforeCheck(k)` means the flag reads true at
the task's flag checks `0 .. k-1` and false from check `k` on. `Never` means it stays true.
The unbounded loops run `fuel` outer passes.

Modules:

- `Background`: `Option`, the `wait` outcome, `StopPoint`, and the pass count of `0..end`.
- `Polarity`: class `OutputDevice`.
- `DigitalBlink`: `BlinkWrites`, the writes a digital task makes, its lemmas, and class
  `DigitalOutputDevice`.
- `Waveform`: `Step`, the truncated frame count, `FadeSequence` and the builder
  `BuildFadeSequence`.
- `PwmReplay`: `ReplayWrites`, the task body `Replay`, and class `PwmOutputDevice`.

Behaviour of the code worth knowing, each stated by the members named:

- `stop()` drives the pin low whatever the polarity. On an active-low device that reads as
  "on". So `blink` with a count of 0 or less leaves an active-low device on, not inactive.
  `DigitalOutputDevice.Stop` and `DigitalOutputDevice.Blinker` state this.
- A fade has `25 * trunc(t)` steps: the time is truncated to whole seconds before the
  multiplication. It is not `floor(25 * t)`. The step intensity still divides by the
  untruncated time, so a 1.5 s fade-in has 25 steps and ends at 0.64, then jumps to 1.0.
  `Waveform.FractionalFadeIsTruncated` states this.
- The PWM device has no `stop`, `on` or `off`. Nothing it offers clears its flag, so its own
  replay is never cut short. The gating by the flag is proved on `PwmReplay.Replay` for every
  stop point.
- When the PWM task's flag is false, `break` leaves only the inner loop over the steps. Every
  later pass checks the flag once more and writes nothing.

## Model

| member | source | states |
|---|---|---|
| `Polarity.OutputDevice.constructor` | src/output_devices_rppal.rs:107-119 | a new primitive is active-high (`active_state` true, `inactive_state` false) and satisfies the polarity invariant |
| `Polarity.OutputDevice.ValueToState` | src/output_devices_rppal.rs:20-26 | the level chosen for a logical value reads back as that value under either polarity; it is high exactly when value and polarity agree |
| `Polarity.OutputDevice.StateToValue` | src/output_devices_rppal.rs:28-30 | a level reads as on exactly when it is not the inactive level |
| `Polarity.OutputDevice.Value` | src/output_devices_rppal.rs:33-38 | `value()` is true exactly when the pin is at the level that represents "on" |
| `Polarity.OutputDevice.IsActive` | src/output_devices_rppal.rs:78 | `is_active()`, which `toggle` consults, is true exactly when the pin is not at the inactive level |
| `Polarity.OutputDevice.ActiveHigh` | src/output_devices_rppal.rs:58-65 | `active_high()` is true exactly when a high pin reads as on and a low pin as off |
| `Polarity.OutputDevice.SetActiveHigh` | src/output_devices_rppal.rs:49-62 | afterwards `inactive_state == !active_state` and `active_high() == value`; the pin level is unchanged, so `value()` flips exactly when the polarity changed |
| `Polarity.OutputDevice.WriteState` | src/output_devices_rppal.rs:87-93 | drives the pin to the level for `value`, after which `value()` returns `value`; polarity unchanged |
| `Polarity.OutputDevice.On` | src/output_devices_rppal.rs:67-70 | afterwards the pin is at the active level and `value()` is true |
| `Polarity.OutputDevice.Off` | src/output_devices_rppal.rs:72-75 | afterwards the pin is at the inactive level and `value()` is false |
| `Polarity.OutputDevice.Toggle` | src/output_devices_rppal.rs:76-83 | flips `value()` and the pin level and keeps the polarity, so two toggles restore the value |
| `Polarity.LevelRoundTrip` | src/output_devices_rppal.rs:20-30 | reading a level and writing the value read gives the same level back |
| `DigitalBlink.BlinkCompletes` | src/output_devices_rppal.rs:153-165 | with the flag true at every check, a run of n passes writes exactly n on/off pairs and its last write is off |
| `DigitalBlink.BlinkCancelled` | src/output_devices_rppal.rs:155-160 | when check k < n reads the flag false, the task has written k on/off pairs, then writes off and does no further on-write |
| `DigitalBlink.BlinkWrites` | src/output_devices_rppal.rs:153-175 | a run of n passes makes at most two writes per pass, and a run with at least one pass always ends with an off write |
| `DigitalBlink.BlinkFromBounds` | src/output_devices_rppal.rs:153-175 | from any iteration of the loop on, at most two writes per remaining pass, and the last write is off whenever a pass remains |
| `Background.Passes` | src/output_devices_rppal.rs:153-155 | `0..end` makes `end` passes when `end > 0` and none otherwise; the unbounded `loop` makes `fuel` passes |
| `DigitalBlink.DigitalOutputDevice.constructor` | src/output_devices_rppal.rs:246-253 | a new controller has an active-high primitive, the flag false, no handle and no blink count |
| `DigitalBlink.DigitalOutputDevice.Stop` | src/output_devices_rppal.rs:205-208 | clears the flag and drives the pin low whatever the polarity, so `value()` becomes `!active_high()`; handle and count unchanged |
| `DigitalBlink.DigitalOutputDevice.On` | src/output_devices_rppal.rs:185-188 | afterwards the flag is false and `value()` is true |
| `DigitalBlink.DigitalOutputDevice.Off` | src/output_devices_rppal.rs:190-193 | afterwards the flag is false and `value()` is false |
| `DigitalBlink.DigitalOutputDevice.Toggle` | src/output_devices_rppal.rs:196-198 | flips `value()` and does not touch the flag (no `stop`) |
| `DigitalBlink.DigitalOutputDevice.Value` | src/output_devices_rppal.rs:200-203 | `value()` of the controller is true exactly when the shared pin is at its "on" level |
| `DigitalBlink.DigitalOutputDevice.ActiveHigh` | src/output_devices_rppal.rs:215-217 | the controller's `active_high()` is the primitive's: a high pin reads as on |
| `DigitalBlink.DigitalOutputDevice.SetActiveHigh` | src/output_devices_rppal.rs:220-222 | sets the primitive's polarity; the pin level is unchanged |
| `DigitalBlink.DigitalOutputDevice.SetBlinkCount` | src/output_devices_rppal.rs:272-274 | the blink count becomes `Some(n)`; flag and handle unchanged |
| `DigitalBlink.DigitalOutputDevice.Blinker` | src/output_devices_rppal.rs:141-179 | installs a handle; the writes are `BlinkWrites` of the pass count (`max(n,0)` for `Some(n)`, fuel for `None`); the flag stays true unless a stop lands in the run; with at least one pass `value()` ends false, with none no write happens and `value()` is `!active_high()` |
| `DigitalBlink.DigitalOutputDevice.RunTask` | src/output_devices_rppal.rs:150-175 | the spawned task sets the flag and writes exactly `BlinkWrites`; the flag stays true exactly when no stop lands in the run; after at least one pass `value()` is false; polarity, handle and count unchanged |
| `DigitalBlink.DigitalOutputDevice.Blink` | src/output_devices_rppal.rs:263-268 | with no count set the run is the unbounded one; after `set_blink_count(n)` it is the finite run of `max(n,0)` passes; polarity and count unchanged; the flag stays true exactly when no stop lands in the run; with a pass `value()` ends false, with none it is `!active_high()` |
| `DigitalBlink.DigitalOutputDevice.Wait` | src/output_devices_rppal.rs:235-239 | with a handle it succeeds, without one it fails with "Called stop on non-running thread"; either way no handle remains and flag and count are unchanged |
| `Waveform.Trunc` | src/output_devices_rppal.rs:415 | `t as i32` rounds toward zero: the result is within one of `t`, on the side of zero |
| `Waveform.FrameCount` | src/output_devices_rppal.rs:415 | the range `0..25 * trunc(t)` has steps exactly when `t >= 1`; their number is a multiple of 25 and at most `25 t` |
| `Waveform.FadeInLevel` | src/output_devices_rppal.rs:416 | fade-in step i has intensity `i / (25 t)`, never negative |
| `Waveform.FadeOutLevel` | src/output_devices_rppal.rs:424 | fade-out step i has intensity `1 - i / (25 t)`, never above 1 |
| `Waveform.FadeSequence` | src/output_devices_rppal.rs:412-428 | the waveform has `FrameCount(fade_in) + FrameCount(fade_out) + 2` steps; the hold `(1.0, on_time)` follows the fade-in and `(0.0, off_time)` is last |
| `Waveform.BuildFadeSequence` | src/output_devices_rppal.rs:412-428 | the two loops and two pushes produce exactly `FadeSequence` |
| `Waveform.FadeSequenceShape` | src/output_devices_rppal.rs:412-428 | length `FrameCount(fade_in) + FrameCount(fade_out) + 2`; fade-in step i is `(i/(25 fade_in), 1/25)`; then `(1.0, on_time)`; fade-out step i is `(1 - i/(25 fade_out), 1/25)`; last `(0.0, off_time)` |
| `Waveform.FadeLevelBelowOne` | src/output_devices_rppal.rs:416-424 | a fade-in intensity lies in [0, 1) and a fade-out intensity in (0, 1] |
| `Waveform.IntensitiesInUnitRange` | src/output_devices_rppal.rs:412-428 | every intensity of the waveform is a duty fraction in [0, 1] |
| `Waveform.FadesAreMonotone` | src/output_devices_rppal.rs:415-425 | fade-in intensities rise strictly, fade-out intensities fall strictly |
| `Waveform.CycleDuration` | src/output_devices_rppal.rs:412-428 | the durations of one pass add up to `trunc(fade_in) + on_time + trunc(fade_out) + off_time` (fades under one second count 0); each fade lasts its whole seconds |
| `Waveform.ShortFadesOnlyHold` | src/output_devices_rppal.rs:415-428 | with both fades shorter than a second the waveform is `[(1.0, on_time), (0.0, off_time)]` |
| `Waveform.FractionalFadeIsTruncated` | src/output_devices_rppal.rs:415-420 | a 1.5 s fade-in has 25 steps whose last intensity is 0.64, followed by the hold at 1.0 |
| `PwmReplay.RepeatAt` | src/output_devices_rppal.rs:438-447 | pass p of the replayed sequence writes step s at position `p * len + s` |
| `PwmReplay.ReplayWrites` | src/output_devices_rppal.rs:436-461 | the duties written are a prefix of the waveform's intensities repeated `passes` times, at most `passes * len` of them and at most k when the flag is found false at check k |
| `PwmReplay.Replay` | src/output_devices_rppal.rs:436-461 | the task body writes exactly `ReplayWrites`: all passes in order, cut at the first check that reads the flag false |
| `PwmReplay.ReplayRunsAll` | src/output_devices_rppal.rs:437-447 | with the flag true throughout, the task writes every pass in full: `passes * len` duties, the waveform repeated |
| `PwmReplay.ReplayUnstopped` | src/output_devices_rppal.rs:437-447 | with the flag true throughout, write `p * len + s` exists and is step s's intensity |
| `PwmReplay.ReplayStopped` | src/output_devices_rppal.rs:439-443 | with the flag false from check k on, `min(k, passes * len)` duties are written, the first ones of the uncancelled run, and none after |
| `PwmReplay.PwmOutputDevice.constructor` | src/output_devices_rppal.rs:388-395 | a new PWM device has the flag false, no handle, no count and no duty written |
| `PwmReplay.PwmOutputDevice.SetValue` | src/output_devices_rppal.rs:400-403 | appends one duty write and leaves flag, handle and count alone |
| `PwmReplay.PwmOutputDevice.Blinker` | src/output_devices_rppal.rs:405-466 | builds `FadeSequence`, installs a handle, sets the flag, and appends the sequence's intensities repeated `max(n,0)` times (fuel times for `None`) |

## Left out

- Threads, `Arc<Mutex<_>>`, `AtomicBool` and `JoinHandle`. Only one stop request landing between two flag checks is modelled.
- The task re-storing `true` into the shared flag (line 152) after a newer `stop()`: a concurrency race. The model assumes the flag stays false once cleared.
- Lock interleavings between the caller and a running task. A previous PWM task that keeps running after a new `blinker` call is not modelled either.
- `thread::sleep` and the `Duration::from_millis` conversions: wall-clock timing. On and off times only appear as hold durations in the waveform.
- `f32`/`f64` rounding, NaN, and `as i32` saturation. Also left out: the `i32` overflow of `25 * trunc(t)` for times beyond about 85,899,345 s. Reals and unbounded integers are used instead.
- The rppal GPIO layer: `Gpio::new`, `gpio.get`, `into_io`, `pin.read`, `set_high`, `set_low` and `set_pwm_frequency`. Their panics and `unwrap`s are left out too. Pin numbers and `pin()` are not modelled. The pin's level at acquisition is a constructor parameter. Every PWM write uses 100 Hz, so only the duty is recorded.
- `impl_device!` and `impl_gpio_device!` are not part of this model. `is_active()` is taken to be `value()`.
- Non-termination of the unbounded loops: `fuel` bounds the number of outer passes, so only finite prefixes of an endless run are described.
- `DigitalBlink.DigitalOutputDevice.Wait`: does not model a failing join ("Could not join spawned thread"), which needs a panicking task.
- `close` and drop: resource release.
- `LEDR` and `BuzzerR`: their methods come from the same macro as `DigitalOutputDeviceR`. `is_lit`, `beep` and `set_beep_count` only rename `is_active`, `blink` and `set_blink_count`.
- The `OutputDeviceR` that `PWMOutputDeviceR` holds is represented only by the duty writes to its pin. Its `blink_count` field is kept but never used.
