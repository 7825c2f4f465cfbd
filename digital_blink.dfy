/** The digital blink controller `DigitalOutputDeviceR`: a shared output primitive, a
    cancellation flag, the join handle of the background task (present or absent) and the
    configured blink count. Sleeping is dropped; the task's writes are recorded in order as
    a trace of logical values (`true` for `on()`, `false` for `off()`). */
module DigitalBlink {
  import opened Background
  import opened Polarity

  /** `m` complete on/off pairs: on, off, on, off, ... */
  function Pairs(m: nat): (w: seq<bool>)
    ensures |w| == 2 * m
  {
    seq(2 * m, j => j % 2 == 0)
  }

  lemma PairsCons(m: nat)
    ensures [true, false] + Pairs(m) == Pairs(m + 1)
  {
  }

  lemma PairsSnoc(m: nat)
    ensures Pairs(m) + [true, false] == Pairs(m + 1)
  {
  }

  /** The writes of the task's loop from iteration `i` on: each iteration checks the flag;
      if it is false it writes off and leaves the loop, otherwise it writes on, then off. */
  function BlinkFrom(i: nat, iterations: nat, stop: StopPoint): (w: seq<bool>)
    decreases iterations - i
  {
    if i >= iterations then []
    else if !FlagAt(stop, i) then [false]
    else [true, false] + BlinkFrom(i + 1, iterations, stop)
  }

  /** The writes of a whole run of `iterations` passes. */
  function BlinkWrites(iterations: nat, stop: StopPoint): (w: seq<bool>)
    ensures |w| <= 2 * iterations
    ensures iterations > 0 ==> |w| > 0 && !w[|w| - 1]
  {
    BlinkFromBounds(0, iterations, stop);
    BlinkFrom(0, iterations, stop)
  }

  /** From iteration `i` on, at most two writes per remaining pass, and when a pass
      remains the last write is off. */
  lemma {:induction false} BlinkFromBounds(i: nat, iterations: nat, stop: StopPoint)
    requires i <= iterations
    ensures |BlinkFrom(i, iterations, stop)| <= 2 * (iterations - i)
    ensures i < iterations ==>
      (|BlinkFrom(i, iterations, stop)| > 0
       && !BlinkFrom(i, iterations, stop)[|BlinkFrom(i, iterations, stop)| - 1])
    decreases iterations - i
  {
    if i < iterations && FlagAt(stop, i) {
      BlinkFromBounds(i + 1, iterations, stop);
    }
  }

  lemma {:induction false} BlinkFromUnstopped(i: nat, iterations: nat, stop: StopPoint)
    requires i <= iterations && RunsToEnd(stop, iterations)
    ensures BlinkFrom(i, iterations, stop) == Pairs(iterations - i)
    decreases iterations - i
  {
    if i < iterations {
      BlinkFromUnstopped(i + 1, iterations, stop);
      PairsCons(iterations - i - 1);
    }
  }

  lemma {:induction false} BlinkFromStopped(i: nat, iterations: nat, k: nat)
    requires i <= k < iterations
    ensures BlinkFrom(i, iterations, BeforeCheck(k)) == Pairs(k - i) + [false]
    decreases k - i
  {
    if i < k {
      BlinkFromStopped(i + 1, iterations, k);
      PairsCons(k - i - 1);
      assert [true, false] + (Pairs(k - i - 1) + [false])
          == ([true, false] + Pairs(k - i - 1)) + [false];
    }
  }

  /** With the flag true throughout, a run of `iterations` passes writes exactly
      `iterations` on/off pairs, and when there was a pass the last write is off. */
  lemma BlinkCompletes(iterations: nat, stop: StopPoint)
    requires RunsToEnd(stop, iterations)
    ensures BlinkWrites(iterations, stop) == Pairs(iterations)
    ensures |BlinkWrites(iterations, stop)| == 2 * iterations
    ensures iterations > 0 ==> !BlinkWrites(iterations, stop)[2 * iterations - 1]
  {
    BlinkFromUnstopped(0, iterations, stop);
  }

  /** When the flag is found false at check `k` of a run of more than `k` passes, the task
      has written `k` on/off pairs, then writes off once more and does no further on-write. */
  lemma BlinkCancelled(iterations: nat, k: nat)
    requires k < iterations
    ensures BlinkWrites(iterations, BeforeCheck(k)) == Pairs(k) + [false]
    ensures forall j :: 2 * k <= j < |BlinkWrites(iterations, BeforeCheck(k))| ==>
      !BlinkWrites(iterations, BeforeCheck(k))[j]
  {
    BlinkFromStopped(0, iterations, k);
  }

  class DigitalOutputDevice {
    /** The output primitive, shared with the background task. */
    const device: OutputDevice
    /** The cancellation flag. */
    var blinking: bool
    /** Whether a join handle for a background task is held. */
    var handle: bool
    /** The count set by `set_blink_count`; `None` means blink until stopped. */
    var blinkCount: Option<int>

    ghost predicate Valid()
      reads this, device
    {
      device.Valid()
    }

    /** `DigitalOutputDeviceR::new`: an active-high primitive, the flag false, no task,
        no blink count. */
    constructor (initialLevel: bool)
      ensures Valid() && fresh(device)
      ensures device.ActiveHigh() && device.level == initialLevel
      ensures !blinking && !handle && blinkCount == None
    {
      device := new OutputDevice(initialLevel);
      blinking := false;
      handle := false;
      blinkCount := None;
    }

    /** `stop`: clears the flag and drives the pin low whatever the polarity, so an
        active-low device reads as on afterwards. */
    method Stop()
      requires Valid()
      modifies this, device
      ensures Valid() && device.activeState == old(device.activeState)
      ensures !blinking && !device.level
      ensures device.Value() == !device.ActiveHigh()
      ensures handle == old(handle) && blinkCount == old(blinkCount)
    {
      blinking := false;
      device.level := false;
    }

    /** `on`: cancels any background task, then turns the device on. */
    method On()
      requires Valid()
      modifies this, device
      ensures Valid() && device.activeState == old(device.activeState)
      ensures !blinking && device.Value()
      ensures handle == old(handle) && blinkCount == old(blinkCount)
    {
      Stop();
      device.On();
    }

    /** `off`: cancels any background task, then turns the device off. */
    method Off()
      requires Valid()
      modifies this, device
      ensures Valid() && device.activeState == old(device.activeState)
      ensures !blinking && !device.Value()
      ensures handle == old(handle) && blinkCount == old(blinkCount)
    {
      Stop();
      device.Off();
    }

    /** `toggle`: flips the logical value without touching the flag. */
    method Toggle()
      requires Valid()
      modifies device
      ensures Valid() && device.activeState == old(device.activeState)
      ensures Value() == !old(Value())
    {
      device.Toggle();
    }

    /** `value` and `is_active`. */
    function Value(): (v: bool)
      reads this, device
      ensures Valid() ==> (v <==> device.level == device.ValueToState(true))
    {
      device.Value()
    }

    /** `active_high`. */
    function ActiveHigh(): (r: bool)
      reads this, device
      ensures r == device.StateToValue(true)
    {
      device.ActiveHigh()
    }

    /** `set_active_high`: changes the polarity of the primitive, not its pin. */
    method SetActiveHigh(value: bool)
      requires Valid()
      modifies device
      ensures Valid() && ActiveHigh() == value
      ensures device.level == old(device.level)
    {
      device.SetActiveHigh(value);
    }

    /** `set_blink_count`. */
    method SetBlinkCount(n: int)
      modifies this
      ensures blinkCount == Some(n)
      ensures blinking == old(blinking) && handle == old(handle)
    {
      blinkCount := Some(n);
    }

    /** `blinker`: stops the current task, installs the handle of a new one, which sets the
        flag and runs `Passes(n, fuel)` passes (`fuel` passes of the unbounded loop when `n`
        is `None`). A concurrent `stop()` that lands before check `k` (`stop`) clears the
        flag and drives the pin low, and the task then writes off and ends. `writes` is the
        trace of the task's writes. */
    method Blinker(onTime: real, offTime: real, n: Option<int>, stop: StopPoint, fuel: nat)
      returns (writes: seq<bool>)
      requires Valid()
      modifies this, device
      ensures Valid() && device.activeState == old(device.activeState)
      ensures handle && blinkCount == old(blinkCount)
      ensures writes == BlinkWrites(Passes(n, fuel), stop)
      ensures blinking == RunsToEnd(stop, Passes(n, fuel))
      ensures Passes(n, fuel) > 0 ==> !Value()
      ensures Passes(n, fuel) == 0 ==> writes == [] && Value() == !ActiveHigh()
    {
      Stop();
      handle := true;
      writes := RunTask(Passes(n, fuel), stop);
    }

    /** The spawned task: it sets the flag, then makes `iterations` passes, each checking
        the flag, then writing on and off. A stop landing before check `k` clears the flag
        and drives the pin low; the task then writes off and ends. */
    method RunTask(iterations: nat, stop: StopPoint) returns (writes: seq<bool>)
      requires Valid()
      modifies this, device
      ensures Valid() && device.activeState == old(device.activeState)
      ensures handle == old(handle) && blinkCount == old(blinkCount)
      ensures writes == BlinkWrites(iterations, stop)
      ensures blinking == RunsToEnd(stop, iterations)
      ensures iterations > 0 ==> !Value()
      ensures iterations == 0 ==> writes == [] && Value() == old(Value())
    {
      blinking := true;
      writes := [];
      var i := 0;
      while i < iterations
        invariant 0 <= i <= iterations
        invariant Valid() && device.activeState == old(device.activeState)
        invariant handle == old(handle) && blinkCount == old(blinkCount)
        invariant blinking && (stop.BeforeCheck? ==> i <= stop.k)
        invariant writes == Pairs(i)
        invariant i > 0 ==> device.level == device.inactiveState
        invariant i == 0 ==> device.level == old(device.level)
      {
        if stop == BeforeCheck(i) {
          Stop();
        }
        if !blinking {
          device.Off();
          writes := writes + [false];
          BlinkFromStopped(0, iterations, i);
          break;
        }
        device.On();
        device.Off();
        PairsSnoc(i);
        writes := writes + [true, false];
        i := i + 1;
      }
      if blinking {
        BlinkFromUnstopped(0, iterations, stop);
      }
    }

    /** `blink`: runs `blinker` with the configured count, unbounded while none is set. */
    method Blink(onTime: real, offTime: real, stop: StopPoint, fuel: nat)
      returns (writes: seq<bool>)
      requires Valid()
      modifies this, device
      ensures Valid() && handle && blinkCount == old(blinkCount)
      ensures device.activeState == old(device.activeState)
      ensures old(blinkCount).None? ==> writes == BlinkWrites(fuel, stop)
      ensures old(blinkCount).Some? ==> writes == BlinkWrites(Passes(old(blinkCount), 0), stop)
      ensures var m := if old(blinkCount).None? then fuel else Passes(old(blinkCount), 0);
        && blinking == RunsToEnd(stop, m)
        && (m > 0 ==> !Value())
        && (m == 0 ==> Value() == !ActiveHigh())
    {
      match blinkCount
      case None =>
        writes := Blinker(onTime, offTime, None, stop, fuel);
      case Some(n) =>
        writes := Blinker(onTime, offTime, Some(n), stop, fuel);
    }

    /** `wait`: takes the join handle; without one it fails with the source's message.
        Either way no handle is held afterwards. */
    method Wait() returns (r: Outcome)
      modifies this
      ensures !handle && blinking == old(blinking) && blinkCount == old(blinkCount)
      ensures r == if old(handle) then Pass else Fail("Called stop on non-running thread")
    {
      var had := handle;
      handle := false;
      if had {
        r := Pass;
      } else {
        r := Fail("Called stop on non-running thread");
      }
    }
  }
}
