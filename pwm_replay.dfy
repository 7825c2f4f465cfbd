/** The PWM output device `PWMOutputDeviceR` and the body of its background task, which
    replays the fade waveform by setting the pin's duty cycle once per step. Sleeping is
    dropped; the duty writes are recorded in order. Every write uses a 100 Hz frequency,
    so only the duty is recorded. */
module PwmReplay {
  import opened Background
  import opened Waveform

  /** The intensities of `steps`, in order. */
  function Intensities(steps: seq<Step>): (r: seq<real>)
    ensures |r| == |steps|
    ensures forall i :: 0 <= i < |steps| ==> r[i] == steps[i].intensity
  {
    seq(|steps|, i requires 0 <= i < |steps| => steps[i].intensity)
  }

  /** `xs` repeated `m` times. */
  function Repeat(xs: seq<real>, m: nat): seq<real>
  {
    if m == 0 then [] else Repeat(xs, m - 1) + xs
  }

  /** Element `s` of pass `p` of a repetition is `xs[s]`. */
  lemma {:induction false} RepeatAt(xs: seq<real>, m: nat, p: nat, s: nat, base: nat)
    requires p < m && s < |xs| && base == p * |xs|
    ensures |Repeat(xs, m)| == m * |xs|
    ensures base + s < |Repeat(xs, m)|
    ensures Repeat(xs, m)[base + s] == xs[s]
  {
    RepeatLength(xs, m - 1);
    if p < m - 1 {
      RepeatAt(xs, m - 1, p, s, base);
      PassEnds(p, |xs|, m - 1, base);
    } else {
      assert base == (m - 1) * |xs|;
    }
  }

  lemma {:induction false} RepeatLength(xs: seq<real>, m: nat)
    ensures |Repeat(xs, m)| == m * |xs|
  {
    if m > 0 {
      RepeatLength(xs, m - 1);
    }
  }

  /** How many of `n` checks read the flag as true. */
  function Limit(stop: StopPoint, n: nat): (r: nat)
    ensures r <= n
    ensures stop.BeforeCheck? ==> r <= stop.k
    ensures r < n ==> stop.BeforeCheck? && r == stop.k
  {
    match stop
    case Never => n
    case BeforeCheck(k) => if k < n then k else n
  }

  /** The duty writes of a run of `passes` passes over `steps`: the steps of all passes in
      order, cut off at the first flag check that reads false. */
  function ReplayWrites(steps: seq<Step>, passes: nat, stop: StopPoint): (r: seq<real>)
    ensures |r| <= passes * |steps|
    ensures stop.BeforeCheck? ==> |r| <= stop.k
    ensures |r| <= |Repeat(Intensities(steps), passes)|
    ensures r == Repeat(Intensities(steps), passes)[..|r|]
  {
    RepeatLength(Intensities(steps), passes);
    var all := Repeat(Intensities(steps), passes);
    all[..Limit(stop, |all|)]
  }

  /** The task body: for each pass, for each step, check the flag and leave the pass when
      it is false, otherwise write the step's intensity as the duty cycle. Leaving a pass
      does not end the outer loop: every later pass checks the flag once more. */
  method Replay(steps: seq<Step>, passes: nat, stop: StopPoint) returns (duties: seq<real>)
    ensures duties == ReplayWrites(steps, passes, stop)
  {
    ghost var all := Repeat(Intensities(steps), passes);
    RepeatLength(Intensities(steps), passes);
    var width := |steps|;
    duties := [];
    var checks := 0;
    ghost var base := 0;
    // whether some check has read the flag as false
    ghost var seen := false;
    for pass := 0 to passes
      invariant base == pass * width && base <= |all|
      invariant checks <= base && |duties| <= base
      invariant !seen ==> checks == base == |duties| && RunsToEnd(stop, base)
      invariant seen ==> stop.BeforeCheck? && |duties| == stop.k <= checks
      invariant duties == all[..|duties|]
    {
      PassEnds(pass, width, passes, base);
      for s := 0 to width
        invariant checks <= base + s && |duties| <= base + s
        invariant !seen ==> checks == base + s == |duties| && RunsToEnd(stop, base + s)
        invariant seen ==> stop.BeforeCheck? && |duties| == stop.k <= checks
        invariant duties == all[..|duties|]
      {
        if !FlagAt(stop, checks) {
          checks := checks + 1;
          seen := true;
          break;
        }
        checks := checks + 1;
        RepeatAt(Intensities(steps), passes, pass, s, base);
        duties := duties + [steps[s].intensity];
      }
      base := base + width;
    }
  }

  lemma PassEnds(pass: nat, width: nat, passes: nat, base: nat)
    requires pass < passes && base == pass * width
    ensures base + width == (pass + 1) * width <= passes * width
  {
  }

  /** With the flag true throughout, every pass is written in full: `passes * |steps|`
      writes, the whole repetition. */
  lemma ReplayRunsAll(steps: seq<Step>, passes: nat, stop: StopPoint)
    requires RunsToEnd(stop, passes * |steps|)
    ensures ReplayWrites(steps, passes, stop) == Repeat(Intensities(steps), passes)
    ensures |ReplayWrites(steps, passes, stop)| == passes * |steps|
  {
    RepeatLength(Intensities(steps), passes);
  }

  /** With the flag true throughout, write `p * |steps| + s` is step `s` of pass `p`. */
  lemma ReplayUnstopped(steps: seq<Step>, passes: nat, stop: StopPoint, p: nat, s: nat)
    requires RunsToEnd(stop, passes * |steps|)
    requires p < passes && s < |steps|
    ensures p * |steps| + s < |ReplayWrites(steps, passes, stop)|
    ensures ReplayWrites(steps, passes, stop)[p * |steps| + s] == steps[s].intensity
  {
    ReplayRunsAll(steps, passes, stop);
    RepeatAt(Intensities(steps), passes, p, s, p * |steps|);
  }

  /** When the flag goes false before check `k`, at most `k` duties are written, and they
      are the first writes of the uncancelled run: nothing is written after the flag is
      seen false. */
  lemma ReplayStopped(steps: seq<Step>, passes: nat, k: nat)
    ensures |ReplayWrites(steps, passes, BeforeCheck(k))|
      == if k < passes * |steps| then k else passes * |steps|
    ensures ReplayWrites(steps, passes, BeforeCheck(k))
      == ReplayWrites(steps, passes, Never)[..|ReplayWrites(steps, passes, BeforeCheck(k))|]
  {
    RepeatLength(Intensities(steps), passes);
  }

  class PwmOutputDevice {
    /** The cancellation flag. */
    var blinking: bool
    /** Whether a join handle for a background task is held. */
    var handle: bool
    /** Never set and never read by the PWM device. */
    var blinkCount: Option<int>
    /** The duty cycles written to the pin so far, oldest first. */
    var duties: seq<real>

    /** `PWMOutputDeviceR::new`: the flag false, no task, no count, nothing written. */
    constructor ()
      ensures !blinking && !handle && blinkCount == None && duties == []
    {
      blinking := false;
      handle := false;
      blinkCount := None;
      duties := [];
    }

    /** `set_value`: one immediate duty write; a running fade is not cancelled. */
    method SetValue(duty: real)
      modifies this
      ensures duties == old(duties) + [duty]
      ensures blinking == old(blinking) && handle == old(handle) && blinkCount == old(blinkCount)
    {
      duties := duties + [duty];
    }

    /** `blinker`: builds the fade waveform, installs the handle of a new task, which sets
        the flag and replays the waveform `Passes(n, fuel)` times. No operation of this
        device clears the flag, so the replay is never cut short. */
    method Blinker(onTime: real, offTime: real, fadeIn: real, fadeOut: real, n: Option<int>,
                   fuel: nat)
      returns (sequence: seq<Step>)
      modifies this
      ensures sequence == FadeSequence(onTime, offTime, fadeIn, fadeOut)
      ensures handle && blinking && blinkCount == old(blinkCount)
      ensures duties == old(duties) + Repeat(Intensities(sequence), Passes(n, fuel))
    {
      sequence := BuildFadeSequence(onTime, offTime, fadeIn, fadeOut);
      handle := true;
      blinking := true;
      var written := Replay(sequence, Passes(n, fuel), Never);
      duties := duties + written;
    }
  }
}
