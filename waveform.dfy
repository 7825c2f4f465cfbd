/** The fade waveform that `PWMOutputDeviceR::blinker` builds before spawning its task:
    a list of (intensity, duration) steps at a notional 25 frames per second. Times and
    intensities are reals; the `as i32` casts of the frame count are modelled exactly. */
module Waveform {

  datatype Step = Step(intensity: real, duration: real)

  const Fps: nat := 25

  /** `t as i32` for an in-range value: rounds toward zero. */
  function Trunc(t: real): (z: int)
    ensures 0.0 <= t ==> 0 <= z && z as real <= t < z as real + 1.0
    ensures t < 0.0 ==> z <= 0 && z as real - 1.0 < t <= z as real
  {
    if t >= 0.0 then t.Floor else -((-t).Floor)
  }

  /** Length of the range `0..fps as i32 * t as i32`: the time is truncated to whole
      seconds before it is multiplied, and a range whose end is not positive is empty. */
  function FrameCount(t: real): (c: nat)
    ensures c > 0 <==> t >= 1.0
    ensures c % Fps == 0
    ensures c > 0 ==> c as real <= Fps as real * t < c as real + Fps as real
  {
    var end := Fps * Trunc(t);
    if end > 0 then end else 0
  }

  /** Intensity of fade-in step `i` and of fade-out step `i`, as the source computes them
      (the division is by the untruncated time). */
  function FadeInLevel(i: nat, t: real): (r: real)
    requires t >= 1.0
    ensures r == i as real / (Fps as real * t) && 0.0 <= r
  {
    i as real * (1.0 / Fps as real) / t
  }

  function FadeOutLevel(i: nat, t: real): (r: real)
    requires t >= 1.0
    ensures r == 1.0 - i as real / (Fps as real * t) && r <= 1.0
  {
    1.0 - FadeInLevel(i, t)
  }

  /** The fade-in steps, then the hold-on step, the fade-out steps and the hold-off step. */
  function FadeSequence(onTime: real, offTime: real, fadeIn: real, fadeOut: real): (s: seq<Step>)
    ensures |s| == FrameCount(fadeIn) + FrameCount(fadeOut) + 2
    ensures s[FrameCount(fadeIn)] == Step(1.0, onTime) && s[|s| - 1] == Step(0.0, offTime)
  {
    seq(FrameCount(fadeIn), i requires 0 <= i < FrameCount(fadeIn) =>
      Step(FadeInLevel(i, fadeIn), 1.0 / Fps as real))
    + [Step(1.0, onTime)]
    + seq(FrameCount(fadeOut), i requires 0 <= i < FrameCount(fadeOut) =>
      Step(FadeOutLevel(i, fadeOut), 1.0 / Fps as real))
    + [Step(0.0, offTime)]
  }

  /** The two loops and two pushes of the builder. */
  method BuildFadeSequence(onTime: real, offTime: real, fadeIn: real, fadeOut: real)
    returns (sequence: seq<Step>)
    ensures sequence == FadeSequence(onTime, offTime, fadeIn, fadeOut)
  {
    sequence := [];
    var fps: real := Fps as real;
    var inEnd := Fps * Trunc(fadeIn);
    for i := 0 to if inEnd > 0 then inEnd else 0
      invariant |sequence| == i
      invariant forall j :: 0 <= j < i ==>
        sequence[j] == FadeSequence(onTime, offTime, fadeIn, fadeOut)[j]
    {
      sequence := sequence + [Step(i as real * (1.0 / fps) / fadeIn, 1.0 / fps)];
    }
    sequence := sequence + [Step(1.0, onTime)];
    var outEnd := Fps * Trunc(fadeOut);
    var start := |sequence|;
    for i := 0 to if outEnd > 0 then outEnd else 0
      invariant |sequence| == start + i
      invariant forall j :: 0 <= j < start + i ==>
        sequence[j] == FadeSequence(onTime, offTime, fadeIn, fadeOut)[j]
    {
      sequence := sequence + [Step(1.0 - i as real * (1.0 / fps) / fadeOut, 1.0 / fps)];
    }
    sequence := sequence + [Step(0.0, offTime)];
  }

  /** Sum of the durations of `steps`: how long one pass of the replay sleeps. */
  function TotalDuration(steps: seq<Step>): real
  {
    if steps == [] then 0.0 else steps[0].duration + TotalDuration(steps[1..])
  }

  /** Whole seconds a fade of `t` seconds lasts: its frame count at 1/25 s per frame. */
  function FadeSeconds(t: real): real
  {
    FrameCount(t) as real / Fps as real
  }

  /** The layout of the sequence: `FrameCount(fadeIn)` fade-in steps rising from 0 as
      i/(25 fadeIn), the hold-on step (1.0, onTime), `FrameCount(fadeOut)` fade-out steps
      falling from 1 as 1 - i/(25 fadeOut), and the hold-off step (0.0, offTime) last;
      every fade step lasts 1/25 s. */
  lemma FadeSequenceShape(onTime: real, offTime: real, fadeIn: real, fadeOut: real)
    ensures var s := FadeSequence(onTime, offTime, fadeIn, fadeOut);
      && |s| == FrameCount(fadeIn) + FrameCount(fadeOut) + 2
      && s[FrameCount(fadeIn)] == Step(1.0, onTime)
      && s[|s| - 1] == Step(0.0, offTime)
      && (forall i :: 0 <= i < FrameCount(fadeIn) ==>
            s[i] == Step(i as real / (Fps as real * fadeIn), 1.0 / Fps as real))
      && (forall j :: FrameCount(fadeIn) < j < |s| - 1 ==>
            s[j] == Step(1.0 - (j - FrameCount(fadeIn) - 1) as real / (Fps as real * fadeOut),
                         1.0 / Fps as real))
  {
    var s := FadeSequence(onTime, offTime, fadeIn, fadeOut);
    var a := FrameCount(fadeIn);
    forall i | 0 <= i < a
      ensures s[i] == Step(i as real / (Fps as real * fadeIn), 1.0 / Fps as real)
    {
      LevelIsFraction(i, fadeIn);
    }
    forall j | a < j < |s| - 1
      ensures s[j] == Step(1.0 - (j - a - 1) as real / (Fps as real * fadeOut), 1.0 / Fps as real)
    {
      LevelIsFraction(j - a - 1, fadeOut);
    }
  }

  /** The source's `i * (1/fps) / t` is `i / (fps t)`. */
  lemma LevelIsFraction(i: nat, t: real)
    requires t >= 1.0
    ensures FadeInLevel(i, t) == i as real / (Fps as real * t)
    ensures FadeOutLevel(i, t) == 1.0 - i as real / (Fps as real * t)
  {
  }

  /** Fade step `i` of a fade of `t` seconds lies in [0, 1): `i` stays below the frame
      count, which is at most 25 t. */
  lemma FadeLevelBelowOne(i: nat, t: real)
    requires i < FrameCount(t)
    ensures 0.0 <= FadeInLevel(i, t) < 1.0
    ensures 0.0 < FadeOutLevel(i, t) <= 1.0
  {
  }

  /** Every intensity of the sequence is a duty fraction in [0, 1]. */
  lemma IntensitiesInUnitRange(onTime: real, offTime: real, fadeIn: real, fadeOut: real)
    ensures forall j :: 0 <= j < |FadeSequence(onTime, offTime, fadeIn, fadeOut)| ==>
      0.0 <= FadeSequence(onTime, offTime, fadeIn, fadeOut)[j].intensity <= 1.0
  {
    var s := FadeSequence(onTime, offTime, fadeIn, fadeOut);
    var a, b := FrameCount(fadeIn), FrameCount(fadeOut);
    forall j | 0 <= j < |s| ensures 0.0 <= s[j].intensity <= 1.0 {
      if j < a {
        FadeLevelBelowOne(j, fadeIn);
      } else if a < j < a + 1 + b {
        FadeLevelBelowOne(j - a - 1, fadeOut);
      }
    }
  }

  /** The fade-in steps rise strictly and the fade-out steps fall strictly. */
  lemma FadesAreMonotone(onTime: real, offTime: real, fadeIn: real, fadeOut: real)
    ensures var s := FadeSequence(onTime, offTime, fadeIn, fadeOut);
      forall i, j :: 0 <= i < j < FrameCount(fadeIn) ==> s[i].intensity < s[j].intensity
    ensures var s := FadeSequence(onTime, offTime, fadeIn, fadeOut);
      forall i, j :: FrameCount(fadeIn) < i < j < FrameCount(fadeIn) + 1 + FrameCount(fadeOut) ==>
        s[i].intensity > s[j].intensity
  {
    var s := FadeSequence(onTime, offTime, fadeIn, fadeOut);
    var a, b := FrameCount(fadeIn), FrameCount(fadeOut);
    forall i, j | 0 <= i < j < a ensures s[i].intensity < s[j].intensity {
      LevelsGrow(i, j, fadeIn);
    }
    forall i, j | a < i < j < a + 1 + b ensures s[i].intensity > s[j].intensity {
      LevelsGrow(i - a - 1, j - a - 1, fadeOut);
    }
  }

  lemma LevelsGrow(i: nat, j: nat, t: real)
    requires i < j && t >= 1.0
    ensures FadeInLevel(i, t) < FadeInLevel(j, t)
    ensures FadeOutLevel(i, t) > FadeOutLevel(j, t)
  {
  }

  lemma {:induction false} DurationOfConcat(a: seq<Step>, b: seq<Step>)
    ensures TotalDuration(a + b) == TotalDuration(a) + TotalDuration(b)
  {
    if a != [] {
      assert (a + b)[1..] == a[1..] + b;
      DurationOfConcat(a[1..], b);
    } else {
      assert a + b == b;
    }
  }

  lemma {:induction false} DurationOfFrames(s: seq<Step>)
    requires forall i :: 0 <= i < |s| ==> s[i].duration == 1.0 / Fps as real
    ensures TotalDuration(s) == |s| as real / Fps as real
  {
    if s != [] {
      DurationOfFrames(s[1..]);
    }
  }

  /** One pass of the waveform sleeps for the truncated fade-in time, `onTime`, the
      truncated fade-out time and `offTime`. */
  lemma CycleDuration(onTime: real, offTime: real, fadeIn: real, fadeOut: real)
    ensures TotalDuration(FadeSequence(onTime, offTime, fadeIn, fadeOut))
      == FadeSeconds(fadeIn) + onTime + FadeSeconds(fadeOut) + offTime
    ensures FadeSeconds(fadeIn) == if fadeIn >= 1.0 then Trunc(fadeIn) as real else 0.0
    ensures FadeSeconds(fadeOut) == if fadeOut >= 1.0 then Trunc(fadeOut) as real else 0.0
  {
    var ins := seq(FrameCount(fadeIn), i requires 0 <= i < FrameCount(fadeIn) =>
      Step(FadeInLevel(i, fadeIn), 1.0 / Fps as real));
    var outs := seq(FrameCount(fadeOut), i requires 0 <= i < FrameCount(fadeOut) =>
      Step(FadeOutLevel(i, fadeOut), 1.0 / Fps as real));
    assert FadeSequence(onTime, offTime, fadeIn, fadeOut)
      == ins + ([Step(1.0, onTime)] + (outs + [Step(0.0, offTime)]));
    DurationOfConcat(ins, [Step(1.0, onTime)] + (outs + [Step(0.0, offTime)]));
    DurationOfConcat([Step(1.0, onTime)], outs + [Step(0.0, offTime)]);
    DurationOfConcat(outs, [Step(0.0, offTime)]);
    DurationOfFrames(ins);
    DurationOfFrames(outs);
    assert TotalDuration([Step(1.0, onTime)]) == onTime;
    assert TotalDuration([Step(0.0, offTime)]) == offTime;
  }

  /** Fades shorter than one second contribute no steps: the sequence is the two holds. */
  lemma ShortFadesOnlyHold(onTime: real, offTime: real, fadeIn: real, fadeOut: real)
    requires fadeIn < 1.0 && fadeOut < 1.0
    ensures FadeSequence(onTime, offTime, fadeIn, fadeOut) == [Step(1.0, onTime), Step(0.0, offTime)]
  {
  }

  /** A fade-in of 1.5 s has 25 steps, not 37, and its last step reaches only 0.64. */
  lemma FractionalFadeIsTruncated(onTime: real, offTime: real)
    ensures FrameCount(1.5) == 25
    ensures FadeSequence(onTime, offTime, 1.5, 0.0)[24].intensity == 0.64
    ensures FadeSequence(onTime, offTime, 1.5, 0.0)[25].intensity == 1.0
  {
  }
}
