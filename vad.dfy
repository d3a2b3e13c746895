/**
 * The energy-based speech segmenter (core/vad.py).
 *
 * A frame is "voice" when the mean absolute value of its samples reaches the
 * threshold. The segmenter appends every frame to its buffer, whether or not
 * speech has started, and hands back the whole buffer when speech has gone on
 * for too long or has been followed by enough silence.
 *
 * `Step` is the specification of one call of `feed`; `Run` feeds a sequence
 * of frames. The class `EnergyVAD` is the stateful object of the source and
 * is proved to follow `Step`.
 */
module Vad {
  import opened Wrappers

  /** `int(sr * ms / 1000.0)`: the number of samples in `ms` milliseconds at
      `sr` samples per second, truncated toward zero. */
  function MsToSamples(sr: int, ms: int): (n: int)
    ensures var p := sr * ms; 0 <= p ==> 0 <= n * 1000 <= p < n * 1000 + 1000
    ensures var p := sr * ms; p < 0 ==> n * 1000 - 1000 < p <= n * 1000 <= 0
  {
    var p := sr * ms;
    if p >= 0 then p / 1000 else -((-p) / 1000)
  }

  /** Sum of the absolute values of the samples. */
  function SumAbs(f: seq<real>): (r: real)
    ensures r >= 0.0
  {
    if f == [] then 0.0 else (if f[0] < 0.0 then -f[0] else f[0]) + SumAbs(f[1..])
  }

  /** The energy of a frame: the mean absolute sample value. */
  function Energy(f: seq<real>): real
    requires |f| > 0
  {
    SumAbs(f) / |f| as real
  }

  /** `energy >= th`. The mean of an empty frame is NaN in numpy, and NaN
      compares false, so an empty frame is never voice. */
  predicate IsVoice(f: seq<real>, th: real) {
    |f| > 0 && Energy(f) >= th
  }

  /** All frames joined end to end (`np.concatenate`). */
  function Flatten(frames: seq<seq<real>>): seq<real> {
    if frames == [] then [] else Flatten(frames[..|frames| - 1]) + frames[|frames| - 1]
  }

  datatype VadParams = VadParams(th: real, minUtt: int, maxUtt: int, silenceNeed: int)

  /** The mutable part of the segmenter: `buf`, `silence_run`, `in_speech`. */
  datatype VadState = VadState(buf: seq<real>, silenceRun: int, inSpeech: bool)

  /** The state `reset` leaves behind. */
  const Initial := VadState([], 0, false)

  /** Consistency of the state: `silenceRun` counts the samples since the last
      voice frame (all of them when speech has not started), so it equals the
      buffer length exactly when no voice frame has been seen. */
  ghost predicate Inv(s: VadState) {
    0 <= s.silenceRun <= |s.buf| && (s.inSpeech <==> s.silenceRun < |s.buf|)
  }

  datatype StepResult = StepResult(next: VadState, utt: Option<seq<real>>)

  /** One call of `feed` (core/vad.py:27-54). */
  function Step(p: VadParams, s: VadState, f: seq<real>): StepResult {
    var buf := s.buf + f;
    var voice := IsVoice(f, p.th);
    var inSpeech := voice || s.inSpeech;
    var run := if voice then 0 else s.silenceRun + |f|;
    if inSpeech && |buf| >= p.maxUtt then
      StepResult(Initial, Some(buf))
    else if inSpeech && run >= p.silenceNeed then
      StepResult(Initial, if |buf| >= p.minUtt then Some(buf) else None)
    else
      StepResult(VadState(buf, run, inSpeech), None)
  }

  /** The frame is appended first: what comes back is the old buffer followed
      by the frame, and after an emission the state is the reset state;
      otherwise the new buffer is the old one plus the frame, or the state was
      reset (a too-short utterance discarded). */
  lemma StepAppends(p: VadParams, s: VadState, f: seq<real>)
    ensures var r := Step(p, s, f);
            (r.utt.Some? ==> r.utt.value == s.buf + f && r.next == Initial)
            && (r.next == Initial || r.next.buf == s.buf + f)
  {
  }

  /** A voice frame starts or continues speech and zeroes the silence run; any
      other frame lengthens the silence run by exactly its length and leaves
      the speech flag alone (unless the state was reset). */
  lemma StepCountsSilence(p: VadParams, s: VadState, f: seq<real>)
    ensures var r := Step(p, s, f);
            r.next != Initial ==>
              if IsVoice(f, p.th) then r.next.inSpeech && r.next.silenceRun == 0
              else r.next.inSpeech == s.inSpeech && r.next.silenceRun == s.silenceRun + |f|
  {
  }

  /** Nothing is emitted unless speech is under way: before the frame, or
      started by the frame itself. */
  lemma StepNeedsSpeech(p: VadParams, s: VadState, f: seq<real>)
    ensures Step(p, s, f).utt.Some? ==> s.inSpeech || IsVoice(f, p.th)
  {
  }

  /** The length cut-off wins over the silence rule: in speech with at least
      `maxUtt` samples buffered, the whole buffer (possibly longer than
      `maxUtt`) is returned and the state reset. */
  lemma StepMaxCut(p: VadParams, s: VadState, f: seq<real>)
    requires s.inSpeech || IsVoice(f, p.th)
    requires |s.buf + f| >= p.maxUtt
    ensures Step(p, s, f) == StepResult(Initial, Some(s.buf + f))
  {
  }

  /** End of speech: in speech (before or from this frame), below the length
      cut-off, with a silence run of at least `silenceNeed` after the frame,
      the state is reset and the buffer is returned exactly when it holds at
      least `minUtt` samples. With `silenceNeed <= 0` a voice frame, whose run
      is 0, already ends the segment. */
  lemma StepSilenceEnd(p: VadParams, s: VadState, f: seq<real>)
    requires s.inSpeech || IsVoice(f, p.th)
    requires |s.buf + f| < p.maxUtt
    requires (if IsVoice(f, p.th) then 0 else s.silenceRun + |f|) >= p.silenceNeed
    ensures Step(p, s, f).next == Initial
    ensures Step(p, s, f).utt.Some? <==> |s.buf + f| >= p.minUtt
  {
  }

  /** `Step` keeps the state consistent, and from a consistent state every
      emitted utterance is non-empty and at least min(minUtt, maxUtt) long. */
  lemma StepInv(p: VadParams, s: VadState, f: seq<real>)
    requires Inv(s)
    ensures Inv(Step(p, s, f).next)
    ensures var u := Step(p, s, f).utt;
            u.Some? ==> |u.value| > 0 && (|u.value| >= p.minUtt || |u.value| >= p.maxUtt)
  {
  }

  datatype RunResult = RunResult(last: VadState, utts: seq<seq<real>>)

  /** Feeding `frames` one after the other, collecting what is emitted. */
  function Run(p: VadParams, s: VadState, frames: seq<seq<real>>): RunResult
    decreases |frames|
  {
    if frames == [] then RunResult(s, [])
    else
      var r := Step(p, s, frames[0]);
      var rest := Run(p, r.next, frames[1..]);
      RunResult(rest.last, (if r.utt.Some? then [r.utt.value] else []) + rest.utts)
  }

  lemma {:induction false} FlattenCons(f: seq<real>, frames: seq<seq<real>>)
    ensures Flatten([f] + frames) == f + Flatten(frames)
    decreases |frames|
  {
    if frames != [] {
      var fs := [f] + frames;
      assert fs[..|fs| - 1] == [f] + frames[..|frames| - 1];
      FlattenCons(f, frames[..|frames| - 1]);
    }
  }

  lemma {:induction false} FlattenSnoc(frames: seq<seq<real>>, f: seq<real>)
    ensures Flatten(frames + [f]) == Flatten(frames) + f
  {
    assert (frames + [f])[..|frames|] == frames;
  }

  /** Below the threshold nothing is ever emitted: out of speech, a run of
      frames none of which is voice returns nothing, stays out of speech, and
      only grows the buffer (leading silence accumulates) and the silence
      run. */
  lemma {:induction false} SilenceNeverEmits(p: VadParams, s: VadState, frames: seq<seq<real>>)
    requires !s.inSpeech
    requires forall i :: 0 <= i < |frames| ==> !IsVoice(frames[i], p.th)
    ensures Run(p, s, frames).utts == []
    ensures Run(p, s, frames).last
            == VadState(s.buf + Flatten(frames), s.silenceRun + |Flatten(frames)|, false)
    decreases |frames|
  {
    if frames != [] {
      var next := Step(p, s, frames[0]).next;
      SilenceNeverEmits(p, next, frames[1..]);
      FlattenCons(frames[0], frames[1..]);
      assert frames == [frames[0]] + frames[1..];
    }
  }

  /** Over any run from a consistent state, every emitted utterance is
      non-empty and at least min(minUtt, maxUtt) samples long, and the state
      stays consistent. */
  lemma {:induction false} RunUtterancesLongEnough(p: VadParams, s: VadState, frames: seq<seq<real>>)
    requires Inv(s)
    ensures Inv(Run(p, s, frames).last)
    ensures forall u :: u in Run(p, s, frames).utts ==>
              |u| > 0 && (|u| >= p.minUtt || |u| >= p.maxUtt)
    decreases |frames|
  {
    if frames != [] {
      StepInv(p, s, frames[0]);
      RunUtterancesLongEnough(p, Step(p, s, frames[0]).next, frames[1..]);
    }
  }

  /** Consequence of the leading silence being buffered: after at least
      `maxUtt` samples of silence from the reset state, the first voice frame
      returns at once everything since the reset, silence included. */
  lemma LongSilenceThenVoice(p: VadParams, silence: seq<seq<real>>, f: seq<real>)
    requires forall i :: 0 <= i < |silence| ==> !IsVoice(silence[i], p.th)
    requires |Flatten(silence)| >= p.maxUtt
    requires IsVoice(f, p.th)
    ensures Run(p, Initial, silence + [f])
            == RunResult(Initial, [Flatten(silence) + f])
  {
    RunAppend(p, Initial, silence, f);
    SilenceNeverEmits(p, Initial, silence);
    var last := Run(p, Initial, silence).last;
    assert last.buf == Flatten(silence);
    assert Step(p, last, f) == StepResult(Initial, Some(Flatten(silence) + f));
  }

  /** A worked run (threshold 0.015, frames of one sample, minimum 2,
      silence 4): energies 0,0,0.02,0.02,0.02,0,0,0,0,0 give a single
      utterance that holds the three voice frames together with the two
      leading silent frames and the four trailing ones (9 samples), and the
      last frame is already buffered afterwards. */
  lemma WorkedExample(p: VadParams, z: seq<real>, v: seq<real>)
    requires p == VadParams(0.015, 2, 30, 4) && z == [0.0] && v == [0.02]
    ensures Run(p, Initial, [z, z, v, v, v, z, z, z, z, z])
            == RunResult(VadState(z, 1, false), [z + z + v + v + v + z + z + z + z])
  {
    var f8 := [z, z, v, v, v, z, z, z];
    var b8 := z + z + v + v + v + z + z + z;
    assert !IsVoice(z, p.th) by { assert SumAbs(z) == 0.0; }
    assert |b8 + z| == 9;
    ExampleSpeechThenSilence(p, z, v);
    ExampleStep(p, f8, z, [], VadState(b8, 3, true), StepResult(Initial, Some(b8 + z)));
    assert f8 + [z] == [z, z, v, v, v, z, z, z, z];
    ExampleStep(p, f8 + [z], z, [b8 + z], Initial, StepResult(VadState(z, 1, false), None));
    assert f8 + [z] + [z] == [z, z, v, v, v, z, z, z, z, z];
  }

  lemma ExampleSpeechThenSilence(p: VadParams, z: seq<real>, v: seq<real>)
    requires p == VadParams(0.015, 2, 30, 4) && z == [0.0] && v == [0.02]
    ensures Run(p, Initial, [z, z, v, v, v, z, z, z])
            == RunResult(VadState(z + z + v + v + v + z + z + z, 3, true), [])
  {
    var f5 := [z, z, v, v, v];
    var b5 := z + z + v + v + v;
    assert !IsVoice(z, p.th) by { assert SumAbs(z) == 0.0; }
    ExampleSpeech(p, z, v);
    ExampleStep(p, f5, z, [], VadState(b5, 0, true), StepResult(VadState(b5 + z, 1, true), None));
    ExampleStep(p, f5 + [z], z, [], VadState(b5 + z, 1, true), StepResult(VadState(b5 + z + z, 2, true), None));
    ExampleStep(p, f5 + [z] + [z], z, [], VadState(b5 + z + z, 2, true),
                StepResult(VadState(b5 + z + z + z, 3, true), None));
    assert f5 + [z] + [z] + [z] == [z, z, v, v, v, z, z, z];
  }

  lemma ExampleSpeech(p: VadParams, z: seq<real>, v: seq<real>)
    requires p == VadParams(0.015, 2, 30, 4) && z == [0.0] && v == [0.02]
    ensures Run(p, Initial, [z, z, v, v, v]) == RunResult(VadState(z + z + v + v + v, 0, true), [])
  {
    assert !IsVoice(z, p.th) by { assert SumAbs(z) == 0.0; }
    assert IsVoice(v, p.th) by { assert SumAbs(v) == 0.02; }
    var f2 := [z, z];
    assert Run(p, Initial, f2) == RunResult(VadState(z + z, 2, false), []) by {
      SilenceNeverEmits(p, Initial, f2);
      assert Flatten(f2) == z + z by { assert f2[..1] == [z]; assert Flatten([z]) == z; }
    }
    ExampleStep(p, f2, v, [], VadState(z + z, 2, false), StepResult(VadState(z + z + v, 0, true), None));
    ExampleStep(p, f2 + [v], v, [], VadState(z + z + v, 0, true), StepResult(VadState(z + z + v + v, 0, true), None));
    ExampleStep(p, f2 + [v] + [v], v, [], VadState(z + z + v + v, 0, true),
                StepResult(VadState(z + z + v + v + v, 0, true), None));
    assert f2 + [v] + [v] + [v] == [z, z, v, v, v];
  }

  /** One step of the worked example. */
  lemma ExampleStep(p: VadParams, fs: seq<seq<real>>, f: seq<real>, utts: seq<seq<real>>,
                    s: VadState, st: StepResult)
    requires Run(p, Initial, fs) == RunResult(s, utts)
    requires Step(p, s, f) == st
    ensures Run(p, Initial, fs + [f])
            == RunResult(st.next, utts + if st.utt.Some? then [st.utt.value] else [])
  {
    RunAppend(p, Initial, fs, f);
  }

  /** Feeding one more frame after a run. */
  lemma {:induction false} RunAppend(p: VadParams, s: VadState, frames: seq<seq<real>>, f: seq<real>)
    ensures var r := Run(p, s, frames);
            var st := Step(p, r.last, f);
            Run(p, s, frames + [f])
              == RunResult(st.next, r.utts + (if st.utt.Some? then [st.utt.value] else []))
    decreases |frames|
  {
    if frames == [] {
      assert frames + [f] == [f];
    } else {
      assert (frames + [f])[1..] == frames[1..] + [f];
      RunAppend(p, Step(p, s, frames[0]).next, frames[1..], f);
    }
  }

  /**
   * The energy-based segmenter as the source's object: thresholds fixed at
   * construction, and a buffer, silence counter and speech flag that `Feed`
   * and `Reset` update in place. The ghost field `sinceReset` records the
   * frames fed since the last reset.
   */
  class EnergyVAD {
    const sr: int
    const th: real
    const minUtt: int
    const maxUtt: int
    const silenceNeed: int

    var buf: seq<real>
    var silenceRun: int
    var inSpeech: bool
    ghost var sinceReset: seq<seq<real>>

    ghost predicate Valid()
      reads this
    {
      buf == Flatten(sinceReset) && Inv(State())
    }

    function Params(): VadParams {
      VadParams(th, minUtt, maxUtt, silenceNeed)
    }

    function State(): VadState
      reads this
    {
      VadState(buf, silenceRun, inSpeech)
    }

    /** core/vad.py:7-20: the sample counts are derived from the durations in
        milliseconds, and the state starts as after `reset`. */
    constructor (sr: int, energyThresh: real := 0.015, minUttMs: int := 900,
                 maxUttMs: int := 6000, silenceMs: int := 450)
      ensures this.sr == sr && th == energyThresh
      ensures minUtt == MsToSamples(sr, minUttMs)
      ensures maxUtt == MsToSamples(sr, maxUttMs)
      ensures silenceNeed == MsToSamples(sr, silenceMs)
      ensures Valid() && State() == Initial && sinceReset == []
    {
      this.sr := sr;
      th := energyThresh;
      minUtt := MsToSamples(sr, minUttMs);
      maxUtt := MsToSamples(sr, maxUttMs);
      silenceNeed := MsToSamples(sr, silenceMs);
      buf := [];
      silenceRun := 0;
      inSpeech := false;
      sinceReset := [];
    }

    /** core/vad.py:22-25: empty buffer, no silence counted, not in speech. */
    method Reset()
      modifies this
      ensures Valid()
      ensures buf == [] && silenceRun == 0 && !inSpeech && sinceReset == []
    {
      buf := [];
      silenceRun := 0;
      inSpeech := false;
      sinceReset := [];
    }

    /** core/vad.py:27-54: append the frame, update the speech flag and the
        silence run, then apply the length cut-off and the end-of-speech rule.
        An utterance handed back is every frame fed since the last reset. */
    method Feed(frame: seq<real>) returns (utt: Option<seq<real>>)
      requires Valid()
      modifies this
      ensures Valid()
      ensures StepResult(State(), utt) == Step(Params(), old(State()), frame)
      ensures utt.Some? ==> utt.value == Flatten(old(sinceReset) + [frame])
      ensures (State() == Initial && sinceReset == [])
              || (buf == old(buf) + frame && sinceReset == old(sinceReset) + [frame])
    {
      ghost var s0 := State();
      StepInv(Params(), s0, frame);
      FlattenSnoc(sinceReset, frame);
      buf := buf + frame;
      sinceReset := sinceReset + [frame];
      var voice := IsVoice(frame, th);
      if voice {
        inSpeech := true;
        silenceRun := 0;
      } else {
        silenceRun := silenceRun + |frame|;
      }

      if inSpeech && |buf| >= maxUtt {
        utt := Some(buf);
        Reset();
        return;
      }

      if inSpeech && silenceRun >= silenceNeed {
        if |buf| >= minUtt {
          utt := Some(buf);
          Reset();
          return;
        }
        Reset();
      }
      utt := None;
    }
  }
}
