/**
 The 48 kHz to 3 kHz rear resampler over exact reals. A 128-entry ring, a write and a read index and a
 countdown replace the whole history of the stream; the direct form below is what they must agree with.
 */
module RearResampler {
  import opened Basics
  import opened Options

  const TAPS := 64
  const RING := 128

  /** One stereo source frame of signed 16-bit samples. */
  datatype Frame = Frame(left: int, right: int)

  datatype Level = Level(left: real, right: real)

  function LevelOf(f: Frame): Level { Level(f.left as real / 32768.0, f.right as real / 32768.0) }

  /** Clamps to signed 8-bit and truncates toward zero. */
  function Quantize(sample: real): (q: int)
    ensures -128 <= q <= 127
    ensures -128.0 <= sample <= 127.0 ==>
              if sample >= 0.0 then 0.0 <= sample - q as real < 1.0 else 0.0 <= q as real - sample < 1.0
  {
    if sample >= 127.0 then 127
    else if sample <= -128.0 then -128
    else if sample >= 0.0 then sample.Floor
    else -((-sample).Floor)
  }

  // ---------------------------------------------------------------- direct convolution

  /** The stream is preceded by silence. */
  function Sample(input: seq<Frame>, k: int): Level
    requires k < |input|
  {
    if k < 0 then Level(0.0, 0.0) else LevelOf(input[k])
  }

  function Times(c: real, x: Level): Level { Level(c * x.left, c * x.right) }

  function Plus(a: Level, b: Level): Level { Level(a.left + b.left, a.right + b.right) }

  /** The first i products of the 64-tap window that starts 31 frames before frame 16n. */
  function Direct(coefficients: seq<real>, input: seq<Frame>, n: nat, i: nat): Level
    requires |coefficients| == TAPS && i <= TAPS && 16 * n + 32 < |input|
  {
    if i == 0 then Level(0.0, 0.0)
    else
      Plus(Direct(coefficients, input, n, i - 1), Times(coefficients[i - 1], Sample(input, 16 * n - 31 + (i - 1))))
  }

  /** An output is due after 35 frames and after every 16 more. */
  predicate OutputDue(frames: nat) { frames >= 35 && (frames - 35) % 16 == 0 }

  /** Output n, quantised: the dot product over frames 16n - 31 to 16n + 32. */
  function Output(coefficients: seq<real>, input: seq<Frame>, n: nat): Frame
    requires |coefficients| == TAPS && 16 * n + 32 < |input|
  {
    var sum := Direct(coefficients, input, n, TAPS);
    Frame(Quantize(sum.left * 128.0), Quantize(sum.right * 128.0))
  }

  /** How many outputs a stream of so many frames has produced. */
  function OutputCount(frames: nat): nat { if frames < 35 then 0 else (frames - 35) / 16 + 1 }

  /** Later frames never change an output that is already due. */
  lemma {:induction false} OutputIsCausal(coefficients: seq<real>, input: seq<Frame>, more: seq<Frame>, n: nat, i: nat)
    requires |coefficients| == TAPS && i <= TAPS && 16 * n + 32 < |input|
    ensures Direct(coefficients, input + more, n, i) == Direct(coefficients, input, n, i)
  {
    if i > 0 { OutputIsCausal(coefficients, input, more, n, i - 1); }
  }

  // ---------------------------------------------------------------- the ring

  class Resampler {
    const coefficients: seq<real>
    const history: array<Level>
    var write: nat
    var read: nat
    var wait: nat
    /** The source frames since the last reset. */
    ghost var input: seq<Frame>

    ghost predicate Valid()
      reads this, history
    {
      && |coefficients| == TAPS && history.Length == RING
      && if wait == 0 then input == [] else Counts(OutputCount(|input|)) && Recent()
    }

    /** The indices and the countdown, when m outputs have been emitted. */
    ghost predicate Counts(m: nat)
      reads this
    {
      write == (31 + |input|) % RING && read == (16 * m) % RING && wait == 35 + 16 * m - |input|
    }

    /** The ring holds the latest 128 samples of the stream and of the silence before it. */
    ghost predicate Recent()
      requires history.Length == RING
      reads this`input, history
    {
      forall p :: 0 <= p < 31 + |input| <= p + RING ==> Stored(p)
    }

    /** Ring position p, counted from the start of the silence, still holds its sample. */
    ghost predicate Stored(p: nat)
      requires history.Length == RING && p < 31 + |input|
      reads this`input, history
    {
      history[p % RING] == Sample(input, p - 31)
    }

    /** The zero value: ready for use, and reset by its first frame. */
    constructor (coefficients: seq<real>)
      requires |coefficients| == TAPS
      ensures Valid() && input == [] && this.coefficients == coefficients && fresh(history)
    {
      this.coefficients := coefficients;
      history := new Level[RING](_ => Level(0.0, 0.0));
      write, read, wait, input := 0, 0, 0, [];
    }

    method Reset()
      requires Valid()
      modifies this, history
      ensures Valid() && input == [] && wait == 35
    {
      for i := 0 to RING
        modifies history
        invariant forall j :: 0 <= j < i ==> history[j] == Level(0.0, 0.0)
      {
        history[i] := Level(0.0, 0.0);
      }
      write, read, wait, input := 31, 0, 35, [];
    }

    /** The exact number of further frames after which the next output appears. */
    method FramesUntilOutput() returns (n: nat)
      requires Valid()
      ensures 0 < n && OutputDue(|input| + n)
      ensures forall frames :: |input| < frames < |input| + n ==> !OutputDue(frames)
    {
      NoEarlierOutput(|input|, if wait == 0 then 35 else wait);
      if wait == 0 { return 35; }
      return wait;
    }

    method Push(f: Frame)
      requires |coefficients| == TAPS && history.Length == RING && wait > 0 && Counts(OutputCount(|input|)) && Recent()
      modifies this`write, this`wait, this`input, history
      ensures Counts(OutputCount(|old(input)|)) && Recent() && input == old(input) + [f]
    {
      ghost var last := 31 + |input|;
      history[write] := LevelOf(f);
      write := (write + 1) % RING;
      wait := wait - 1;
      input := input + [f];
      forall p | 0 <= p < 31 + |input| <= p + RING ensures Stored(p) {
        if p < last {
          SlotsDiffer(RING, p, last);
          assert old(Stored(p));
        }
      }
      assert Counts(OutputCount(|old(input)|)) by { NextSlot(RING, 31 + |old(input)|, 1); }
    }

    /** Tap i of the window of output m is read from the ring. */
    method Tap(ghost m: nat, i: nat) returns (x: Level)
      requires history.Length == RING && Recent() && i < TAPS && |input| == 35 + 16 * m && read == (16 * m) % RING
      ensures x == Sample(input, 16 * m - 31 + i)
    {
      WindowSlot(m, i);
      assert Stored(16 * m + i);
      return history[(read + i) % RING];
    }

    /** The window of output m, summed as two interleaved accumulators. */
    method Accumulate(ghost m: nat) returns (sum: Level)
      requires |coefficients| == TAPS && history.Length == RING && Recent()
      requires |input| == 35 + 16 * m && read == (16 * m) % RING
      ensures sum == Direct(coefficients, input, m, TAPS)
    {
      var even, odd := Level(0.0, 0.0), Level(0.0, 0.0);
      var i := 0;
      assert Direct(coefficients, input, m, 0) == Level(0.0, 0.0);
      hide Direct, Sample, Times;
      while i < TAPS
        invariant 0 <= i <= TAPS && i % 2 == 0
        invariant Direct(coefficients, input, m, i) == Plus(odd, even)
      {
        var x := Tap(m, i);
        var y := Tap(m, i + 1);
        DirectPair(coefficients, input, m, i);
        even := Plus(even, Times(coefficients[i], x));
        odd := Plus(odd, Times(coefficients[i + 1], y));
        i := i + 2;
      }
      return Plus(odd, even);
    }

    /** Consumes one frame; emits output n exactly after 35 + 16n frames, equal to the direct convolution. */
    method Append(f: Frame) returns (out: Option<Frame>)
      requires Valid()
      modifies this, history
      ensures Valid() && input == old(input) + [f]
      ensures out.Some? <==> OutputDue(|input|)
      ensures out.Some? ==> out == Some(Output(coefficients, input, OutputCount(|input|) - 1))
    {
      hide Direct, Quantize, OutputDue;
      if wait == 0 { Reset(); }
      ghost var m := OutputCount(|input|);
      Push(f);
      NextCount(|input| - 1, wait);
      hide OutputCount, Stored;
      if wait != 0 { return None; }
      wait := 16;
      var sum := Accumulate(m);
      read := (read + 16) % RING;
      NextWindow(m);
      return Some(Frame(Quantize(sum.left * 128.0), Quantize(sum.right * 128.0)));
    }
  }

  // ---------------------------------------------------------------- index arithmetic

  lemma WindowSlot(m: nat, i: nat)
    ensures ((16 * m) % RING + i) % RING == (16 * m + i) % RING
  {
  }

  lemma NextWindow(m: nat)
    ensures ((16 * m) % RING + 16) % RING == (16 * (m + 1)) % RING
  {
  }

  /** One more frame completes an output exactly when the countdown runs out. */
  lemma NextCount(frames: nat, wait: nat)
    requires wait == 35 + 16 * OutputCount(frames) - (frames + 1)
    ensures wait == 0 <==> OutputDue(frames + 1)
    ensures OutputCount(frames + 1) == if wait == 0 then OutputCount(frames) + 1 else OutputCount(frames)
    ensures wait == 0 ==> frames + 1 == 35 + 16 * OutputCount(frames)
  {
  }

  lemma NoEarlierOutput(frames: nat, wait: nat)
    requires wait == 35 + 16 * OutputCount(frames) - frames
    ensures forall later :: frames < later < frames + wait ==> !OutputDue(later)
    ensures OutputDue(frames + wait)
  {
  }

  lemma DirectPair(coefficients: seq<real>, input: seq<Frame>, m: nat, i: nat)
    requires |coefficients| == TAPS && i + 2 <= TAPS && 16 * m + 32 < |input|
    ensures Direct(coefficients, input, m, i + 2) ==
            Plus(Plus(Direct(coefficients, input, m, i), Times(coefficients[i], Sample(input, 16 * m - 31 + i))),
                 Times(coefficients[i + 1], Sample(input, 16 * m - 31 + i + 1)))
  {
    hide Times, Plus, Sample;
    assert Direct(coefficients, input, m, i + 1) ==
           Plus(Direct(coefficients, input, m, i), Times(coefficients[i], Sample(input, 16 * m - 31 + i)));
  }
}
