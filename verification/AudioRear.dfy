/** The rear half of the assembler: it collects rear stereo and hands out each block when it is complete. */
module AudioRear {
  import opened Options
  import opened RearResampler
  import opened AudioAssembly
  import opened AudioBuffers

  // ---------------------------------------------------------------- block boundaries

  /** The frame count at which the next block completes. */
  function NextEnd(c: Converter, n: nat): nat {
    match c
    case Averaging => BLOCK_FRAMES * (n / BLOCK_FRAMES + 1)
    case Sinc(_) => 531 + BLOCK_FRAMES * Blocks(c, n)
  }

  lemma NextEndIsNext(c: Converter, n: nat)
    ensures n < NextEnd(c, n) && BlockEnds(c, NextEnd(c, n))
    ensures forall m :: n < m < NextEnd(c, n) ==> !BlockEnds(c, m)
  {
  }

  /** Before the boundary the block count stands still; at the boundary it rises by one. */
  lemma BlocksWithin(c: Converter, n: nat, m: nat)
    requires n <= m <= NextEnd(c, n)
    ensures Blocks(c, m) == Blocks(c, n) + if m == NextEnd(c, n) then 1 else 0
  {
  }

  // ---------------------------------------------------------------- sinc bookkeeping

  /** Between two boundaries the sinc converter has given fewer than 32 samples of the open block. */
  lemma OpenBlock(c: Converter, n: nat, m: nat)
    requires c.Sinc? && n <= m <= NextEnd(c, n)
    ensures BLOCK_SAMPLES * Blocks(c, n) <= OutputCount(m) <= BLOCK_SAMPLES * (Blocks(c, n) + 1)
    ensures OutputCount(m) == BLOCK_SAMPLES * (Blocks(c, n) + 1) <==> m == NextEnd(c, n)
    ensures OutputCount(m) > 0 ==> FramesFor(c, OutputCount(m) - 1) <= m
  {
  }

  lemma FramesToBoundary(c: Converter, n: nat, until: nat)
    requires c.Sinc? && until == 35 + 16 * OutputCount(n) - n
    ensures BLOCK_SAMPLES * Blocks(c, n) <= OutputCount(n) < BLOCK_SAMPLES * (Blocks(c, n) + 1)
    ensures NextEnd(c, n) == n + until + (BLOCK_SAMPLES * (Blocks(c, n) + 1) - OutputCount(n) - 1) * DOWNSAMPLE
  {
  }

  // ---------------------------------------------------------------- averaging bookkeeping

  lemma {:induction false} SumShifts(pcm: seq<Stereo>, a: nat, b: nat, from: nat, n: nat)
    requires a + from + n <= b <= |pcm|
    ensures SumOf(pcm[a..b], from, n) == SumOf(pcm, a + from, n)
  {
    if n > 0 { SumShifts(pcm, a, b, from, n - 1); }
  }

  lemma {:induction false} SamplesAt(c: Converter, s: seq<UsbFrame>, from: nat, n: nat, k: nat)
    requires ValidConverter(c) && k < n && FramesFor(c, from + n - 1) <= |s|
    ensures FramesFor(c, from + k) <= |s| && RearSamples(c, s, from, n)[k] == RearSample(c, s, from + k)
  {
    hide RearSample;
    if k < n - 1 { SamplesAt(c, s, from, n - 1, k); }
  }

  lemma AveragedBlock(s: seq<UsbFrame>, j: nat, block: Block)
    requires j < Blocks(Averaging, |s|) && |block| == BLOCK_SAMPLES
    requires forall k :: 0 <= k < BLOCK_SAMPLES ==>
               block[k] == Averaged(Rears(s)[BLOCK_FRAMES * j..BLOCK_FRAMES * (j + 1)], k)
    ensures block == RearBlock(Averaging, s, j)
  {
    var c := Averaging;
    forall k | 0 <= k < BLOCK_SAMPLES ensures block[k] == RearBlock(c, s, j)[k] {
      SamplesAt(c, s, BLOCK_SAMPLES * j, BLOCK_SAMPLES, k);
      SumShifts(Rears(s), BLOCK_FRAMES * j, BLOCK_FRAMES * (j + 1), DOWNSAMPLE * k, DOWNSAMPLE);
    }
  }

  lemma RearsDistribute(s: seq<UsbFrame>, t: seq<UsbFrame>, a: nat)
    requires a <= |s|
    ensures Rears((s + t)[a..]) == Rears(s[a..]) + Rears(t) && Rears(s + t) == Rears(s) + Rears(t)
  {
  }

  // ---------------------------------------------------------------- what is open

  /** The rear frames after the last complete averaging block. */
  function OpenPcm(s: seq<UsbFrame>): seq<Stereo> { Rears(s[BLOCK_FRAMES * (|s| / BLOCK_FRAMES)..]) }

  /** All sinc outputs from the start of block j on. */
  function SamplesFrom(c: Converter, s: seq<UsbFrame>, j: nat): (r: seq<Stereo>)
    requires c.Sinc? && ValidConverter(c) && BLOCK_SAMPLES * j <= OutputCount(|s|)
    ensures |r| == OutputCount(|s|) - BLOCK_SAMPLES * j
  {
    RearSamples(c, s, BLOCK_SAMPLES * j, OutputCount(|s|) - BLOCK_SAMPLES * j)
  }

  /** What feeding up to the whole stream s, from `start` frames on, must have handed out. */
  predicate Completed(c: Converter, s: seq<UsbFrame>, start: nat, block: Option<Block>)
    requires ValidConverter(c)
  {
    && (block.Some? <==> |s| == NextEnd(c, start))
    && (block.Some? ==> Blocks(c, |s|) == Blocks(c, start) + 1 && block.value == RearBlock(c, s, Blocks(c, start)))
  }

  lemma NothingOpenYet(c: Converter)
    requires ValidConverter(c)
    ensures OpenPcm([]) == [] && Rears([]) == [] && Blocks(c, 0) == 0 && OutputCount(0) == 0
    ensures c.Sinc? ==> SamplesFrom(c, [], 0) == []
  {
  }

  /** One more source frame adds an output to the open block exactly when an output is due. */
  lemma OneMoreSample(c: Converter, s: seq<UsbFrame>, f: UsbFrame, j: nat)
    requires c.Sinc? && ValidConverter(c) && BLOCK_SAMPLES * j <= OutputCount(|s|)
    ensures BLOCK_SAMPLES * j <= OutputCount(|s + [f]|)
    ensures SamplesFrom(c, s + [f], j) ==
            SamplesFrom(c, s, j) +
            if OutputDue(|s + [f]|) then [Output(c.coefficients, Rears(s + [f]), OutputCount(|s + [f]|) - 1)] else []
  {
    var n := OutputCount(|s|) - BLOCK_SAMPLES * j;
    NextCount(|s|, 35 + 16 * OutputCount(|s|) - (|s| + 1));
    hide OutputDue, Output;
    SamplesAreCausal(c, s, [f], BLOCK_SAMPLES * j, n);
  }

  // ---------------------------------------------------------------- the collector

  class RearCollector {
    const converter: Converter
    const resampler: Resampler
    const pcm: PcmBuffer
    const sample: PcmBuffer
    /** The frames since the last reset. */
    ghost var input: seq<UsbFrame>

    ghost function Parts(): set<object> {
      {this, resampler, resampler.history, pcm, pcm.data, sample, sample.data}
    }

    ghost predicate Shape()
      reads resampler, resampler.history, pcm, sample
    {
      && ValidConverter(converter) && pcm != sample && pcm.data != sample.data
      && resampler.Valid() && pcm.Valid() && sample.Valid()
      && pcm.data.Length == BLOCK_FRAMES && sample.data.Length == BLOCK_SAMPLES
      && (converter.Sinc? ==> resampler.coefficients == converter.coefficients)
    }

    ghost predicate Valid()
      reads Parts()
    {
      Shape() &&
      match converter
      case Averaging => pcm.Contents() == OpenPcm(input)
      case Sinc(_) =>
        && resampler.input == Rears(input) && BLOCK_SAMPLES * Blocks(converter, |input|) <= OutputCount(|input|)
        && sample.Contents() == SamplesFrom(converter, input, Blocks(converter, |input|))
    }

    constructor (converter: Converter, coefficients: seq<real>)
      requires |coefficients| == TAPS && (converter.Sinc? ==> converter.coefficients == coefficients)
      ensures Valid() && fresh(Parts()) && input == [] && this.converter == converter
    {
      hide OpenPcm, SamplesFrom, Rears, Blocks, OutputCount, Resampler.Valid;
      this.converter := converter;
      resampler := new Resampler(coefficients);
      pcm := new PcmBuffer(BLOCK_FRAMES);
      sample := new PcmBuffer(BLOCK_SAMPLES);
      input := [];
      new;
      NothingOpenYet(converter);
    }

    method Reset()
      requires Valid()
      modifies Parts()
      ensures Valid() && input == []
    {
      NothingOpenYet(converter);
      hide OpenPcm, SamplesFrom, Rears, Blocks, OutputCount, Resampler.Valid;
      resampler.Reset();
      pcm.Clear();
      sample.Clear();
      input := [];
    }

    /** How many frames complete the open block. */
    method FramesNeeded() returns (n: nat)
      requires Valid()
      ensures |input| + n == NextEnd(converter, |input|)
    {
      match converter
      case Averaging => n := BLOCK_FRAMES - pcm.length;
      case Sinc(_) =>
        var until := resampler.FramesUntilOutput();
        UntilIsCountdown(|input|, until);
        FramesToBoundary(converter, |input|, until);
        var remaining := BLOCK_SAMPLES - sample.length;
        n := until + (remaining - 1) * DOWNSAMPLE;
    }

    /** Takes a segment that ends no block before its own end; returns the block that it completes, if any. */
    method Feed(segment: seq<UsbFrame>) returns (block: Option<Block>)
      requires Valid() && |input| + |segment| <= NextEnd(converter, |input|)
      modifies Parts()
      ensures Valid() && input == old(input) + segment
      ensures Completed(converter, input, |old(input)|, block)
    {
      if converter.Averaging? { block := FeedAveraging(segment); } else { block := FeedSinc(segment); }
    }

    method FeedAveraging(segment: seq<UsbFrame>) returns (block: Option<Block>)
      requires Valid() && converter.Averaging? && |input| + |segment| <= NextEnd(converter, |input|)
      modifies this, pcm, pcm.data
      ensures Valid() && input == old(input) + segment
      ensures Completed(converter, input, |old(input)|, block)
    {
      ghost var start, j := |input|, Blocks(converter, |input|);
      pcm.Append(Rears(segment));
      RearsDistribute(input, segment, BLOCK_FRAMES * j);
      input := input + segment;
      BlocksWithin(converter, start, |input|);
      assert pcm.Contents() == Rears(input[BLOCK_FRAMES * j..]);
      if pcm.length < BLOCK_FRAMES { return None; }
      var b := AverageBlock();
      assert Rears(input)[BLOCK_FRAMES * j..BLOCK_FRAMES * (j + 1)] == Rears(input[BLOCK_FRAMES * j..]);
      AveragedBlock(input, j, b);
      pcm.Clear();
      return Some(b);
    }

    /** Reduces a full buffer to one block, sixteen frames at a time. */
    method AverageBlock() returns (block: Block)
      requires Shape() && pcm.length == BLOCK_FRAMES
      ensures |block| == BLOCK_SAMPLES
      ensures forall k :: 0 <= k < BLOCK_SAMPLES ==> block[k] == Averaged(pcm.Contents(), k)
    {
      block := [];
      for k := 0 to BLOCK_SAMPLES
        invariant |block| == k && forall i :: 0 <= i < k ==> block[i] == Averaged(pcm.Contents(), i)
      {
        var sum := Frame(0, 0);
        for i := 0 to DOWNSAMPLE
          invariant sum == SumOf(pcm.Contents(), DOWNSAMPLE * k, i)
        {
          var x := pcm.data[DOWNSAMPLE * k + i];
          sum := Frame(sum.left + x.left, sum.right + x.right);
        }
        block := block + [HighByteOfMean(sum)];
      }
    }

    method FeedSinc(segment: seq<UsbFrame>) returns (block: Option<Block>)
      requires Valid() && converter.Sinc? && |input| + |segment| <= NextEnd(converter, |input|)
      modifies this, resampler, resampler.history, sample, sample.data
      ensures Valid() && input == old(input) + segment
      ensures Completed(converter, input, |old(input)|, block)
    {
      hide SamplesFrom, Resampler.Valid, Rears, Blocks, OutputCount, NextEnd, FramesFor, Completed;
      ghost var start, j := |input|, Blocks(converter, |input|);
      assert input + segment[..0] == input;
      for i := 0 to |segment|
        modifies resampler, resampler.history, sample`length, sample.data
        invariant Shape() && Filling(input + segment[..i], j)
      {
        OpenBlock(converter, start, start + i);
        FeedOne(input + segment[..i], segment[i], j);
        assert input + segment[..i + 1] == (input + segment[..i]) + [segment[i]];
      }
      assert segment[..|segment|] == segment;
      input := input + segment;
      block := TakeBlock(start);
    }

    /** Hands out a complete block; an open one stays where it is. */
    method TakeBlock(ghost start: nat) returns (block: Option<Block>)
      requires Shape() && Filling(input, Blocks(converter, start)) && start <= |input| <= NextEnd(converter, start)
      modifies sample`length
      ensures Valid() && Completed(converter, input, start, block)
    {
      BlocksWithin(converter, start, |input|);
      OpenBlock(converter, start, |input|);
      if sample.length < BLOCK_SAMPLES { return None; }
      block := Some(sample.data[..]);
      sample.Clear();
    }

    /** The samples of block j so far, for a stream s that may not have been recorded yet. */
    ghost predicate Filling(s: seq<UsbFrame>, j: nat)
      requires Shape()
      reads resampler, resampler.history, pcm, sample, sample.data
    {
      && converter.Sinc? && resampler.input == Rears(s) && BLOCK_SAMPLES * j <= OutputCount(|s|)
      && sample.Contents() == SamplesFrom(converter, s, j)
    }

    method FeedOne(ghost s: seq<UsbFrame>, f: UsbFrame, ghost j: nat)
      requires Shape() && Filling(s, j) && OutputCount(|s|) < BLOCK_SAMPLES * (j + 1)
      modifies resampler, resampler.history, sample`length, sample.data
      ensures Shape() && Filling(s + [f], j)
    {
      hide SamplesFrom, Output, OutputDue, Resampler.Valid;
      RearsDistribute(s, [f], 0);
      assert Rears([f]) == [f.rear];
      OneMoreSample(converter, s, f, j);
      var out := resampler.Append(f.rear);
      if out.Some? { sample.Append([out.value]); }
    }
  }

  lemma UntilIsCountdown(frames: nat, until: nat)
    requires 0 < until && OutputDue(frames + until)
    requires forall later :: frames < later < frames + until ==> !OutputDue(later)
    ensures until == 35 + 16 * OutputCount(frames) - frames
  {
    NoEarlierOutput(frames, 35 + 16 * OutputCount(frames) - frames);
  }
}
