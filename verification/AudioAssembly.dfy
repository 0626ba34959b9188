/**
 What the audio assembler must produce. One stream of four-channel frames drives two clocks: front
 stereo is cut into payloads of 480 frames, and rear stereo is reduced to blocks of 32 haptic samples.
 Everything here is a function of the whole stream, with no buffers and no transfers.
 */
module AudioAssembly {
  import opened Basics
  import opened RearResampler

  const SPEAKER_FRAMES := 480
  const BLOCK_FRAMES := 512
  const BLOCK_SAMPLES := 32
  const DOWNSAMPLE := 16

  /** The two converters that reduce rear stereo; the sinc one has its own look-ahead. */
  datatype Converter = Averaging | Sinc(coefficients: seq<real>)

  predicate ValidConverter(c: Converter) { c.Sinc? ==> |c.coefficients| == TAPS }

  type Stereo = RearResampler.Frame

  datatype UsbFrame = UsbFrame(front: Stereo, rear: Stereo)

  type Block = seq<Stereo>

  function Silence(n: nat): (r: Block)
    ensures |r| == n
  {
    if n == 0 then [] else Silence(n - 1) + [Frame(0, 0)]
  }

  datatype Report = HapticsReport(sample: Block) | SpeakerReport(pcm: seq<Stereo>, sample: Block)

  function Fronts(s: seq<UsbFrame>): seq<Stereo> { seq(|s|, i requires 0 <= i < |s| => s[i].front) }

  function Rears(s: seq<UsbFrame>): seq<Stereo> { seq(|s|, i requires 0 <= i < |s| => s[i].rear) }

  // ---------------------------------------------------------------- the averaging converter

  /** Division that truncates toward zero. */
  function TruncatingDivide(x: int, d: nat): int
    requires d > 0
  {
    if x >= 0 then x / d else -((-x) / d)
  }

  function SumOf(pcm: seq<Stereo>, from: nat, n: nat): Stereo
    requires from + n <= |pcm|
  {
    if n == 0 then Frame(0, 0)
    else
      var rest := SumOf(pcm, from, n - 1);
      Frame(rest.left + pcm[from + n - 1].left, rest.right + pcm[from + n - 1].right)
  }

  /** The mean of sixteen samples, reduced to its high byte. */
  function HighByteOfMean(sum: Stereo): Stereo {
    Frame(TruncatingDivide(sum.left, DOWNSAMPLE) / 256, TruncatingDivide(sum.right, DOWNSAMPLE) / 256)
  }

  function Averaged(pcm: seq<Stereo>, k: nat): Stereo
    requires DOWNSAMPLE * (k + 1) <= |pcm|
  {
    HighByteOfMean(SumOf(pcm, DOWNSAMPLE * k, DOWNSAMPLE))
  }

  // ---------------------------------------------------------------- the rear clock

  /** How many rear blocks a stream of n frames has completed. */
  function Blocks(c: Converter, n: nat): nat {
    match c
    case Averaging => n / BLOCK_FRAMES
    case Sinc(_) => if n < 531 then 0 else (n - 531) / BLOCK_FRAMES + 1
  }

  predicate BlockEnds(c: Converter, n: nat) {
    match c
    case Averaging => n > 0 && n % BLOCK_FRAMES == 0
    case Sinc(_) => n >= 531 && (n - 531) % BLOCK_FRAMES == 0
  }

  /** The frames that the converter needs before it can give sample k. */
  function FramesFor(c: Converter, k: nat): nat {
    match c
    case Averaging => DOWNSAMPLE * (k + 1)
    case Sinc(_) => DOWNSAMPLE * k + 35
  }

  function RearSample(c: Converter, s: seq<UsbFrame>, k: nat): Stereo
    requires ValidConverter(c) && FramesFor(c, k) <= |s|
  {
    match c
    case Averaging => Averaged(Rears(s), k)
    case Sinc(coefficients) => Output(coefficients, Rears(s), k)
  }

  function RearSamples(c: Converter, s: seq<UsbFrame>, from: nat, n: nat): (r: seq<Stereo>)
    requires ValidConverter(c) && (n > 0 ==> FramesFor(c, from + n - 1) <= |s|)
    ensures |r| == n
  {
    if n == 0 then [] else RearSamples(c, s, from, n - 1) + [RearSample(c, s, from + n - 1)]
  }

  /** Block j of the stream, once it is complete. */
  function RearBlock(c: Converter, s: seq<UsbFrame>, j: nat): Block
    requires ValidConverter(c) && j < Blocks(c, |s|)
  {
    RearSamples(c, s, BLOCK_SAMPLES * j, BLOCK_SAMPLES)
  }

  // ---------------------------------------------------------------- the reports of a stream

  /** Payload k carries the one rear block that completed during its 480 frames, if there is one. */
  function PayloadSample(c: Converter, s: seq<UsbFrame>, k: nat): Block
    requires ValidConverter(c) && SPEAKER_FRAMES * (k + 1) <= |s|
  {
    BlocksRise(c, SPEAKER_FRAMES * (k + 1), |s|);
    if Blocks(c, SPEAKER_FRAMES * k) < Blocks(c, SPEAKER_FRAMES * (k + 1))
    then RearBlock(c, s, Blocks(c, SPEAKER_FRAMES * k)) else Silence(BLOCK_SAMPLES)
  }

  function Payload(c: Converter, s: seq<UsbFrame>, k: nat): Report
    requires ValidConverter(c) && SPEAKER_FRAMES * (k + 1) <= |s|
  {
    SpeakerReport(Fronts(s[SPEAKER_FRAMES * k..SPEAKER_FRAMES * (k + 1)]), PayloadSample(c, s, k))
  }

  /** The rear block that the last frame of a stream completes. */
  function HapticsAt(c: Converter, s: seq<UsbFrame>): (r: seq<Report>)
    requires ValidConverter(c) && s != []
    ensures |r| <= 1 && forall i :: 0 <= i < |r| ==> r[i].HapticsReport?
  {
    EndsRaise(c, |s|);
    if BlockEnds(c, |s|) then [HapticsReport(RearBlock(c, s, Blocks(c, |s|) - 1))] else []
  }

  /** The payload that the last frame of a stream completes. */
  function PayloadAt(c: Converter, s: seq<UsbFrame>): (r: seq<Report>)
    requires ValidConverter(c) && s != []
    ensures |r| <= 1 && forall i :: 0 <= i < |r| ==> r[i].SpeakerReport?
  {
    if |s| % SPEAKER_FRAMES == 0 then [Payload(c, s, |s| / SPEAKER_FRAMES - 1)] else []
  }

  /** Rear feedback comes first when both clocks reach a boundary together. */
  function ReportsAt(c: Converter, s: seq<UsbFrame>): seq<Report>
    requires ValidConverter(c) && s != []
  {
    HapticsAt(c, s) + PayloadAt(c, s)
  }

  function Reports(c: Converter, s: seq<UsbFrame>): seq<Report>
    requires ValidConverter(c)
  {
    if s == [] then [] else Reports(c, s[..|s| - 1]) + ReportsAt(c, s)
  }

  // ---------------------------------------------------------------- clock arithmetic

  lemma EndsRaise(c: Converter, n: nat)
    requires n > 0
    ensures Blocks(c, n) == Blocks(c, n - 1) + if BlockEnds(c, n) then 1 else 0
  {
  }

  lemma BlocksRise(c: Converter, a: nat, b: nat)
    requires a <= b
    ensures Blocks(c, a) <= Blocks(c, b)
  {
  }

  /** The sinc converter completes a block with every 32nd output. */
  lemma SincBlocks(n: nat)
    ensures Blocks(Sinc([]), n) == OutputCount(n) / BLOCK_SAMPLES
  {
  }

  /** The speaker clock is the faster one: at most one rear block completes between two payloads. */
  lemma AtMostOnePending(c: Converter, n: nat)
    ensures var k := n / SPEAKER_FRAMES;
            Blocks(c, SPEAKER_FRAMES * k) <= Blocks(c, n) <= Blocks(c, SPEAKER_FRAMES * k) + 1
  {
  }

  // ---------------------------------------------------------------- later frames change nothing

  lemma {:induction false} SumIsCausal(pcm: seq<Stereo>, more: seq<Stereo>, from: nat, n: nat)
    requires from + n <= |pcm|
    ensures SumOf(pcm + more, from, n) == SumOf(pcm, from, n)
  {
    if n > 0 { SumIsCausal(pcm, more, from, n - 1); }
  }

  lemma SampleIsCausal(c: Converter, s: seq<UsbFrame>, more: seq<UsbFrame>, k: nat)
    requires ValidConverter(c) && FramesFor(c, k) <= |s|
    ensures RearSample(c, s + more, k) == RearSample(c, s, k)
  {
    assert Rears(s + more) == Rears(s) + Rears(more);
    match c
    case Averaging => SumIsCausal(Rears(s), Rears(more), DOWNSAMPLE * k, DOWNSAMPLE);
    case Sinc(coefficients) => OutputIsCausal(coefficients, Rears(s), Rears(more), k, TAPS);
  }

  lemma {:induction false} SamplesAreCausal(c: Converter, s: seq<UsbFrame>, more: seq<UsbFrame>, from: nat, n: nat)
    requires ValidConverter(c) && (n > 0 ==> FramesFor(c, from + n - 1) <= |s|)
    ensures RearSamples(c, s + more, from, n) == RearSamples(c, s, from, n)
  {
    hide RearSample;
    if n > 0 {
      SamplesAreCausal(c, s, more, from, n - 1);
      SampleIsCausal(c, s, more, from + n - 1);
    }
  }

  lemma BlockIsCausal(c: Converter, s: seq<UsbFrame>, more: seq<UsbFrame>, j: nat)
    requires ValidConverter(c) && j < Blocks(c, |s|)
    ensures j < Blocks(c, |s + more|) && RearBlock(c, s + more, j) == RearBlock(c, s, j)
  {
    BlocksRise(c, |s|, |s + more|);
    SamplesAreCausal(c, s, more, BLOCK_SAMPLES * j, BLOCK_SAMPLES);
  }

  lemma PayloadIsCausal(c: Converter, s: seq<UsbFrame>, more: seq<UsbFrame>, k: nat)
    requires ValidConverter(c) && SPEAKER_FRAMES * (k + 1) <= |s|
    ensures Payload(c, s + more, k) == Payload(c, s, k)
  {
    var a, b := SPEAKER_FRAMES * k, SPEAKER_FRAMES * (k + 1);
    assert (s + more)[a..b] == s[a..b];
    BlocksRise(c, b, |s|);
    if Blocks(c, a) < Blocks(c, b) { BlockIsCausal(c, s, more, Blocks(c, a)); }
  }

  // ---------------------------------------------------------------- the two clocks, told apart

  function Pick(r: Report, speaker: bool): seq<Report> { if r.SpeakerReport? == speaker then [r] else [] }

  /** The speaker reports among some reports, or the others. */
  function Only(reports: seq<Report>, speaker: bool): seq<Report> {
    if reports == [] then []
    else Only(reports[..|reports| - 1], speaker) + Pick(reports[|reports| - 1], speaker)
  }

  function Speakers(reports: seq<Report>): seq<Report> { Only(reports, true) }

  function Haptics(reports: seq<Report>): seq<Report> { Only(reports, false) }

  lemma OnlyLast(reports: seq<Report>, r: Report, speaker: bool)
    ensures Only(reports + [r], speaker) == Only(reports, speaker) + Pick(r, speaker)
  {
    assert (reports + [r])[..|reports + [r]| - 1] == reports;
  }

  lemma {:induction false} OnlyDistributes(a: seq<Report>, b: seq<Report>, speaker: bool)
    ensures Only(a + b, speaker) == Only(a, speaker) + Only(b, speaker)
  {
    if b == [] {
      assert a + b == a;
    } else {
      var init, last := b[..|b| - 1], b[|b| - 1];
      assert b == init + [last];
      OnlyDistributes(a, init, speaker);
      DistributeLast(a, init, last, speaker);
    }
  }

  lemma DistributeLast(a: seq<Report>, b: seq<Report>, r: Report, speaker: bool)
    requires Only(a + b, speaker) == Only(a, speaker) + Only(b, speaker)
    ensures Only(a + (b + [r]), speaker) == Only(a, speaker) + Only(b + [r], speaker)
  {
    hide Only, Pick;
    Reassociate(a, b, [r]);
    OnlyLast(a + b, r, speaker);
    OnlyLast(b, r, speaker);
    Reassociate(Only(a, speaker), Only(b, speaker), Pick(r, speaker));
  }

  lemma OnlyOne(r: seq<Report>, kind: bool, speaker: bool)
    requires |r| <= 1 && forall i :: 0 <= i < |r| ==> r[i].SpeakerReport? == kind
    ensures Only(r, speaker) == if kind == speaker then r else []
  {
    if r != [] {
      assert r[..|r| - 1] == [];
      assert Only(r, speaker) == [] + Pick(r[0], speaker);
    }
  }

  lemma SplitReportsAt(c: Converter, s: seq<UsbFrame>)
    requires ValidConverter(c) && s != []
    ensures Haptics(ReportsAt(c, s)) == HapticsAt(c, s) && Speakers(ReportsAt(c, s)) == PayloadAt(c, s)
  {
    var h, p := HapticsAt(c, s), PayloadAt(c, s);
    hide HapticsAt, PayloadAt, Only;
    OnlyDistributes(h, p, true);
    OnlyDistributes(h, p, false);
    OnlyOne(h, false, true);
    OnlyOne(h, false, false);
    OnlyOne(p, true, true);
    OnlyOne(p, true, false);
  }

  /** The first n payloads, by their definition. */
  function Payloads(c: Converter, s: seq<UsbFrame>, n: nat): (r: seq<Report>)
    requires ValidConverter(c) && SPEAKER_FRAMES * n <= |s|
    ensures |r| == n
  {
    if n == 0 then [] else Payloads(c, s, n - 1) + [Payload(c, s, n - 1)]
  }

  /** The first n rear blocks, by their definition. */
  function BlockReports(c: Converter, s: seq<UsbFrame>, n: nat): (r: seq<Report>)
    requires ValidConverter(c) && n <= Blocks(c, |s|)
    ensures |r| == n
  {
    if n == 0 then [] else BlockReports(c, s, n - 1) + [HapticsReport(RearBlock(c, s, n - 1))]
  }

  lemma {:induction false} PayloadsAreCausal(c: Converter, s: seq<UsbFrame>, more: seq<UsbFrame>, n: nat)
    requires ValidConverter(c) && SPEAKER_FRAMES * n <= |s|
    ensures Payloads(c, s + more, n) == Payloads(c, s, n)
  {
    hide Payload;
    if n > 0 {
      PayloadsAreCausal(c, s, more, n - 1);
      PayloadIsCausal(c, s, more, n - 1);
    }
  }

  lemma {:induction false} BlockReportsAreCausal(c: Converter, s: seq<UsbFrame>, more: seq<UsbFrame>, n: nat)
    requires ValidConverter(c) && n <= Blocks(c, |s|)
    ensures n <= Blocks(c, |s + more|) && BlockReports(c, s + more, n) == BlockReports(c, s, n)
  {
    BlocksRise(c, |s|, |s + more|);
    hide RearBlock, Blocks;
    if n > 0 {
      BlockReportsAreCausal(c, s, more, n - 1);
      BlockIsCausal(c, s, more, n - 1);
    }
  }

  lemma PayloadEnds(n: nat)
    requires n > 0
    ensures n / SPEAKER_FRAMES == (n - 1) / SPEAKER_FRAMES + if n % SPEAKER_FRAMES == 0 then 1 else 0
  {
  }

  lemma PayloadsExtend(c: Converter, s: seq<UsbFrame>)
    requires ValidConverter(c) && s != []
    ensures Payloads(c, s, |s| / SPEAKER_FRAMES) == Payloads(c, s, (|s| - 1) / SPEAKER_FRAMES) + PayloadAt(c, s)
  {
    PayloadEnds(|s|);
    hide Payload;
  }

  /** The last frame completes no block, or exactly the next one. */
  lemma HapticsAtCount(c: Converter, s: seq<UsbFrame>)
    requires ValidConverter(c) && s != []
    ensures var n, next := Blocks(c, |s| - 1), Blocks(c, |s|);
            (next == n && HapticsAt(c, s) == []) ||
            (next == n + 1 && HapticsAt(c, s) == [HapticsReport(RearBlock(c, s, n))])
  {
    hide RearBlock, Blocks, BlockEnds;
    EndsRaise(c, |s|);
  }

  lemma BlockReportsExtend(c: Converter, s: seq<UsbFrame>)
    requires ValidConverter(c) && s != []
    ensures Blocks(c, |s| - 1) <= Blocks(c, |s|)
    ensures BlockReports(c, s, Blocks(c, |s|)) == BlockReports(c, s, Blocks(c, |s| - 1)) + HapticsAt(c, s)
  {
    hide RearBlock, Blocks, BlockEnds, HapticsAt;
    HapticsAtCount(c, s);
    if Blocks(c, |s|) == Blocks(c, |s| - 1) {
      AppendNothing(BlockReports(c, s, Blocks(c, |s|)));
    }
  }

  lemma AppendNothing(reports: seq<Report>)
    ensures reports + [] == reports
  {
  }

  /** The reports of a stream are the payloads of the speaker clock and the blocks of the rear clock, each complete
      and in order: payload k holds front frames 480k to 480k + 479 and the block that completed meanwhile. */
  lemma {:induction false} ReportsFollowBothClocks(c: Converter, s: seq<UsbFrame>)
    requires ValidConverter(c)
    ensures Speakers(Reports(c, s)) == Payloads(c, s, |s| / SPEAKER_FRAMES)
    ensures Haptics(Reports(c, s)) == BlockReports(c, s, Blocks(c, |s|))
  {
    if s != [] {
      var init, last := s[..|s| - 1], s[|s| - 1];
      assert s == init + [last];
      ReportsFollowBothClocks(c, init);
      SpeakersGrow(c, init, last);
      HapticsGrow(c, init, last);
    } else {
      assert Blocks(c, 0) == 0;
    }
  }

  lemma SpeakersGrow(c: Converter, init: seq<UsbFrame>, last: UsbFrame)
    requires ValidConverter(c) && Speakers(Reports(c, init)) == Payloads(c, init, |init| / SPEAKER_FRAMES)
    ensures Speakers(Reports(c, init + [last])) == Payloads(c, init + [last], |init + [last]| / SPEAKER_FRAMES)
  {
    var s := init + [last];
    ReportsGrow(c, init, last);
    hide Reports, ReportsAt, Payloads, Only, PayloadAt;
    OnlyDistributes(Reports(c, init), ReportsAt(c, s), true);
    SplitReportsAt(c, s);
    PayloadsAreCausal(c, init, [last], |init| / SPEAKER_FRAMES);
    PayloadsExtend(c, s);
  }

  lemma HapticsGrow(c: Converter, init: seq<UsbFrame>, last: UsbFrame)
    requires ValidConverter(c) && Haptics(Reports(c, init)) == BlockReports(c, init, Blocks(c, |init|))
    ensures Haptics(Reports(c, init + [last])) == BlockReports(c, init + [last], Blocks(c, |init + [last]|))
  {
    var s := init + [last];
    ReportsGrow(c, init, last);
    hide Reports, ReportsAt, BlockReports, Only, Blocks, HapticsAt;
    OnlyDistributes(Reports(c, init), ReportsAt(c, s), false);
    SplitReportsAt(c, s);
    BlockReportsAreCausal(c, init, [last], Blocks(c, |init|));
    BlockReportsExtend(c, s);
  }

  lemma ReportsGrow(c: Converter, init: seq<UsbFrame>, last: UsbFrame)
    requires ValidConverter(c)
    ensures Reports(c, init + [last]) == Reports(c, init) + ReportsAt(c, init + [last])
  {
    assert (init + [last])[..|init + [last]| - 1] == init;
  }

  lemma {:induction false} PayloadsAt(c: Converter, s: seq<UsbFrame>, n: nat, k: nat)
    requires ValidConverter(c) && SPEAKER_FRAMES * n <= |s| && k < n
    ensures Payloads(c, s, n)[k] == Payload(c, s, k)
  {
    hide Payload;
    if k < n - 1 { PayloadsAt(c, s, n - 1, k); }
  }

  lemma {:induction false} BlockReportsAt(c: Converter, s: seq<UsbFrame>, n: nat, j: nat)
    requires ValidConverter(c) && n <= Blocks(c, |s|) && j < n
    ensures BlockReports(c, s, n)[j] == HapticsReport(RearBlock(c, s, j))
  {
    hide RearBlock, Blocks;
    if j < n - 1 { BlockReportsAt(c, s, n - 1, j); }
  }

  /** Payload k and rear block j of a stream, read off its reports. */
  lemma PayloadsAndBlocks(c: Converter, s: seq<UsbFrame>, k: nat, j: nat)
    requires ValidConverter(c) && k < |s| / SPEAKER_FRAMES && j < Blocks(c, |s|)
    ensures |Speakers(Reports(c, s))| == |s| / SPEAKER_FRAMES && Speakers(Reports(c, s))[k] == Payload(c, s, k)
    ensures |Haptics(Reports(c, s))| == Blocks(c, |s|) && Haptics(Reports(c, s))[j] == HapticsReport(RearBlock(c, s, j))
  {
    hide Payloads, BlockReports, Reports, Speakers, Haptics, Blocks, RearBlock, Payload;
    ReportsFollowBothClocks(c, s);
    PayloadsAt(c, s, |s| / SPEAKER_FRAMES, k);
    BlockReportsAt(c, s, Blocks(c, |s|), j);
  }

  /** Frames that complete nothing report nothing. */
  lemma {:induction false} QuietFrames(c: Converter, s: seq<UsbFrame>, t: seq<UsbFrame>)
    requires ValidConverter(c)
    requires forall n :: |s| < n <= |s| + |t| ==> Quiet(c, n)
    ensures Reports(c, s + t) == Reports(c, s)
  {
    if t == [] {
      assert s + t == s;
    } else {
      QuietFrames(c, s, t[..|t| - 1]);
      assert (s + t)[..|s + t| - 1] == s + t[..|t| - 1];
      assert Quiet(c, |s + t|);
    }
  }

  predicate Quiet(c: Converter, n: nat) { !BlockEnds(c, n) && n % SPEAKER_FRAMES != 0 }

  /** The frame count at which block j completes. */
  function BlockEnd(c: Converter, j: nat): nat {
    if c.Averaging? then BLOCK_FRAMES * (j + 1) else 531 + BLOCK_FRAMES * j
  }

  /** A payload carries block j exactly when it is the one during which block j completed, so that every block is
      carried once, in order, and the others carry silence. */
  lemma EveryBlockIsCarriedOnce(c: Converter, s: seq<UsbFrame>, j: nat, k: nat)
    requires ValidConverter(c) && SPEAKER_FRAMES * (k + 1) <= |s| && j < Blocks(c, |s|)
    ensures var carrier := (BlockEnd(c, j) - 1) / SPEAKER_FRAMES;
            && (k == carrier <==> Blocks(c, SPEAKER_FRAMES * k) == j && Blocks(c, SPEAKER_FRAMES * (k + 1)) == j + 1)
            && (k == carrier ==> PayloadSample(c, s, k) == RearBlock(c, s, j))
  {
    hide RearBlock, Silence;
    CarrierIsUnique(c, j, k);
  }

  lemma CarrierIsUnique(c: Converter, j: nat, k: nat)
    ensures k == (BlockEnd(c, j) - 1) / SPEAKER_FRAMES <==>
            Blocks(c, SPEAKER_FRAMES * k) == j && Blocks(c, SPEAKER_FRAMES * (k + 1)) == j + 1
  {
    BlocksBefore(c, SPEAKER_FRAMES * k, j);
    BlocksBefore(c, SPEAKER_FRAMES * (k + 1), j);
    AtMostOnePending(c, SPEAKER_FRAMES * k + SPEAKER_FRAMES - 1);
    EndsRaise(c, SPEAKER_FRAMES * (k + 1));
  }

  /** Block j is among the first n frames exactly when it has completed by then. */
  lemma BlocksBefore(c: Converter, n: nat, j: nat)
    ensures j < Blocks(c, n) <==> BlockEnd(c, j) <= n
  {
  }
}
