/**
 The audio assembler: it cuts transfers of any size into segments that end at a speaker or a rear
 boundary, and its reports depend only on the stream, not on how the stream was split.
 */
module AudioAssembler {
  import opened Basics
  import opened Options
  import opened RearResampler
  import opened AudioAssembly
  import opened AudioBuffers
  import opened AudioRear

  // ---------------------------------------------------------------- what waits in the queue

  /** The front frames after the last payload. */
  function OpenFront(s: seq<UsbFrame>): seq<Stereo> { Fronts(s[SPEAKER_FRAMES * (|s| / SPEAKER_FRAMES)..]) }

  /** The blocks of s that completed after the first a frames, where at most one can have. */
  function Since(c: Converter, s: seq<UsbFrame>, a: nat): seq<Block>
    requires ValidConverter(c) && a <= |s|
  {
    BlocksRise(c, a, |s|);
    if Blocks(c, a) < Blocks(c, |s|) then [RearBlock(c, s, Blocks(c, a))] else []
  }

  function Pending(c: Converter, s: seq<UsbFrame>): seq<Block>
    requires ValidConverter(c)
  {
    Since(c, s, SPEAKER_FRAMES * (|s| / SPEAKER_FRAMES))
  }

  /** A nonempty segment that crosses no boundary of either clock before its end. */
  predicate Segment(c: Converter, n: nat, k: nat) {
    0 < k <= SPEAKER_FRAMES - n % SPEAKER_FRAMES && n + k <= NextEnd(c, n)
  }

  /** How much of what is available one iteration takes: up to the next boundary of either clock. */
  function SegmentSize(c: Converter, n: nat, available: nat): (k: nat)
    requires available > 0
    ensures k <= available && Segment(c, n, k)
  {
    NextEndIsNext(c, n);
    var front := SPEAKER_FRAMES - n % SPEAKER_FRAMES;
    var rear := NextEnd(c, n) - n;
    var both := if front < rear then front else rear;
    if available < both then available else both
  }

  /** The queue just before a payload is cut: what was pending, and the block that this segment completed. */
  lemma PendingGrows(c: Converter, s: seq<UsbFrame>, t: seq<UsbFrame>)
    requires ValidConverter(c) && Segment(c, |s|, |t|)
    ensures var a := SPEAKER_FRAMES * (|s| / SPEAKER_FRAMES);
            var ends := |s + t| == NextEnd(c, |s|);
            && Blocks(c, |s + t|) == Blocks(c, |s|) + (if ends then 1 else 0)
            && Since(c, s + t, a) == Pending(c, s) + (if ends then [RearBlock(c, s + t, Blocks(c, |s|))] else [])
            && (ends ==> Pending(c, s) == [])
  {
    var a := SPEAKER_FRAMES * (|s| / SPEAKER_FRAMES);
    BlocksWithin(c, |s|, |s + t|);
    BlocksRise(c, a, |s|);
    PendingFits(c, |s|, |s + t|);
    hide RearBlock;
    if Blocks(c, a) < Blocks(c, |s|) { BlockIsCausal(c, s, t, Blocks(c, a)); }
  }

  /** Within one payload at most one block completes. */
  lemma PendingFits(c: Converter, n: nat, m: nat)
    requires n < m <= SPEAKER_FRAMES * (n / SPEAKER_FRAMES) + SPEAKER_FRAMES
    ensures Blocks(c, m) <= Blocks(c, SPEAKER_FRAMES * (n / SPEAKER_FRAMES)) + 1
  {
  }

  /** A segment reports what its last frame completes, and nothing else. */
  lemma SegmentReports(c: Converter, s: seq<UsbFrame>, t: seq<UsbFrame>)
    requires ValidConverter(c) && Segment(c, |s|, |t|)
    ensures Reports(c, s + t) == Reports(c, s) + ReportsAt(c, s + t)
    ensures BlockEnds(c, |s + t|) <==> |s + t| == NextEnd(c, |s|)
    ensures |s + t| % SPEAKER_FRAMES == 0 <==> |t| == SPEAKER_FRAMES - |s| % SPEAKER_FRAMES
  {
    NextEndIsNext(c, |s|);
    var init := t[..|t| - 1];
    forall n | |s| < n <= |s| + |init| ensures Quiet(c, n) { NotYet(|s|, n); }
    QuietFrames(c, s, init);
    assert (s + t)[..|s + t| - 1] == s + init;
    NotYet(|s|, |s + t|);
    hide ReportsAt;
  }

  /** The rear feedback that a segment of the stream completes. */
  function HapticsPart(c: Converter, s: seq<UsbFrame>, t: seq<UsbFrame>): (r: seq<Report>)
    requires ValidConverter(c)
    ensures |r| <= 1
  {
    if |s + t| == NextEnd(c, |s|) && Blocks(c, |s|) < Blocks(c, |s + t|)
    then [HapticsReport(RearBlock(c, s + t, Blocks(c, |s|)))] else []
  }

  lemma SegmentReportsInFull(c: Converter, s: seq<UsbFrame>, t: seq<UsbFrame>)
    requires ValidConverter(c) && Segment(c, |s|, |t|)
    ensures var k := |s| / SPEAKER_FRAMES; SPEAKER_FRAMES * k < |s + t| <= SPEAKER_FRAMES * (k + 1)
    ensures Reports(c, s + t) == Reports(c, s) + (HapticsPart(c, s, t) + PayloadAt(c, s + t))
  {
    HapticsPartAtEnd(c, s, t);
    SegmentReports(c, s, t);
    hide HapticsPart, HapticsAt, PayloadAt, Reports;
  }

  lemma HapticsPartAtEnd(c: Converter, s: seq<UsbFrame>, t: seq<UsbFrame>)
    requires ValidConverter(c) && Segment(c, |s|, |t|)
    ensures HapticsAt(c, s + t) == HapticsPart(c, s, t)
  {
    hide RearBlock, BlockEnds, NextEnd, Blocks;
    NextEndIsNext(c, |s|);
    BlocksWithin(c, |s|, |s + t|);
  }

  lemma NotYet(n: nat, m: nat)
    requires n < m <= n + SPEAKER_FRAMES - n % SPEAKER_FRAMES
    ensures m % SPEAKER_FRAMES == 0 <==> m == n + SPEAKER_FRAMES - n % SPEAKER_FRAMES
    ensures m / SPEAKER_FRAMES == n / SPEAKER_FRAMES + if m % SPEAKER_FRAMES == 0 then 1 else 0
  {
  }

  /** At a payload boundary the payload is the open front buffer and the waiting block, and nothing stays behind. */
  lemma PayloadAtItsEnd(c: Converter, s: seq<UsbFrame>, k: nat)
    requires ValidConverter(c) && |s| == SPEAKER_FRAMES * (k + 1)
    ensures var waiting := Since(c, s, SPEAKER_FRAMES * k);
            PayloadAt(c, s) ==
            [SpeakerReport(Fronts(s[SPEAKER_FRAMES * k..]), if waiting == [] then Silence(BLOCK_SAMPLES) else waiting[0])] &&
            |waiting| <= 1
    ensures Pending(c, s) == [] && OpenFront(s) == []
  {
    assert s[SPEAKER_FRAMES * k..] == s[SPEAKER_FRAMES * k..SPEAKER_FRAMES * (k + 1)];
    NothingOpen(c, s, k);
    assert |s| / SPEAKER_FRAMES == k + 1 && |s| % SPEAKER_FRAMES == 0;
    hide Fronts, Silence, RearBlock, Pending, OpenFront, Blocks;
  }

  lemma NothingOpen(c: Converter, s: seq<UsbFrame>, k: nat)
    requires ValidConverter(c) && |s| == SPEAKER_FRAMES * (k + 1)
    ensures Pending(c, s) == [] && OpenFront(s) == []
  {
    assert |s| / SPEAKER_FRAMES == k + 1;
    hide Blocks, RearBlock;
  }

  lemma NothingYet(c: Converter)
    requires ValidConverter(c)
    ensures Pending(c, []) == [] && OpenFront([]) == [] && Reports(c, []) == []
  {
  }

  lemma OpenLength(s: seq<UsbFrame>)
    ensures |OpenFront(s)| == |s| % SPEAKER_FRAMES
  {
  }

  lemma StillOpen(c: Converter, s: seq<UsbFrame>, k: nat)
    requires ValidConverter(c) && SPEAKER_FRAMES * k <= |s| < SPEAKER_FRAMES * (k + 1)
    ensures Pending(c, s) == Since(c, s, SPEAKER_FRAMES * k) && OpenFront(s) == Fronts(s[SPEAKER_FRAMES * k..])
    ensures |s| > SPEAKER_FRAMES * k ==> PayloadAt(c, s) == []
  {
    assert |s| / SPEAKER_FRAMES == k;
  }

  lemma FrontsDistribute(s: seq<UsbFrame>, t: seq<UsbFrame>, a: nat)
    requires a <= |s|
    ensures Fronts((s + t)[a..]) == Fronts(s[a..]) + Fronts(t)
  {
  }

  // ---------------------------------------------------------------- the assembler

  class Assembler {
    const rear: RearCollector
    const speaker: PcmBuffer
    const queue: BlockQueue
    var generation: nat
    var active: bool
    /** Everything reported since the last reset. */
    ghost var emitted: seq<Report>

    ghost function Parts(): set<object> {
      {this, speaker, speaker.data, queue, queue.slots} + rear.Parts()
    }

    ghost predicate Shape()
      reads rear.Parts(), speaker, queue
    {
      && rear.Valid() && ValidConverter(rear.converter)
      && speaker.Valid() && queue.Valid() && speaker.data.Length == SPEAKER_FRAMES
      && {this, speaker, speaker.data, queue, queue.slots} !! rear.Parts()
    }

    ghost predicate Valid()
      reads Parts()
    {
      && Shape()
      && speaker.Contents() == OpenFront(rear.input)
      && queue.Contents() == Pending(rear.converter, rear.input)
      && emitted == Reports(rear.converter, rear.input)
    }

    /** Both buffers hold what came after the first a frames. */
    ghost predicate HoldsSince(a: nat)
      reads Parts()
    {
      && Shape() && a <= |rear.input| && speaker.Contents() == Fronts(rear.input[a..])
      && queue.Contents() == Since(rear.converter, rear.input, a)
    }

    constructor (converter: Converter, coefficients: seq<real>, generation: nat)
      requires |coefficients| == TAPS && (converter.Sinc? ==> converter.coefficients == coefficients)
      ensures Valid() && fresh(Parts()) && rear.input == [] && this.generation == generation
    {
      hide Reports, Pending, OpenFront, RearCollector.Valid;
      rear := new RearCollector(converter, coefficients);
      speaker := new PcmBuffer(SPEAKER_FRAMES);
      queue := new BlockQueue();
      this.generation, active, emitted := generation, true, [];
      new;
      assert speaker.Contents() == [] && queue.Contents() == [];
      NothingYet(converter);
    }

    /** Retires the stream: nothing of it can reach a later report. */
    method ResetSpeakerAudio() returns (next: nat)
      requires Valid()
      modifies Parts()
      ensures Valid() && rear.input == [] && emitted == [] && next == generation == old(generation) + 1 && active == old(active)
    {
      NothingYet(rear.converter);
      hide Reports, Pending, OpenFront, RearCollector.Valid;
      generation := generation + 1;
      ResetRear();
      ResetFront();
      emitted := [];
      return generation;
    }

    method ResetRear()
      requires Shape()
      modifies rear.Parts()
      ensures Shape() && rear.input == []
    {
      rear.Reset();
    }

    method ResetFront()
      requires Shape()
      modifies speaker`length, queue`head, queue`count
      ensures Shape() && rear.input == old(rear.input) && speaker.Contents() == [] && queue.Contents() == []
    {
      speaker.Clear();
      queue.Clear();
    }

    /** Takes one segment off the front of the source and returns what it completed. */
    method Consume(src: seq<UsbFrame>) returns (consumed: nat, reports: seq<Report>)
      requires Valid()
      modifies Parts()
      ensures Valid() && consumed == (if src == [] then 0 else SegmentSize(rear.converter, |old(rear.input)|, |src|))
      ensures rear.input == old(rear.input) + src[..consumed] && emitted == old(emitted) + reports
      ensures |reports| <= 2 && unchanged(this`generation, this`active)
    {
      hide *;
      if src == [] { return 0, []; }
      consumed := SegmentLength(|src|);
      reports := TakeSegment(src[..consumed]);
    }

    method TakeSegment(segment: seq<UsbFrame>) returns (reports: seq<Report>)
      requires Valid() && Segment(rear.converter, |rear.input|, |segment|)
      modifies Parts()
      ensures Valid() && rear.input == old(rear.input) + segment && emitted == old(emitted) + reports
      ensures |reports| <= 2 && unchanged(this`generation, this`active)
    {
      ghost var s, c := rear.input, rear.converter;
      SegmentReportsInFull(c, s, segment);
      hide Reports, HapticsPart, PayloadAt, Pending, OpenFront, Segment, Assembler.Shape, Assembler.HoldsSince;
      reports := Take(segment);
      var payload := CutPayload(|s| / SPEAKER_FRAMES);
      reports := reports + payload;
      Record(reports);
    }

    method Record(reports: seq<Report>)
      requires Shape() && speaker.Contents() == OpenFront(rear.input) && queue.Contents() == Pending(rear.converter, rear.input)
      requires emitted + reports == Reports(rear.converter, rear.input)
      modifies this`emitted
      ensures Valid() && emitted == old(emitted) + reports && rear.input == old(rear.input)
    {
      hide Reports, Pending, OpenFront;
      emitted := emitted + reports;
    }

    /** The longest segment that ends no later than the next boundary of either clock. */
    method SegmentLength(available: nat) returns (frames: nat)
      requires Valid() && available > 0
      ensures Valid() && frames == SegmentSize(rear.converter, |rear.input|, available)
    {
      hide Reports, Pending, RearCollector.Valid;
      assert speaker.length == |rear.input| % SPEAKER_FRAMES by { OpenLength(rear.input); }
      NextEndIsNext(rear.converter, |rear.input|);
      frames := rear.FramesNeeded();
      if SPEAKER_FRAMES - speaker.length < frames { frames := SPEAKER_FRAMES - speaker.length; }
      if available < frames { frames := available; }
    }

    /** Feeds both halves and queues the rear block that completed; the queue never has to drop one. */
    method Take(segment: seq<UsbFrame>) returns (reports: seq<Report>)
      requires Valid() && Segment(rear.converter, |rear.input|, |segment|)
      modifies rear.Parts(), speaker`length, speaker.data, queue`head, queue`count, queue.slots
      ensures rear.input == old(rear.input) + segment
      ensures HoldsSince(SPEAKER_FRAMES * (|old(rear.input)| / SPEAKER_FRAMES))
      ensures reports == HapticsPart(rear.converter, old(rear.input), segment)
    {
      hide Fronts, Blocks, RearBlock, NextEnd, Segment, RearCollector.Valid, Since, Pending;
      ghost var s, c := rear.input, rear.converter;
      PendingGrows(c, s, segment);
      var block := FeedHalves(segment);
      reports := QueueBlock(block);
    }

    method FeedHalves(segment: seq<UsbFrame>) returns (block: Option<Block>)
      requires Valid() && Segment(rear.converter, |rear.input|, |segment|)
      modifies rear.Parts(), speaker`length, speaker.data
      ensures Shape() && rear.input == old(rear.input) + segment
      ensures speaker.Contents() == Fronts(rear.input[SPEAKER_FRAMES * (|old(rear.input)| / SPEAKER_FRAMES)..])
      ensures Completed(rear.converter, rear.input, |old(rear.input)|, block)
      ensures queue.Contents() == old(queue.Contents())
    {
      ghost var s := rear.input;
      FrontsDistribute(s, segment, SPEAKER_FRAMES * (|s| / SPEAKER_FRAMES));
      OpenLength(s);
      hide Reports, Pending, Fronts, Completed, Assembler.Shape;
      block := FeedRear(segment);
      FeedSpeaker(Fronts(segment));
    }

    method FeedRear(segment: seq<UsbFrame>) returns (block: Option<Block>)
      requires Shape() && |rear.input| + |segment| <= NextEnd(rear.converter, |rear.input|)
      modifies rear.Parts()
      ensures Shape() && rear.input == old(rear.input) + segment
      ensures Completed(rear.converter, rear.input, |old(rear.input)|, block)
      ensures speaker.length == old(speaker.length) && speaker.Contents() == old(speaker.Contents())
      ensures queue.Contents() == old(queue.Contents())
    {
      hide Completed, NextEnd;
      block := rear.Feed(segment);
    }

    method FeedSpeaker(fronts: seq<Stereo>)
      requires Shape() && speaker.length + |fronts| <= SPEAKER_FRAMES
      modifies speaker`length, speaker.data
      ensures Shape() && speaker.Contents() == old(speaker.Contents()) + fronts
      ensures rear.input == old(rear.input) && queue.Contents() == old(queue.Contents())
    {
      speaker.Append(fronts);
    }

    /** Queues a completed block for the next payload. There is room: the queue is empty whenever one completes. */
    method QueueBlock(block: Option<Block>) returns (reports: seq<Report>)
      requires queue.Valid() && (block.Some? ==> queue.Contents() == [])
      modifies queue`head, queue`count, queue.slots
      ensures queue.Valid() && queue.Contents() == old(queue.Contents()) + if block.Some? then [block.value] else []
      ensures reports == if block.Some? then [HapticsReport(block.value)] else []
    {
      if block.None? { return []; }
      var dropped := queue.Push(block.value);
      assert !dropped;
      return [HapticsReport(block.value)];
    }

    /** Publishes a full front buffer with the rear block that is waiting, or with silence. */
    method CutPayload(ghost k: nat) returns (payload: seq<Report>)
      requires HoldsSince(SPEAKER_FRAMES * k) && SPEAKER_FRAMES * k < |rear.input| <= SPEAKER_FRAMES * (k + 1)
      modifies speaker`length, queue`head, queue`count
      ensures Shape() && rear.input == old(rear.input)
      ensures speaker.Contents() == OpenFront(rear.input) && queue.Contents() == Pending(rear.converter, rear.input)
      ensures payload == PayloadAt(rear.converter, rear.input)
    {
      ghost var c, s := rear.converter, rear.input;
      assert |speaker.Contents()| == |s| - SPEAKER_FRAMES * k;
      if |s| < SPEAKER_FRAMES * (k + 1) { StillOpen(c, s, k); } else { PayloadAtItsEnd(c, s, k); }
      hide Fronts, Since, Pending, OpenFront, Silence, PayloadAt, Assembler.Shape;
      if speaker.length == SPEAKER_FRAMES {
        var report := Emit();
        return [report];
      }
      return [];
    }

    method Emit() returns (report: Report)
      requires Shape() && speaker.length == SPEAKER_FRAMES
      modifies speaker`length, queue`head, queue`count
      ensures Shape() && speaker.Contents() == []
      ensures var waiting := old(queue.Contents());
              queue.Contents() == (if waiting == [] then [] else waiting[1..]) &&
              report == SpeakerReport(old(speaker.Contents()), if waiting == [] then Silence(BLOCK_SAMPLES) else waiting[0])
    {
      hide Silence, RearCollector.Valid;
      var waiting := queue.Pop();
      assert speaker.data[..] == speaker.Contents();
      report := SpeakerReport(speaker.data[..], if waiting.Some? then waiting.value else Silence(BLOCK_SAMPLES));
      speaker.Clear();
    }

    /** One iteration of a transfer, under one hold of the lock: it stops when the stream was reset in between. */
    method HandleSegment(rest: seq<UsbFrame>, from: nat) returns (live: bool, consumed: nat, reports: seq<Report>)
      requires Valid() && rest != []
      modifies Parts()
      ensures Valid() && unchanged(this`generation, this`active)
      ensures live <==> active && from == generation
      ensures consumed == if live then SegmentSize(rear.converter, |old(rear.input)|, |rest|) else 0
      ensures rear.input == old(rear.input) + rest[..consumed] && emitted == old(emitted) + reports
    {
      hide *;
      if from != generation || !active { return false, 0, []; }
      consumed, reports := Consume(rest);
      live := true;
    }

    /** Takes a whole transfer of the current generation; a stale one changes nothing. */
    method HandleTransfer(out: seq<UsbFrame>, from: nat) returns (ok: bool, reports: seq<Report>)
      requires Valid()
      modifies Parts()
      ensures Valid() && unchanged(this`generation, this`active)
      ensures ok <==> out == [] || (active && from != 0 && from == generation)
      ensures rear.input == old(rear.input) + (if ok then out else []) && emitted == old(emitted) + reports
    {
      hide *;
      reports := [];
      if out == [] { return true, []; }
      if !active || from == 0 || from != generation { return false, []; }
      var at := 0;
      while at < |out|
        invariant 0 <= at <= |out| && Valid() && unchanged(this`generation, this`active)
        invariant rear.input == old(rear.input) + out[..at] && emitted == old(emitted) + reports
      {
        SegmentIsNonempty(rear.converter, |rear.input|, SegmentSize(rear.converter, |rear.input|, |out[at..]|));
        var live, consumed, some := HandleSegment(out[at..], from);
        assert live;
        Regroup(old(rear.input), out, at, consumed);
        Reassociate(old(emitted), reports, some);
        at, reports := at + consumed, reports + some;
      }
      assert out[..at] == out;
      return true, reports;
    }
  }

  lemma SegmentIsNonempty(c: Converter, n: nat, k: nat)
    requires Segment(c, n, k)
    ensures k > 0
  {
  }

  lemma Regroup(s: seq<UsbFrame>, out: seq<UsbFrame>, at: nat, k: nat)
    requires at + k <= |out|
    ensures s + out[..at] + out[at..][..k] == s + out[..at + k]
  {
  }
}
