/**
 Transfers and resets interleaved. A transfer gives the media lock up between segments, so that other
 transfers and resets can come in between; every segment checks its generation again. Whatever the
 interleaving, the reports of a generation are those of the frames consumed in that generation.
 */
module AudioInterleaving {
  import opened AudioAssembly
  import opened AudioAssembler

  /** One call of the transfer handler: how much of `out` it has handed over, and what became of it. */
  datatype Transfer = Transfer(out: seq<UsbFrame>, from: nat, at: nat, running: bool)

  /** A report carries the generation in which it was completed. */
  datatype Stamped = Stamped(generation: nat, report: Report)

  /** One segment that was consumed: in which generation, for which transfer, and that transfer's own generation. */
  datatype Taken = Taken(generation: nat, transfer: nat, from: nat, frames: seq<UsbFrame>)

  datatype World = World(
    generation: nat, active: bool, input: seq<UsbFrame>,
    transfers: map<nat, Transfer>, taken: seq<Taken>, log: seq<Stamped>)

  function NewWorld(generation: nat): World { World(generation, true, [], map[], [], []) }

  datatype Action =
    | BeginTransfer(id: nat, out: seq<UsbFrame>, from: nat)
    | NextSegment(transfer: nat)
    | Reset
    | SelectInterface(selected: bool)

  function Stamp(generation: nat, reports: seq<Report>): (r: seq<Stamped>)
    ensures |r| == |reports|
  {
    if reports == [] then []
    else Stamp(generation, reports[..|reports| - 1]) + [Stamped(generation, reports[|reports| - 1])]
  }

  /** One iteration of the handler's loop. */
  function Iterate(c: Converter, w: World, id: nat): World
    requires ValidConverter(c) && id in w.transfers && w.transfers[id].at <= |w.transfers[id].out|
  {
    var t := w.transfers[id];
    if !t.running then w
    else if t.at == |t.out| || t.from != w.generation || !w.active then
      w.(transfers := w.transfers[id := t.(running := false)])
    else
      var k := SegmentSize(c, |w.input|, |t.out| - t.at);
      var frames := t.out[t.at..t.at + k];
      var reports := HapticsPart(c, w.input, frames) + PayloadAt(c, w.input + frames);
      w.(input := w.input + frames, transfers := w.transfers[id := t.(at := t.at + k)],
         taken := w.taken + [Taken(w.generation, id, t.from, frames)], log := w.log + Stamp(w.generation, reports))
  }

  function Step(c: Converter, w: World, a: Action): World
    requires ValidConverter(c) && Cursors(w)
  {
    match a
    case BeginTransfer(id, out, from) =>
      if id in w.transfers then w
      else w.(transfers := w.transfers[id := Transfer(out, from, 0, w.active && from != 0 && from == w.generation)])
    case NextSegment(id) => if id in w.transfers then Iterate(c, w, id) else w
    case Reset => w.(generation := w.generation + 1, input := [])
    case SelectInterface(selected) => w.(active := selected)
  }

  predicate Cursors(w: World) { forall id :: id in w.transfers ==> w.transfers[id].at <= |w.transfers[id].out| }

  function Run(c: Converter, start: nat, actions: seq<Action>): (w: World)
    requires ValidConverter(c)
    ensures Cursors(w)
  {
    if actions == [] then NewWorld(start)
    else
      var before := Run(c, start, actions[..|actions| - 1]);
      StepKeepsCursors(c, before, actions[|actions| - 1]);
      Step(c, before, actions[|actions| - 1])
  }

  lemma StepKeepsCursors(c: Converter, w: World, a: Action)
    requires ValidConverter(c) && Cursors(w)
    ensures Cursors(Step(c, w, a))
  {
    hide SegmentSize, HapticsPart, PayloadAt;
  }

  // ---------------------------------------------------------------- per generation

  /** Everything consumed in one generation, in order. */
  function StreamOf(taken: seq<Taken>, g: nat): seq<UsbFrame> {
    if taken == [] then []
    else
      var last := taken[|taken| - 1];
      if last.generation == g then StreamOf(taken[..|taken| - 1], g) + last.frames else StreamOf(taken[..|taken| - 1], g)
  }

  /** Everything reported in one generation, in order. */
  function ReportsOf(log: seq<Stamped>, g: nat): seq<Report> {
    if log == [] then []
    else
      var last := log[|log| - 1];
      if last.generation == g then ReportsOf(log[..|log| - 1], g) + [last.report] else ReportsOf(log[..|log| - 1], g)
  }

  /** Everything consumed for one transfer, in order. */
  function FramesOf(taken: seq<Taken>, id: nat): seq<UsbFrame> {
    if taken == [] then []
    else
      var last := taken[|taken| - 1];
      if last.transfer == id then FramesOf(taken[..|taken| - 1], id) + last.frames else FramesOf(taken[..|taken| - 1], id)
  }

  lemma TakenExtends(taken: seq<Taken>, r: Taken)
    ensures forall g :: StreamOf(taken + [r], g) == if r.generation == g then StreamOf(taken, g) + r.frames else StreamOf(taken, g)
    ensures forall id :: FramesOf(taken + [r], id) == if r.transfer == id then FramesOf(taken, id) + r.frames else FramesOf(taken, id)
  {
    assert (taken + [r])[..|taken + [r]| - 1] == taken;
  }

  lemma LogExtends(log: seq<Stamped>, generation: nat, report: Report, g: nat)
    ensures ReportsOf(log + [Stamped(generation, report)], g) ==
            if generation == g then ReportsOf(log, g) + [report] else ReportsOf(log, g)
  {
    var longer := log + [Stamped(generation, report)];
    assert longer[..|longer| - 1] == log;
  }

  lemma {:induction false} StampExtends(log: seq<Stamped>, generation: nat, reports: seq<Report>, g: nat)
    ensures ReportsOf(log + Stamp(generation, reports), g) ==
            if generation == g then ReportsOf(log, g) + reports else ReportsOf(log, g)
  {
    if reports == [] {
      assert log + [] == log && ReportsOf(log, g) + [] == ReportsOf(log, g);
    } else {
      var init, last := reports[..|reports| - 1], reports[|reports| - 1];
      StampExtends(log, generation, init, g);
      LogExtends(log + Stamp(generation, init), generation, last, g);
      assert log + Stamp(generation, reports) == log + Stamp(generation, init) + [Stamped(generation, last)];
      assert ReportsOf(log, g) + reports == ReportsOf(log, g) + init + [last];
    }
  }

  // ---------------------------------------------------------------- invariant

  predicate GenerationOk(c: Converter, w: World, g: nat)
    requires ValidConverter(c)
  {
    ReportsOf(w.log, g) == Reports(c, StreamOf(w.taken, g))
  }

  ghost predicate Inv(c: Converter, w: World)
    requires ValidConverter(c)
  {
    && Cursors(w)
    && w.input == StreamOf(w.taken, w.generation)
    && (forall g: nat :: g > w.generation ==> StreamOf(w.taken, g) == [])
    && (forall g: nat :: GenerationOk(c, w, g))
    && (forall i :: 0 <= i < |w.taken| ==> w.taken[i].from == w.taken[i].generation && w.taken[i].transfer in w.transfers)
    && (forall id :: id in w.transfers ==> FramesOf(w.taken, id) == w.transfers[id].out[..w.transfers[id].at])
    && (forall id :: id !in w.transfers ==> FramesOf(w.taken, id) == [])
  }

  lemma SegmentKeeps(c: Converter, w: World, id: nat)
    requires ValidConverter(c) && Inv(c, w) && id in w.transfers
    requires var t := w.transfers[id]; t.running && t.at < |t.out| && t.from == w.generation && w.active
    ensures Inv(c, Iterate(c, w, id))
  {
    hide Reports, HapticsPart, PayloadAt, SegmentSize, StreamOf, ReportsOf, FramesOf, Stamp;
    var t, w' := w.transfers[id], Iterate(c, w, id);
    var k := SegmentSize(c, |w.input|, |t.out| - t.at);
    var frames := t.out[t.at..t.at + k];
    var reports := HapticsPart(c, w.input, frames) + PayloadAt(c, w.input + frames);
    TakenExtends(w.taken, Taken(w.generation, id, t.from, frames));
    SegmentReportsInFull(c, w.input, frames);
    assert t.out[..t.at] + frames == t.out[..t.at + k];
    forall g: nat ensures GenerationOk(c, w', g) {
      assert GenerationOk(c, w, g);
      StampExtends(w.log, w.generation, reports, g);
    }
  }

  lemma StepKeeps(c: Converter, w: World, a: Action)
    requires ValidConverter(c) && Inv(c, w)
    ensures Inv(c, Step(c, w, a))
  {
    hide Reports, HapticsPart, PayloadAt, SegmentSize, StreamOf, ReportsOf, FramesOf, Stamp;
    match a
    case BeginTransfer(id, out, from) => QuietKeeps(c, w, Step(c, w, a));
    case NextSegment(id) =>
      if id in w.transfers {
        var t := w.transfers[id];
        if t.running && t.at < |t.out| && t.from == w.generation && w.active { SegmentKeeps(c, w, id); }
        else { QuietKeeps(c, w, Step(c, w, a)); }
      }
    case Reset => QuietKeeps(c, w, Step(c, w, a));
    case SelectInterface(_) => QuietKeeps(c, w, Step(c, w, a));
  }

  /** Steps that consume nothing. */
  lemma QuietKeeps(c: Converter, w: World, w': World)
    requires ValidConverter(c) && Inv(c, w)
    requires w'.taken == w.taken && w'.log == w.log
    requires (w'.generation == w.generation && w'.input == w.input) || (w'.generation > w.generation && w'.input == [])
    requires forall id :: id in w.transfers ==>
               id in w'.transfers && w'.transfers[id].at == w.transfers[id].at && w'.transfers[id].out == w.transfers[id].out
    requires forall id :: id in w'.transfers && id !in w.transfers ==> w'.transfers[id].at == 0
    ensures Inv(c, w')
  {
    hide Reports, StreamOf, ReportsOf, FramesOf;
    forall g: nat ensures GenerationOk(c, w', g) { assert GenerationOk(c, w, g); }
  }

  lemma {:induction false} RunKeeps(c: Converter, start: nat, actions: seq<Action>)
    requires ValidConverter(c)
    ensures Inv(c, Run(c, start, actions))
  {
    hide Step, Inv;
    if actions == [] {
      NewWorldInv(c, start);
    } else {
      RunKeeps(c, start, actions[..|actions| - 1]);
      StepKeeps(c, Run(c, start, actions[..|actions| - 1]), actions[|actions| - 1]);
    }
  }

  lemma NewWorldInv(c: Converter, start: nat)
    requires ValidConverter(c)
    ensures Inv(c, NewWorld(start))
  {
    forall g: nat ensures GenerationOk(c, NewWorld(start), g) { }
  }

  // ---------------------------------------------------------------- main results

  /** No report mixes generations: what is reported in a generation is exactly what the frames consumed in that
      generation amount to, and each of those frames came from a transfer for that generation. */
  lemma NoReportMixesGenerations(c: Converter, start: nat, actions: seq<Action>, g: nat)
    requires ValidConverter(c)
    ensures var w := Run(c, start, actions);
            ReportsOf(w.log, g) == Reports(c, StreamOf(w.taken, g)) &&
            forall i :: 0 <= i < |w.taken| && w.taken[i].generation == g ==> w.taken[i].from == g
  {
    hide Reports, StreamOf, ReportsOf, FramesOf, Run;
    RunKeeps(c, start, actions);
    assert GenerationOk(c, Run(c, start, actions), g);
  }

  /** A transfer is consumed in order and without gaps, however others interleave, as far as it got. */
  lemma TransfersAreConsumedInOrder(c: Converter, start: nat, actions: seq<Action>, id: nat)
    requires ValidConverter(c) && id in Run(c, start, actions).transfers
    ensures var w := Run(c, start, actions);
            FramesOf(w.taken, id) == w.transfers[id].out[..w.transfers[id].at]
  {
    hide Reports, StreamOf, ReportsOf, FramesOf, Run;
    RunKeeps(c, start, actions);
  }

  /** A transfer whose generation is still current always hands something over. */
  lemma LiveTransfersAdvance(c: Converter, w: World, id: nat)
    requires ValidConverter(c) && Cursors(w) && id in w.transfers
    requires var t := w.transfers[id]; t.running && t.at < |t.out| && t.from == w.generation && w.active
    ensures var t := Step(c, w, NextSegment(id)).transfers[id];
            w.transfers[id].at < t.at <= |t.out| && t.running && t.out == w.transfers[id].out
  {
    hide HapticsPart, PayloadAt;
  }
}
