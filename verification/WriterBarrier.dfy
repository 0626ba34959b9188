/**
 The reset barrier between the stream writer and callers that reset the speaker generation. The three
 shared atomics (authoritative generation, in-flight generation, in-flight sequence), the one-slot
 completion signal and the lifecycle lock are shared by one writer and any number of resetters, and
 every atomic access is one step. The writer may be handed any frame at any time, so the queues and
 their draining are not needed for safety and are not part of the state.
 */
module WriterBarrier {
  import opened Options

  const TWO_63 := 0x8000_0000_0000_0000
  const TWO_64 := 0x1_0000_0000_0000_0000

  datatype Frame = Frame(tagged: bool, generation: nat)

  datatype WriterPc =
    | Idle
    | Took(frame: Frame)
    | Announced(frame: Frame)      // in-flight generation stored
    | Marked(frame: Frame)         // sequence made odd
    | Writing(frame: Frame)        // socket write in progress
    | Finishing(ok: bool)          // write returned or frame discarded
    | Cleared(ok: bool)            // in-flight generation zeroed
    | Signalling(ok: bool)         // sequence made even
    | Exited

  datatype ResetPc =
    | Entering(generation: nat)
    | Queued(generation: nat)                                   // generation published, lock not held
    | Looping(generation: nat)
    | SawSequence(generation: nat, target: nat)
    | SawGeneration(generation: nat, target: nat, inFlight: nat)
    | Waiting(generation: nat, target: nat)
    | Blocked(generation: nat, target: nat)
    | Returned(generation: nat)
    | Skipped                                                   // generation zero or superseded
    | TimedOut

  datatype State = State(
    generation: nat, inFlight: nat, sequence: nat, signalled: bool, writer: WriterPc,
    resetters: map<nat, ResetPc>, holder: Option<nat>)

  function NewState(generation: nat): State {
    State(generation, 0, 0, false, Idle, map[], None)
  }

  /** The source compares the signed 64-bit difference. */
  predicate Precedes(first: nat, second: nat) {
    first != second && (first - second) % TWO_64 >= TWO_63
  }

  datatype Action =
    | Take(frame: Frame)                 // the writer claims a frame from some lane
    | WriterStep                         // any other atomic step of the writer, when it has just one
    | WriteReturns(ok: bool)
    | StopWriter                         // an idle writer sees the stop request and leaves its loop
    | Adopt(adopted: nat)                // prepareMediaGeneration
    | EnterReset(id: nat, reset: nat)    // ResetSpeakerGeneration is called
    | EnterBump(caller: nat)             // ResetSpeaker: publishes the successor generation
    | ResetStep(stepper: nat)            // the single next step of a resetter
    | SeesExit(watcher: nat)             // a blocked resetter observes that the writer is gone
    | Deadline(late: nat)                // a blocked resetter's timer fires

  // ---------------------------------------------------------------- the writer

  function StepWriter(s: State): State {
    match s.writer
    case Took(f) =>
      if f.tagged then s.(inFlight := f.generation, writer := Announced(f)) else s.(writer := Writing(f))
    case Announced(f) => s.(sequence := s.sequence + 1, writer := Marked(f))
    case Marked(f) => s.(writer := if f.generation != s.generation then Finishing(true) else Writing(f))
    case Finishing(ok) => s.(inFlight := 0, writer := Cleared(ok))
    case Cleared(ok) => s.(sequence := s.sequence + 1, writer := Signalling(ok))
    case Signalling(ok) => s.(signalled := true, writer := if ok then Idle else Exited)
    case _ => s
  }

  function ReturnWrite(s: State, ok: bool): State {
    if !s.writer.Writing? then s
    else if s.writer.frame.tagged then s.(writer := Finishing(ok))
    else s.(writer := if ok then Idle else Exited)
  }

  // ---------------------------------------------------------------- resetters

  function Become(s: State, id: nat, pc: ResetPc): State { s.(resetters := s.resetters[id := pc]) }

  function Leave(s: State, id: nat, pc: ResetPc): State {
    s.(resetters := s.resetters[id := pc], holder := None)
  }

  function StepResetter(s: State, id: nat): State
    requires id in s.resetters
  {
    match s.resetters[id]
    case Entering(g) =>
      if g == 0 || g < s.generation then Become(s, id, Skipped)
      else Become(s, id, Queued(g)).(generation := g)
    case Queued(g) => if s.holder.Some? then s else Become(s, id, Looping(g)).(holder := Some(id))
    case Looping(g) =>
      if s.sequence % 2 == 0 then Leave(s, id, Returned(g)) else Become(s, id, SawSequence(g, s.sequence))
    case SawSequence(g, target) => Become(s, id, SawGeneration(g, target, s.inFlight))
    case SawGeneration(g, target, inFlight) =>
      if target != s.sequence then Become(s, id, Looping(g))
      else if Precedes(g, inFlight) then Leave(s, id, Returned(g))
      else Become(s, id, Waiting(g, target))
    case Waiting(g, target) =>
      if target == s.sequence then Become(s, id, Blocked(g, target)) else Leave(s, id, Returned(g))
    case Blocked(g, target) => if s.signalled then Become(s, id, Waiting(g, target)).(signalled := false) else s
    case _ => s
  }

  function Step(s: State, a: Action): State {
    match a
    case Take(f) => if s.writer.Idle? then s.(writer := Took(f)) else s
    case WriterStep => StepWriter(s)
    case WriteReturns(ok) => ReturnWrite(s, ok)
    case StopWriter => if s.writer.Idle? then s.(writer := Exited) else s
    case Adopt(g) => if g > s.generation then s.(generation := g) else s
    case EnterReset(id, g) => if id in s.resetters then s else Become(s, id, Entering(g))
    case EnterBump(id) =>
      if id in s.resetters then s
      else Become(s, id, Queued(s.generation + 1)).(generation := s.generation + 1)
    case ResetStep(id) => if id in s.resetters then StepResetter(s, id) else s
    case SeesExit(id) =>
      if id in s.resetters && s.resetters[id].Blocked? && s.writer.Exited?
      then Leave(s, id, Returned(s.resetters[id].generation)) else s
    case Deadline(id) =>
      if id in s.resetters && s.resetters[id].Blocked? then Leave(s, id, TimedOut) else s
  }

  function Run(start: nat, actions: seq<Action>): State {
    if actions == [] then NewState(start)
    else Step(Run(start, actions[..|actions| - 1]), actions[|actions| - 1])
  }

  // ---------------------------------------------------------------- invariant

  /** A generation-tagged frame older than g is on the socket. */
  predicate WritesOlder(s: State, g: nat) {
    s.writer.Writing? && s.writer.frame.tagged && s.writer.frame.generation < g
  }

  /** The run began at generation `start`; nothing older than that is ever written. */
  predicate WriterOk(s: State, start: nat) {
    start <= s.generation &&
    match s.writer
    case Idle => s.sequence % 2 == 0
    case Exited => s.sequence % 2 == 0
    case Took(_) => s.sequence % 2 == 0
    case Announced(f) => s.sequence % 2 == 0 && f.tagged && s.inFlight == f.generation
    case Marked(f) => s.sequence % 2 == 1 && f.tagged && s.inFlight == f.generation
    case Writing(f) =>
      if f.tagged then s.sequence % 2 == 1 && s.inFlight == f.generation && start <= f.generation <= s.generation
      else s.sequence % 2 == 0
    case Finishing(_) => s.sequence % 2 == 1
    case Cleared(_) => s.sequence % 2 == 1 && s.inFlight == 0
    case Signalling(_) => s.sequence % 2 == 0
  }

  predicate Holds(pc: ResetPc) {
    pc.Looping? || pc.SawSequence? || pc.SawGeneration? || pc.Waiting? || pc.Blocked?
  }

  predicate ResetterOk(s: State, pc: ResetPc, start: nat) {
    match pc
    case Queued(g) => g <= s.generation
    case Looping(g) => g <= s.generation
    case SawSequence(g, target) =>
      g <= s.generation && target % 2 == 1 && target <= s.sequence &&
      (WritesOlder(s, g) ==> s.sequence == target)
    case SawGeneration(g, target, inFlight) =>
      g <= s.generation && target % 2 == 1 && target <= s.sequence &&
      (WritesOlder(s, g) ==> s.sequence == target && inFlight == s.inFlight)
    case Waiting(g, target) =>
      g <= s.generation && target % 2 == 1 && target <= s.sequence &&
      (WritesOlder(s, g) ==> s.sequence == target)
    case Blocked(g, target) =>
      g <= s.generation && target % 2 == 1 && target <= s.sequence &&
      (WritesOlder(s, g) ==> s.sequence == target) &&
      (s.sequence == target || s.signalled || s.writer.Signalling?)
    case Returned(g) => g <= s.generation && (s.generation < start + TWO_63 ==> !WritesOlder(s, g))
    case _ => true
  }

  predicate Inv(s: State, start: nat) {
    && WriterOk(s, start)
    && (forall i :: i in s.resetters ==> ResetterOk(s, s.resetters[i], start))
    && (forall i :: i in s.resetters ==> (Holds(s.resetters[i]) <==> s.holder == Some(i)))
    && (s.holder.Some? ==> s.holder.value in s.resetters)
  }

  /** Signed comparison means "older" exactly while the two generations are close enough together. */
  lemma PrecedesIsLess(a: nat, b: nat)
    requires -TWO_64 < a - b < TWO_64
    ensures (Precedes(a, b) <==> a < b) <==> (a - b < TWO_63 && b - a <= TWO_63)
  {
    if a < b {
      assert (a - b) % TWO_64 == a - b + TWO_64;
    }
  }

  lemma WriterStaysOk(start: nat, s: State)
    requires WriterOk(s, start)
    ensures WriterOk(StepWriter(s), start)
  {
  }

  lemma WriterSpares(start: nat, s: State, pc: ResetPc)
    requires WriterOk(s, start) && ResetterOk(s, pc, start)
    ensures ResetterOk(StepWriter(s), pc, start)
  {
  }

  lemma WriterKeeps(start: nat, s: State)
    requires Inv(s, start)
    ensures Inv(StepWriter(s), start)
  {
    hide WriterOk, ResetterOk;
    WriterStaysOk(start, s);
    forall i | i in s.resetters ensures ResetterOk(StepWriter(s), s.resetters[i], start) {
      WriterSpares(start, s, s.resetters[i]);
    }
  }

  lemma ReturnKeeps(start: nat, s: State, ok: bool)
    requires Inv(s, start)
    ensures Inv(ReturnWrite(s, ok), start)
  {
    var s' := ReturnWrite(s, ok);
    forall i | i in s'.resetters ensures ResetterOk(s', s'.resetters[i], start) {
      assert ResetterOk(s, s.resetters[i], start);
    }
  }

  /** A resetter that moves leaves the others' facts alone: it touches only its own program counter,
      raises the generation, and takes the completion signal only while it holds the lock. */
  lemma OthersKeep(start: nat, s: State, s': State, id: nat)
    requires Inv(s, start)
    requires s'.writer == s.writer && s'.sequence == s.sequence && s'.inFlight == s.inFlight
    requires s.generation <= s'.generation
    requires s'.signalled == s.signalled || (id in s.resetters && s.resetters[id].Blocked?)
    ensures forall i :: i in s.resetters && i != id ==> ResetterOk(s', s.resetters[i], start)
  {
    forall i | i in s.resetters && i != id ensures ResetterOk(s', s.resetters[i], start) {
      assert ResetterOk(s, s.resetters[i], start);
    }
  }

  /** What one step of a resetter may change, and what it knows afterwards. */
  lemma MoverOk(start: nat, s: State, id: nat)
    requires WriterOk(s, start) && id in s.resetters && ResetterOk(s, s.resetters[id], start)
    requires Holds(s.resetters[id]) <==> s.holder == Some(id)
    ensures var s' := StepResetter(s, id);
            && id in s'.resetters && ResetterOk(s', s'.resetters[id], start)
            && (Holds(s'.resetters[id]) <==> s'.holder == Some(id))
            && s'.resetters == s.resetters[id := s'.resetters[id]]
            && s'.writer == s.writer && s'.sequence == s.sequence && s'.inFlight == s.inFlight
            && s.generation <= s'.generation
            && (s'.signalled == s.signalled || s.resetters[id].Blocked?)
            && (s'.holder == s.holder || (s.holder == None && s'.holder == Some(id)) ||
                (s.holder == Some(id) && s'.holder == None))
  {
    if s.resetters[id].SawGeneration? && WritesOlder(s, s.resetters[id].generation) && s.generation < start + TWO_63 {
      PrecedesIsLess(s.resetters[id].generation, s.inFlight);
    }
  }

  lemma ResetterKeeps(start: nat, s: State, id: nat)
    requires Inv(s, start) && id in s.resetters
    ensures Inv(StepResetter(s, id), start)
  {
    MoverOk(start, s, id);
    hide StepResetter;
    var s' := StepResetter(s, id);
    OthersKeep(start, s, s', id);
    hide ResetterOk, Holds;
    assert WriterOk(s', start);
  }

  lemma StepKeeps(start: nat, s: State, a: Action)
    requires Inv(s, start)
    ensures Inv(Step(s, a), start)
  {
    hide StepWriter, StepResetter, ReturnWrite;
    match a
    case WriterStep => WriterKeeps(start, s);
    case WriteReturns(ok) => ReturnKeeps(start, s, ok);
    case ResetStep(id) => if id in s.resetters { ResetterKeeps(start, s, id); }
    case Take(_) => OthersUnderTake(start, s, a);
    case StopWriter => OthersUnderTake(start, s, a);
    case Adopt(_) => OthersUnderTake(start, s, a);
    case EnterReset(id, _) => OthersKeep(start, s, Step(s, a), id);
    case EnterBump(id) => OthersKeep(start, s, Step(s, a), id);
    case SeesExit(id) =>
      OthersKeep(start, s, Step(s, a), id);
      if id in s.resetters { assert ResetterOk(s, s.resetters[id], start); }
    case Deadline(id) => OthersKeep(start, s, Step(s, a), id);
  }

  lemma OthersUnderTake(start: nat, s: State, a: Action)
    requires Inv(s, start) && (a.Take? || a.Adopt? || a.StopWriter?)
    ensures Inv(Step(s, a), start)
  {
    var s' := Step(s, a);
    forall i | i in s'.resetters ensures ResetterOk(s', s'.resetters[i], start) {
      assert ResetterOk(s, s.resetters[i], start);
    }
  }

  lemma {:induction false} GenerationsRise(start: nat, actions: seq<Action>, more: seq<Action>)
    ensures Run(start, actions).generation <= Run(start, actions + more).generation
  {
    if more == [] {
      assert actions + more == actions;
    } else {
      GenerationsRise(start, actions, more[..|more| - 1]);
      assert (actions + more)[..|actions + more| - 1] == actions + more[..|more| - 1];
    }
  }

  /** The invariant holds in every interleaving, from every starting generation. */
  lemma {:induction false} RunKeeps(start: nat, actions: seq<Action>)
    ensures Inv(Run(start, actions), start)
  {
    hide Step;
    if actions != [] {
      RunKeeps(start, actions[..|actions| - 1]);
      StepKeeps(start, Run(start, actions[..|actions| - 1]), actions[|actions| - 1]);
    }
  }

  lemma ReturnStays(s: State, a: Action, id: nat)
    requires id in s.resetters && s.resetters[id].Returned?
    ensures id in Step(s, a).resetters && Step(s, a).resetters[id] == s.resetters[id]
  {
  }

  lemma {:induction false} ReturnsStay(start: nat, actions: seq<Action>, more: seq<Action>, id: nat)
    requires id in Run(start, actions).resetters && Run(start, actions).resetters[id].Returned?
    ensures id in Run(start, actions + more).resetters &&
            Run(start, actions + more).resetters[id] == Run(start, actions).resetters[id]
  {
    hide Step;
    if more == [] {
      assert actions + more == actions;
    } else {
      var init, last := more[..|more| - 1], more[|more| - 1];
      ReturnsStay(start, actions, init, id);
      assert (actions + more)[..|actions + more| - 1] == actions + init;
      ReturnStays(Run(start, actions + init), last, id);
    }
  }

  // ---------------------------------------------------------------- main results

  /** Once a reset to g has returned without timing out, no older tagged frame is ever on the socket again. */
  lemma ResetIsAHardBarrier(start: nat, actions: seq<Action>, more: seq<Action>, id: nat)
    requires id in Run(start, actions).resetters && Run(start, actions).resetters[id].Returned?
    requires Run(start, actions + more).generation < start + TWO_63
    ensures var s := Run(start, actions + more);
            !WritesOlder(s, Run(start, actions).resetters[id].generation)
  {
    ReturnsStay(start, actions, more, id);
    RunKeeps(start, actions + more);
    var s := Run(start, actions + more);
    assert ResetterOk(s, s.resetters[id], start);
  }

  /** Undisturbed, the writer puts a claimed frame on the socket unless it is tagged with another generation
      than the authoritative one, and after a good write it is idle with the completion signalled. */
  lemma CurrentFramesAreWritten(s: State)
    requires s.writer.Took?
    ensures var f := s.writer.frame;
            var checked := if f.tagged then StepWriter(StepWriter(StepWriter(s))) else StepWriter(s);
            && (checked.writer == Writing(f) <==> !f.tagged || f.generation == s.generation)
            && (checked.writer.Writing? ==>
                  var returned := ReturnWrite(checked, true);
                  var ended := if f.tagged then StepWriter(StepWriter(StepWriter(returned))) else returned;
                  ended.writer.Idle? &&
                  if f.tagged then ended.sequence == s.sequence + 2 && ended.inFlight == 0 && ended.signalled
                  else ended == s.(writer := Idle))
  {
  }

  /** No lost wake-up: a resetter asleep past the completion it waits for can always be woken. */
  lemma CompletionWakesTheResetter(start: nat, actions: seq<Action>, id: nat)
    requires id in Run(start, actions).resetters && Run(start, actions).resetters[id].Blocked?
    requires Run(start, actions).sequence != Run(start, actions).resetters[id].target
    ensures var s := Run(start, actions);
            var woken := if s.signalled then s else Step(s, WriterStep);
            var checked := Step(Step(woken, ResetStep(id)), ResetStep(id));
            checked.resetters[id] == Returned(s.resetters[id].generation) && checked.holder == None
  {
    RunKeeps(start, actions);
    var s := Run(start, actions);
    assert ResetterOk(s, s.resetters[id], start);
  }

  /** Beyond the half range the comparison is wrong: for any two generations that far apart, a resetter to the
      later one can return while a frame of the earlier one is being written. */
  lemma FarGenerationsBreakTheBarrier(early: nat, g: nat) returns (actions: seq<Action>)
    requires early + TWO_63 <= g < TWO_64
    ensures var s := Run(early, actions);
            s.generation == g && 0 in s.resetters && s.resetters[0] == Returned(g) &&
            s.writer == Writing(Frame(true, early)) && WritesOlder(s, g)
  {
    hide Run, StepResetter;
    var f := Frame(true, early);
    var writing := [Take(f), WriterStep, WriterStep, WriterStep];
    OldFrameInFlight(early, writing);
    var entered := writing + [EnterReset(0, g)];
    RunStep(early, writing, EnterReset(0, g));
    var r1 := entered + [ResetStep(0)];
    RunStep(early, entered, ResetStep(0));
    var r2 := r1 + [ResetStep(0)];
    RunStep(early, r1, ResetStep(0));
    var r3 := r2 + [ResetStep(0)];
    RunStep(early, r2, ResetStep(0));
    var r4 := r3 + [ResetStep(0)];
    RunStep(early, r3, ResetStep(0));
    actions := r4 + [ResetStep(0)];
    RunStep(early, r4, ResetStep(0));
    PrecedesIsLess(g, early);
    ResetWalk(Run(early, entered), f, g);
  }

  /** In every run from `start` whose generation stays within `limit`, a returned reset means what it says. */
  ghost predicate BarrierHolds(start: nat, limit: nat) {
    forall actions: seq<Action>, id: nat ::
      var s := Run(start, actions);
      s.generation <= limit && id in s.resetters && s.resetters[id].Returned? ==>
        !WritesOlder(s, s.resetters[id].generation)
  }

  /** The barrier holds exactly while generations stay less than half the range above where the run began. */
  lemma BarrierHoldsWithinHalfTheRange(start: nat, limit: nat)
    requires start <= limit < TWO_64
    ensures BarrierHolds(start, limit) <==> limit < start + TWO_63
  {
    if limit < start + TWO_63 {
      forall actions: seq<Action>, id: nat |
        var s := Run(start, actions);
        s.generation <= limit && id in s.resetters && s.resetters[id].Returned?
        ensures var s := Run(start, actions); !WritesOlder(s, s.resetters[id].generation)
      {
        assert actions + [] == actions;
        ResetIsAHardBarrier(start, actions, [], id);
      }
    } else {
      var actions := FarGenerationsBreakTheBarrier(start, start + TWO_63);
    }
  }

  /** The five steps of a lone resetter that finds an older frame in flight and takes it for a newer one. */
  lemma ResetWalk(s: State, f: Frame, g: nat)
    requires 0 in s.resetters && s.resetters[0] == Entering(g) && s.holder.None? && s.sequence == 1
    requires s.writer == Writing(f) && s.inFlight == f.generation && s.generation <= g && Precedes(g, f.generation) && g > 0
    ensures var s1 := Step(s, ResetStep(0));
            var s2 := Step(s1, ResetStep(0));
            var s3 := Step(s2, ResetStep(0));
            var s4 := Step(s3, ResetStep(0));
            var s5 := Step(s4, ResetStep(0));
            0 in s5.resetters && s5.resetters[0] == Returned(g) && s5.writer == Writing(f) && s5.generation == g
  {
    hide Precedes;
    var s1 := Step(s, ResetStep(0));
    assert s1.resetters[0] == Queued(g) && s1.holder.None?;
    var s2 := Step(s1, ResetStep(0));
    assert s2.resetters[0] == Looping(g) && s2.sequence == 1;
    var s3 := Step(s2, ResetStep(0));
    assert s3.resetters[0] == SawSequence(g, 1) && s3.inFlight == f.generation;
    var s4 := Step(s3, ResetStep(0));
    assert s4.resetters[0] == SawGeneration(g, 1, f.generation) && s4.sequence == 1;
  }

  lemma RunStep(start: nat, actions: seq<Action>, a: Action)
    ensures Run(start, actions + [a]) == Step(Run(start, actions), a)
  {
    assert (actions + [a])[..|actions + [a]| - 1] == actions;
  }

  lemma OldFrameInFlight(start: nat, actions: seq<Action>)
    requires actions == [Take(Frame(true, start)), WriterStep, WriterStep, WriterStep]
    ensures Run(start, actions) == State(start, start, 1, false, Writing(Frame(true, start)), map[], None)
  {
    var f := Frame(true, start);
    assert Run(start, actions[..1]) == State(start, 0, 0, false, Took(f), map[], None) by { assert actions[..1][..0] == []; }
    assert Run(start, actions[..2]) == State(start, start, 0, false, Announced(f), map[], None) by { assert actions[..2][..1] == actions[..1]; }
    assert Run(start, actions[..3]) == State(start, start, 1, false, Marked(f), map[], None) by { assert actions[..3][..2] == actions[..2]; }
    assert Run(start, actions) == Step(Run(start, actions[..3]), WriterStep);
  }
}
