/** Accepted commands drain in order; only repetitions of a static tail share a slot; nothing is overwritten. */
module ControlRingProofs {
  import opened ControlRing

  lemma Extend(events: seq<Event>, e: Event)
    ensures AcceptedCommands(events + [e]) ==
            if e.Accepted? then AcceptedCommands(events) + [e.command] else AcceptedCommands(events)
    ensures DrainedCommands(events + [e]) ==
            if e.Drained? then DrainedCommands(events) + [e.command] else DrainedCommands(events)
    ensures StoredCommands(events + [e]) ==
            if e.Accepted? && !e.merged then StoredCommands(events) + [e.command] else StoredCommands(events)
  {
    assert (events + [e])[..|events + [e]| - 1] == events;
  }

  /** Old merges stay legal; the newest one has to be shown. */
  lemma MergesExtend(events: seq<Event>, e: Event)
    requires forall i :: 0 <= i < |events| ==> MergeOk(events, i)
    requires e.Accepted? && e.merged ==> MayMerge(events, e.command)
    ensures forall i :: 0 <= i < |events + [e]| ==> MergeOk(events + [e], i)
  {
    forall i | 0 <= i < |events + [e]| ensures MergeOk(events + [e], i) {
      assert (events + [e])[..i] == if i < |events| then events[..i] else events;
      if i < |events| { assert MergeOk(events, i); }
    }
  }

  lemma DestutterExtends(s: seq<Command>, c: Command)
    ensures Destutter(s + [c]) == if s != [] && s[|s| - 1] == c then Destutter(s) else Destutter(s) + [c]
  {
    assert (s + [c])[..|s + [c]| - 1] == s;
  }

  lemma BlinkingExtends(s: seq<Command>, c: Command)
    ensures Blinking(s + [c]) == if WellFormed(c) && Blinks(c) then Blinking(s) + [c] else Blinking(s)
  {
    assert (s + [c])[..|s + [c]| - 1] == s;
  }

  lemma MergeKeeps(w: World, c: Command)
    requires Inv(w) && Accepts(w.control, true, c) && Merges(w.control, c)
    ensures Inv(Step(w, EnqueueControl(true, c)))
  {
    var e := Accepted(c, true);
    TailIsLastStored(w);
    UnclaimedTail(w, c);
    Extend(w.events, e);
    MergesExtend(w.events, e);
    DestutterExtends(AcceptedCommands(w.events), c);
    BlinkingExtends(AcceptedCommands(w.events), c);
    hide Destutter, Blinking, StoredCommands, DrainedCommands, AcceptedCommands, MergeOk;
  }

  lemma TailIsLastStored(w: World)
    requires Inv(w) && w.control.queue != []
    ensures var accepted, q := AcceptedCommands(w.events), w.control.queue;
            accepted != [] && accepted[|accepted| - 1] == q[|q| - 1]
  {
    hide Destutter, Blinking, StoredCommands, DrainedCommands, AcceptedCommands, MergeOk;
  }

  /** While the queue is not empty, its tail is the last stored command and is not drained. */
  lemma UnclaimedTail(w: World, c: Command)
    requires Inv(w) && WellFormed(c) && Merges(w.control, c)
    ensures MayMerge(w.events, c)
  {
    hide Destutter, Blinking, StoredCommands, DrainedCommands, AcceptedCommands, MergeOk;
    assert !w.control.stopped;
    var d, q := DrainedCommands(w.events), w.control.queue;
    assert d + q + [] == d + q;
  }

  lemma StoreKeeps(w: World, c: Command)
    requires Inv(w) && Accepts(w.control, true, c) && !Merges(w.control, c)
    ensures Inv(Step(w, EnqueueControl(true, c)))
  {
    hide Alike, StoredCommands, DrainedCommands, AcceptedCommands, MergeOk;
    var e, stored, accepted := Accepted(c, false), StoredCommands(w.events), AcceptedCommands(w.events);
    Extend(w.events, e);
    MergesExtend(w.events, e);
    AlikeExtends(accepted, stored, c);
    assert DrainedCommands(w.events) + w.control.queue + [] + [c] == DrainedCommands(w.events) + (w.control.queue + [c]) + [];
  }

  lemma AlikeExtends(a: seq<Command>, b: seq<Command>, c: Command)
    requires Alike(a, b)
    ensures Alike(a + [c], b + [c])
  {
    DestutterExtends(a, c);
    BlinkingExtends(a, c);
    DestutterExtends(b, c);
    BlinkingExtends(b, c);
    hide Destutter, Blinking;
  }

  lemma TakeKeeps(w: World, room: nat)
    requires Inv(w) && Takes(w.control, room)
    ensures Inv(Step(w, TakeControl(room)))
  {
    hide Alike, StoredCommands, DrainedCommands, AcceptedCommands, MergeOk;
    var e := Drained(w.control.queue[0]);
    Extend(w.events, e);
    MergesExtend(w.events, e);
    HeadMoves(DrainedCommands(w.events), w.control.queue, w.discarded);
    assert (w.events + [e])[..|w.events + [e]| - 1] == w.events;
  }

  lemma HeadMoves(drained: seq<Command>, queue: seq<Command>, discarded: seq<Command>)
    requires queue != []
    ensures drained + [queue[0]] + queue[1..] + discarded == drained + queue + discarded
  {
    assert [queue[0]] + queue[1..] == queue;
  }

  lemma InterruptKeeps(w: World)
    requires Inv(w)
    ensures Inv(Step(w, AudioOrReset))
  {
    Extend(w.events, Interrupted);
    MergesExtend(w.events, Interrupted);
    hide Destutter, Blinking, StoredCommands, DrainedCommands, AcceptedCommands, MergeOk;
  }

  lemma StepKeeps(w: World, a: Action)
    requires Inv(w)
    ensures Inv(Step(w, a))
  {
    hide Destutter, Blinking, StoredCommands, DrainedCommands, AcceptedCommands, MergeOk;
    match a
    case EnqueueControl(outputState, c) =>
      if Accepts(w.control, outputState, c) {
        if Merges(w.control, c) { MergeKeeps(w, c); } else { StoreKeeps(w, c); }
      }
    case TakeControl(room) => if Takes(w.control, room) { TakeKeeps(w, room); }
    case AudioOrReset => InterruptKeeps(w);
    case StopWriter =>
      assert DrainedCommands(w.events) + w.control.queue + [] == DrainedCommands(w.events) + [] + w.control.queue;
  }

  lemma {:induction false} RunKeeps(actions: seq<Action>)
    ensures Inv(Run(actions))
  {
    hide Step;
    if actions != [] {
      RunKeeps(actions[..|actions| - 1]);
      StepKeeps(Run(actions[..|actions| - 1]), actions[|actions| - 1]);
    }
  }

  // ---------------------------------------------------------------- main results

  /** What was given a slot is, in order, what was drained, what is queued, and what a stop discarded. */
  lemma StoredCommandsDrainInOrder(actions: seq<Action>)
    ensures var w := Run(actions);
            StoredCommands(w.events) == DrainedCommands(w.events) + w.control.queue + w.discarded &&
            (!w.control.stopped ==> w.discarded == [])
  {
    RunKeeps(actions);
  }

  /** The acknowledged commands are those, up to repetitions; blinking commands are not even merged. */
  lemma AcceptedIsDrainedUpToRepetition(actions: seq<Action>)
    ensures var w := Run(actions);
            var kept := DrainedCommands(w.events) + w.control.queue + w.discarded;
            Destutter(AcceptedCommands(w.events)) == Destutter(kept) &&
            Blinking(AcceptedCommands(w.events)) == Blinking(kept)
  {
    RunKeeps(actions);
  }

  /** A merged command is static, repeats the latest acceptance with no audio or reset in between, and shares the
      slot of the last stored command, which has not been drained at that point. */
  lemma OnlyUninterruptedRepetitionsMerge(actions: seq<Action>, e: nat)
    requires var events := Run(actions).events; e < |events| && events[e].Accepted? && events[e].merged
    ensures var events := Run(actions).events;
            var stored := StoredCommands(events[..e]);
            && WellFormed(events[e].command) && !Blinks(events[e].command) && Repeats(events[..e], events[e].command)
            && |DrainedCommands(events[..e])| < |stored| && stored[|stored| - 1] == events[e].command
  {
    RunKeeps(actions);
    assert MergeOk(Run(actions).events, e);
  }

  /** A completely full ring ends in a motor-zero command. */
  lemma FullRingEndsInMotorZero(actions: seq<Action>)
    requires |Run(actions).control.queue| == CAPACITY
    ensures var q := Run(actions).control.queue; WellFormed(q[CAPACITY - 1]) && MotorsZero(q[CAPACITY - 1])
  {
    RunKeeps(actions);
  }

  /** A running writer refuses a motor-zero command only if the motors already end at zero. */
  lemma MotorZeroIsRefusedOnlyAfterMotorZero(actions: seq<Action>, c: Command)
    requires WellFormed(c) && MotorsZero(c)
    requires !Run(actions).control.stopped && !Accepts(Run(actions).control, true, c)
    ensures var q := Run(actions).control.queue;
            |q| == CAPACITY && WellFormed(q[|q| - 1]) && MotorsZero(q[|q| - 1])
  {
    RunKeeps(actions);
  }
}

/** The ring as a fixed array with a read index, a count and the repeatable-tail flag. */
module ControlRingObject {
  import opened Basics
  import opened Options
  import opened ControlRing

  class ControlWriter {
    const slots: array<Command>
    var read: nat
    var count: nat
    var repeatableTail: bool
    var stopped: bool

    ghost predicate Valid()
      reads this
    {
      slots.Length == CAPACITY && read < CAPACITY && count <= CAPACITY
    }

    ghost function Queue(): seq<Command>
      requires Valid()
      reads this, slots
    {
      seq(count, i requires 0 <= i < count reads this, slots requires Valid() => slots[(read + i) % CAPACITY])
    }

    ghost function View(): Control
      requires Valid()
      reads this, slots
    {
      Control(Queue(), repeatableTail, stopped)
    }

    constructor ()
      ensures Valid() && View() == NEW_CONTROL && fresh(slots)
    {
      slots := new Command[CAPACITY](_ => []);
      read, count, repeatableTail, stopped := 0, 0, false, false;
    }

    method EnqueueControl(outputState: bool, payload: Command) returns (ok: bool)
      requires Valid()
      modifies this`count, this`repeatableTail, slots
      ensures Valid() && View() == Enqueue(old(View()), outputState, payload)
      ensures ok == Accepts(old(View()), outputState, payload)
    {
      if !outputState || |payload| != PAYLOAD_LENGTH || stopped { return false; }
      var repeatable := payload[5] == 0 && payload[6] == 0;
      if repeatable && repeatableTail && count > 0 {
        var tail := (read + count - 1) % CAPACITY;
        assert slots[tail] == Queue()[count - 1];
        if slots[tail] == payload { return true; }
      }
      var neutral := payload[0] == 0 && payload[1] == 0;
      if count == CAPACITY || (!neutral && count >= CAPACITY - 1) { return false; }
      Store(payload);
      repeatableTail := repeatable;
      return true;
    }

    /** Writes the free slot behind the tail, and no other. */
    method Store(c: Command)
      requires Valid() && count < CAPACITY
      modifies this`count, slots
      ensures Valid() && Queue() == old(Queue()) + [c]
    {
      ghost var before := Queue();
      slots[(read + count) % CAPACITY] := c;
      forall i | 0 <= i < count ensures slots[(read + i) % CAPACITY] == before[i] { SlotsDiffer(CAPACITY, read + i, read + count); }
      count := count + 1;
    }

    method TakeControl(room: nat) returns (c: Option<Command>)
      requires Valid()
      modifies this`read, this`count, this`repeatableTail, slots
      ensures Valid() && View() == Take(old(View()), room)
      ensures c == if Takes(old(View()), room) then Some(old(Queue())[0]) else None
    {
      if count == 0 || room < PAYLOAD_LENGTH { return None; }
      c := Some(slots[read]);
      DropHead();
      if count == 0 { repeatableTail := false; }
    }

    method DropHead()
      requires Valid() && count > 0
      modifies this`read, this`count, slots
      ensures Valid() && Queue() == old(Queue())[1..]
    {
      ghost var before := Queue();
      slots[read] := [];
      forall i | 1 <= i < count ensures slots[(read + i) % CAPACITY] == before[i] { SlotsDiffer(CAPACITY, read, read + i); }
      read, count := (read + 1) % CAPACITY, count - 1;
      forall i | 0 <= i < count ensures Queue()[i] == before[1..][i] { NextSlot(CAPACITY, old(read) + 1, i); }
    }

    method BreakControlRepeat()
      requires Valid()
      modifies this`repeatableTail
      ensures Valid() && View() == BreakRepeat(old(View()))
    {
      repeatableTail := false;
    }

    method RequestStop()
      requires Valid()
      modifies this, slots
      ensures Valid() && View() == Stop(old(View()))
    {
      if stopped { return; }
      stopped := true;
      forall i | 0 <= i < CAPACITY { slots[i] := []; }
      read, count, repeatableTail := 0, 0, false;
    }
  }
}
