/**
 The control ring of the DualShock 4 output writer, as a queue of complete output states. A static
 state that equals the unclaimed tail is accepted without a slot of its own, and the last slot is
 kept for a motor-zero command.
 */
module ControlRing {

  const CAPACITY := 32
  const PAYLOAD_LENGTH := 7

  /** Two motor levels, three light-bar bytes and two blink intervals. */
  type Command = seq<nat>

  predicate WellFormed(c: Command) { |c| == PAYLOAD_LENGTH }

  predicate Blinks(c: Command)
    requires WellFormed(c)
  {
    c[5] != 0 || c[6] != 0
  }

  predicate MotorsZero(c: Command)
    requires WellFormed(c)
  {
    c[0] == 0 && c[1] == 0
  }

  /** `repeatable`: the tail was static and no audio or reset has come since. */
  datatype Control = Control(queue: seq<Command>, repeatable: bool, stopped: bool)

  const NEW_CONTROL := Control([], false, false)

  predicate Merges(q: Control, c: Command)
    requires WellFormed(c)
  {
    !Blinks(c) && q.repeatable && |q.queue| > 0 && q.queue[|q.queue| - 1] == c
  }

  predicate HasRoom(q: Control, c: Command)
    requires WellFormed(c)
  {
    |q.queue| < CAPACITY && (MotorsZero(c) || |q.queue| < CAPACITY - 1)
  }

  predicate Accepts(q: Control, outputState: bool, c: Command) {
    outputState && WellFormed(c) && !q.stopped && (Merges(q, c) || HasRoom(q, c))
  }

  function Enqueue(q: Control, outputState: bool, c: Command): Control {
    if !Accepts(q, outputState, c) || Merges(q, c) then q
    else Control(q.queue + [c], !Blinks(c), false)
  }

  predicate Takes(q: Control, room: nat) { |q.queue| > 0 && room >= PAYLOAD_LENGTH }

  function Take(q: Control, room: nat): Control {
    if !Takes(q, room) then q
    else q.(queue := q.queue[1..], repeatable := q.repeatable && |q.queue| > 1)
  }

  function BreakRepeat(q: Control): Control { q.(repeatable := false) }

  function Stop(q: Control): Control { if q.stopped then q else Control([], false, true) }

  // ---------------------------------------------------------------- runs

  datatype Action = EnqueueControl(outputState: bool, command: Command) | TakeControl(room: nat) | AudioOrReset | StopWriter

  datatype Event = Accepted(command: Command, merged: bool) | Drained(command: Command) | Interrupted

  datatype World = World(control: Control, events: seq<Event>, discarded: seq<Command>)

  function Step(w: World, a: Action): World {
    var q := w.control;
    match a
    case EnqueueControl(outputState, c) =>
      if Accepts(q, outputState, c)
      then w.(control := Enqueue(q, outputState, c), events := w.events + [Accepted(c, Merges(q, c))]) else w
    case TakeControl(room) =>
      if Takes(q, room) then w.(control := Take(q, room), events := w.events + [Drained(q.queue[0])]) else w
    case AudioOrReset => w.(control := BreakRepeat(q), events := w.events + [Interrupted])
    case StopWriter => if q.stopped then w else World(Stop(q), w.events, q.queue)
  }

  function Run(actions: seq<Action>): World {
    if actions == [] then World(NEW_CONTROL, [], [])
    else Step(Run(actions[..|actions| - 1]), actions[|actions| - 1])
  }

  // ---------------------------------------------------------------- what a client sees

  /** The commands that EnqueueControl acknowledged, merged ones included. */
  function AcceptedCommands(events: seq<Event>): seq<Command> {
    if events == [] then []
    else
      var last := events[|events| - 1];
      AcceptedCommands(events[..|events| - 1]) + if last.Accepted? then [last.command] else []
  }

  function DrainedCommands(events: seq<Event>): seq<Command> {
    if events == [] then []
    else
      var last := events[|events| - 1];
      DrainedCommands(events[..|events| - 1]) + if last.Drained? then [last.command] else []
  }

  function StoredCommands(events: seq<Event>): seq<Command> {
    if events == [] then []
    else
      var last := events[|events| - 1];
      StoredCommands(events[..|events| - 1]) + if last.Accepted? && !last.merged then [last.command] else []
  }

  /** Runs of the same command, written once. */
  function Destutter(s: seq<Command>): seq<Command> {
    if |s| <= 1 then s
    else Destutter(s[..|s| - 1]) + if s[|s| - 1] == s[|s| - 2] then [] else [s[|s| - 1]]
  }

  /** The commands that blink, with repetitions. */
  function Blinking(s: seq<Command>): seq<Command> {
    if s == [] then []
    else
      var last := s[|s| - 1];
      Blinking(s[..|s| - 1]) + if WellFormed(last) && Blinks(last) then [last] else []
  }

  // ---------------------------------------------------------------- invariant

  predicate QueueOk(q: Control) {
    && |q.queue| <= CAPACITY
    && (forall i :: 0 <= i < |q.queue| ==> WellFormed(q.queue[i]))
    && (|q.queue| == CAPACITY ==> MotorsZero(q.queue[CAPACITY - 1]))
    && (q.repeatable ==> |q.queue| > 0 && !Blinks(q.queue[|q.queue| - 1]))
    && (q.stopped ==> q.queue == [])
  }

  /** A command may be merged behind these events: it is static, it repeats the latest acceptance with no audio or
      reset since, and the slot that holds it is the tail and has not been drained. */
  predicate MayMerge(events: seq<Event>, c: Command) {
    var stored := StoredCommands(events);
    && WellFormed(c) && !Blinks(c) && Repeats(events, c)
    && |DrainedCommands(events)| < |stored| && stored[|stored| - 1] == c
  }

  predicate MergeOk(events: seq<Event>, e: nat)
    requires e < |events|
  {
    events[e].Accepted? && events[e].merged ==> MayMerge(events[..e], events[e].command)
  }

  /** The latest event other than a drain is an acceptance of this command. */
  predicate Repeats(events: seq<Event>, c: Command) {
    |events| > 0 &&
    var last := events[|events| - 1];
    if last.Drained? then Repeats(events[..|events| - 1], c) else last.Accepted? && last.command == c
  }

  predicate Inv(w: World) {
    var q := w.control;
    && QueueOk(q)
    && StoredCommands(w.events) == DrainedCommands(w.events) + q.queue + w.discarded
    && (!q.stopped ==> w.discarded == [])
    && (q.repeatable ==> Repeats(w.events, q.queue[|q.queue| - 1]))
    && (forall e :: 0 <= e < |w.events| ==> MergeOk(w.events, e))
    && Alike(AcceptedCommands(w.events), StoredCommands(w.events))
  }

  /** The same commands up to repetition, with the same blinking ones and the same last one. */
  predicate Alike(a: seq<Command>, b: seq<Command>) {
    && Destutter(a) == Destutter(b) && Blinking(a) == Blinking(b)
    && (a == [] <==> b == []) && (a != [] && b != [] ==> a[|a| - 1] == b[|b| - 1])
  }
}
