/**
 The canonical feedback executor: one synchronous publication at a time, a reversible fence for resets
 and a permanent one for disconnects. Each section run under the executor's mutex is one function; the
 publisher is called between two of them.
 */
module CanonicalExecutor {
  import opened Basics
  import opened Options
  import opened FeedbackFrame

  datatype State =
    | Active | ResetDraining | ResetDrained | ResetNeutralizing
    | TerminalDraining | TerminalDrained | TerminalStopping | Stopped

  /** `OutputFree` actions publish nothing; the two that pass a transport boundary authorize the next generation. */
  datatype LocalAction = ApplyGuideLed | ApplyMotor | ClearOutputs | OutputFree(boundary: bool) | Unsupported

  /** One ordered execution from the persona engine; `valid` is that engine's own check. */
  datatype LocalExecution = LocalExecution(order: nat, generation: nat, action: LocalAction, valid: bool)

  /** `binding` is the persona generation of the last accepted frame, `authorized` the one that may publish. */
  datatype Executor = Executor(
    state: State, inFlight: bool, binding: nat, authorized: nat, ledOrder: Option<nat>)

  function NewExecutor(binding: nat): Executor { Executor(Active, false, binding, binding, None) }

  // ---------------------------------------------------------------- ordinary execution

  predicate Admits(x: Executor, e: LocalExecution, timely: bool) {
    x.state.Active? && !x.inFlight && timely && e.valid && e.generation == x.authorized
  }

  predicate Publishes(x: Executor, e: LocalExecution, timely: bool) {
    Admits(x, e, timely) && (e.action.ApplyMotor? || e.action.ClearOutputs?)
  }

  function BeginExecute(x: Executor, e: LocalExecution, timely: bool): Executor {
    if !Admits(x, e, timely) then x
    else
      match e.action
      case ApplyGuideLed => x.(ledOrder := Some(e.order))
      case OutputFree(boundary) =>
        if boundary && x.authorized < MAX_U64 then x.(authorized := x.authorized + 1) else x
      case Unsupported => x
      case _ => x.(inFlight := true)
  }

  function EndExecute(x: Executor, generation: nat, promote: bool, accepted: bool): Executor {
    x.(inFlight := false,
       binding := if accepted && promote && generation == x.authorized then generation else x.binding)
  }

  // ---------------------------------------------------------------- fences

  function BeginReset(x: Executor, timely: bool): Executor {
    if timely && x.state.Active? then x.(state := ResetDraining) else x
  }

  function BeginCancel(x: Executor, timely: bool): Executor {
    if timely && (x.state.Active? || x.state.ResetDraining? || x.state.ResetDrained? || x.state.ResetNeutralizing?)
    then x.(state := TerminalDraining) else x
  }

  /** One iteration of the bounded wait for the publication in flight. */
  function DrainIteration(x: Executor, draining: State, drained: State): Executor {
    if x.state == draining && !x.inFlight then x.(state := drained) else x
  }

  /** Only a clear of the exact successor generation may cross a fence. */
  predicate IsSuccessor(x: Executor, e: LocalExecution) {
    e.action.ClearOutputs? && e.valid && x.authorized < MAX_U64 && e.generation == x.authorized + 1
  }

  predicate CanNeutralize(x: Executor, e: LocalExecution, timely: bool) {
    x.state.ResetDrained? && !x.inFlight && timely && IsSuccessor(x, e)
  }

  function BeginNeutral(x: Executor): Executor { x.(state := ResetNeutralizing, inFlight := true) }

  function Rebind(x: Executor, generation: nat): Executor { x.(binding := generation, authorized := generation) }

  function EndNeutral(x: Executor, generation: nat, accepted: bool): Executor {
    var free := x.(inFlight := false);
    match x.state
    case ResetNeutralizing =>
      if accepted then Rebind(free, generation).(state := Active) else free.(state := ResetDrained)
    case TerminalDraining => if accepted then Rebind(free, generation) else free
    case _ => free
  }

  predicate CanStop(x: Executor, e: LocalExecution, timely: bool) {
    x.state.TerminalDrained? && !x.inFlight && timely && IsSuccessor(x, e)
  }

  function BeginStop(x: Executor): Executor { x.(state := TerminalStopping, inFlight := true) }

  function EndStop(x: Executor, generation: nat, accepted: bool): Executor {
    var free := x.(inFlight := false);
    if accepted then Rebind(free, generation).(state := Stopped) else free.(state := TerminalDrained)
  }

  // ---------------------------------------------------------------- bounded frames

  /** Bounds a motor frame by an absolute expiry; once that has passed, the frame is neutral instead. */
  function Limit(f: Frame, expiresAt: nat): Frame {
    if expiresAt == 0 || f.command != COMMAND_APPLY then f
    else if f.timestamp >= expiresAt then
      f.(command := COMMAND_NEUTRAL, bodyLow := 0, bodyHigh := 0, leftTrigger := 0, rightTrigger := 0)
    else
      f.(timeToLive := if expiresAt - f.timestamp < f.timeToLive then expiresAt - f.timestamp else f.timeToLive)
  }

  /** A bounded frame stays valid, never lives longer than before, and never drives a motor at or after the bound. */
  lemma LimitedFrameRespectsItsBound(f: Frame, expiresAt: nat, now: nat)
    requires ValidFrame(f)
    ensures ValidFrame(Limit(f, expiresAt))
    ensures FreshAt(Limit(f, expiresAt), now) ==> FreshAt(f, now)
    ensures expiresAt != 0 && f.timestamp <= now && FreshAt(Limit(f, expiresAt), now) && HasAmplitude(Limit(f, expiresAt)) ==>
              now < expiresAt
    ensures f.timestamp <= now < expiresAt && FreshAt(f, now) ==>
              FreshAt(Limit(f, expiresAt), now) && Limit(f, expiresAt).command == f.command
  {
  }

  // ---------------------------------------------------------------- interleavings

  datatype Kind = Ordinary | ResetNeutral | TerminalStop

  datatype Status = Publishing | Accepted | Rejected | Ambiguous

  /** One call of the publisher, with the locals of the calling thread; several could be in progress at once. */
  datatype Publication = Publication(kind: Kind, generation: nat, promote: bool, status: Status)

  datatype World = World(executor: Executor, log: seq<Publication>)

  datatype Action =
    | Execute(execution: LocalExecution, timely: bool)
    | ResetAndDrain(resetTimely: bool)
    | NeutralizeReset(neutral: LocalExecution, neutralTimely: bool)
    | CancelAndDrain(cancelTimely: bool)
    | Disconnect(stop: LocalExecution, stopTimely: bool)
    | Wait(terminal: bool)
    | PublisherReturns(index: nat, status: Status)

  function Finish(x: Executor, p: Publication, accepted: bool): Executor {
    match p.kind
    case Ordinary => EndExecute(x, p.generation, p.promote, accepted)
    case ResetNeutral => EndNeutral(x, p.generation, accepted)
    case TerminalStop => EndStop(x, p.generation, accepted)
  }

  function Start(w: World, x: Executor, kind: Kind, generation: nat, promote: bool): World {
    World(x, w.log + [Publication(kind, generation, promote, Publishing)])
  }

  function Step(w: World, a: Action): World {
    var x := w.executor;
    match a
    case Execute(e, timely) =>
      var x' := BeginExecute(x, e, timely);
      if Publishes(x, e, timely) then Start(w, x', Ordinary, x.authorized, x.authorized != x.binding)
      else w.(executor := x')
    case ResetAndDrain(timely) => w.(executor := BeginReset(x, timely))
    case NeutralizeReset(e, timely) =>
      if CanNeutralize(x, e, timely) then Start(w, BeginNeutral(x), ResetNeutral, e.generation, true) else w
    case CancelAndDrain(timely) => w.(executor := BeginCancel(x, timely))
    case Disconnect(e, timely) =>
      if CanStop(x, e, timely) then Start(w, BeginStop(x), TerminalStop, e.generation, true) else w
    case Wait(terminal) =>
      w.(executor := if terminal then DrainIteration(x, TerminalDraining, TerminalDrained)
                     else DrainIteration(x, ResetDraining, ResetDrained))
    case PublisherReturns(i, status) =>
      if i < |w.log| && w.log[i].status.Publishing? && !status.Publishing?
      then World(Finish(x, w.log[i], status.Accepted?), w.log[i := w.log[i].(status := status)])
      else w
  }

  function Run(binding: nat, actions: seq<Action>): World {
    if actions == [] then World(NewExecutor(binding), [])
    else Step(Run(binding, actions[..|actions| - 1]), actions[|actions| - 1])
  }

  // ---------------------------------------------------------------- invariant

  /** At most the newest publication is in progress, exactly while the executor says so. */
  predicate Exclusive(w: World) {
    && (w.executor.inFlight ==> w.log != [])
    && (forall i :: 0 <= i < |w.log| ==>
          (w.log[i].status.Publishing? <==> w.executor.inFlight && i == |w.log| - 1))
  }

  predicate Rising(log: seq<Publication>) {
    forall i, j :: 0 <= i < j < |log| ==> log[i].generation <= log[j].generation
  }

  /** Once a terminal Stop has been tried, only the same Stop is tried again, and never after it was accepted. */
  predicate StopTail(log: seq<Publication>) {
    forall i, j :: 0 <= i < j < |log| && log[i].kind.TerminalStop? ==>
      log[j].kind.TerminalStop? && log[j].generation == log[i].generation && !log[i].status.Accepted?
  }

  predicate LastIs(w: World, kind: Kind) {
    w.log != [] && w.log[|w.log| - 1].kind == kind && w.log[|w.log| - 1].generation == w.executor.authorized + 1
  }

  /** The newest publication, as the present state constrains it. */
  predicate LastOk(w: World) {
    var x := w.executor;
    x.binding <= x.authorized <= MAX_U64 &&
    if w.log == [] then !x.inFlight && !x.state.Stopped? && !x.state.TerminalStopping?
    else
      var last := w.log[|w.log| - 1];
      match x.state
      case Active => !last.kind.TerminalStop? && last.generation <= x.authorized && (x.inFlight ==> OrdinaryOk(x, last))
      case ResetDraining => !last.kind.TerminalStop? && last.generation <= x.authorized && (x.inFlight ==> OrdinaryOk(x, last))
      case ResetDrained => !last.kind.TerminalStop? && last.generation <= x.authorized + 1 && !x.inFlight
      case ResetNeutralizing => x.inFlight && LastIs(w, ResetNeutral) && x.authorized < MAX_U64
      case TerminalDraining =>
        !last.kind.TerminalStop? && last.generation <= x.authorized + 1 &&
        (x.inFlight ==> OrdinaryOk(x, last) || (LastIs(w, ResetNeutral) && x.authorized < MAX_U64))
      case TerminalDrained =>
        !x.inFlight && last.generation <= x.authorized + 1 && !last.status.Publishing? &&
        (last.kind.TerminalStop? ==> LastIs(w, TerminalStop) && !last.status.Accepted?)
      case TerminalStopping => x.inFlight && LastIs(w, TerminalStop) && x.authorized < MAX_U64
      case Stopped => !x.inFlight && last.kind.TerminalStop? && last.status.Accepted? && last.generation == x.authorized
  }

  predicate OrdinaryOk(x: Executor, last: Publication) {
    last.kind.Ordinary? && last.generation == x.authorized && (last.promote || x.binding == x.authorized)
  }

  predicate Inv(w: World) { Exclusive(w) && Rising(w.log) && StopTail(w.log) && LastOk(w) }

  lemma StartKeeps(w: World, x: Executor, kind: Kind, generation: nat, promote: bool)
    requires Inv(w) && !w.executor.inFlight && x.inFlight
    requires w.log != [] ==> w.log[|w.log| - 1].generation <= generation
    requires w.log != [] && w.log[|w.log| - 1].kind.TerminalStop? ==>
               kind.TerminalStop? && w.log[|w.log| - 1].generation == generation && !w.log[|w.log| - 1].status.Accepted?
    ensures var w' := Start(w, x, kind, generation, promote); Exclusive(w') && Rising(w'.log) && StopTail(w'.log)
  {
    var w' := Start(w, x, kind, generation, promote);
    var n := |w.log|;
    forall i, j | 0 <= i < j < |w'.log|
      ensures w'.log[i].generation <= w'.log[j].generation
      ensures w'.log[i].kind.TerminalStop? ==>
                w'.log[j].kind.TerminalStop? && w'.log[j].generation == w'.log[i].generation && !w'.log[i].status.Accepted?
    {
      if j == n && i < n - 1 { assert w.log[i].generation <= w.log[n - 1].generation; }
    }
  }

  lemma ReturnKeeps(w: World, i: nat, status: Status)
    requires Inv(w)
    ensures Inv(Step(w, PublisherReturns(i, status)))
  {
    var w' := Step(w, PublisherReturns(i, status));
    if w' != w {
      assert i == |w.log| - 1;
      forall k | 0 <= k < |w.log|
        ensures w'.log[k].kind == w.log[k].kind && w'.log[k].generation == w.log[k].generation
        ensures k != i ==> w'.log[k] == w.log[k]
      {
      }
    }
  }

  lemma StepKeeps(w: World, a: Action)
    requires Inv(w)
    ensures Inv(Step(w, a))
  {
    var x := w.executor;
    match a
    case Execute(e, timely) =>
      if Publishes(x, e, timely) {
        StartKeeps(w, BeginExecute(x, e, timely), Ordinary, x.authorized, x.authorized != x.binding);
      }
    case NeutralizeReset(e, timely) =>
      if CanNeutralize(x, e, timely) { StartKeeps(w, BeginNeutral(x), ResetNeutral, e.generation, true); }
    case Disconnect(e, timely) =>
      if CanStop(x, e, timely) { StartKeeps(w, BeginStop(x), TerminalStop, e.generation, true); }
    case PublisherReturns(i, status) => ReturnKeeps(w, i, status);
    case _ => hide Rising, StopTail;
  }

  lemma {:induction false} RunKeeps(binding: nat, actions: seq<Action>)
    requires binding <= MAX_U64
    ensures Inv(Run(binding, actions))
  {
    hide Step;
    if actions != [] {
      RunKeeps(binding, actions[..|actions| - 1]);
      StepKeeps(Run(binding, actions[..|actions| - 1]), actions[|actions| - 1]);
    }
  }

  // ---------------------------------------------------------------- main results

  /** Two publications are never in progress at once, whatever calls interleave. */
  lemma PublicationsNeverOverlap(binding: nat, actions: seq<Action>, i: nat, j: nat)
    requires binding <= MAX_U64 && i < j < |Run(binding, actions).log|
    ensures !Run(binding, actions).log[i].status.Publishing?
  {
    RunKeeps(binding, actions);
  }

  /** Persona generations never decrease, over all publications and not only the accepted ones. */
  lemma GenerationsNeverDecrease(binding: nat, actions: seq<Action>, i: nat, j: nat)
    requires binding <= MAX_U64 && i < j < |Run(binding, actions).log|
    ensures Run(binding, actions).log[i].generation <= Run(binding, actions).log[j].generation
  {
    RunKeeps(binding, actions);
  }

  /** An accepted terminal Stop is the last publication; after one that was refused or whose outcome is unknown,
      only the identical Stop is published. */
  lemma TerminalStopIsLast(binding: nat, actions: seq<Action>, i: nat, j: nat)
    requires binding <= MAX_U64 && i < j < |Run(binding, actions).log|
    requires Run(binding, actions).log[i].kind.TerminalStop?
    ensures var a, b := Run(binding, actions).log[i], Run(binding, actions).log[j];
            !a.status.Accepted? && b.kind.TerminalStop? && b.generation == a.generation
  {
    RunKeeps(binding, actions);
  }

  /** Behind a completed fence nothing is being published. */
  lemma DrainedMeansQuiet(binding: nat, actions: seq<Action>, i: nat)
    requires binding <= MAX_U64 && i < |Run(binding, actions).log|
    requires var s := Run(binding, actions).executor.state; s.ResetDrained? || s.TerminalDrained? || s.Stopped?
    ensures !Run(binding, actions).log[i].status.Publishing?
  {
    RunKeeps(binding, actions);
  }

  /** An ordinary publication carries the authorized generation, and its acceptance binds that generation. */
  lemma OrdinaryFramesAreAuthorized(binding: nat, actions: seq<Action>, i: nat)
    requires binding <= MAX_U64 && i < |Run(binding, actions).log|
    requires var p := Run(binding, actions).log[i]; p.kind.Ordinary? && p.status.Publishing?
    ensures var w := Run(binding, actions);
            w.log[i].generation == w.executor.authorized &&
            Step(w, PublisherReturns(i, Accepted)).executor.binding == w.executor.authorized &&
            Step(w, PublisherReturns(i, Rejected)).executor.binding == w.executor.binding
  {
    hide Run;
    RunKeeps(binding, actions);
  }

  /** When the reset neutral returns, the executor is neutralizing or terminally draining: its fallback is dead. */
  lemma NeutralReturnIsExpected(binding: nat, actions: seq<Action>, i: nat)
    requires binding <= MAX_U64 && i < |Run(binding, actions).log|
    requires var p := Run(binding, actions).log[i]; p.kind.ResetNeutral? && p.status.Publishing?
    ensures var s := Run(binding, actions).executor.state; s.ResetNeutralizing? || s.TerminalDraining?
  {
    RunKeeps(binding, actions);
  }

  /** A refused reset or disconnect leaves its fence in place, so that the exact same call can be repeated. */
  lemma RefusalKeepsTheFence(binding: nat, actions: seq<Action>, e: LocalExecution, status: Status)
    requires binding <= MAX_U64 && !status.Accepted? && !status.Publishing?
    ensures var w := Run(binding, actions);
            var n := |w.log|;
            && (CanNeutralize(w.executor, e, true) ==>
                  Step(Step(w, NeutralizeReset(e, true)), PublisherReturns(n, status)).executor == w.executor)
            && (CanStop(w.executor, e, true) ==>
                  Step(Step(w, Disconnect(e, true)), PublisherReturns(n, status)).executor == w.executor)
  {
    RunKeeps(binding, actions);
  }

  /** Accepting the successor neutral reopens execution for exactly that generation; accepting Stop closes it. */
  lemma AcceptanceRebinds(w: World, e: LocalExecution)
    requires Inv(w)
    ensures var n := |w.log|;
            && (CanNeutralize(w.executor, e, true) ==>
                  var x := Step(Step(w, NeutralizeReset(e, true)), PublisherReturns(n, Accepted)).executor;
                  x.state.Active? && x.binding == x.authorized == e.generation == w.executor.authorized + 1)
            && (CanStop(w.executor, e, true) ==>
                  var x := Step(Step(w, Disconnect(e, true)), PublisherReturns(n, Accepted)).executor;
                  x.state.Stopped? && x.binding == x.authorized == e.generation)
  {
  }
}
