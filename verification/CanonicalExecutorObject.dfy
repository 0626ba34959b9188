/**
 The canonical feedback executor as an object. A method that calls the publisher is split where the
 source unlocks; the publisher's answer is the argument of the second half.
 */
module CanonicalExecutorObject {
  import opened Basics
  import opened Options
  import opened CanonicalExecutor

  class FeedbackExecutor {
    var state: State
    var inFlight: bool
    var binding: nat
    var authorized: nat
    var ledOrder: Option<nat>

    ghost function View(): Executor
      reads this
    {
      Executor(state, inFlight, binding, authorized, ledOrder)
    }

    constructor (binding: nat)
      ensures View() == NewExecutor(binding)
    {
      state, inFlight, this.binding, authorized, ledOrder := Active, false, binding, binding, None;
    }

    /** Returns the generation to publish and whether its acceptance rebinds, when there is something to publish. */
    method StartExecute(e: LocalExecution, timely: bool) returns (publish: Option<(nat, bool)>)
      modifies this
      ensures View() == BeginExecute(old(View()), e, timely)
      ensures publish == if Publishes(old(View()), e, timely)
                         then Some((old(authorized), old(authorized != binding))) else None
    {
      publish := None;
      if !state.Active? || inFlight || !timely || !e.valid || e.generation != authorized { return; }
      match e.action {
        case ApplyGuideLed => ledOrder := Some(e.order);
        case OutputFree(boundary) =>
          if boundary && authorized < MAX_U64 { authorized := authorized + 1; }
        case Unsupported =>
        case _ =>
          publish := Some((authorized, authorized != binding));
          inFlight := true;
      }
    }

    method FinishExecute(generation: nat, promote: bool, accepted: bool)
      modifies this`inFlight, this`binding
      ensures View() == EndExecute(old(View()), generation, promote, accepted)
    {
      if accepted && promote && generation == authorized { binding := generation; }
      inFlight := false;
    }

    method StartReset(timely: bool) returns (wait: bool)
      modifies this`state
      ensures View() == BeginReset(old(View()), timely)
      ensures wait <==> timely && (old(state).Active? || old(state).ResetDraining?)
    {
      if !timely || !(state.Active? || state.ResetDraining?) { return false; }
      state := ResetDraining;
      return true;
    }

    method StartCancel(timely: bool) returns (wait: bool)
      modifies this`state
      ensures View() == BeginCancel(old(View()), timely)
      ensures wait <==> timely && state.TerminalDraining?
    {
      if !timely { return false; }
      match state {
        case TerminalDraining => return true;
        case Active => state := TerminalDraining;
        case ResetDraining => state := TerminalDraining;
        case ResetDrained => state := TerminalDraining;
        case ResetNeutralizing => state := TerminalDraining;
        case _ => return false;
      }
      return true;
    }

    method WaitIteration(draining: State, drained: State) returns (done: bool)
      modifies this`state
      ensures View() == DrainIteration(old(View()), draining, drained)
      ensures done <==> old(state) == draining && !inFlight
    {
      if state != draining || inFlight { return false; }
      state := drained;
      return true;
    }

    method StartNeutral(e: LocalExecution, timely: bool) returns (publish: bool)
      modifies this`state, this`inFlight
      ensures publish == CanNeutralize(old(View()), e, timely)
      ensures View() == if publish then BeginNeutral(old(View())) else old(View())
    {
      if !state.ResetDrained? || inFlight || !timely || !IsSuccessor(Executor(state, inFlight, binding, authorized, ledOrder), e) {
        return false;
      }
      state, inFlight := ResetNeutralizing, true;
      return true;
    }

    method FinishNeutral(generation: nat, accepted: bool) returns (ok: bool)
      modifies this
      ensures View() == EndNeutral(old(View()), generation, accepted)
      ensures ok <==> accepted && (old(state).ResetNeutralizing? || old(state).TerminalDraining?)
    {
      inFlight := false;
      match state {
        case ResetNeutralizing =>
          if accepted { binding, authorized, state := generation, generation, Active; } else { state := ResetDrained; }
        case TerminalDraining =>
          if accepted { binding, authorized := generation, generation; }
        case _ => return false;
      }
      return accepted;
    }

    method StartStop(e: LocalExecution, timely: bool) returns (publish: bool)
      modifies this`state, this`inFlight
      ensures publish == CanStop(old(View()), e, timely)
      ensures View() == if publish then BeginStop(old(View())) else old(View())
    {
      if !state.TerminalDrained? || inFlight || !timely || !IsSuccessor(Executor(state, inFlight, binding, authorized, ledOrder), e) {
        return false;
      }
      state, inFlight := TerminalStopping, true;
      return true;
    }

    method FinishStop(generation: nat, accepted: bool)
      modifies this
      ensures View() == EndStop(old(View()), generation, accepted)
    {
      inFlight := false;
      if accepted { binding, authorized, state := generation, generation, Stopped; } else { state := TerminalDrained; }
    }
  }
}
