/**
 The executor as an object. What the participant answers and whether a deadline has passed are inputs.
 Claim, ClaimRetry and Admit hold the operation serializer across their preflight, so each is one
 method; Execute and CancelAndDrain give it up before they call the participant, so each is split
 where the source unlocks.
 */
module PacketExecutorOwner {
  import opened Basics
  import opened Options
  import opened PacketExecutor
  import Runs = PacketExecutorRuns

  class ExecutionOwner {
    var phase: Phase
    var nextEpoch: nat
    var nextToken: nat
    var claimToken: nat
    var execution: Execution
    var result: Result
    var callback: Option<Callback>

    ghost function View(): Owner
      reads this
    {
      Owner(phase, nextEpoch, nextToken, claimToken, execution, result, callback)
    }

    constructor ()
      ensures View() == NEW_OWNER
    {
      phase, nextEpoch, nextToken, claimToken := Idle, 0, 0, 0;
      execution, result, callback := NO_EXECUTION, NoResult, None;
    }

    method ClaimPacket(packet: seq<Message>, verdict: Runs.Preflight) returns (c: Option<Claim>)
      modifies this
      ensures var o := old(View());
              if !CanClaim(o) || !Compilable(packet, o.nextEpoch + 1) || verdict.Rejects? then c.None? && View() == o
              else if verdict.Panics? then c.None? && View() == Quarantine(o)
              else
                && View() == TakeClaim(o, Compiled(packet, o.nextEpoch + 1))
                && c == Some(Claim(claimToken, nextEpoch, |packet|)) && ValidClaim(View(), c.value)
    {
      if !phase.Idle? || nextEpoch >= MAX_U64 || nextToken >= MAX_U64 { return None; }
      var compiled := Compile(packet, nextEpoch + 1);
      if compiled.None? { return None; }
      c := TakePreflighted(compiled.value, verdict);
    }

    /** The part that Claim shares with the persona engine's own claims. */
    method TakePreflighted(e: Execution, verdict: Runs.Preflight) returns (c: Option<Claim>)
      requires CanClaim(View()) && ValidExecution(e) && e.epoch == nextEpoch + 1
      modifies this
      ensures var o := old(View());
              match verdict
              case Rejects => c.None? && View() == o
              case Panics => c.None? && View() == Quarantine(o)
              case Accepts =>
                View() == TakeClaim(o, e) && c == Some(Claim(claimToken, e.epoch, |e.actions|)) && ValidClaim(View(), c.value)
    {
      if verdict.Panics? { phase := Quarantined; return None; }
      if verdict.Rejects? { return None; }
      nextEpoch, nextToken, claimToken := nextEpoch + 1, nextToken + 1, nextToken + 1;
      execution, result, callback, phase := e, NoResult, None, Claimed;
      return Some(Claim(claimToken, execution.epoch, |execution.actions|));
    }

    method ClaimRetry(verdict: Runs.Preflight) returns (c: Option<Claim>)
      modifies this
      ensures var o := old(View());
              if !CanRetry(o) || verdict.Rejects? then c.None? && View() == o
              else if verdict.Panics? then c.None? && View() == Quarantine(o)
              else
                && View() == TakeRetry(o, o.execution)
                && c == Some(Claim(claimToken, execution.epoch, |execution.actions|))
    {
      if !phase.RetryPending? || nextToken >= MAX_U64 { return None; }
      if verdict.Panics? { phase := Quarantined; return None; }
      if verdict.Rejects? { return None; }
      nextToken, claimToken := nextToken + 1, nextToken + 1;
      result, callback, phase := NoResult, None, Claimed;
      return Some(Claim(claimToken, execution.epoch, |execution.actions|));
    }

    predicate Authentic(c: Claim)
      reads this
      ensures Authentic(c) <==> ValidClaim(View(), c)
    {
      && !phase.Quarantined? && c.token != 0 && c.epoch != 0 && c.count != 0
      && c.token == claimToken && c.epoch == execution.epoch && c.count == |execution.actions|
    }

    predicate AuthenticLease(l: Lease)
      reads this
      ensures AuthenticLease(l) <==> ValidLease(View(), l)
    {
      !phase.Quarantined? && l.token != 0 && ValidExecution(l.execution) && l.token == claimToken && l.execution == execution
    }

    method AdmitClaim(c: Claim, verdict: Runs.Preflight) returns (lease: Option<Lease>)
      modifies this
      ensures var o := old(View());
              if !ValidClaim(o, c) || !o.phase.Claimed? || verdict.Rejects? then lease.None? && View() == o
              else if verdict.Panics? then lease.None? && View() == Quarantine(o)
              else
                && View() == Admit(o, c) && lease == Some(Lease(c.token, execution))
                && (ValidExecution(execution) ==> CanExecute(View(), lease.value))
    {
      if !Authentic(c) || !phase.Claimed? { return None; }
      if verdict.Panics? { phase := Quarantined; return None; }
      if verdict.Rejects? { return None; }
      phase := Admitted;
      return Some(Lease(claimToken, execution));
    }

    method BeginExecute(l: Lease, timely: bool) returns (e: Option<Execution>)
      modifies this`phase, this`callback
      ensures var o := old(View());
              if timely && CanExecute(o, l) then View() == StartExecute(o) && e == Some(o.execution)
              else View() == o && e.None?
    {
      if !timely || !AuthenticLease(l) || !phase.Admitted? { return None; }
      phase, callback := Executing, None;
      return Some(execution);
    }

    method EndExecute(participantOk: bool, panicked: bool, late: bool)
      modifies this`phase, this`callback, this`result
      ensures View() == FinishExecute(old(View()), participantOk && !panicked, panicked || late)
    {
      callback := Some(Callback(participantOk && !panicked, panicked || late));
      match phase {
        case Executing =>
          if panicked || late {
            phase := DrainRequired;
          } else {
            phase := AwaitingResolution;
            if participantOk { result := ResultDelivered; } else { result := ResultRejected; }
          }
        case Cancelling =>
        case Quarantined =>
        case _ => phase := Quarantined;
      }
    }

    method BeginCancel(l: Lease, timely: bool) returns (e: Option<Execution>)
      modifies this`phase
      ensures var o := old(View());
              if timely && CanCancel(o, l) then View() == StartCancel(o) && e == Some(o.execution)
              else View() == o && e.None?
    {
      if !timely || !AuthenticLease(l) || (!phase.Executing? && !phase.DrainRequired?) { return None; }
      phase := Cancelling;
      return Some(execution);
    }

    method EndCancel(drained: bool) returns (cancelled: bool)
      modifies this`phase, this`result
      ensures View() == if drained then FinishCancel(old(View())) else Quarantine(old(View()))
      ensures cancelled <==> phase.AwaitingResolution? && result.ResultCancelled?
    {
      if !drained { phase := Quarantined; return false; }
      if !phase.Cancelling? || callback.None? { phase := Quarantined; return false; }
      if callback.value.ok { phase, result := AwaitingResolution, ResultDelivered; return false; }
      if callback.value.ambiguous { phase := Quarantined; return false; }
      phase, result := AwaitingResolution, ResultCancelled;
      return true;
    }

    method PrepareResolution(c: Claim, outcome: Outcome) returns (credential: Option<Credential>)
      modifies this`phase
      ensures var o := old(View());
              if CanPrepare(o, c, outcome)
              then View() == Prepare(o) && credential == Some(CredentialOf(o, outcome)) && CanCommit(View(), credential.value)
              else View() == o && credential.None?
    {
      if !Authentic(c) { return None; }
      var valid := match outcome
        case Deferred => phase.Claimed? || phase.Admitted?
        case Delivered => phase.AwaitingResolution? && result.ResultDelivered?
        case DeliveryFailed => phase.AwaitingResolution? && result.ResultRejected?
        case ExecutionCancelled => phase.AwaitingResolution? && result.ResultCancelled?;
      if !valid { return None; }
      credential := Some(Credential(claimToken, execution.epoch, |execution.actions|, outcome, result));
      phase := ResolutionPrepared;
    }

    method CommitResolution(c: Credential) returns (ok: bool)
      modifies this
      ensures ok == CanCommit(old(View()), c)
      ensures View() == if ok then Commit(old(View()), c.outcome) else old(View())
    {
      if c.token == 0 || c.token != claimToken || c.epoch != execution.epoch || c.count != |execution.actions| ||
         !phase.ResolutionPrepared? || c.result != result {
        return false;
      }
      claimToken, result, callback := 0, NoResult, None;
      if c.outcome.Delivered? {
        execution, phase := NO_EXECUTION, Idle;
      } else {
        phase := RetryPending;
      }
      return true;
    }
  }
}
