/** Packets take effect at most once and in order, in every interleaving. */
module PacketExecutorProofs {
  import opened Basics
  import opened PacketExecutor
  import opened PacketExecutorRuns

  lemma BeginHeldKeeps(w: World, a: Action)
    requires Inv(w) && (a.BeginClaim? || a.BeginRetry? || a.BeginAdmit?)
    ensures Inv(Step(w, a))
  {
    hide AtMostOnce, Ordered, ValidExecution, CredentialOk;
  }

  /** The two ways to take a new attempt token. */
  lemma TakeKeeps(w: World, w': World)
    requires Inv(w) && w.operation.Some? && !w.operation.value.HeldAdmit?
    requires w' == EndHeld(w, Accepts)
    ensures Inv(w')
  {
    hide AtMostOnce, Ordered, ValidExecution;
    forall k | 0 <= k < |w.issued| ensures CredentialOk(w'.owner, w.issued[k]) {
      assert CredentialOk(w.owner, w.issued[k]);
    }
  }

  lemma EndHeldKeeps(w: World, verdict: Preflight)
    requires Inv(w)
    ensures Inv(EndHeld(w, verdict))
  {
    var w' := EndHeld(w, verdict);
    if w.operation.Some? && verdict.Accepts? && !w.operation.value.HeldAdmit? {
      TakeKeeps(w, w');
    } else {
      hide AtMostOnce, Ordered, ValidExecution;
      forall k | 0 <= k < |w.issued| ensures CredentialOk(w'.owner, w.issued[k]) {
        assert CredentialOk(w.owner, w.issued[k]);
      }
    }
  }

  /** A fresh attempt after a clean history breaks neither the order nor the at-most-once rule. */
  lemma AppendAttempt(w: World)
    requires AtMostOnce(w.attempts) && Ordered(w.attempts) && Bounded(w) && Clean(w)
    requires w.owner.claimToken > 0 && w.owner.execution.epoch == w.owner.nextEpoch && w.running.None?
    ensures var attempts := w.attempts + [Attempt(w.owner.claimToken, w.owner.execution, InFlight)];
            AtMostOnce(attempts) && Ordered(attempts)
  {
  }

  lemma BeginExecuteKeeps(w: World, a: Action)
    requires Inv(w) && a.BeginExecute?
    ensures Inv(Step(w, a))
  {
    var w' := Step(w, a);
    if w' != w {
      AppendAttempt(w);
      hide AtMostOnce, Ordered;
      forall k | 0 <= k < |w.issued| ensures CredentialOk(w'.owner, w.issued[k]) {
        assert CredentialOk(w.owner, w.issued[k]);
      }
    }
  }

  lemma LandKeeps(attempts: seq<Attempt>, fate: Fate)
    requires attempts != [] && AtMostOnce(attempts) && Ordered(attempts)
    ensures AtMostOnce(LandAttempt(attempts, fate)) && Ordered(LandAttempt(attempts, fate))
  {
    var landed := LandAttempt(attempts, fate);
    forall i | 0 <= i < |landed|
      ensures landed[i].execution == attempts[i].execution && landed[i].token == attempts[i].token
      ensures i < |landed| - 1 ==> landed[i] == attempts[i]
    {
    }
  }

  lemma EndExecuteKeeps(w: World, ok: bool, panicked: bool, late: bool)
    requires Inv(w)
    ensures Inv(EndExecute(w, ok, panicked, late))
  {
    var w' := EndExecute(w, ok, panicked, late);
    if w.running.Some? && w.attempts != [] {
      LandKeeps(w.attempts, FateOf(Callback(ok && !panicked, panicked || late)));
      hide AtMostOnce, Ordered;
      forall k | 0 <= k < |w.delivered|
        ensures w'.attempts[w.delivered[k]] == w.attempts[w.delivered[k]]
      {
        assert w.attempts[w.delivered[k]].fate.TookEffect?;
      }
      forall k | 0 <= k < |w.issued| ensures CredentialOk(w'.owner, w.issued[k]) {
        assert CredentialOk(w.owner, w.issued[k]);
      }
    }
  }

  lemma CancelKeeps(w: World, a: Action)
    requires Inv(w) && (a.BeginCancel? || a.CancelReturns? || a.CallbackWait? || a.Classify?)
    ensures Inv(Step(w, a))
  {
    hide AtMostOnce, Ordered, ValidExecution;
    var w' := Step(w, a);
    forall k | 0 <= k < |w.issued| ensures CredentialOk(w'.owner, w.issued[k]) {
      assert CredentialOk(w.owner, w.issued[k]);
    }
  }

  lemma PrepareKeeps(w: World, a: Action)
    requires Inv(w) && a.PrepareResolution?
    ensures Inv(Step(w, a))
  {
    hide AtMostOnce, Ordered, ValidExecution;
    var w' := Step(w, a);
    forall k | 0 <= k < |w'.issued| ensures CredentialOk(w'.owner, w'.issued[k]) {
      if k < |w.issued| { assert CredentialOk(w.owner, w.issued[k]); }
    }
  }

  /** A failed attempt joins the clean history of its packet. */
  lemma FailedIsClean(w: World)
    requires AtMostOnce(w.attempts) && LastIs(w, NoEffect) && w.owner.execution.epoch == w.owner.nextEpoch
    ensures forall i :: 0 <= i < |w.attempts| && w.attempts[i].execution.epoch == w.owner.nextEpoch ==>
              w.attempts[i].fate.NoEffect? && w.attempts[i].execution == w.owner.execution
  {
  }

  lemma CommitKeeps(w: World, a: Action)
    requires Inv(w) && a.CommitResolution?
    ensures Inv(Step(w, a))
  {
    var w' := Step(w, a);
    if w' != w {
      if w.owner.result.ResultRejected? || w.owner.result.ResultCancelled? { FailedIsClean(w); }
      hide AtMostOnce, Ordered, ValidExecution;
      assert CredentialOk(w.owner, w.issued[a.index]);
      forall k | 0 <= k < |w.issued| ensures CredentialOk(w'.owner, w.issued[k]) {
        assert CredentialOk(w.owner, w.issued[k]);
      }
    }
  }

  lemma StepKeeps(w: World, a: Action)
    requires Inv(w)
    ensures Inv(Step(w, a))
  {
    hide Inv, EndHeld, EndExecute;
    match a
    case BeginClaim(_) => BeginHeldKeeps(w, a);
    case BeginRetry => BeginHeldKeeps(w, a);
    case BeginAdmit(_) => BeginHeldKeeps(w, a);
    case PreflightReturns(verdict) => EndHeldKeeps(w, verdict);
    case BeginExecute(_, _) => BeginExecuteKeeps(w, a);
    case ExecuteReturns(ok, panicked, late) => EndExecuteKeeps(w, ok, panicked, late);
    case BeginCancel(_, _) => CancelKeeps(w, a);
    case CancelReturns(_) => CancelKeeps(w, a);
    case CallbackWait(_) => CancelKeeps(w, a);
    case Classify => CancelKeeps(w, a);
    case PrepareResolution(_, _) => PrepareKeeps(w, a);
    case CommitResolution(_) => CommitKeeps(w, a);
  }

  lemma {:induction false} RunKeeps(actions: seq<Action>)
    ensures Inv(Run(actions))
  {
    hide Step, Inv;
    if actions == [] {
      assert Inv(NEW_WORLD) by { NewWorldInv(); }
    } else {
      RunKeeps(actions[..|actions| - 1]);
      StepKeeps(Run(actions[..|actions| - 1]), actions[|actions| - 1]);
    }
  }

  lemma NewWorldInv()
    ensures Inv(NEW_WORLD)
  {
  }

  // ---------------------------------------------------------------- main results

  /** A vector is executed again only if every earlier attempt of its packet had no effect; a retry keeps the
      packet epoch and the vector, and runs under a newer token. */
  lemma PacketsTakeEffectAtMostOnce(actions: seq<Action>, i: nat, j: nat)
    requires i < j < |Run(actions).attempts|
    ensures var a, b := Run(actions).attempts[i], Run(actions).attempts[j];
            && a.token < b.token && a.execution.epoch <= b.execution.epoch
            && (a.execution.epoch == b.execution.epoch ==> a.fate.NoEffect? && a.execution == b.execution)
  {
    RunKeeps(actions);
  }

  /** The k-th delivered packet is an attempt of epoch k + 1 that took effect, whatever else was attempted. */
  lemma DeliveriesAreInOrder(actions: seq<Action>, k: nat)
    requires k < |Run(actions).delivered|
    ensures var w := Run(actions);
            w.delivered[k] < |w.attempts| && w.attempts[w.delivered[k]].execution.epoch == k + 1 &&
            w.attempts[w.delivered[k]].fate == TookEffect
  {
    RunKeeps(actions);
  }

  /** Every other attempt of a delivered epoch had no effect. */
  lemma DeliveredEpochsTookEffectOnce(actions: seq<Action>, k: nat, i: nat)
    requires k < |Run(actions).delivered| && i < |Run(actions).attempts|
    requires Run(actions).attempts[i].execution.epoch == k + 1
    ensures var w := Run(actions);
            w.attempts[i].fate == if i == w.delivered[k] then TookEffect else NoEffect
  {
    RunKeeps(actions);
    DeliveredIsLast(Run(actions), k, i);
  }

  lemma DeliveredIsLast(w: World, k: nat, i: nat)
    requires Inv(w) && k < |w.delivered| && i < |w.attempts| && w.attempts[i].execution.epoch == k + 1
    ensures w.attempts[i].fate == if i == w.delivered[k] then TookEffect else NoEffect
  {
    var d := w.delivered[k];
    assert w.attempts[d].execution.epoch == k + 1 && w.attempts[d].fate.TookEffect?;
  }

  /** No effect is lost or doubled: an attempt that took effect is the delivery of its epoch, or it is the
      newest attempt and its epoch is the next to deliver. */
  lemma EffectsAreAccountedFor(actions: seq<Action>, i: nat)
    requires i < |Run(actions).attempts| && !Run(actions).attempts[i].fate.NoEffect?
    ensures var w := Run(actions);
            var epoch := w.attempts[i].execution.epoch;
            epoch != 0 &&
            if epoch <= |w.delivered| then w.delivered[epoch - 1] == i
            else epoch == |w.delivered| + 1 && i == |w.attempts| - 1
  {
    RunKeeps(actions);
    var w := Run(actions);
    var epoch := w.attempts[i].execution.epoch;
    assert ValidExecution(w.attempts[i].execution);
    if epoch <= |w.delivered| {
      DeliveredIsLast(w, epoch - 1, i);
    } else {
      assert w.attempts[|w.attempts| - 1].execution.epoch >= epoch;
    }
  }

  /** After an attempt of unknown effect nothing is ever executed again. */
  lemma UnknownEffectIsFinal(actions: seq<Action>, more: seq<Action>, i: nat)
    requires i < |Run(actions).attempts| && Run(actions).attempts[i].fate.Unknown?
    ensures |Run(actions + more).attempts| == |Run(actions).attempts| == i + 1
  {
    AttemptsGrow(actions, more);
    EffectsAreAccountedFor(actions, i);
    var w := Run(actions + more);
    assert w.attempts[i] == Run(actions).attempts[i];
    EffectsAreAccountedFor(actions + more, i);
    EffectsOfDelivered(actions, i);
    EffectsOfDelivered(actions + more, i);
  }

  lemma EffectsOfDelivered(actions: seq<Action>, i: nat)
    requires i < |Run(actions).attempts| && Run(actions).attempts[i].fate.Unknown?
    ensures Run(actions).attempts[i].execution.epoch > |Run(actions).delivered|
  {
    RunKeeps(actions);
    var w := Run(actions);
    assert ValidExecution(w.attempts[i].execution);
    if w.attempts[i].execution.epoch <= |w.delivered| {
      DeliveredIsLast(w, w.attempts[i].execution.epoch - 1, i);
    }
  }

  /** Attempts that have ended are never rewritten. */
  lemma {:induction false} AttemptsGrow(actions: seq<Action>, more: seq<Action>)
    ensures |Run(actions).attempts| <= |Run(actions + more).attempts|
    ensures forall i :: 0 <= i < |Run(actions).attempts| && !Run(actions).attempts[i].fate.InFlight? ==>
              Run(actions + more).attempts[i] == Run(actions).attempts[i]
  {
    if more == [] {
      assert actions + more == actions;
    } else {
      var init := actions + more[..|more| - 1];
      AttemptsGrow(actions, more[..|more| - 1]);
      RunKeeps(init);
      assert (actions + more)[..|actions + more| - 1] == init;
      StepGrows(Run(init), more[|more| - 1]);
    }
  }

  lemma StepGrows(w: World, a: Action)
    requires Inv(w)
    ensures |w.attempts| <= |Step(w, a).attempts|
    ensures forall i :: 0 <= i < |w.attempts| && !w.attempts[i].fate.InFlight? ==>
              Step(w, a).attempts[i] == w.attempts[i]
  {
    assert w.running.Some? && w.attempts != [] ==> w.attempts[|w.attempts| - 1].fate.InFlight?;
    hide Inv;
  }

  /** Quarantine is absorbing: nothing is executed, resolved or delivered afterwards. */
  lemma {:induction false} QuarantineIsAbsorbing(actions: seq<Action>, more: seq<Action>)
    requires Run(actions).owner.phase.Quarantined?
    ensures Run(actions + more).owner.phase.Quarantined?
    ensures |Run(actions + more).attempts| == |Run(actions).attempts|
    ensures Run(actions + more).delivered == Run(actions).delivered
  {
    if more == [] {
      assert actions + more == actions;
    } else {
      var init := actions + more[..|more| - 1];
      QuarantineIsAbsorbing(actions, more[..|more| - 1]);
      assert (actions + more)[..|actions + more| - 1] == init;
      QuarantineStays(init, more[|more| - 1]);
    }
  }

  lemma QuarantineStays(init: seq<Action>, a: Action)
    requires Run(init).owner.phase.Quarantined?
    ensures var w, w' := Run(init), Step(Run(init), a);
            w'.owner.phase.Quarantined? && |w'.attempts| == |w.attempts| && w'.delivered == w.delivered
  {
    RunKeeps(init);
  }

  /** When Execute returns, the owner is executing, cancelling or quarantined: its fallback branch is dead. */
  lemma ExecuteReturnIsExpected(actions: seq<Action>)
    requires Run(actions).running.Some?
    ensures var w := Run(actions);
            w.owner.phase.Executing? || w.owner.phase.Cancelling? || w.owner.phase.Quarantined?
  {
    RunKeeps(actions);
  }

  /** A packet whose attempt provably had no effect can be claimed again, unchanged, under a fresh token. */
  lemma FailureIsRetryable(actions: seq<Action>)
    requires var w := Run(actions);
             w.owner.phase.AwaitingResolution? && !w.owner.result.ResultDelivered? && w.owner.nextToken < MAX_U64
    ensures var w := Run(actions);
            var c := Claim(w.owner.claimToken, w.owner.execution.epoch, |w.owner.execution.actions|);
            var outcome := if w.owner.result.ResultRejected? then DeliveryFailed else ExecutionCancelled;
            var prepared := Step(w, PrepareResolution(c, outcome));
            var committed := Step(prepared, CommitResolution(|w.issued|));
            var again := Step(Step(committed, BeginRetry), PreflightReturns(Accepts));
            again.owner.phase.Claimed? && again.owner.execution == w.owner.execution &&
            again.owner.claimToken == w.owner.nextToken + 1 && again.delivered == w.delivered
  {
    hide Run, Step, Inv;
    RunKeeps(actions);
    AwaitingIsFree(Run(actions));
    RetryWalk(Run(actions));
  }

  /** An owner that awaits resolution holds an authentic claim, and no call is under way. */
  lemma AwaitingIsFree(w: World)
    requires Inv(w) && w.owner.phase.AwaitingResolution?
    ensures w.operation.None? && !w.owner.result.NoResult?
    ensures ValidClaim(w.owner, Claim(w.owner.claimToken, w.owner.execution.epoch, |w.owner.execution.actions|))
  {
    hide AtMostOnce, Ordered, Bounded, CurrentOk, DeliveredOk, IssuedOk;
  }

  lemma RetryWalk(w: World)
    requires w.owner.phase.AwaitingResolution? && !w.owner.result.ResultDelivered? && !w.owner.result.NoResult?
    requires w.owner.nextToken < MAX_U64 && w.operation.None?
    requires ValidClaim(w.owner, Claim(w.owner.claimToken, w.owner.execution.epoch, |w.owner.execution.actions|))
    ensures var c := Claim(w.owner.claimToken, w.owner.execution.epoch, |w.owner.execution.actions|);
            var outcome := if w.owner.result.ResultRejected? then DeliveryFailed else ExecutionCancelled;
            var prepared := Step(w, PrepareResolution(c, outcome));
            var committed := Step(prepared, CommitResolution(|w.issued|));
            var again := Step(Step(committed, BeginRetry), PreflightReturns(Accepts));
            again.owner.phase.Claimed? && again.owner.execution == w.owner.execution &&
            again.owner.claimToken == w.owner.nextToken + 1 && again.delivered == w.delivered
  {
  }

  /** A delivered packet is resolved to idle, and counted once. */
  lemma SuccessIsDelivered(actions: seq<Action>)
    requires var w := Run(actions);
             w.owner.phase.AwaitingResolution? && w.owner.result.ResultDelivered?
    ensures var w := Run(actions);
            var c := Claim(w.owner.claimToken, w.owner.execution.epoch, |w.owner.execution.actions|);
            var committed := Step(Step(w, PrepareResolution(c, Delivered)), CommitResolution(|w.issued|));
            committed.owner.phase.Idle? && committed.delivered == w.delivered + [|w.attempts| - 1]
  {
    RunKeeps(actions);
  }
}
