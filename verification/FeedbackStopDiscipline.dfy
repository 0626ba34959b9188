/**
 The Stop discipline over whole runs, told by the sequence of admissions, raised Stops and
 completed deliveries.
 */
module FeedbackStopDiscipline {
  import opened Options
  import opened Basics
  import opened FeedbackFrame
  import opened FeedbackRuntime
  import opened FeedbackRuntimeRuns

  datatype Event = Admitted(delivery: Delivery) | Raised(epoch: nat) | Delivered(delivery: Delivery)

  /** The admission of a frame. */
  predicate Plays(e: Event) {
    e.Admitted? && e.delivery.FrameDelivery?
  }

  predicate StopAdmitted(e: Event, epoch: nat) {
    e.Admitted? && e.delivery.StopDelivery? && e.delivery.epoch == epoch
  }

  predicate StopDelivered(e: Event, epoch: nat) {
    e.Delivered? && e.delivery.StopDelivery? && e.delivery.epoch == epoch
  }

  /** What one call admits or completes. */
  function Effect(r: Runtime, a: Action): seq<Event> {
    match a
    case DoAdmit(writer, token, now) =>
      if Admits(r, writer, token, now) then [Admitted(r.writer.value.claim.value.delivery)] else []
    case DoComplete(writer, token, delivered, _) =>
      if delivered && Completes(r, writer, token, true) then [Delivered(r.writer.value.claim.value.delivery)] else []
    case _ => []
  }

  function RaisedBy(r: Runtime, t: Runtime): seq<Event> {
    if !r.stopping && t.stopping then [Raised(t.ownerEpoch)] else []
  }

  function Log(actions: seq<Action>): seq<Event> {
    if actions == [] then []
    else
      var r := Run(actions[..|actions| - 1]);
      var a := actions[|actions| - 1];
      Log(actions[..|actions| - 1]) + Effect(r, a) + RaisedBy(r, Step(r, a))
  }

  /** After position i, a Stop of the epoch was admitted and then completed as delivered. */
  predicate Settled(log: seq<Event>, i: nat, epoch: nat) {
    exists k, l :: i < k < l < |log| && StopAdmitted(log[k], epoch) && StopDelivered(log[l], epoch)
  }

  predicate Open(r: Runtime, epoch: nat) {
    r.mayHaveActuated && r.ownerEpoch == epoch
  }

  // ---------------------------------------------------------------- the invariant of the log

  predicate OwedStops(r: Runtime, log: seq<Event>) {
    forall i :: 0 <= i < |log| && Plays(log[i]) ==>
                  Open(r, log[i].delivery.epoch) || Settled(log, i, log[i].delivery.epoch)
  }

  predicate RaisedOk(r: Runtime, log: seq<Event>) {
    forall i :: 0 <= i < |log| && log[i].Raised? ==>
                  log[i].epoch <= r.lastEpoch && (r.owner.Some? && r.ownerEpoch == log[i].epoch ==> r.stopping)
  }

  predicate NoFrameFrom(log: seq<Event>, k: nat, epoch: nat) {
    forall i :: k <= i < |log| && Plays(log[i]) ==> log[i].delivery.epoch != epoch
  }

  predicate StopInFlight(r: Runtime) {
    r.writer.Some? && r.writer.value.claim.Some? && r.writer.value.claim.value.admitted &&
    r.writer.value.claim.value.delivery.StopDelivery?
  }

  predicate StopInFlightOk(r: Runtime, log: seq<Event>) {
    StopInFlight(r) ==>
      var e := r.writer.value.claim.value.delivery.epoch;
      exists k :: 0 <= k < |log| && StopAdmitted(log[k], e) && NoFrameFrom(log, k, e)
  }

  /** No frame of an epoch is admitted once its Stop has been raised. */
  predicate QuietAfterRaise(log: seq<Event>) {
    forall i, j :: 0 <= i < j < |log| && log[i].Raised? && Plays(log[j]) ==> log[j].delivery.epoch != log[i].epoch
  }

  /** Between frames of different epochs, the Stop of the earlier one was admitted and delivered. */
  predicate StopBeforeSuccessor(log: seq<Event>) {
    forall i, j :: 0 <= i < j < |log| && Plays(log[i]) && Plays(log[j]) &&
                   log[i].delivery.epoch != log[j].delivery.epoch ==>
                     Settled(log[..j], i, log[i].delivery.epoch)
  }

  predicate LogOk(r: Runtime, log: seq<Event>) {
    && OwedStops(r, log) && RaisedOk(r, log) && StopInFlightOk(r, log)
    && QuietAfterRaise(log) && StopBeforeSuccessor(log)
  }

  // ---------------------------------------------------------------- one event at a time

  lemma SettledExtends(log: seq<Event>, e: Event, i: nat, epoch: nat)
    requires Settled(log, i, epoch)
    ensures Settled(log + [e], i, epoch)
  {
    var k, l :| i < k < l < |log| && StopAdmitted(log[k], epoch) && StopDelivered(log[l], epoch);
    assert StopAdmitted((log + [e])[k], epoch) && StopDelivered((log + [e])[l], epoch);
  }

  /** An event that is not a frame leaves what was proved about the log in place. */
  lemma NonFrameKeeps(r: Runtime, log: seq<Event>, e: Event)
    requires LogOk(r, log) && !Plays(e)
    ensures OwedStops(r, log + [e]) && StopInFlightOk(r, log + [e])
    ensures QuietAfterRaise(log + [e]) && StopBeforeSuccessor(log + [e])
  {
    var more := log + [e];
    hide Settled;
    forall i | 0 <= i < |more| && Plays(more[i])
      ensures Open(r, more[i].delivery.epoch) || Settled(more, i, more[i].delivery.epoch)
    {
      if Settled(log, i, log[i].delivery.epoch) { SettledExtends(log, e, i, log[i].delivery.epoch); }
    }
    if StopInFlight(r) {
      var f := r.writer.value.claim.value.delivery.epoch;
      var k :| 0 <= k < |log| && StopAdmitted(log[k], f) && NoFrameFrom(log, k, f);
      assert StopAdmitted(more[k], f) && NoFrameFrom(more, k, f);
    }
    forall i, j | 0 <= i < j < |more| && Plays(more[i]) && Plays(more[j]) &&
                  more[i].delivery.epoch != more[j].delivery.epoch
      ensures Settled(more[..j], i, more[i].delivery.epoch)
    {
      assert more[..j] == log[..j];
    }
  }

  /** Moving on without an event. */
  predicate Moves(r: Runtime, t: Runtime) {
    && t.lastEpoch >= r.lastEpoch
    && (r.mayHaveActuated ==> t.mayHaveActuated && t.ownerEpoch == r.ownerEpoch)
    && (t.owner.Some? && !t.stopping ==>
          t.ownerEpoch > r.lastEpoch || (r.owner.Some? && !r.stopping && t.ownerEpoch == r.ownerEpoch))
    && (StopInFlight(t) ==> StopInFlight(r) && t.writer.value.claim == r.writer.value.claim)
  }

  lemma MoveKeepsLog(r: Runtime, t: Runtime, log: seq<Event>)
    requires LogOk(r, log) && Moves(r, t)
    ensures LogOk(t, log)
  {
    hide Settled;
    forall i | 0 <= i < |log| && log[i].Raised?
      ensures log[i].epoch <= t.lastEpoch && (t.owner.Some? && t.ownerEpoch == log[i].epoch ==> t.stopping)
    {
      assert log[i].epoch <= r.lastEpoch;
    }
  }

  lemma RaiseKeepsLog(t: Runtime, log: seq<Event>, e: nat)
    requires LogOk(t, log) && t.stopping && t.ownerEpoch == e <= t.lastEpoch
    ensures LogOk(t, log + [Raised(e)])
  {
    NonFrameKeeps(t, log, Raised(e));
  }

  /** A frame is admitted: its epoch is the only one that can be open, and its Stop is not raised. */
  lemma FrameKeepsLog(t: Runtime, log: seq<Event>, d: Delivery)
    requires LogOk(t.(mayHaveActuated := false), log) || LogOk(t, log)
    requires d.FrameDelivery? && !t.stopping && t.owner.Some? && t.mayHaveActuated && t.ownerEpoch == d.epoch
    requires !StopInFlight(t)
    ensures LogOk(t, log + [Admitted(d)])
  {
    hide Settled;
    var more := log + [Admitted(d)];
    forall i | 0 <= i < |more| && Plays(more[i])
      ensures Open(t, more[i].delivery.epoch) || Settled(more, i, more[i].delivery.epoch)
    {
      if i < |log| && Settled(log, i, log[i].delivery.epoch) {
        SettledExtends(log, Admitted(d), i, log[i].delivery.epoch);
      }
    }
    forall i, j | 0 <= i < j < |more| && Plays(more[i]) && Plays(more[j]) &&
                  more[i].delivery.epoch != more[j].delivery.epoch
      ensures Settled(more[..j], i, more[i].delivery.epoch)
    {
      assert more[..j] == log[..j];
      if j == |log| { assert log[..j] == log; }
    }
  }

  lemma StopAdmissionKeepsLog(r: Runtime, t: Runtime, log: seq<Event>, d: Delivery)
    requires LogOk(r, log) && d.StopDelivery? && StopInFlight(t) && t.writer.value.claim.value.delivery == d
    requires t == r.(writer := t.writer) && !StopInFlight(r)
    ensures LogOk(t, log + [Admitted(d)])
  {
    NonFrameKeeps(r, log, Admitted(d));
    var more := log + [Admitted(d)];
    assert StopAdmitted(more[|log|], d.epoch) && NoFrameFrom(more, |log|, d.epoch);
  }

  /** The Stop of the open epoch is delivered: every frame of that epoch is settled. */
  lemma StopDeliveryKeepsLog(r: Runtime, t: Runtime, log: seq<Event>, d: Delivery)
    requires LogOk(r, log) && d.StopDelivery? && StopInFlight(r) && r.writer.value.claim.value.delivery == d
    requires r.mayHaveActuated ==> r.ownerEpoch == d.epoch
    requires t.lastEpoch == r.lastEpoch && t.owner.None? && !StopInFlight(t)
    ensures LogOk(t, log + [Delivered(d)])
  {
    NonFrameKeeps(r, log, Delivered(d));
    var more := log + [Delivered(d)];
    var k :| 0 <= k < |log| && StopAdmitted(log[k], d.epoch) && NoFrameFrom(log, k, d.epoch);
    forall i | 0 <= i < |more| && Plays(more[i]) ensures Settled(more, i, more[i].delivery.epoch) {
      var e := more[i].delivery.epoch;
      if Settled(log, i, e) {
        SettledExtends(log, Delivered(d), i, e);
      } else {
        assert Open(r, log[i].delivery.epoch) && i < k;
        assert StopAdmitted(more[k], e) && StopDelivered(more[|log|], e);
      }
    }
  }

  lemma FrameDeliveryKeepsLog(r: Runtime, t: Runtime, log: seq<Event>, d: Delivery)
    requires LogOk(r, log) && d.FrameDelivery? && t == r.(writer := t.writer) && !StopInFlight(t)
    ensures LogOk(t, log + [Delivered(d)])
  {
    NonFrameKeeps(r, log, Delivered(d));
  }

  // ---------------------------------------------------------------- whole calls

  lemma ReevaluateMoves(r: Runtime, now: nat)
    requires Inv(r)
    ensures Moves(r, Reevaluate(r, now))
    ensures Reevaluate(r, now).stopping ==> Reevaluate(r, now).ownerEpoch <= Reevaluate(r, now).lastEpoch
  {
    ReevaluateKeeps(r, now);
    hide SelectWinner, ValidPublication, FreshAt;
  }

  /** Re-evaluation as a whole: it may move on, and raises at most one Stop. */
  lemma ReevaluateLog(r: Runtime, now: nat, log: seq<Event>)
    requires Inv(r) && LogOk(r, log)
    ensures var e := Reevaluate(r, now); LogOk(e, log + RaisedBy(r, e))
  {
    ReevaluateMoves(r, now);
    var e := Reevaluate(r, now);
    hide Reevaluate, LogOk, Moves;
    MoveKeepsLog(r, e, log);
    if !r.stopping && e.stopping {
      RaiseKeepsLog(e, log, e.ownerEpoch);
    } else {
      assert log + RaisedBy(r, e) == log;
    }
  }

  lemma ClaimLog(r: Runtime, writer: nat, now: nat, log: seq<Event>)
    requires Inv(r) && LogOk(r, log)
    ensures var t := ClaimEvent(r, writer, now); LogOk(t, log + RaisedBy(r, t))
  {
    ReevaluateLog(r, now, log);
    var e := Reevaluate(r, now);
    var t := ClaimEvent(r, writer, now);
    hide Reevaluate, LogOk;
    if CurrentWriter(r, writer) {
      MoveKeepsLog(e, t, log + RaisedBy(r, e));
    } else {
      assert log + RaisedBy(r, t) == log;
    }
  }

  /** An admission: it raises nothing itself, and what it admits is the current event. */
  lemma AdmissionLog(r: Runtime, writer: nat, token: nat, now: nat, log: seq<Event>)
    requires Inv(r) && LogOk(r, log) && Admits(r, writer, token, now)
    ensures var t := Admit(r, writer, token, now);
            LogOk(t, log + [Admitted(r.writer.value.claim.value.delivery)]) && RaisedBy(r, t) == []
  {
    var d := r.writer.value.claim.value.delivery;
    var e := Reevaluate(r, now);
    var t := Admit(r, writer, token, now);
    ReevaluateKeeps(r, now);
    ReevaluateMoves(r, now);
    hide Reevaluate, LogOk, FreshAt, ValidPublication, ValidDelivery;
    MoveKeepsLog(r, e, log);
    assert e.event == Some(d) && e.writer == r.writer;
    if d.StopDelivery? {
      StopAdmissionKeepsLog(e, t, log, d);
    } else {
      MoveKeepsLog(e, t.(mayHaveActuated := e.mayHaveActuated), log);
      FrameKeepsLog(t, log, d);
    }
  }

  lemma AdmitLog(r: Runtime, writer: nat, token: nat, now: nat, log: seq<Event>)
    requires Inv(r) && LogOk(r, log)
    ensures var a := DoAdmit(writer, token, now);
            LogOk(Step(r, a), log + Effect(r, a) + RaisedBy(r, Step(r, a)))
  {
    var a := DoAdmit(writer, token, now);
    var t := Step(r, a);
    if Admits(r, writer, token, now) {
      AdmissionLog(r, writer, token, now, log);
      assert log + Effect(r, a) + RaisedBy(r, t) == log + Effect(r, a);
    } else {
      ReevaluateLog(r, now, log);
      hide Reevaluate, LogOk;
      assert log + Effect(r, a) + RaisedBy(r, t) == log + RaisedBy(r, t);
      if !CanAdmit(r, writer, token) { assert log + RaisedBy(r, t) == log; }
    }
  }

  lemma CompleteLog(r: Runtime, a: Action, log: seq<Event>)
    requires Inv(r) && LogOk(r, log) && a.DoComplete?
    ensures LogOk(Step(r, a), log + Effect(r, a) + RaisedBy(r, Step(r, a)))
  {
    var t := Step(r, a);
    if !Completes(r, a.writer, a.token, a.delivered) {
      assert log + Effect(r, a) + RaisedBy(r, t) == log;
    } else {
      var d := r.writer.value.claim.value.delivery;
      var cleared := ClearClaim(r, a.delivered);
      hide Reevaluate, LogOk, ValidDelivery, ValidPublication;
      if a.delivered && d.StopDelivery? {
        StopDeliveryKeepsLog(r, Settle(cleared), log, d);
        ReevaluateLog(Settle(cleared), a.now, log + [Delivered(d)]);
        ReevaluateKeeps(Settle(cleared), a.now);
        assert log + Effect(r, a) + RaisedBy(r, t) == log + [Delivered(d)] + RaisedBy(Settle(cleared), t);
      } else if a.delivered {
        FrameDeliveryKeepsLog(r, cleared, log, d);
        ReevaluateLog(cleared, a.now, log + [Delivered(d)]);
      } else {
        MoveKeepsLog(r, cleared, log);
        ReevaluateLog(cleared, a.now, log);
        assert log + Effect(r, a) + RaisedBy(r, t) == log + RaisedBy(cleared, t);
      }
    }
  }

  lemma StepLog(r: Runtime, a: Action, log: seq<Event>)
    requires Inv(r) && LogOk(r, log)
    ensures LogOk(Step(r, a), log + Effect(r, a) + RaisedBy(r, Step(r, a)))
  {
    hide LogOk, ClaimEvent, Admit, Complete, Inv;
    match a
    case DoClaim(writer, now) =>
      ClaimLog(r, writer, now, log);
      assert log + Effect(r, a) == log;
    case DoAdmit(writer, token, now) => AdmitLog(r, writer, token, now, log);
    case DoComplete(_, _, _, _) => CompleteLog(r, a, log);
    case _ =>
      MoveKeepsLog(r, Step(r, a), log);
      assert log + Effect(r, a) + RaisedBy(r, Step(r, a)) == log;
  }

  lemma {:induction false} RunLog(actions: seq<Action>)
    ensures LogOk(Run(actions), Log(actions))
  {
    hide LogOk, Step, Effect, RaisedBy, Inv;
    if actions == [] {
      assert LogOk(NEW_RUNTIME, []) by { NewRuntimeLog(); }
    } else {
      RunLog(actions[..|actions| - 1]);
      RunKeeps(actions[..|actions| - 1]);
      StepLog(Run(actions[..|actions| - 1]), actions[|actions| - 1], Log(actions[..|actions| - 1]));
    }
  }

  lemma NewRuntimeLog()
    ensures LogOk(NEW_RUNTIME, [])
  {
  }

  /**
   Over every run: between admitted frames of two different delivery epochs, a Stop of the first
   epoch was admitted and completed as delivered; and once the Stop of an epoch is raised, no
   frame of that epoch is admitted.
   */
  lemma StopPrecedesSuccessor(actions: seq<Action>, i: nat, j: nat)
    requires i < j < |Log(actions)| && Plays(Log(actions)[j])
    ensures var log := Log(actions);
            (Plays(log[i]) && log[i].delivery.epoch != log[j].delivery.epoch ==>
               exists k, l :: i < k < l < j && StopAdmitted(log[k], log[i].delivery.epoch) &&
                              StopDelivered(log[l], log[i].delivery.epoch)) &&
            (log[i].Raised? ==> log[j].delivery.epoch != log[i].epoch)
  {
    var log := Log(actions);
    RunLog(actions);
    hide Log, Run;
    if Plays(log[i]) && log[i].delivery.epoch != log[j].delivery.epoch {
      var e := log[i].delivery.epoch;
      assert Settled(log[..j], i, e);
      var k, l :| i < k < l < |log[..j]| && StopAdmitted(log[..j][k], e) && StopDelivered(log[..j][l], e);
      assert StopAdmitted(log[k], e) && StopDelivered(log[l], e);
    }
  }

  // ---------------------------------------------------------------- the Stop is never stranded

  /** Whenever something may have actuated, an active writer is aimed at it. */
  lemma WriterFacesActuation(actions: seq<Action>)
    ensures var r := Run(actions);
            r.mayHaveActuated ==>
              r.event.Some? && r.event.value.epoch == r.ownerEpoch &&
              (r.writer.Some? ==> OnTarget(r.writer.value, r.event.value))
  {
    RunKeeps(actions);
    hide Run;
  }

  /**
   A pending Stop can be claimed, admitted and completed by an idle writer at any clock values,
   and completing it settles the epoch.
   */
  lemma PendingStopIsDeliverable(actions: seq<Action>, claimAt: nat, admitAt: nat, completeAt: nat)
    requires var r := Run(actions); r.stopping && r.writer.Some? && r.writer.value.claim.None?
    ensures var r := Run(actions);
            var w := r.writer.value.generation;
            var token := r.writer.value.nextToken + 1;
            var claimed := ClaimEvent(r, w, claimAt);
            var admitted := Admit(claimed, w, token, admitAt);
            && r.event.Some? && r.event.value.StopDelivery? && r.event.value.epoch == r.ownerEpoch
            && claimed.writer.Some? && claimed.writer.value.claim == Some(Claim(token, r.revision, r.event.value, false))
            && Admits(claimed, w, token, admitAt)
            && Completes(admitted, w, token, true)
            && (Complete(admitted, w, token, true, completeAt).owner.None? ||
                Complete(admitted, w, token, true, completeAt).ownerEpoch > r.ownerEpoch)
  {
    RunKeeps(actions);
    var r := Run(actions);
    hide Run;
    EventIsValid(r);
    var w := r.writer.value.generation;
    var token := r.writer.value.nextToken + 1;
    var claimed := ClaimEvent(r, w, claimAt);
    var admitted := Admit(claimed, w, token, admitAt);
    AdmittedStopCompletes(admitted, w, token, completeAt);
  }

  lemma AdmittedStopCompletes(r: Runtime, w: nat, token: nat, now: nat)
    requires OwnerOk(r) && SlotsOk(r.slots) && r.stopping && Completes(r, w, token, true)
    requires r.event == Some(r.writer.value.claim.value.delivery) && r.revision == r.writer.value.claim.value.revision
    ensures var t := Complete(r, w, token, true, now);
            !t.mayHaveActuated && (t.owner.None? || t.ownerEpoch > r.ownerEpoch)
  {
    hide SelectWinner, ValidPublication, ValidDelivery;
  }

  /** Only the completion of exactly this Stop removes it; retirement and failure leave it pending. */
  lemma PendingStopStays(actions: seq<Action>, a: Action)
    requires Run(actions).stopping
    ensures var r := Run(actions);
            var t := Step(r, a);
            (t.stopping && t.event == r.event && t.revision == r.revision) ||
            (a.DoComplete? && a.delivered && Completes(r, a.writer, a.token, true) &&
             Some(r.writer.value.claim.value.delivery) == r.event)
  {
    RunKeeps(actions);
    hide Run, SelectWinner, ValidDelivery, ValidPublication;
  }

  /** A busy writer can always give its reservation up, which leaves it idle. */
  lemma ReservationCanFail(actions: seq<Action>, now: nat)
    requires var r := Run(actions); r.writer.Some? && r.writer.value.claim.Some?
    ensures var r := Run(actions);
            var w := r.writer.value;
            var t := Complete(r, w.generation, w.claim.value.token, false, now);
            Completes(r, w.generation, w.claim.value.token, false) &&
            t.writer == Some(w.(claim := None))
  {
    RunKeeps(actions);
    var r := Run(actions);
    hide Run;
    ReevaluateKeeps(ClearClaim(r, false), now);
    hide Reevaluate;
  }

  /** With no writer, one can be acquired for the pending event until lease generations run out. */
  lemma PendingEventIsAcquirable(actions: seq<Action>)
    requires var r := Run(actions); r.event.Some? && r.writer.None? && r.writerGeneration < MAX_U64
    ensures var r := Run(actions); Acquires(r, r.event.value.device, r.event.value.transport)
  {
    RunKeeps(actions);
    hide Run;
    EventIsValid(Run(actions));
  }
}
