/**
 Safety of canonical feedback arbitration over whole runs: a Stop is owed for every epoch that
 may have actuated, is delivered before any other epoch plays, is never stranded, and every
 admitted frame is the best publication at the moment of its admission.
 */
module FeedbackRuntimeRuns {
  import opened Options
  import opened FeedbackFrame
  import opened FeedbackRuntime

  datatype Action =
    | DoPublish(publication: Publication)
    | DoAcquire(device: nat, transport: nat)
    | DoRetire(writer: nat)
    | DoClaim(writer: nat, now: nat)
    | DoAdmit(writer: nat, token: nat, now: nat)
    | DoComplete(writer: nat, token: nat, delivered: bool, now: nat)

  function Step(r: Runtime, a: Action): Runtime {
    match a
    case DoPublish(p) => Publish(r, p)
    case DoAcquire(device, transport) => AcquireWriter(r, device, transport)
    case DoRetire(writer) => RetireWriter(r, writer)
    case DoClaim(writer, now) => ClaimEvent(r, writer, now)
    case DoAdmit(writer, token, now) => Admit(r, writer, token, now)
    case DoComplete(writer, token, delivered, now) => Complete(r, writer, token, delivered, now)
  }

  // ---------------------------------------------------------------- the invariant

  predicate SlotOk(slot: Option<Publication>, origin: nat) {
    slot.Some? ==> ValidPublication(slot.value) && slot.value.origin == origin
  }

  predicate SlotsOk(s: Slots) {
    SlotOk(s.profile, 1) && SlotOk(s.audio, 2) && SlotOk(s.game, 3) && SlotOk(s.preview, 4)
  }

  /** The event is the owner's frame, or its Stop once stopping; without an owner there is none. */
  predicate OwnerOk(r: Runtime) {
    match r.owner
    case None => !r.stopping && !r.mayHaveActuated && r.event.None?
    case Some(p) =>
      && ValidPublication(p) && 0 < r.ownerEpoch <= r.lastEpoch && 0 < r.revision
      && (if r.stopping then r.mayHaveActuated && r.event == Some(StopEvent(p, r.ownerEpoch))
          else r.event == Some(FrameEvent(p, r.ownerEpoch)))
  }

  predicate WriterOk(r: Runtime) {
    match r.writer
    case None => true
    case Some(w) =>
      && w.generation == r.writerGeneration && w.device != 0 && w.transport != 0
      && w.completed <= r.revision
      && (r.stopping ==> w.completed < r.revision)
      && (r.mayHaveActuated ==> r.event.Some? && OnTarget(w, r.event.value))
      && (w.claim.Some? ==> ClaimOk(r, w.claim.value))
  }

  predicate ClaimOk(r: Runtime, c: Claim) {
    && 0 < c.token && 0 < c.revision <= r.revision && ValidDelivery(c.delivery)
    && (c.revision == r.revision && r.event.Some? ==> c.delivery == r.event.value)
    && (c.delivery.StopDelivery? ==> r.event == Some(c.delivery) && c.revision == r.revision)
  }

  predicate Inv(r: Runtime) {
    SlotsOk(r.slots) && OwnerOk(r) && WriterOk(r)
  }

  // ---------------------------------------------------------------- arbitration meets its specification

  predicate Occupies(s: Slots, p: Publication) {
    s.profile == Some(p) || s.audio == Some(p) || s.game == Some(p) || s.preview == Some(p)
  }

  predicate NotAbove(a: Publication, b: Publication) {
    a.frame.device < b.frame.device ||
    (a.frame.device == b.frame.device && a.frame.transport <= b.frame.transport)
  }

  predicate SameTarget(a: Publication, b: Publication) {
    a.frame.device == b.frame.device && a.frame.transport == b.frame.transport
  }

  predicate Playable(p: Publication, now: nat) {
    p.frame.command != COMMAND_STOP && FreshAt(p.frame, now)
  }

  /**
   The publication that should play: published, fresh, not a Stop, aimed at the newest target of
   all publications, stale ones and Stops included, and of the highest origin among those.
   */
  ghost predicate IsBest(s: Slots, now: nat, p: Publication) {
    && Occupies(s, p) && Playable(p, now)
    && (forall q :: Occupies(s, q) ==> NotAbove(q, p))
    && (forall q :: Occupies(s, q) && SameTarget(q, p) && Playable(q, now) ==> q.origin <= p.origin)
  }

  lemma TargetIsNewest(s: Slots)
    ensures var t := NewestTarget(s);
            (t.NoTarget? <==> s == Slots(None, None, None, None)) &&
            (t.Target? ==>
               (exists p :: Occupies(s, p) && Target(p.frame.device, p.frame.transport) == t) &&
               forall q :: Occupies(s, q) ==> q.frame.device < t.device ||
                                              (q.frame.device == t.device && q.frame.transport <= t.transport))
  {
    var t := NewestTarget(s);
    if t.Target? {
      var p := if NewerTarget(s.preview, NoTarget) == t then s.preview.value
               else if NewerTarget(s.game, NoTarget) == t then s.game.value
               else if NewerTarget(s.audio, NoTarget) == t then s.audio.value
               else s.profile.value;
      assert Occupies(s, p) && Target(p.frame.device, p.frame.transport) == t;
    }
  }

  /** The winner is exactly the best publication; there is none exactly when nothing is best. */
  lemma WinnerIsBest(s: Slots, now: nat)
    requires SlotsOk(s)
    ensures var w := SelectWinner(s, now);
            (w.Some? ==> IsBest(s, now, w.value)) &&
            (w.None? ==> forall p :: !IsBest(s, now, p))
  {
    TargetIsNewest(s);
    var t := NewestTarget(s);
    var w := SelectWinner(s, now);
    hide NewestTarget, FreshAt, ValidPublication;
    if t.Target? {
      var top :| Occupies(s, top) && Target(top.frame.device, top.frame.transport) == t;
      if w.Some? {
        assert Eligible(w.value, now, t);
      } else {
        forall p ensures !IsBest(s, now, p) {
          if Occupies(s, p) && NotAbove(top, p) { assert !Eligible(p, now, t); }
        }
      }
    }
  }

  // ---------------------------------------------------------------- operations keep the invariant

  /** What re-evaluation can do: nothing, refresh the frame, change an idle owner, or raise Stop. */
  predicate Reevaluated(r: Runtime, e: Runtime) {
    && e.slots == r.slots && e.writer == r.writer && e.writerGeneration == r.writerGeneration
    && e.revision >= r.revision && e.lastEpoch >= r.lastEpoch
    && (e.revision == r.revision && e.event.Some? ==> e.event == r.event)
    && (r.stopping ==> e == r)
    && (r.mayHaveActuated ==>
          e.mayHaveActuated && e.ownerEpoch == r.ownerEpoch && e.event.Some? && r.event.Some? &&
          e.event.value.device == r.event.value.device && e.event.value.transport == r.event.value.transport)
    && (!r.mayHaveActuated ==> !e.mayHaveActuated && !e.stopping)
    && (e.stopping && !r.stopping ==> e.revision > r.revision)
  }

  lemma ReevaluateKeeps(r: Runtime, now: nat)
    requires SlotsOk(r.slots) && OwnerOk(r)
    ensures OwnerOk(Reevaluate(r, now)) && Reevaluated(r, Reevaluate(r, now))
  {
    WinnerIsBest(r.slots, now);
    hide SelectWinner, FreshAt, ValidFrame;
  }

  lemma ReevaluateInv(r: Runtime, now: nat)
    requires Inv(r)
    ensures Inv(Reevaluate(r, now))
  {
    ReevaluateKeeps(r, now);
    hide Reevaluate;
  }

  lemma PublishKeeps(r: Runtime, p: Publication)
    requires Inv(r)
    ensures Inv(Publish(r, p))
  {
    hide NewerFrame, ValidFrame;
  }

  lemma EventIsValid(r: Runtime)
    requires OwnerOk(r) && r.event.Some?
    ensures ValidDelivery(r.event.value)
  {
  }

  lemma ClaimKeeps(r: Runtime, generation: nat, now: nat)
    requires Inv(r)
    ensures Inv(ClaimEvent(r, generation, now))
  {
    ReevaluateInv(r, now);
    var e := Reevaluate(r, now);
    hide Reevaluate;
    if e.event.Some? { EventIsValid(e); }
    hide ValidDelivery;
  }

  lemma AdmitKeeps(r: Runtime, generation: nat, token: nat, now: nat)
    requires Inv(r)
    ensures Inv(Admit(r, generation, token, now))
  {
    ReevaluateInv(r, now);
    hide Reevaluate, ValidDelivery, FreshAt;
  }

  lemma CompleteKeeps(r: Runtime, generation: nat, token: nat, delivered: bool, now: nat)
    requires Inv(r)
    ensures Inv(Complete(r, generation, token, delivered, now))
  {
    if Completes(r, generation, token, delivered) {
      var c := r.writer.value.claim.value;
      var cleared := ClearClaim(r, delivered);
      hide ValidDelivery;
      if delivered && c.delivery.StopDelivery? {
        ReevaluateInv(Settle(cleared), now);
      } else {
        ReevaluateInv(cleared, now);
      }
      hide Reevaluate;
    }
  }

  lemma StepKeeps(r: Runtime, a: Action)
    requires Inv(r)
    ensures Inv(Step(r, a))
  {
    hide Publish, ClaimEvent, Admit, Complete;
    match a
    case DoPublish(p) => PublishKeeps(r, p);
    case DoAcquire(_, _) =>
    case DoRetire(_) =>
    case DoClaim(writer, now) => ClaimKeeps(r, writer, now);
    case DoAdmit(writer, token, now) => AdmitKeeps(r, writer, token, now);
    case DoComplete(writer, token, delivered, now) => CompleteKeeps(r, writer, token, delivered, now);
  }

  function Run(actions: seq<Action>): Runtime {
    if actions == [] then NEW_RUNTIME else Step(Run(actions[..|actions| - 1]), actions[|actions| - 1])
  }

  lemma {:induction false} RunKeeps(actions: seq<Action>)
    ensures Inv(Run(actions))
  {
    hide Step;
    if actions != [] {
      RunKeeps(actions[..|actions| - 1]);
      StepKeeps(Run(actions[..|actions| - 1]), actions[|actions| - 1]);
    }
  }

  // ---------------------------------------------------------------- admission

  /** An admitted frame is the best publication at that instant, built from the current owner. */
  lemma AdmittedFrameIsBest(actions: seq<Action>, writer: nat, token: nat, now: nat)
    requires var r := Run(actions);
             Admits(r, writer, token, now) && r.writer.value.claim.value.delivery.FrameDelivery?
    ensures var r := Run(actions);
            var d := r.writer.value.claim.value.delivery;
            && IsBest(r.slots, now, Publication(d.origin, d.frame))
            && ValidDelivery(d)
            && Admit(r, writer, token, now).owner == Some(Publication(d.origin, d.frame))
            && d == FrameEvent(Publication(d.origin, d.frame), Admit(r, writer, token, now).ownerEpoch)
  {
    RunKeeps(actions);
    hide Run;
    AdmittedOwner(Run(actions), writer, token, now);
  }

  lemma AdmittedOwner(r: Runtime, writer: nat, token: nat, now: nat)
    requires Inv(r) && Admits(r, writer, token, now) && r.writer.value.claim.value.delivery.FrameDelivery?
    ensures var d := r.writer.value.claim.value.delivery;
            var t := Admit(r, writer, token, now);
            t.owner == Some(Publication(d.origin, d.frame)) &&
            d == FrameEvent(Publication(d.origin, d.frame), t.ownerEpoch) &&
            IsBest(r.slots, now, Publication(d.origin, d.frame))
  {
    var d := r.writer.value.claim.value.delivery;
    var e := Reevaluate(r, now);
    ReevaluateKeeps(r, now);
    WinnerIsBest(r.slots, now);
    hide SelectWinner, IsBest, ValidPublication, ValidDelivery, FreshAt;
    assert !e.stopping && e.owner.Some?;
    assert e.event == r.event;
    assert SelectWinner(r.slots, now) == r.owner;
  }
}
