/**
 Canonical feedback arbitration: four publishers, one sole-writer lease, and the rule that every
 delivery epoch which may have actuated owes a Stop. Each method that the runtime runs under its
 lock is one function here. A writer lease is known by its generation, which is never reused.
 */
module FeedbackRuntime {
  import opened Basics
  import opened Options
  import opened FeedbackFrame

  datatype Publication = Publication(origin: nat, frame: Frame)

  predicate ValidPublication(p: Publication) {
    1 <= p.origin <= 4 && ValidFrame(p.frame)
  }

  datatype Delivery =
    | FrameDelivery(origin: nat, frame: Frame, device: nat, transport: nat, epoch: nat)
    | StopDelivery(origin: nat, device: nat, transport: nat, epoch: nat)

  predicate ValidDelivery(d: Delivery) {
    && 1 <= d.origin <= 4 && d.device != 0 && d.transport != 0 && d.epoch != 0
    && (d.FrameDelivery? ==> ValidFrame(d.frame) && d.frame.device == d.device && d.frame.transport == d.transport)
  }

  datatype Claim = Claim(token: nat, revision: nat, delivery: Delivery, admitted: bool)

  datatype Writer = Writer(
    generation: nat, device: nat, transport: nat, nextToken: nat, claim: Option<Claim>, completed: nat)

  datatype Slots = Slots(
    profile: Option<Publication>, audio: Option<Publication>,
    game: Option<Publication>, preview: Option<Publication>)

  datatype Runtime = Runtime(
    slots: Slots, writer: Option<Writer>, writerGeneration: nat,
    owner: Option<Publication>, stopping: bool, mayHaveActuated: bool, ownerEpoch: nat, lastEpoch: nat,
    event: Option<Delivery>, revision: nat)

  const NEW_RUNTIME := Runtime(Slots(None, None, None, None), None, 0, None, false, false, 0, 0, None, 0)

  // ---------------------------------------------------------------- arbitration

  datatype Target = NoTarget | Target(device: nat, transport: nat)

  function NewerTarget(slot: Option<Publication>, best: Target): Target {
    if slot.None? then best
    else
      var f := slot.value.frame;
      if best.NoTarget? || f.device > best.device || (f.device == best.device && f.transport > best.transport)
      then Target(f.device, f.transport) else best
  }

  function NewestTarget(s: Slots): Target {
    NewerTarget(s.preview, NewerTarget(s.game, NewerTarget(s.audio, NewerTarget(s.profile, NoTarget))))
  }

  predicate Eligible(p: Publication, now: nat, target: Target) {
    && target == Target(p.frame.device, p.frame.transport)
    && p.frame.command != COMMAND_STOP && FreshAt(p.frame, now)
  }

  function Consider(slot: Option<Publication>, now: nat, target: Target, best: Option<Publication>): Option<Publication> {
    if slot.Some? && Eligible(slot.value, now, target) && (best.None? || slot.value.origin > best.value.origin)
    then slot else best
  }

  function SelectWinner(s: Slots, now: nat): Option<Publication> {
    var target := NewestTarget(s);
    if target.NoTarget? then None
    else
      Consider(s.preview, now, target,
        Consider(s.game, now, target,
          Consider(s.audio, now, target, Consider(s.profile, now, target, None))))
  }

  predicate SameOwnership(a: Publication, b: Publication) {
    && a.origin == b.origin && a.frame.source == b.frame.source
    && a.frame.device == b.frame.device && a.frame.transport == b.frame.transport
    && a.frame.ownershipEpoch == b.frame.ownershipEpoch
  }

  function FrameEvent(p: Publication, epoch: nat): Delivery {
    FrameDelivery(p.origin, p.frame, p.frame.device, p.frame.transport, epoch)
  }

  function StopEvent(p: Publication, epoch: nat): Delivery {
    StopDelivery(p.origin, p.frame.device, p.frame.transport, epoch)
  }

  function SetEvent(r: Runtime, d: Delivery): Runtime {
    r.(revision := r.revision + 1, event := Some(d))
  }

  /** Delivery epochs are refused rather than wrapped. */
  function StartOwner(r: Runtime, p: Publication): Runtime {
    if r.lastEpoch >= MAX_U64 then r
    else
      var epoch := r.lastEpoch + 1;
      SetEvent(r.(lastEpoch := epoch, ownerEpoch := epoch, owner := Some(p),
                  stopping := false, mayHaveActuated := false),
               FrameEvent(p, epoch))
  }

  function DropOwner(r: Runtime): Runtime {
    r.(owner := None, ownerEpoch := 0, event := None)
  }

  function Reevaluate(r: Runtime, now: nat): Runtime {
    if r.stopping then r
    else
      var winner := SelectWinner(r.slots, now);
      if r.owner.None? then
        if winner.Some? then StartOwner(r, winner.value) else r
      else if winner.Some? && SameOwnership(winner.value, r.owner.value) then
        if winner == r.owner then r
        else SetEvent(r.(owner := winner), FrameEvent(winner.value, r.ownerEpoch))
      else if !r.mayHaveActuated then
        if winner.Some? then StartOwner(DropOwner(r), winner.value) else DropOwner(r)
      else
        SetEvent(r.(stopping := true), StopEvent(r.owner.value, r.ownerEpoch))
  }

  // ---------------------------------------------------------------- operations

  function SlotOf(s: Slots, origin: nat): Option<Publication> {
    match origin
    case 1 => s.profile
    case 2 => s.audio
    case 3 => s.game
    case _ => s.preview
  }

  function SetSlot(s: Slots, p: Publication): Slots {
    match p.origin
    case 1 => s.(profile := Some(p))
    case 2 => s.(audio := Some(p))
    case 3 => s.(game := Some(p))
    case _ => s.(preview := Some(p))
  }

  predicate Publishes(r: Runtime, p: Publication) {
    ValidPublication(p) &&
    var slot := SlotOf(r.slots, p.origin);
    slot.None? || NewerFrame(p.frame, slot.value.frame)
  }

  function Publish(r: Runtime, p: Publication): Runtime {
    if Publishes(r, p) then r.(slots := SetSlot(r.slots, p)) else r
  }

  predicate Acquires(r: Runtime, device: nat, transport: nat) {
    && device != 0 && transport != 0 && r.writer.None? && r.writerGeneration < MAX_U64
    && (r.event.Some? ==> r.event.value.device == device && r.event.value.transport == transport)
  }

  function AcquireWriter(r: Runtime, device: nat, transport: nat): Runtime {
    if Acquires(r, device, transport) then
      var generation := r.writerGeneration + 1;
      r.(writerGeneration := generation, writer := Some(Writer(generation, device, transport, 0, None, 0)))
    else r
  }

  predicate CurrentWriter(r: Runtime, generation: nat) {
    r.writer.Some? && r.writer.value.generation == generation == r.writerGeneration
  }

  predicate RetiresWriter(r: Runtime, generation: nat) {
    CurrentWriter(r, generation) &&
    !(r.writer.value.claim.Some? && r.writer.value.claim.value.admitted)
  }

  function RetireWriter(r: Runtime, generation: nat): Runtime {
    if RetiresWriter(r, generation) then r.(writer := None) else r
  }

  predicate OnTarget(w: Writer, d: Delivery) {
    w.device == d.device && w.transport == d.transport
  }

  predicate CanClaim(r: Runtime) {
    && r.writer.Some? && r.event.Some? && r.writer.value.claim.None?
    && r.writer.value.completed != r.revision && OnTarget(r.writer.value, r.event.value)
  }

  function Reserve(r: Runtime): Runtime
    requires CanClaim(r)
  {
    var w := r.writer.value;
    var token := w.nextToken + 1;
    r.(writer := Some(w.(nextToken := token, claim := Some(Claim(token, r.revision, r.event.value, false)))))
  }

  /** A claim by the current writer first brings the event up to date, even when nothing is offered. */
  function ClaimEvent(r: Runtime, generation: nat, now: nat): Runtime {
    if !CurrentWriter(r, generation) then r
    else
      var e := Reevaluate(r, now);
      if CanClaim(e) then Reserve(e) else e
  }

  predicate ExactClaim(r: Runtime, generation: nat, token: nat) {
    && CurrentWriter(r, generation) && token != 0
    && r.writer.value.claim.Some?
    && var c := r.writer.value.claim.value;
       c.token == token && c.revision != 0 && ValidDelivery(c.delivery)
  }

  predicate CanAdmit(r: Runtime, generation: nat, token: nat) {
    ExactClaim(r, generation, token) && !r.writer.value.claim.value.admitted
  }

  /** The reservation still is the current event, aimed at this writer, and fresh if it is a frame. */
  predicate StillCurrent(r: Runtime, now: nat) {
    && r.writer.Some? && r.writer.value.claim.Some? && r.event.Some?
    && var w := r.writer.value;
       && r.revision == w.claim.value.revision && r.event.value == w.claim.value.delivery
       && OnTarget(w, r.event.value)
       && (r.event.value.FrameDelivery? ==> FreshAt(r.event.value.frame, now))
  }

  predicate Admits(r: Runtime, generation: nat, token: nat, now: nat) {
    CanAdmit(r, generation, token) && StillCurrent(Reevaluate(r, now), now)
  }

  function Pin(r: Runtime): Runtime
    requires r.writer.Some? && r.writer.value.claim.Some? && r.event.Some?
  {
    var w := r.writer.value;
    r.(writer := Some(w.(claim := Some(w.claim.value.(admitted := true)))),
       mayHaveActuated := r.mayHaveActuated || r.event.value.FrameDelivery?)
  }

  function Admit(r: Runtime, generation: nat, token: nat, now: nat): Runtime {
    if !CanAdmit(r, generation, token) then r
    else
      var e := Reevaluate(r, now);
      if StillCurrent(e, now) then Pin(e) else e
  }

  predicate Completes(r: Runtime, generation: nat, token: nat, delivered: bool) {
    ExactClaim(r, generation, token) && (delivered ==> r.writer.value.claim.value.admitted)
  }

  function ClearClaim(r: Runtime, delivered: bool): Runtime
    requires r.writer.Some? && r.writer.value.claim.Some?
  {
    var w := r.writer.value;
    r.(writer := Some(w.(claim := None, completed := if delivered then w.claim.value.revision else w.completed)))
  }

  /** Completing the pending Stop settles the epoch. */
  function Settle(r: Runtime): Runtime {
    r.(owner := None, stopping := false, mayHaveActuated := false, ownerEpoch := 0, event := None)
  }

  function Complete(r: Runtime, generation: nat, token: nat, delivered: bool, now: nat): Runtime {
    if !Completes(r, generation, token, delivered) then r
    else
      var c := r.writer.value.claim.value;
      var cleared := ClearClaim(r, delivered);
      var settled :=
        if delivered && c.delivery.StopDelivery? && r.event == Some(c.delivery) && r.revision == c.revision
        then Settle(cleared) else cleared;
      Reevaluate(settled, now)
  }
}
