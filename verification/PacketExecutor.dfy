/**
 The downstream packet executor: one decoded packet at a time is claimed, admitted, executed by an
 untrusted participant, possibly cancelled, and resolved. Each section that the owner runs under its
 mutex is one function of the owner's fields.
 */
module PacketExecutor {
  import opened Basics
  import opened Options

  const MAXIMUM_MESSAGES := 16

  // ---------------------------------------------------------------- action vectors

  datatype Motor = Motor(
    enabled: nat, leftImpulse: nat, rightImpulse: nat, leftVibration: nat, rightVibration: nat,
    duration: nat, delay: nat, repeats: nat)

  datatype Led = Led(pattern: nat, intensity: nat)

  /** Contextual effects are the lifecycle and acknowledgement actions that only the persona engine selects. */
  datatype Effect = ApplyMotor(motor: Motor) | ApplyLed(led: Led) | Contextual(code: nat)

  datatype PacketAction = PacketAction(wireIndex: nat, sequence: nat, effect: Effect)

  datatype Execution = Execution(epoch: nat, actions: seq<PacketAction>)

  const NO_EXECUTION := Execution(0, [])

  predicate ValidMotor(m: Motor) {
    m.enabled <= 0x0F && m.leftImpulse <= 100 && m.rightImpulse <= 100 && m.leftVibration <= 100 && m.rightVibration <= 100
  }

  predicate ValidLed(l: Led) { (l.pattern <= 4 || l.pattern == 0x0D) && l.intensity <= 47 }

  predicate ValidAction(a: PacketAction) {
    a.sequence != 0 &&
    match a.effect
    case ApplyMotor(m) => ValidMotor(m)
    case ApplyLed(l) => ValidLed(l)
    case Contextual(_) => true
  }

  predicate ValidExecution(e: Execution) {
    && e.epoch != 0 && 0 < |e.actions| <= MAXIMUM_MESSAGES
    && forall i :: 0 <= i < |e.actions| ==> e.actions[i].wireIndex == i && ValidAction(e.actions[i])
  }

  datatype Kind = LifecycleMessage | AcknowledgementMessage | MotorMessage | LedMessage

  /** One decoded message; only the field that the kind selects is meaningful. */
  datatype Message = Message(kind: Kind, sequence: nat, motor: Motor, led: Led)

  /** What a message means on its own, if it means anything without the persona's context. */
  function SelfContained(m: Message): Option<Effect> {
    match m.kind
    case MotorMessage => Some(ApplyMotor(m.motor))
    case LedMessage => Some(ApplyLed(m.led))
    case _ => None
  }

  predicate Compilable(packet: seq<Message>, epoch: nat) {
    && epoch != 0 && 0 < |packet| <= MAXIMUM_MESSAGES
    && forall i :: 0 <= i < |packet| ==>
         SelfContained(packet[i]).Some? && ValidAction(PacketAction(i, packet[i].sequence, SelfContained(packet[i]).value))
  }

  /** Every message in wire order, each at its own index. */
  function Compiled(packet: seq<Message>, epoch: nat): (e: Execution)
    requires Compilable(packet, epoch)
    ensures ValidExecution(e)
  {
    Execution(epoch, seq(|packet|, i requires 0 <= i < |packet| =>
                            PacketAction(i, packet[i].sequence, SelfContained(packet[i]).value)))
  }

  /** Compiles a packet exactly when all of it is self-contained and valid, message by message in wire order. */
  method Compile(packet: seq<Message>, epoch: nat) returns (r: Option<Execution>)
    ensures r == if Compilable(packet, epoch) then Some(Compiled(packet, epoch)) else None
  {
    if epoch == 0 || |packet| == 0 || |packet| > MAXIMUM_MESSAGES { return None; }
    var actions: seq<PacketAction> := [];
    for i := 0 to |packet|
      invariant |actions| == i
      invariant forall j :: 0 <= j < i ==>
                  SelfContained(packet[j]).Some? && ValidAction(actions[j]) &&
                  actions[j] == PacketAction(j, packet[j].sequence, SelfContained(packet[j]).value)
    {
      var effect := SelfContained(packet[i]);
      if effect.None? { return None; }
      var action := PacketAction(i, packet[i].sequence, effect.value);
      if !ValidAction(action) { return None; }
      actions := actions + [action];
    }
    assert Compilable(packet, epoch) && actions == Compiled(packet, epoch).actions;
    return Some(Execution(epoch, actions));
  }

  // ---------------------------------------------------------------- the owner

  datatype Phase =
    | Idle | Claimed | Admitted | Executing | Cancelling | AwaitingResolution
    | RetryPending | DrainRequired | ResolutionPrepared | Quarantined

  datatype Result = NoResult | ResultDelivered | ResultRejected | ResultCancelled

  datatype Outcome = Delivered | Deferred | DeliveryFailed | ExecutionCancelled

  /** How Execute returned: `ok` is a nil participant error, `ambiguous` a panic or a return after the deadline. */
  datatype Callback = Callback(ok: bool, ambiguous: bool)

  datatype Owner = Owner(
    phase: Phase, nextEpoch: nat, nextToken: nat, claimToken: nat,
    execution: Execution, result: Result, callback: Option<Callback>)

  const NEW_OWNER := Owner(Idle, 0, 0, 0, NO_EXECUTION, NoResult, None)

  datatype Claim = Claim(token: nat, epoch: nat, count: nat)

  datatype Lease = Lease(token: nat, execution: Execution)

  datatype Credential = Credential(token: nat, epoch: nat, count: nat, outcome: Outcome, result: Result)

  predicate CanClaim(o: Owner) { o.phase.Idle? && o.nextEpoch < MAX_U64 && o.nextToken < MAX_U64 }

  function TakeClaim(o: Owner, e: Execution): Owner {
    if !o.phase.Idle? || e.epoch != o.nextEpoch + 1 then o
    else Owner(Claimed, o.nextEpoch + 1, o.nextToken + 1, o.nextToken + 1, e, NoResult, None)
  }

  predicate CanRetry(o: Owner) { o.phase.RetryPending? && o.nextToken < MAX_U64 }

  function TakeRetry(o: Owner, e: Execution): Owner {
    if !o.phase.RetryPending? || o.execution != e then o
    else o.(phase := Claimed, nextToken := o.nextToken + 1, claimToken := o.nextToken + 1, result := NoResult, callback := None)
  }

  predicate ValidClaim(o: Owner, c: Claim) {
    && !o.phase.Quarantined? && c.token != 0 && c.epoch != 0 && c.count != 0
    && c.token == o.claimToken && c.epoch == o.execution.epoch && c.count == |o.execution.actions|
  }

  predicate ValidLease(o: Owner, l: Lease) {
    && !o.phase.Quarantined? && l.token != 0 && ValidExecution(l.execution)
    && l.token == o.claimToken && l.execution == o.execution
  }

  function Admit(o: Owner, c: Claim): Owner {
    if ValidClaim(o, c) && o.phase.Claimed? then o.(phase := Admitted) else o
  }

  predicate CanExecute(o: Owner, l: Lease) { ValidLease(o, l) && o.phase.Admitted? }

  function StartExecute(o: Owner): Owner { o.(phase := Executing, callback := None) }

  /** The participant's Execute came back: an error value counts as failed when it panicked too. */
  function FinishExecute(o: Owner, ok: bool, ambiguous: bool): Owner {
    var noted := o.(callback := Some(Callback(ok, ambiguous)));
    match o.phase
    case Executing =>
      if ambiguous then noted.(phase := DrainRequired)
      else noted.(phase := AwaitingResolution, result := if ok then ResultDelivered else ResultRejected)
    case Cancelling => noted
    case Quarantined => noted
    case _ => noted.(phase := Quarantined)
  }

  predicate CanCancel(o: Owner, l: Lease) { ValidLease(o, l) && (o.phase.Executing? || o.phase.DrainRequired?) }

  function StartCancel(o: Owner): Owner { o.(phase := Cancelling) }

  function Quarantine(o: Owner): Owner { o.(phase := Quarantined) }

  function FinishCancel(o: Owner): Owner {
    if !o.phase.Cancelling? || o.callback.None? then Quarantine(o)
    else if o.callback.value.ok then o.(phase := AwaitingResolution, result := ResultDelivered)
    else if o.callback.value.ambiguous then Quarantine(o)
    else o.(phase := AwaitingResolution, result := ResultCancelled)
  }

  predicate Resolvable(o: Owner, outcome: Outcome) {
    match outcome
    case Deferred => o.phase.Claimed? || o.phase.Admitted?
    case Delivered => o.phase.AwaitingResolution? && o.result.ResultDelivered?
    case DeliveryFailed => o.phase.AwaitingResolution? && o.result.ResultRejected?
    case ExecutionCancelled => o.phase.AwaitingResolution? && o.result.ResultCancelled?
  }

  predicate CanPrepare(o: Owner, c: Claim, outcome: Outcome) { ValidClaim(o, c) && Resolvable(o, outcome) }

  function CredentialOf(o: Owner, outcome: Outcome): Credential {
    Credential(o.claimToken, o.execution.epoch, |o.execution.actions|, outcome, o.result)
  }

  function Prepare(o: Owner): Owner { o.(phase := ResolutionPrepared) }

  predicate CanCommit(o: Owner, c: Credential) {
    && c.token != 0 && c.token == o.claimToken && c.epoch == o.execution.epoch
    && c.count == |o.execution.actions| && o.phase.ResolutionPrepared? && c.result == o.result
  }

  function Commit(o: Owner, outcome: Outcome): Owner {
    var cleared := o.(claimToken := 0, result := NoResult, callback := None);
    if outcome.Delivered? then cleared.(execution := NO_EXECUTION, phase := Idle)
    else cleared.(phase := RetryPending)
  }
}

/** Whole interleavings of owner calls and participant returns, with the effect of every attempt. */
module PacketExecutorRuns {
  import opened Basics
  import opened Options
  import opened PacketExecutor

  /** The effect of one attempt, by the participant's contract: a nil return means that every action became
      visible, a timely error that none did, and a panic or a late error leaves it unknown. */
  datatype Fate = InFlight | TookEffect | NoEffect | Unknown

  datatype Attempt = Attempt(token: nat, execution: Execution, fate: Fate)

  /** A call that holds the operation serializer while the participant preflights. */
  datatype Held = HeldClaim(execution: Execution) | HeldRetry(execution: Execution) | HeldAdmit(claim: Claim)

  datatype CancelPc = Draining | AwaitingCallback | Classifying

  datatype World = World(
    owner: Owner, operation: Option<Held>, running: Option<Execution>, cancel: Option<CancelPc>,
    issued: seq<Credential>, attempts: seq<Attempt>, delivered: seq<nat>)

  const NEW_WORLD := World(NEW_OWNER, None, None, None, [], [], [])

  datatype Preflight = Accepts | Rejects | Panics

  datatype Action =
    | BeginClaim(execution: Execution)         // a compiled packet, or a vector from the persona engine
    | BeginRetry
    | BeginAdmit(claim: Claim)
    | PreflightReturns(verdict: Preflight)
    | BeginExecute(lease: Lease, timely: bool)
    | ExecuteReturns(ok: bool, panicked: bool, late: bool)
    | BeginCancel(drainLease: Lease, inTime: bool)
    | CancelReturns(drained: bool)             // false: error, panic or too late
    | CallbackWait(expired: bool)
    | Classify
    | PrepareResolution(resolved: Claim, outcome: Outcome)
    | CommitResolution(index: nat)

  function FateOf(c: Callback): Fate {
    if c.ok then TookEffect else if c.ambiguous then Unknown else NoEffect
  }

  function LandAttempt(attempts: seq<Attempt>, fate: Fate): seq<Attempt>
    requires attempts != []
  {
    attempts[..|attempts| - 1] + [attempts[|attempts| - 1].(fate := fate)]
  }

  function EndHeld(w: World, verdict: Preflight): World {
    if w.operation.None? then w
    else
      var free := w.(operation := None);
      if verdict.Panics? then free.(owner := Quarantine(w.owner))
      else if verdict.Rejects? then free
      else
        match w.operation.value
        case HeldClaim(e) => free.(owner := TakeClaim(w.owner, e))
        case HeldRetry(e) => free.(owner := TakeRetry(w.owner, e))
        case HeldAdmit(c) => free.(owner := Admit(w.owner, c))
  }

  function EndExecute(w: World, ok: bool, panicked: bool, late: bool): World {
    if w.running.None? || w.attempts == [] then w
    else
      var c := Callback(ok && !panicked, panicked || late);
      w.(owner := FinishExecute(w.owner, c.ok, c.ambiguous), running := None,
         attempts := LandAttempt(w.attempts, FateOf(c)))
  }

  function Step(w: World, a: Action): World {
    var o := w.owner;
    match a
    case BeginClaim(e) =>
      if w.operation.None? && CanClaim(o) && ValidExecution(e) && e.epoch == o.nextEpoch + 1
      then w.(operation := Some(HeldClaim(e))) else w
    case BeginRetry =>
      if w.operation.None? && CanRetry(o) then w.(operation := Some(HeldRetry(o.execution))) else w
    case BeginAdmit(c) =>
      if w.operation.None? && ValidClaim(o, c) && o.phase.Claimed? then w.(operation := Some(HeldAdmit(c))) else w
    case PreflightReturns(verdict) => EndHeld(w, verdict)
    case BeginExecute(l, timely) =>
      if w.operation.None? && timely && CanExecute(o, l)
      then w.(owner := StartExecute(o), running := Some(o.execution),
              attempts := w.attempts + [Attempt(o.claimToken, o.execution, InFlight)])
      else w
    case ExecuteReturns(ok, panicked, late) => EndExecute(w, ok, panicked, late)
    case BeginCancel(l, inTime) =>
      if w.operation.None? && inTime && CanCancel(o, l)
      then w.(owner := StartCancel(o), cancel := Some(Draining)) else w
    case CancelReturns(drained) =>
      if w.cancel != Some(Draining) then w
      else if drained then w.(cancel := Some(AwaitingCallback))
      else w.(owner := Quarantine(o), cancel := None)
    case CallbackWait(expired) =>
      if w.cancel != Some(AwaitingCallback) then w
      else if o.callback.Some? then w.(cancel := Some(Classifying))
      else if expired then w.(owner := Quarantine(o), cancel := None)
      else w
    case Classify => if w.cancel != Some(Classifying) then w else w.(owner := FinishCancel(o), cancel := None)
    case PrepareResolution(c, outcome) =>
      if w.operation.None? && CanPrepare(o, c, outcome)
      then w.(owner := Prepare(o), issued := w.issued + [CredentialOf(o, outcome)]) else w
    case CommitResolution(k) =>
      if w.operation.None? && k < |w.issued| && CanCommit(o, w.issued[k])
      then w.(owner := Commit(o, w.issued[k].outcome),
              delivered := if w.issued[k].outcome.Delivered? && w.attempts != []
                           then w.delivered + [|w.attempts| - 1] else w.delivered)
      else w
  }

  function Run(actions: seq<Action>): World {
    if actions == [] then NEW_WORLD else Step(Run(actions[..|actions| - 1]), actions[|actions| - 1])
  }

  // ---------------------------------------------------------------- invariant

  predicate Unstarted(p: Phase) { p.Claimed? || p.Admitted? || p.RetryPending? }

  predicate Active(p: Phase) { !p.Idle? && !p.Quarantined? }

  predicate CountersOk(w: World) {
    var o := w.owner;
    && o.nextEpoch <= MAX_U64 && o.nextToken <= MAX_U64
    && |w.delivered| <= o.nextEpoch <= |w.delivered| + 1
    && (o.phase.Idle? ==> o.nextEpoch == |w.delivered| && o.claimToken == 0)
    && (Active(o.phase) ==>
          o.nextEpoch == |w.delivered| + 1 && o.execution.epoch == o.nextEpoch && ValidExecution(o.execution))
    && (o.phase.RetryPending? ==> o.claimToken == 0)
    && (Active(o.phase) && !o.phase.RetryPending? ==> 0 < o.claimToken == o.nextToken)
  }

  predicate HeldOk(w: World) {
    match w.operation
    case None => true
    case Some(HeldClaim(e)) => CanClaim(w.owner) && ValidExecution(e) && e.epoch == w.owner.nextEpoch + 1
    case Some(HeldRetry(e)) => CanRetry(w.owner) && e == w.owner.execution
    case Some(HeldAdmit(c)) => ValidClaim(w.owner, c) && w.owner.phase.Claimed?
  }

  predicate ThreadsOk(w: World) {
    var o := w.owner;
    && (w.running.Some? ==> o.phase.Executing? || o.phase.Cancelling? || o.phase.Quarantined?)
    && (o.phase.Executing? ==> w.running == Some(o.execution) && o.callback.None?)
    && (o.phase.Cancelling? ==> w.cancel.Some? && (w.running.Some? <==> o.callback.None?))
    && (o.phase.Cancelling? && w.running.Some? ==> w.running == Some(o.execution))
    && (w.cancel.Some? ==> o.phase.Cancelling?)
    && (w.cancel == Some(Classifying) ==> o.callback.Some?)
    && (o.phase.DrainRequired? ==> o.callback.Some? && o.callback.value.ambiguous)
    && (o.phase.AwaitingResolution? ==> !o.result.NoResult?)
    && (Unstarted(o.phase) || o.phase.Executing? || o.phase.DrainRequired? || o.phase.Cancelling? ==> o.result.NoResult?)
  }

  /** No vector is attempted again unless every earlier attempt of its epoch had no effect. */
  predicate AtMostOnce(attempts: seq<Attempt>) {
    forall i, j :: 0 <= i < j < |attempts| && attempts[i].execution.epoch == attempts[j].execution.epoch ==>
      attempts[i].fate.NoEffect? && attempts[i].execution == attempts[j].execution
  }

  predicate Ordered(attempts: seq<Attempt>) {
    forall i, j :: 0 <= i < j < |attempts| ==>
      attempts[i].token < attempts[j].token && attempts[i].execution.epoch <= attempts[j].execution.epoch
  }

  predicate Bounded(w: World) {
    forall i :: 0 <= i < |w.attempts| ==>
      && ValidExecution(w.attempts[i].execution) && w.attempts[i].execution.epoch <= w.owner.nextEpoch
      && w.attempts[i].token <= w.owner.nextToken
      && (w.attempts[i].fate.InFlight? <==> w.running.Some? && i == |w.attempts| - 1)
  }

  /** All attempts of the claimed packet so far had no effect, and used older tokens. */
  predicate Clean(w: World) {
    forall i :: 0 <= i < |w.attempts| ==>
      && (w.owner.claimToken > 0 ==> w.attempts[i].token < w.owner.claimToken)
      && (w.attempts[i].execution.epoch == w.owner.nextEpoch ==>
            w.attempts[i].fate.NoEffect? && w.attempts[i].execution == w.owner.execution)
  }

  predicate LastIs(w: World, fate: Fate) {
    w.attempts != [] &&
    w.attempts[|w.attempts| - 1] == Attempt(w.owner.claimToken, w.owner.execution, fate)
  }

  predicate ResultShown(w: World) {
    match w.owner.result
    case NoResult => Clean(w)
    case ResultDelivered => LastIs(w, TookEffect)
    case _ => LastIs(w, NoEffect)
  }

  predicate CurrentOk(w: World) {
    var o := w.owner;
    match o.phase
    case Idle => forall i :: 0 <= i < |w.attempts| ==> w.attempts[i].execution.epoch <= |w.delivered|
    case Quarantined => true
    case Executing => LastIs(w, InFlight)
    case Cancelling => if o.callback.None? then LastIs(w, InFlight) else LastIs(w, FateOf(o.callback.value))
    case DrainRequired => o.callback.Some? && LastIs(w, FateOf(o.callback.value))
    case AwaitingResolution => ResultShown(w)
    case ResolutionPrepared => ResultShown(w)
    case _ => Clean(w)
  }

  predicate DeliveredOk(w: World) {
    forall k :: 0 <= k < |w.delivered| ==>
      && w.delivered[k] < |w.attempts|
      && w.attempts[w.delivered[k]].execution.epoch == k + 1
      && w.attempts[w.delivered[k]].fate.TookEffect?
  }

  predicate IssuedOk(w: World) {
    forall k :: 0 <= k < |w.issued| ==> CredentialOk(w.owner, w.issued[k])
  }

  predicate CredentialOk(o: Owner, c: Credential) {
    && 0 < c.token <= o.nextToken
    && (c.token == o.claimToken ==>
          o.phase.ResolutionPrepared? && (c.outcome.Delivered? <==> o.result.ResultDelivered?))
  }

  predicate Inv(w: World) {
    && CountersOk(w) && HeldOk(w) && ThreadsOk(w)
    && AtMostOnce(w.attempts) && Ordered(w.attempts) && Bounded(w) && CurrentOk(w)
    && DeliveredOk(w) && IssuedOk(w)
  }
}
