/**
 What every scheduler operation keeps: the lanes exclude one another, counters run one ahead of
 the committed ones, epochs mirror the newest received state, and the newest received state is
 always the last thing waiting to be presented.
 */
module InputSchedulerInvariant {
  import opened Options
  import opened DualSenseInput
  import opened InputScheduler

  /** One call into the scheduler. */
  datatype Action =
    | BeginReceive
    | Receive(state: Option<InputState>, generation: nat, at: int)
    | TakeClaim(at: int, battery: nat, size: nat)
    | ResolveClaim(token: nat, generation: nat, outcome: Outcome, at: int)
    | RetirePresentation(generation: nat, at: int)

  function Step(s: Scheduler, a: Action): Scheduler {
    match a
    case BeginReceive => BeginReceiveGeneration(s)
    case Receive(state, generation, at) => Update(s, state, generation, at)
    case TakeClaim(at, battery, size) => BeginClaim(s, at, battery, size)
    case ResolveClaim(token, generation, outcome, at) => Resolve(s, token, generation, outcome, at)
    case RetirePresentation(generation, at) => RetireGeneration(s, generation, at)
  }

  /** The scheduler after a run of calls. */
  function Run(s: Scheduler, actions: seq<Action>): Scheduler {
    if actions == [] then s
    else Step(Run(s, actions[..|actions| - 1]), actions[|actions| - 1])
  }

  // ---------------------------------------------------------------- waiting work

  /** How many entries wait to be presented: claimed, deferred, queued or latest. */
  function Waiting(s: Scheduler): nat {
    |s.ring| + (if s.claim.Some? then 1 else 0) + (if s.retry.Some? then 1 else 0)
    + (if s.latest.Some? then 1 else 0)
  }

  /**
   The state presented last once everything waiting has been presented: work leaves in the
   order claim, retry lane, queue, latest.
   */
  function FinalState(s: Scheduler): InputState {
    if s.latest.Some? then s.latest.value.state
    else if s.ring != [] then s.ring[|s.ring| - 1].state
    else if s.retry.Some? then s.retry.value.entry.state
    else if s.claim.Some? then s.claim.value.entry.state
    else s.lastPresented.state
  }

  // ---------------------------------------------------------------- the invariant

  predicate LanesOk(s: Scheduler) {
    && !(s.claim.Some? && s.retry.Some?)
    && |s.ring| <= RING_CAPACITY
    && (forall i :: 0 <= i < |s.ring| ==> s.ring[i].ordered)
    && (s.retry.Some? ==> s.retry.value.entry.ordered)
  }

  predicate ReportOk(s: Scheduler, entry: Entry, report: Report, sequence: nat, packetSequence: nat) {
    && report.state == entry.state
    && report.sequence == sequence == NextSequence(s)
    && report.packetSequence == packetSequence == NextPacketSequence(s)
  }

  predicate CountersOk(s: Scheduler) {
    && (s.claim.Some? ==>
          var c := s.claim.value;
          ReportOk(s, c.entry, c.report, c.sequence, c.packetSequence) &&
          0 < c.token == s.nextClaimToken && c.generation == s.presentationGeneration)
    && (s.retry.Some? ==>
          var r := s.retry.value;
          ReportOk(s, r.entry, r.report, r.sequence, r.packetSequence))
    && s.presentationGeneration > 0
  }

  /** An epoch is active exactly while its trigger is held, and remembers the strongest state. */
  predicate EpochOk(s: Scheduler, left: bool) {
    var e := EpochOf(s, left);
    && (e.active <==> TriggerValue(Current(s), left) != 0)
    && (e.active ==> 0 < e.id && 0 < e.peak == TriggerValue(e.peakState, left))
  }

  predicate Inv(s: Scheduler) {
    LanesOk(s) && CountersOk(s) && EpochOk(s, true) && EpochOk(s, false) && FinalState(s) == Current(s)
  }

  // ---------------------------------------------------------------- queueing keeps the lanes

  /** What a peak-preserving step leaves alone. */
  predicate SameBut(s: Scheduler, t: Scheduler) {
    t == s.(ring := t.ring, latest := t.latest, claim := t.claim, overflows := t.overflows)
  }

  /** The claim is the same work, at most marked for ordered recovery. */
  predicate SameClaim(s: Scheduler, t: Scheduler) {
    match (s.claim, t.claim)
    case (None, None) => true
    case (Some(c), Some(d)) => d == c.(orderedRecovery := d.orderedRecovery) && (c.orderedRecovery ==> d.orderedRecovery)
    case _ => false
  }

  lemma EnqueueKeeps(s: Scheduler, entry: Entry)
    requires LanesOk(s)
    ensures var t := Enqueue(s, entry);
            LanesOk(t) && SameBut(s, t) && SameClaim(s, t) && FinalState(t) == entry.state
  {
  }

  lemma QueuePeakKeeps(s: Scheduler, left: bool)
    requires LanesOk(s)
    ensures var t := QueuePeak(s, left); LanesOk(t) && SameBut(s, t) && SameClaim(s, t)
  {
    hide CopyStatus, LayoutsMatch, StatusMatches, SavedPeak, Represents, Anchors, Enqueue, SetTriggerPeak;
    EnqueueKeeps(s, SavedPeak(s, left));
    if s.latest.Some? {
      EnqueueKeeps(s, s.latest.value.(state := CopyStatus(s.latest.value.state, EpochOf(s, left).peakState, left)));
    }
  }

  lemma PreserveKeeps(s: Scheduler, left: bool, upcoming: Entry)
    requires LanesOk(s)
    ensures var t := Preserve(s, left, upcoming); LanesOk(t) && SameBut(s, t) && SameClaim(s, t)
  {
    QueuePeakKeeps(s, left);
  }

  lemma PreserveBothKeeps(s: Scheduler, upcoming: Entry)
    requires LanesOk(s)
    ensures var t := PreserveBoth(s, upcoming); LanesOk(t) && SameBut(s, t) && SameClaim(s, t)
  {
    PreserveKeeps(s, false, upcoming);
    PreserveKeeps(Preserve(s, false, upcoming), true, upcoming);
    PreserveKeeps(s, true, upcoming);
    PreserveKeeps(Preserve(s, true, upcoming), false, upcoming);
  }

  // ---------------------------------------------------------------- operations keep the invariant

  lemma TrackKeeps(s: Scheduler, next: InputState, now: int, left: bool)
    requires EpochOk(s, left)
    ensures var o := Observe(s, next, now);
            var e := CloseEpoch(EpochOf(o, left), Released(s, next, left));
            (e.active <==> TriggerValue(next, left) != 0) &&
            (EpochOf(o, left).active <==> TriggerValue(next, left) != 0 || Released(s, next, left)) &&
            (EpochOf(o, left).active ==>
               0 < e.id && 0 < e.peak == TriggerValue(e.peakState, left) && e.peak >= TriggerValue(next, left))
  {
  }

  lemma AdmitKeeps(s: Scheduler, next: InputState, now: int)
    requires LanesOk(s)
    ensures var o := Observe(s, next, now);
            var a := Admit(s, next, now);
            LanesOk(a) && SameBut(o, a) && SameClaim(s, a) && FinalState(a) == next
  {
    var o := Observe(s, next, now);
    var entry := NewEntry(s, next, now);
    PreserveBothKeeps(o, entry);
    EnqueueKeeps(PreserveBoth(o, entry), entry);
  }

  lemma AcceptKeeps(s: Scheduler, next: InputState, now: int)
    requires Inv(s)
    ensures Inv(Accept(s, next, now))
  {
    hide Admit;
    TrackKeeps(s, next, now, true);
    TrackKeeps(s, next, now, false);
    AdmitKeeps(s, next, now);
  }

  lemma BeginClaimKeeps(s: Scheduler, now: int, battery: nat, size: nat)
    requires Inv(s)
    ensures Inv(BeginClaim(s, now, battery, size))
  {
    hide TimestampTicks, EpochOk;
    if CanClaim(s, size) {
      var t := BeginClaim(s, now, battery, size);
      assert EpochOk(t, true) && EpochOk(t, false) by { SameEpochs(s, t); }
    }
  }

  lemma SameEpochs(s: Scheduler, t: Scheduler)
    requires EpochOk(s, true) && EpochOk(s, false)
    requires t.l2 == s.l2 && t.r2 == s.r2 && t.previous == s.previous
    ensures EpochOk(t, true) && EpochOk(t, false)
  {
  }

  lemma CommitKeeps(s: Scheduler)
    requires Inv(s) && s.claim.Some?
    ensures Inv(CommitClaim(s))
  {
  }

  lemma DeferKeeps(s: Scheduler)
    requires Inv(s) && s.claim.Some?
    ensures Inv(DeferClaim(s))
  {
    hide EpochOk;
    assert EpochOk(DeferClaim(s), true) && EpochOk(DeferClaim(s), false) by { SameEpochs(s, DeferClaim(s)); }
  }

  lemma CollapseKeeps(s: Scheduler, now: int)
    requires Inv(s)
    ensures Inv(Collapse(s, now))
  {
  }

  lemma NewSchedulerInv(edge: bool, now: int)
    ensures Inv(NewScheduler(edge, now))
  {
  }

  /** Every operation, whatever its arguments, keeps the invariant. */
  lemma StepKeeps(s: Scheduler, a: Action)
    requires Inv(s)
    ensures Inv(Step(s, a))
  {
    match a
    case BeginReceive =>
    case Receive(state, generation, at) =>
      if Admissible(s, generation) { AcceptKeeps(s, Received(state), at); }
    case TakeClaim(at, battery, size) => BeginClaimKeeps(s, at, battery, size);
    case ResolveClaim(token, generation, outcome, at) =>
      if Resolves(s, token, generation, outcome) {
        CommitKeeps(s);
        DeferKeeps(s);
        CollapseKeeps(s, at);
      }
    case RetirePresentation(generation, at) => CollapseKeeps(s, at);
  }

  lemma {:induction false} RunKeeps(s: Scheduler, actions: seq<Action>)
    requires Inv(s)
    ensures Inv(Run(s, actions))
  {
    if actions != [] {
      RunKeeps(s, actions[..|actions| - 1]);
      StepKeeps(Run(s, actions[..|actions| - 1]), actions[|actions| - 1]);
    }
  }
}
