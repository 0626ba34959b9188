/**
 The DualSense input scheduler as a value: a bounded transition queue, one replaceable latest
 state, one byte-exact retry lane, one immutable claim, and the press epoch of each trigger.
 Every operation that the device runs under the scheduler lock is one function here.
 */
module InputScheduler {
  import opened Options
  import opened DualSenseInput

  const RING_CAPACITY := 64
  const REPORT_SIZE := 64

  /** One trigger press, from the edge that began it to the edge that releases it. */
  datatype Epoch = Epoch(
    id: nat, active: bool, peak: nat, presentedPeak: nat, presentedPeakState: InputState,
    peakState: InputState, peakReceivedAt: int, peakOrdinal: nat)

  datatype Entry = Entry(
    state: InputState, receivedAt: int, generation: nat, sampleQueueAge: bool, ordered: bool,
    l2Epoch: nat, r2Epoch: nat, l2Press: bool, r2Press: bool,
    l2Anchored: bool, r2Anchored: bool)

  /** The arguments that determine the 64 encoded bytes of a USB input report. */
  datatype Report = Report(
    state: InputState, battery: nat, sequence: nat, packetSequence: nat, timestamp: nat, edge: bool)

  datatype Retry = Retry(entry: Entry, report: Report, sequence: nat, packetSequence: nat)

  datatype Claim = Claim(
    entry: Entry, report: Report, sequence: nat, packetSequence: nat,
    orderedRecovery: bool, token: nat, generation: nat)

  datatype Outcome = Commit | Defer | Retire | Undefined

  datatype Scheduler = Scheduler(
    edge: bool, ring: seq<Entry>, latest: Option<Entry>, retry: Option<Retry>, claim: Option<Claim>,
    nextClaimToken: nat, previous: Option<InputState>, lastPresented: Entry,
    l2: Epoch, r2: Epoch, generation: nat, receiveOrdinal: nat, overflows: nat,
    sequence: nat, packetSequence: nat, timestampBase: int, presentationGeneration: nat)

  const NO_EPOCH := Epoch(0, false, 0, 0, ZERO_STATE, ZERO_STATE, 0, 0)

  function PlainEntry(state: InputState, receivedAt: int, generation: nat): Entry {
    Entry(state, receivedAt, generation, false, false, 0, 0, false, false, false, false)
  }

  function NewScheduler(edge: bool, now: int): Scheduler {
    Scheduler(edge, [], None, None, None, 0, None, PlainEntry(NEUTRAL, now, 1),
              NO_EPOCH, NO_EPOCH, 1, 0, 0, 0, 0, now, 1)
  }

  function EpochOf(s: Scheduler, left: bool): Epoch {
    if left then s.l2 else s.r2
  }

  function EpochTag(entry: Entry, left: bool): nat {
    if left then entry.l2Epoch else entry.r2Epoch
  }

  function PressFlag(entry: Entry, left: bool): bool {
    if left then entry.l2Press else entry.r2Press
  }

  /** The newest received state, or the resting state before any was received. */
  function Current(s: Scheduler): InputState {
    if s.previous.Some? then s.previous.value else NEUTRAL
  }

  // ---------------------------------------------------------------- trigger epochs

  function BeginEpoch(epoch: Epoch, value: nat, state: InputState, now: int, ordinal: nat): Epoch {
    Epoch(epoch.id + 1, true, value, 0, ZERO_STATE, state, now, ordinal)
  }

  function ObserveEpoch(epoch: Epoch, value: nat, state: InputState, now: int, ordinal: nat, left: bool): Epoch {
    if value > epoch.peak then
      epoch.(peak := value, peakState := state, peakReceivedAt := now, peakOrdinal := ordinal)
    else if value == epoch.peak && value != 0 then
      if LayoutsMatch(epoch.peakState, state) then
        epoch.(peakState := CopyStatus(epoch.peakState, state, left))
      else
        epoch.(peakState := state, peakReceivedAt := now, peakOrdinal := ordinal)
    else epoch
  }

  /** The epoch after one received state, `pressed` telling whether that state begins a press. */
  function TrackEpoch(epoch: Epoch, pressed: bool, next: InputState, now: int, ordinal: nat, left: bool): Epoch {
    var value := TriggerValue(next, left);
    if pressed then BeginEpoch(epoch, value, next, now, ordinal)
    else if epoch.active then ObserveEpoch(epoch, value, next, now, ordinal, left)
    else epoch
  }

  function ActiveEpochId(epoch: Epoch, value: nat, release: bool): nat {
    if epoch.active && (value != 0 || release) then epoch.id else 0
  }

  predicate Represents(entry: Entry, id: nat, peak: nat, left: bool) {
    EpochTag(entry, left) == id && TriggerValue(entry.state, left) >= peak
  }

  predicate RepresentsTruthfully(entry: Entry, epoch: Epoch, left: bool) {
    Represents(entry, epoch.id, epoch.peak, left) &&
    StatusMatches(entry.state, epoch.peakState, left)
  }

  predicate CanAnchor(pending: Entry, epoch: Epoch, left: bool) {
    LayoutsMatch(pending.state, epoch.peakState) &&
    (!(if left then pending.r2Anchored else pending.l2Anchored) ||
     (TriggerValue(pending.state, !left) == TriggerValue(epoch.peakState, !left) &&
      StatusMatches(pending.state, epoch.peakState, !left)))
  }

  predicate Anchors(pending: Entry, epoch: Epoch, left: bool) {
    EpochTag(pending, left) == epoch.id && PressFlag(pending, left) && CanAnchor(pending, epoch, left)
  }

  /** The first pending press of the epoch that may carry its peak; the queue length if none. */
  function FirstAnchor(ring: seq<Entry>, epoch: Epoch, left: bool, from: nat): (i: nat)
    requires from <= |ring|
    ensures from <= i <= |ring|
    ensures i < |ring| ==> Anchors(ring[i], epoch, left)
    ensures forall k :: from <= k < i ==> !Anchors(ring[k], epoch, left)
    decreases |ring| - from
  {
    if from == |ring| then from
    else if Anchors(ring[from], epoch, left) then from
    else FirstAnchor(ring, epoch, left, from + 1)
  }

  function Anchored(pending: Entry, epoch: Epoch, left: bool): Entry {
    var raised := pending.(state := SetTriggerPeak(pending.state, epoch.peakState, left, epoch.peak));
    if left then raised.(l2Anchored := true) else raised.(r2Anchored := true)
  }

  // ---------------------------------------------------------------- queueing

  function Enqueue(s: Scheduler, entry: Entry): Scheduler {
    var ordered := entry.(ordered := true);
    if |s.ring| >= RING_CAPACITY then
      s.(latest := Some(ordered), overflows := s.overflows + 1)
    else
      s.(latest := None, ring := s.ring + [ordered])
  }

  predicate NeedsPreserving(epoch: Epoch, left: bool) {
    epoch.active && epoch.peak != 0 &&
    !(epoch.presentedPeak >= epoch.peak &&
      StatusMatches(epoch.presentedPeakState, epoch.peakState, left))
  }

  /** The saved complete state of a peak, as its own ordered work. */
  function SavedPeak(s: Scheduler, left: bool): Entry {
    var epoch := EpochOf(s, left);
    var other := EpochOf(s, !left);
    var otherTag := if other.active && TriggerValue(epoch.peakState, !left) != 0 then other.id else 0;
    Entry(epoch.peakState, epoch.peakReceivedAt, s.generation, true, false,
          if left then epoch.id else otherTag, if left then otherTag else epoch.id,
          false, false, false, false)
  }

  predicate RingRepresents(ring: seq<Entry>, epoch: Epoch, left: bool) {
    exists i :: 0 <= i < |ring| && RepresentsTruthfully(ring[i], epoch, left)
  }

  /** Queues or anchors a peak that nothing pending represents yet. */
  function QueuePeak(s: Scheduler, left: bool): Scheduler {
    var epoch := EpochOf(s, left);
    var i := FirstAnchor(s.ring, epoch, left, 0);
    if i < |s.ring| && (i == |s.ring| - 1 || StatusMatches(s.ring[i].state, epoch.peakState, left)) then
      s.(ring := s.ring[i := Anchored(s.ring[i], epoch, left)])
    else if s.latest.Some? && Represents(s.latest.value, epoch.id, epoch.peak, left) &&
            LayoutsMatch(s.latest.value.state, epoch.peakState) then
      var promoted := s.latest.value;
      Enqueue(s, promoted.(state := CopyStatus(promoted.state, epoch.peakState, left)))
    else
      Enqueue(s, SavedPeak(s, left))
  }

  /** Makes sure that a peak of one trigger is presented before the upcoming transition. */
  function Preserve(s: Scheduler, left: bool, upcoming: Entry): Scheduler {
    var epoch := EpochOf(s, left);
    if !NeedsPreserving(epoch, left) || RepresentsTruthfully(upcoming, epoch, left) then s
    else if s.claim.Some? && RepresentsTruthfully(s.claim.value.entry, epoch, left) then
      s.(claim := Some(s.claim.value.(orderedRecovery := true)))
    else if s.retry.Some? && RepresentsTruthfully(s.retry.value.entry, epoch, left) then s
    else if RingRepresents(s.ring, epoch, left) then s
    else QueuePeak(s, left)
  }

  /** Both peaks in the order in which they were received. */
  function PreserveBoth(s: Scheduler, upcoming: Entry): Scheduler {
    if s.l2.active && s.r2.active && s.r2.peakOrdinal < s.l2.peakOrdinal then
      Preserve(Preserve(s, false, upcoming), true, upcoming)
    else
      Preserve(Preserve(s, true, upcoming), false, upcoming)
  }

  // ---------------------------------------------------------------- producer operations

  function BeginReceiveGeneration(s: Scheduler): Scheduler {
    s.(generation := s.generation + 1)
  }

  predicate Pressed(s: Scheduler, next: InputState, left: bool) {
    (s.previous.None? || TriggerValue(s.previous.value, left) == 0) && TriggerValue(next, left) != 0
  }

  predicate Released(s: Scheduler, next: InputState, left: bool) {
    s.previous.Some? && TriggerValue(s.previous.value, left) != 0 && TriggerValue(next, left) == 0
  }

  predicate Transition(s: Scheduler, next: InputState) {
    if s.previous.None? then NonNeutral(next) else HasTransition(s.previous.value, next)
  }

  /** The scheduler once both epochs have seen `next`, and the entry that carries `next`. */
  function Observe(s: Scheduler, next: InputState, now: int): Scheduler {
    var ordinal := s.receiveOrdinal + 1;
    s.(receiveOrdinal := ordinal,
       l2 := TrackEpoch(s.l2, Pressed(s, next, true), next, now, ordinal, true),
       r2 := TrackEpoch(s.r2, Pressed(s, next, false), next, now, ordinal, false))
  }

  function NewEntry(s: Scheduler, next: InputState, now: int): Entry {
    var o := Observe(s, next, now);
    Entry(next, now, s.generation, true, false,
          ActiveEpochId(o.l2, next.l2, Released(s, next, true)),
          ActiveEpochId(o.r2, next.r2, Released(s, next, false)),
          Pressed(s, next, true), Pressed(s, next, false), false, false)
  }

  /** Queues the received state as an ordered transition or as the replaceable latest state. */
  function Admit(s: Scheduler, next: InputState, now: int): Scheduler {
    var entry := NewEntry(s, next, now);
    var o := Observe(s, next, now);
    if Transition(s, next) then Enqueue(PreserveBoth(o, entry), entry)
    else o.(latest := Some(entry))
  }

  function CloseEpoch(epoch: Epoch, release: bool): Epoch {
    if release then epoch.(active := false) else epoch
  }

  function Accept(s: Scheduler, next: InputState, now: int): Scheduler {
    var a := Admit(s, next, now);
    a.(previous := Some(next),
       l2 := CloseEpoch(a.l2, Released(s, next, true)),
       r2 := CloseEpoch(a.r2, Released(s, next, false)))
  }

  /** A stale receive generation is refused; zero stands for "no generation check". */
  predicate Admissible(s: Scheduler, generation: nat) {
    generation == 0 || generation == s.generation
  }

  function Received(state: Option<InputState>): InputState {
    Normalize(if state.Some? then state.value else NEUTRAL)
  }

  function Update(s: Scheduler, state: Option<InputState>, generation: nat, now: int): Scheduler {
    if Admissible(s, generation) then Accept(s, Received(state), now) else s
  }

  // ---------------------------------------------------------------- endpoint operations

  function TimestampTicks(base: int, now: int): nat {
    if now - base <= 0 then 0 else ((now - base) / 1000 * 3) % 0x1_0000_0000
  }

  function Selected(s: Scheduler, now: int): Entry {
    if s.retry.Some? then s.retry.value.entry
    else if s.ring != [] then s.ring[0]
    else if s.latest.Some? then s.latest.value
    else s.lastPresented.(receivedAt := now, sampleQueueAge := false)
  }

  function Deselect(s: Scheduler): Scheduler {
    if s.retry.Some? then s.(retry := None)
    else if s.ring != [] then s.(ring := s.ring[1..])
    else s.(latest := None)
  }

  function NextSequence(s: Scheduler): nat {
    (s.sequence + 1) % 0x100
  }

  function NextPacketSequence(s: Scheduler): nat {
    (s.packetSequence + 1) % 0x1_0000_0000
  }

  /** The claim taken by one service opportunity of the endpoint. */
  function NewClaim(s: Scheduler, now: int, battery: nat): Claim {
    var entry := Selected(s, now);
    var token := s.nextClaimToken + 1;
    if s.retry.Some? then
      Claim(entry, s.retry.value.report, s.retry.value.sequence, s.retry.value.packetSequence,
            false, token, s.presentationGeneration)
    else
      var sequence := NextSequence(s);
      var packetSequence := NextPacketSequence(s);
      var report := Report(entry.state, battery, sequence, packetSequence,
                           TimestampTicks(s.timestampBase, now), s.edge);
      Claim(entry, report, sequence, packetSequence, false, token, s.presentationGeneration)
  }

  predicate CanClaim(s: Scheduler, size: nat) {
    size >= REPORT_SIZE && s.claim.None?
  }

  function BeginClaim(s: Scheduler, now: int, battery: nat, size: nat): Scheduler {
    if CanClaim(s, size) then
      Deselect(s).(claim := Some(NewClaim(s, now, battery)), nextClaimToken := s.nextClaimToken + 1)
    else s
  }

  predicate Resolves(s: Scheduler, token: nat, generation: nat, outcome: Outcome) {
    && !outcome.Undefined? && s.claim.Some?
    && token != 0 && token == s.claim.value.token
    && generation != 0 && generation == s.claim.value.generation
    && generation == s.presentationGeneration
  }

  function PresentPeak(epoch: Epoch, entry: Entry, left: bool): Epoch {
    var value := TriggerValue(entry.state, left);
    if EpochTag(entry, left) != epoch.id then epoch
    else if value > epoch.presentedPeak then
      epoch.(presentedPeak := value, presentedPeakState := entry.state)
    else if value == epoch.presentedPeak then
      epoch.(presentedPeakState := CopyStatus(epoch.presentedPeakState, entry.state, left))
    else epoch
  }

  function CommitClaim(s: Scheduler): Scheduler
    requires s.claim.Some?
  {
    var c := s.claim.value;
    s.(claim := None, sequence := c.sequence, packetSequence := c.packetSequence,
       lastPresented := c.entry,
       l2 := PresentPeak(s.l2, c.entry, true), r2 := PresentPeak(s.r2, c.entry, false))
  }

  /** Ordered work returns to the retry lane; continuous work only where nothing newer waits. */
  function DeferClaim(s: Scheduler): Scheduler
    requires s.claim.Some?
  {
    var c := s.claim.value;
    if c.entry.ordered || c.orderedRecovery then
      s.(claim := None,
         retry := Some(Retry(c.entry.(ordered := true), c.report, c.sequence, c.packetSequence)))
    else if s.retry.None? && s.ring == [] && s.latest.None? then
      s.(claim := None, latest := Some(c.entry))
    else s.(claim := None)
  }

  function RestartEpoch(epoch: Epoch, value: nat, state: InputState, now: int, ordinal: nat): Epoch {
    if value == 0 then NO_EPOCH.(id := epoch.id + 1)
    else Epoch(epoch.id + 1, true, value, 0, ZERO_STATE, state, now, ordinal)
  }

  /** Drops everything tied to the ending generation and carries only the newest state over. */
  function Collapse(s: Scheduler, now: int): Scheduler {
    var current := Current(s);
    var ordinal := s.receiveOrdinal + 1;
    var l2 := RestartEpoch(s.l2, current.l2, current, now, ordinal);
    var r2 := RestartEpoch(s.r2, current.r2, current, now, ordinal);
    var snapshot := PlainEntry(current, now, s.generation)
                    .(l2Epoch := if current.l2 == 0 then 0 else l2.id,
                      r2Epoch := if current.r2 == 0 then 0 else r2.id);
    s.(ring := [], retry := None, claim := None, receiveOrdinal := ordinal, l2 := l2, r2 := r2,
       latest := Some(snapshot), presentationGeneration := s.presentationGeneration + 1)
  }

  function Resolve(s: Scheduler, token: nat, generation: nat, outcome: Outcome, at: int): Scheduler {
    if !Resolves(s, token, generation, outcome) then s
    else match outcome
      case Retire => Collapse(s, at)
      case Commit => CommitClaim(s)
      case Defer => DeferClaim(s)
      case Undefined => s
  }

  predicate Retires(s: Scheduler, generation: nat) {
    generation != 0 && generation == s.presentationGeneration
  }

  function RetireGeneration(s: Scheduler, generation: nat, at: int): Scheduler {
    if Retires(s, generation) then Collapse(s, at) else s
  }
}
