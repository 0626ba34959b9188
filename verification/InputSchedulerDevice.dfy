/**
 The scheduler as the device keeps it: a fixed array used as a ring, and slots that are
 overwritten in place. Each method is proved to take the abstract scheduler to the value that
 `InputScheduler` specifies.
 */
module InputSchedulerDevice {
  import opened Basics
  import opened Options
  import opened DualSenseInput
  import opened InputScheduler

  const EMPTY_ENTRY := PlainEntry(ZERO_STATE, 0, 0)
  const EMPTY_REPORT := Report(ZERO_STATE, 0, 0, 0, 0, false)

  class DeviceScheduler {
    const edge: bool
    const timestampBase: int
    const transitions: array<Entry>
    var head: nat
    var count: nat
    var latest: Option<Entry>
    var retry: Option<Retry>
    var claim: Option<Claim>
    var nextClaimToken: nat
    var previous: Option<InputState>
    var lastPresented: Entry
    var l2: Epoch
    var r2: Epoch
    var generation: nat
    var receiveOrdinal: nat
    var overflows: nat
    var sequence: nat
    var packetSequence: nat
    var presentationGeneration: nat

    /** The queued transitions, oldest first. */
    ghost var ring: seq<Entry>

    /** The array slots from `head` on hold exactly the queued transitions. */
    ghost predicate Valid()
      reads this, transitions
    {
      && transitions.Length == RING_CAPACITY
      && head < RING_CAPACITY && count <= RING_CAPACITY && |ring| == count
      && (forall i :: 0 <= i < count ==> transitions[(head + i) % RING_CAPACITY] == ring[i])
    }

    ghost function View(): Scheduler
      reads this
    {
      Scheduler(edge, ring, latest, retry, claim, nextClaimToken, previous, lastPresented,
                l2, r2, generation, receiveOrdinal, overflows, sequence, packetSequence,
                timestampBase, presentationGeneration)
    }

    constructor (edge: bool, now: int)
      ensures Valid() && fresh(transitions) && View() == NewScheduler(edge, now)
    {
      this.edge, this.timestampBase := edge, now;
      transitions := new Entry[RING_CAPACITY](_ => EMPTY_ENTRY);
      head, count, ring := 0, 0, [];
      latest, retry, claim, nextClaimToken, previous := None, None, None, 0, None;
      lastPresented := PlainEntry(NEUTRAL, now, 1);
      l2, r2 := NO_EPOCH, NO_EPOCH;
      generation, receiveOrdinal, overflows := 1, 0, 0;
      sequence, packetSequence, presentationGeneration := 0, 0, 1;
    }

    method BeginReceiveGeneration() returns (current: nat)
      requires Valid()
      modifies this`generation
      ensures Valid() && View() == InputScheduler.BeginReceiveGeneration(old(View()))
      ensures current == View().generation
    {
      generation := generation + 1;
      current := generation;
    }

    // -------------------------------------------------------------- the ring

    method PushBack(entry: Entry)
      requires Valid() && count < RING_CAPACITY
      modifies this`count, this`ring, transitions
      ensures Valid() && ring == old(ring) + [entry]
    {
      transitions[(head + count) % transitions.Length] := entry;
      forall i | 0 <= i < count ensures transitions[(head + i) % RING_CAPACITY] == ring[i] { SlotsDiffer(RING_CAPACITY, head + i, head + count); }
      count := count + 1;
      ring := ring + [entry];
    }

    method PopFront() returns (entry: Entry)
      requires Valid() && count > 0
      modifies this`head, this`count, this`ring, transitions
      ensures Valid() && entry == old(ring)[0] && ring == old(ring)[1..]
    {
      ghost var was, slots := ring, transitions[..];
      assert transitions[(head + 0) % RING_CAPACITY] == ring[0];
      entry := transitions[head];
      transitions[head] := EMPTY_ENTRY;
      PoppedRing(slots, transitions[..], head, was);
      head := (head + 1) % transitions.Length;
      count := count - 1;
      ring := ring[1..];
    }

    method ClearRing()
      requires Valid()
      modifies this`head, this`count, this`ring, transitions
      ensures Valid() && ring == []
    {
      forall i | 0 <= i < transitions.Length { transitions[i] := EMPTY_ENTRY; }
      head, count, ring := 0, 0, [];
    }

    method EnqueueTransition(entry: Entry)
      requires Valid()
      modifies this`latest, this`overflows, this`count, this`ring, transitions
      ensures Valid() && View() == Enqueue(old(View()), entry)
    {
      latest := None;
      var ordered := entry.(ordered := true);
      if count == transitions.Length {
        overflows := overflows + 1;
        latest := Some(ordered);
      } else {
        PushBack(ordered);
      }
    }

    method RingHasPeak(epoch: Epoch, left: bool) returns (found: bool)
      requires Valid()
      ensures found <==> RingRepresents(ring, epoch, left)
    {
      hide RepresentsTruthfully;
      for offset := 0 to count
        invariant forall i :: 0 <= i < offset ==> !RepresentsTruthfully(ring[i], epoch, left)
      {
        if RepresentsTruthfully(transitions[(head + offset) % transitions.Length], epoch, left) {
          assert RepresentsTruthfully(ring[offset], epoch, left);
          return true;
        }
      }
      return false;
    }

    /** Looks for the pending press of an epoch, stopping at the first that could carry its peak. */
    method FindAnchor(epoch: Epoch, left: bool) returns (offset: nat)
      requires Valid()
      ensures offset == FirstAnchor(ring, epoch, left, 0)
    {
      hide Anchors;
      offset := 0;
      while offset < count
        invariant offset <= count && FirstAnchor(ring, epoch, left, 0) == FirstAnchor(ring, epoch, left, offset)
      {
        if Anchors(transitions[(head + offset) % transitions.Length], epoch, left) { return; }
        offset := offset + 1;
      }
    }

    method StrengthenPending(offset: nat, epoch: Epoch, left: bool)
      requires Valid() && offset < count
      modifies this`ring, transitions
      ensures Valid() && ring == old(ring)[offset := Anchored(old(ring)[offset], epoch, left)]
    {
      hide Anchored;
      var raised := Anchored(transitions[(head + offset) % transitions.Length], epoch, left);
      transitions[(head + offset) % transitions.Length] := raised;
      ring := ring[offset := raised];
    }

    // -------------------------------------------------------------- peaks

    method QueuePeak(left: bool)
      requires Valid()
      modifies this`latest, this`overflows, this`count, this`ring, transitions
      ensures Valid() && View() == InputScheduler.QueuePeak(old(View()), left)
    {
      hide Anchored, CopyStatus, StatusMatches, LayoutsMatch, Represents, SavedPeak, Enqueue;
      var epoch := if left then l2 else r2;
      var offset := FindAnchor(epoch, left);
      if offset < count &&
         (offset == count - 1 ||
          StatusMatches(transitions[(head + offset) % transitions.Length].state, epoch.peakState, left)) {
        StrengthenPending(offset, epoch, left);
      } else if latest.Some? && Represents(latest.value, epoch.id, epoch.peak, left) &&
                LayoutsMatch(latest.value.state, epoch.peakState) {
        EnqueueTransition(latest.value.(state := CopyStatus(latest.value.state, epoch.peakState, left)));
      } else {
        var peak := SavedEntry(left);
        EnqueueTransition(peak);
      }
    }

    method SavedEntry(left: bool) returns (peak: Entry)
      requires Valid()
      ensures peak == SavedPeak(View(), left)
    {
      var epoch := if left then l2 else r2;
      peak := PlainEntry(epoch.peakState, epoch.peakReceivedAt, generation).(sampleQueueAge := true);
      if left {
        peak := peak.(l2Epoch := epoch.id);
        if r2.active && peak.state.r2 != 0 { peak := peak.(r2Epoch := r2.id); }
      } else {
        peak := peak.(r2Epoch := epoch.id);
        if l2.active && peak.state.l2 != 0 { peak := peak.(l2Epoch := l2.id); }
      }
    }

    method PreserveTriggerPeak(left: bool, upcoming: Entry)
      requires Valid()
      modifies this`claim, this`latest, this`overflows, this`count, this`ring, transitions
      ensures Valid() && View() == Preserve(old(View()), left, upcoming)
    {
      hide InputScheduler.QueuePeak, RepresentsTruthfully, NeedsPreserving, RingRepresents;
      var epoch := if left then l2 else r2;
      if !NeedsPreserving(epoch, left) || RepresentsTruthfully(upcoming, epoch, left) { return; }
      if claim.Some? && RepresentsTruthfully(claim.value.entry, epoch, left) {
        claim := Some(claim.value.(orderedRecovery := true));
        return;
      }
      if retry.Some? && RepresentsTruthfully(retry.value.entry, epoch, left) { return; }
      var found := RingHasPeak(epoch, left);
      if found { return; }
      QueuePeak(left);
    }

    method PreserveTriggerPeaks(upcoming: Entry)
      requires Valid()
      modifies this`claim, this`latest, this`overflows, this`count, this`ring, transitions
      ensures Valid() && View() == PreserveBoth(old(View()), upcoming)
    {
      hide Preserve;
      if l2.active && r2.active && r2.peakOrdinal < l2.peakOrdinal {
        PreserveTriggerPeak(false, upcoming);
        PreserveTriggerPeak(true, upcoming);
      } else {
        PreserveTriggerPeak(true, upcoming);
        PreserveTriggerPeak(false, upcoming);
      }
    }

    // -------------------------------------------------------------- receiving

    method ObserveEpochs(next: InputState, now: int)
      requires Valid()
      modifies this`receiveOrdinal, this`l2, this`r2
      ensures Valid() && View() == Observe(old(View()), next, now)
    {
      hide TrackEpoch;
      receiveOrdinal := receiveOrdinal + 1;
      l2 := TrackEpoch(l2, (previous.None? || previous.value.l2 == 0) && next.l2 != 0, next, now, receiveOrdinal, true);
      r2 := TrackEpoch(r2, (previous.None? || previous.value.r2 == 0) && next.r2 != 0, next, now, receiveOrdinal, false);
    }

    method AdmitState(next: InputState, now: int)
      requires Valid()
      modifies this`receiveOrdinal, this`l2, this`r2,
               this`claim, this`latest, this`overflows, this`count, this`ring, transitions
      ensures Valid() && View() == Admit(old(View()), next, now)
    {
      hide PreserveBoth, Observe, HasTransition, NonNeutral, Enqueue, ActiveEpochId;
      ghost var start := View();
      var l2Press := (previous.None? || previous.value.l2 == 0) && next.l2 != 0;
      var r2Press := (previous.None? || previous.value.r2 == 0) && next.r2 != 0;
      var l2Release := previous.Some? && previous.value.l2 != 0 && next.l2 == 0;
      var r2Release := previous.Some? && previous.value.r2 != 0 && next.r2 == 0;
      var transition := if previous.Some? then HasTransition(previous.value, next) else NonNeutral(next);
      ObserveEpochs(next, now);
      var entry := Entry(next, now, generation, true, false,
                         ActiveEpochId(l2, next.l2, l2Release), ActiveEpochId(r2, next.r2, r2Release),
                         l2Press, r2Press, false, false);
      assert entry == NewEntry(start, next, now);
      hide NewEntry;
      if transition {
        PreserveTriggerPeaks(entry);
        EnqueueTransition(entry);
      } else {
        latest := Some(entry);
      }
    }

    method UpdateAt(state: Option<InputState>, generation: nat, now: int) returns (accepted: bool)
      requires Valid()
      modifies this, transitions
      ensures Valid() && View() == Update(old(View()), state, generation, now)
      ensures accepted == Admissible(old(View()), generation)
    {
      hide Accept, Normalize;
      if generation != 0 && generation != this.generation { return false; }
      AcceptState(Normalize(if state.Some? then state.value else NEUTRAL), now);
      return true;
    }

    method AcceptState(next: InputState, now: int)
      requires Valid()
      modifies this, transitions
      ensures Valid() && View() == Accept(old(View()), next, now)
    {
      hide Admit, CloseEpoch;
      var l2Release := previous.Some? && previous.value.l2 != 0 && next.l2 == 0;
      var r2Release := previous.Some? && previous.value.r2 != 0 && next.r2 == 0;
      AdmitState(next, now);
      previous := Some(next);
      l2, r2 := CloseEpoch(l2, l2Release), CloseEpoch(r2, r2Release);
    }

    // -------------------------------------------------------------- presenting

    method SelectState(now: int) returns (selected: Entry)
      requires Valid()
      modifies this`retry, this`head, this`count, this`ring, this`latest, transitions
      ensures Valid()
      ensures selected == Selected(old(View()), now) && View() == Deselect(old(View()))
    {
      if retry.Some? {
        selected := retry.value.entry;
        retry := None;
      } else if count != 0 {
        selected := PopFront();
      } else if latest.Some? {
        selected := latest.value;
        latest := None;
      } else {
        selected := lastPresented.(receivedAt := now, sampleQueueAge := false);
      }
    }

    /** Returns the report offered to the endpoint and its token; token zero means no offer. */
    method BeginClaim(now: int, battery: nat, size: nat) returns (report: Report, token: nat)
      requires Valid()
      modifies this`claim, this`nextClaimToken,
               this`retry, this`head, this`count, this`ring, this`latest, transitions
      ensures Valid() && View() == InputScheduler.BeginClaim(old(View()), now, battery, size)
      ensures if CanClaim(old(View()), size) then
                report == NewClaim(old(View()), now, battery).report && token == View().claim.value.token > 0
              else token == 0
    {
      hide TimestampTicks, Deselect, Selected;
      if size < REPORT_SIZE || claim.Some? { return EMPTY_REPORT, 0; }
      var retrying := retry;
      var selected := SelectState(now);
      var nextSequence, nextPacketSequence;
      if retrying.Some? {
        nextSequence, nextPacketSequence := retrying.value.sequence, retrying.value.packetSequence;
        report := retrying.value.report;
      } else {
        nextSequence, nextPacketSequence := (sequence + 1) % 0x100, (packetSequence + 1) % 0x1_0000_0000;
        report := Report(selected.state, battery, nextSequence, nextPacketSequence,
                         TimestampTicks(timestampBase, now), edge);
      }
      nextClaimToken := nextClaimToken + 1;
      token := nextClaimToken;
      claim := Some(Claim(selected, report, nextSequence, nextPacketSequence, false, token, presentationGeneration));
    }

    method CommitClaimed()
      requires Valid() && claim.Some?
      modifies this`sequence, this`packetSequence, this`lastPresented, this`l2, this`r2, this`claim
      ensures Valid() && View() == CommitClaim(old(View()))
    {
      hide PresentPeak;
      var c := claim.value;
      l2, r2 := PresentPeak(l2, c.entry, true), PresentPeak(r2, c.entry, false);
      sequence, packetSequence, lastPresented, claim := c.sequence, c.packetSequence, c.entry, None;
    }

    method DeferClaimed()
      requires Valid() && claim.Some?
      modifies this`claim, this`retry, this`latest
      ensures Valid() && View() == DeferClaim(old(View()))
    {
      var c := claim.value;
      if c.entry.ordered || c.orderedRecovery {
        retry := Some(Retry(c.entry.(ordered := true), c.report, c.sequence, c.packetSequence));
      } else if retry.None? && count == 0 && latest.None? {
        latest := Some(c.entry);
      }
      claim := None;
    }

    method DropPending()
      requires Valid()
      modifies this`head, this`count, this`ring, this`retry, this`claim, transitions
      ensures Valid() && View() == old(View()).(ring := [], retry := None, claim := None)
    {
      ClearRing();
      retry, claim := None, None;
    }

    method CollapsePresentationGeneration(retiredAt: int)
      requires Valid()
      modifies this`head, this`count, this`ring, this`retry, this`claim, this`receiveOrdinal, this`l2, this`r2,
               this`latest, this`presentationGeneration, transitions
      ensures Valid() && View() == Collapse(old(View()), retiredAt)
    {
      hide RestartEpoch, PlainEntry;
      DropPending();
      var current := if previous.Some? then previous.value else NEUTRAL;
      RestartEpochs(current, retiredAt);
      latest := Some(PlainEntry(current, retiredAt, generation)
                     .(l2Epoch := if current.l2 == 0 then 0 else l2.id,
                       r2Epoch := if current.r2 == 0 then 0 else r2.id));
      presentationGeneration := presentationGeneration + 1;
    }

    method RestartEpochs(current: InputState, retiredAt: int)
      modifies this`receiveOrdinal, this`l2, this`r2
      ensures receiveOrdinal == old(receiveOrdinal) + 1
      ensures l2 == RestartEpoch(old(l2), current.l2, current, retiredAt, receiveOrdinal)
      ensures r2 == RestartEpoch(old(r2), current.r2, current, retiredAt, receiveOrdinal)
    {
      hide RestartEpoch;
      receiveOrdinal := receiveOrdinal + 1;
      l2 := RestartEpoch(l2, current.l2, current, retiredAt, receiveOrdinal);
      r2 := RestartEpoch(r2, current.r2, current, retiredAt, receiveOrdinal);
    }

    method ResolveClaimAt(token: nat, generation: nat, outcome: Outcome, completedAt: int) returns (resolved: bool)
      requires Valid()
      modifies this, transitions
      ensures Valid() && View() == Resolve(old(View()), token, generation, outcome, completedAt)
      ensures resolved == Resolves(old(View()), token, generation, outcome)
    {
      hide Collapse, CommitClaim, DeferClaim;
      if outcome.Undefined? || claim.None? || token == 0 || token != claim.value.token || generation == 0 ||
         generation != claim.value.generation || generation != presentationGeneration {
        return false;
      }
      match outcome {
        case Retire => CollapsePresentationGeneration(completedAt);
        case Commit => CommitClaimed();
        case Defer => DeferClaimed();
      }
      return true;
    }

    method RetirePresentationGeneration(generation: nat, retiredAt: int) returns (retired: bool)
      requires Valid()
      modifies this, transitions
      ensures Valid() && View() == RetireGeneration(old(View()), generation, retiredAt)
      ensures retired == Retires(old(View()), generation)
    {
      hide Collapse;
      if generation == 0 || generation != presentationGeneration { return false; }
      CollapsePresentationGeneration(retiredAt);
      return true;
    }
  }

  /** Clearing the front slot leaves the rest of the queue in place, one position on. */
  lemma PoppedRing(slots: seq<Entry>, popped: seq<Entry>, head: nat, ring: seq<Entry>)
    requires |slots| == |popped| == RING_CAPACITY && head < RING_CAPACITY && 0 < |ring| <= RING_CAPACITY
    requires forall i :: 0 <= i < |ring| ==> slots[(head + i) % RING_CAPACITY] == ring[i]
    requires forall j :: 0 <= j < RING_CAPACITY && j != head ==> popped[j] == slots[j]
    ensures forall i :: 0 <= i < |ring| - 1 ==> popped[((head + 1) % RING_CAPACITY + i) % RING_CAPACITY] == ring[1..][i]
  {
    forall i | 0 <= i < |ring| - 1
      ensures popped[((head + 1) % RING_CAPACITY + i) % RING_CAPACITY] == ring[1..][i]
    {
      NextSlot(RING_CAPACITY, head + 1, i);
      SlotsDiffer(RING_CAPACITY, head, head + i + 1);
      assert slots[(head + (i + 1)) % RING_CAPACITY] == ring[i + 1];
    }
  }
}
