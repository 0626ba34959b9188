/**
 Old peaks are kept. In every run without overflow and retirement, a peak that was received before the
 last transition has been presented, or it waits where it cannot be dropped. A saved peak could only be
 tagged falsely if it is such an old one.
 */
module InputSchedulerKeptPeaks {
  import opened DualSenseInput
  import opened InputScheduler
  import opened InputSchedulerInvariant
  import opened InputSchedulerHistory
  import opened InputSchedulerTags
  import opened InputSchedulerOrder
  import opened InputSchedulerPeaks
  import opened InputSchedulerReceipts
  import opened InputSchedulerExactPeaks

  predicate RingKeeps(ring: seq<Entry>, id: nat, peak: nat, left: bool) {
    exists k :: 0 <= k < |ring| && Represents(ring[k], id, peak, left)
  }

  /** A peak has been presented, or waits in a lane or in the queue. */
  predicate Kept(s: Scheduler, left: bool) {
    var e := EpochOf(s, left);
    || e.presentedPeak >= e.peak
    || (s.claim.Some? && Represents(s.claim.value.entry, e.id, e.peak, left) &&
        (s.claim.value.entry.ordered || s.claim.value.orderedRecovery))
    || (s.retry.Some? && Represents(s.retry.value.entry, e.id, e.peak, left))
    || RingKeeps(s.ring, e.id, e.peak, left)
  }

  /** Peaks up to the last transition are kept; a later peak was received with the other trigger as it is now. */
  predicate EdgeOk(l: Ledger, s: Scheduler, left: bool) {
    var e := EpochOf(s, left);
    var other := EpochOf(s, !left);
    && l.edge <= s.receiveOrdinal
    && (other.active ==> StartOf(l, !left) <= l.edge)
    && (e.active && e.peakOrdinal <= l.edge ==> Kept(s, left))
    && (e.active && e.peakOrdinal > l.edge ==> (TriggerValue(e.peakState, !left) != 0 <==> other.active))
  }

  // ---------------------------------------------------------------- kept peaks stay kept

  /** Receiving never takes a kept peak away. */
  lemma KeptStays(s: Scheduler, t: Scheduler, left: bool)
    requires Kept(s, left) && Grows(s.ring, t.ring) && SameClaim(s, t) && t.retry == s.retry
    requires var e, f := EpochOf(s, left), EpochOf(t, left);
             f.id == e.id && f.peak == e.peak && f.presentedPeak == e.presentedPeak
    ensures Kept(t, left)
  {
    var e := EpochOf(s, left);
    hide Represents, Strengthened;
    if RingKeeps(s.ring, e.id, e.peak, left) {
      var k :| 0 <= k < |s.ring| && Represents(s.ring[k], e.id, e.peak, left);
      assert Strengthened(s.ring[k], t.ring[..|s.ring|][k]);
      StrengthenedStands(s.ring[k], t.ring[k], e.id, e.peak, left);
    }
  }

  lemma PreserveKept(s: Scheduler, left: bool, upcoming: Entry)
    requires Tagged(s) && PeaksOk(s) && EpochOf(s, left).active
    requires Preserve(s, left, upcoming).overflows == s.overflows
    ensures Kept(Preserve(s, left, upcoming), left) ||
            Represents(upcoming, EpochOf(s, left).id, EpochOf(s, left).peak, left)
  {
    var epoch := EpochOf(s, left);
    PreserveTagged(s, left, upcoming);
    hide QueuePeak, StatusMatches, Represents, Tagged;
    if NeedsPreserving(epoch, left) && !RepresentsTruthfully(upcoming, epoch, left) {
      if s.claim.Some? && RepresentsTruthfully(s.claim.value.entry, epoch, left) {
      } else if s.retry.Some? && RepresentsTruthfully(s.retry.value.entry, epoch, left) {
      } else if !RingRepresents(s.ring, epoch, left) {
        QueuePeakQueues(s, left);
      }
    }
  }

  lemma PreserveBothKept(s: Scheduler, left: bool, upcoming: Entry)
    requires LanesOk(s) && Tagged(s) && PeaksOk(s) && EpochOf(s, left).active
    requires PreserveBoth(s, upcoming).overflows == s.overflows
    ensures Kept(PreserveBoth(s, upcoming), left) ||
            Represents(upcoming, EpochOf(s, left).id, EpochOf(s, left).peak, left)
  {
    hide Preserve, Kept, Tagged, LanesOk, PeaksOk, Represents;
    var first := LeftFirst(s);
    var m := Preserve(s, first, upcoming);
    var t := Preserve(m, !first, upcoming);
    assert t == PreserveBoth(s, upcoming);
    PreserveKeeps(s, first, upcoming);
    PreserveTagged(s, first, upcoming);
    PreserveKeeps(m, !first, upcoming);
    PreserveTagged(m, !first, upcoming);
    PreserveOverflows(s, first, upcoming);
    PreserveOverflows(m, !first, upcoming);
    if left == first {
      PreserveKept(s, left, upcoming);
      if Kept(m, left) { KeptStays(m, t, left); }
    } else {
      assert EpochOf(m, left) == EpochOf(s, left);
      PreserveKept(m, left, upcoming);
    }
  }

  /** After a transition every peak of a held trigger is kept. */
  lemma TransitionKeepsPeaks(s: Scheduler, next: InputState, now: int, left: bool)
    requires Inv(s) && Tagged(s) && Transition(s, next) && EpochOf(Accept(s, next, now), left).active
    requires Accept(s, next, now).overflows == s.overflows
    ensures Kept(Accept(s, next, now), left)
  {
    var o := Observe(s, next, now);
    var entry := NewEntry(s, next, now);
    var t := Accept(s, next, now);
    var p := PreserveBoth(o, entry);
    AcceptEpochIs(s, next, now, left);
    ObserveTagged(s, next, now);
    PreserveBothKeeps(o, entry);
    PreserveBothOverflows(o, entry);
    hide PreserveBoth, Observe, NewEntry, Tagged, PeaksOk, LanesOk, Kept, Transition, Released, Represents;
    PreserveBothKept(o, left, entry);
    EnqueueGrows(p, entry);
    assert t.ring == Enqueue(p, entry).ring && SameClaim(p, t) && t.retry == p.retry;
    if Kept(p, left) {
      KeptStays(p, t, left);
    } else {
      EnqueueLast(p, entry);
      LastIsKept(t, entry, left);
    }
  }

  lemma LastIsKept(t: Scheduler, entry: Entry, left: bool)
    requires t.ring != [] && t.ring[|t.ring| - 1] == entry.(ordered := true)
    requires Represents(entry, EpochOf(t, left).id, EpochOf(t, left).peak, left)
    ensures Kept(t, left)
  {
    assert Represents(t.ring[|t.ring| - 1], EpochOf(t, left).id, EpochOf(t, left).peak, left);
  }

  // ---------------------------------------------------------------- receiving

  /** The peak is the new state, or it is the same as before. */
  predicate PeakMoves(e: Epoch, f: Epoch, next: InputState, ordinal: nat) {
    || (f.peakOrdinal == ordinal && SameTriggers(f.peakState, next))
    || (e.active && f.id == e.id && f.peak == e.peak && f.presentedPeak == e.presentedPeak &&
        f.peakOrdinal == e.peakOrdinal && SameTriggers(f.peakState, e.peakState))
  }

  lemma ObserveMoves(s: Scheduler, next: InputState, now: int, left: bool)
    ensures var f := EpochOf(Observe(s, next, now), left);
            f.active ==> PeakMoves(EpochOf(s, left), f, next, s.receiveOrdinal + 1)
  {
  }

  /** A transition is received: everything is kept from here. */
  lemma TransitionEdges(l: Ledger, s: Scheduler, next: InputState, now: int, left: bool)
    requires Inv(s) && Tagged(s) && LedgerOk(l, s) && EdgeOk(l, s, left) && Transition(s, next)
    requires Accept(s, next, now).overflows == s.overflows
    ensures EdgeOk(Enter(l, s, next, now), Accept(s, next, now), left)
  {
    var t := Accept(s, next, now);
    EnterKeepsBoth(l, s, next, now);
    if EpochOf(t, left).active { TransitionKeepsPeaks(s, next, now, left); }
    ObserveOrdinal(s, next, now);
    ReceiveOrdinals(s, next, now);
    hide Accept, Observe, Kept, Inv, Tagged, StaleSaves, NewEntry, Transition;
  }

  lemma ContinuousEpochs(s: Scheduler, next: InputState, left: bool)
    requires Inv(s) && !Transition(s, next)
    ensures !Pressed(s, next, left) && !Released(s, next, left)
    ensures EpochOf(s, left).active <==> TriggerValue(next, left) != 0
  {
  }

  /** A continuous state is received: no press begins or ends. */
  lemma ContinuousEdges(l: Ledger, s: Scheduler, next: InputState, now: int, left: bool)
    requires Inv(s) && LedgerOk(l, s) && EdgeOk(l, s, left) && !Transition(s, next)
    ensures EdgeOk(Enter(l, s, next, now), Accept(s, next, now), left)
  {
    var t := Accept(s, next, now);
    ContinuousEpochs(s, next, left);
    ContinuousEpochs(s, next, !left);
    ObserveMoves(s, next, now, left);
    TrackKeeps(s, next, now, !left);
    AcceptEpochIs(s, next, now, left);
    AcceptEpochIs(s, next, now, !left);
    ReceiveOrdinals(s, next, now);
    assert t.ring == s.ring && t.claim == s.claim && t.retry == s.retry;
    hide Accept, Observe, Transition, Pressed, Released, StaleSaves, NewEntry, Inv;
    var e, f := EpochOf(s, left), EpochOf(t, left);
    if f.active && f.peakOrdinal <= l.edge {
      GrowsReflexive(s.ring);
      hide Grows;
      KeptStays(s, t, left);
    }
  }

  // ---------------------------------------------------------------- claiming and resolving

  lemma ClaimKeeps(s: Scheduler, at: int, battery: nat, size: nat, left: bool)
    requires LanesOk(s) && Kept(s, left)
    ensures Kept(BeginClaim(s, at, battery, size), left)
  {
    if CanClaim(s, size) {
      var e := EpochOf(s, left);
      var t := BeginClaim(s, at, battery, size);
      NewClaimEntry(s, at, battery);
      hide NewClaim, Represents;
      if RingKeeps(s.ring, e.id, e.peak, left) {
        var k :| 0 <= k < |s.ring| && Represents(s.ring[k], e.id, e.peak, left);
        if s.retry.None? && k > 0 { assert t.ring[k - 1] == s.ring[k]; }
      }
    }
  }

  lemma CommitKeepsPeak(s: Scheduler, left: bool)
    requires s.claim.Some? && Kept(s, left)
    ensures Kept(CommitClaim(s), left)
  {
    hide CopyStatus, RingKeeps;
  }

  lemma DeferKeepsPeak(s: Scheduler, left: bool)
    requires LanesOk(s) && s.claim.Some? && Kept(s, left)
    ensures Kept(DeferClaim(s), left)
  {
    hide RingKeeps;
  }

  lemma EndpointEdges(l: Ledger, s: Scheduler, t: Scheduler, left: bool)
    requires EdgeOk(l, s, left) && t.receiveOrdinal == s.receiveOrdinal
    requires SamePress(EpochOf(s, left), EpochOf(t, left)) && SamePress(EpochOf(s, !left), EpochOf(t, !left))
    requires Kept(s, left) ==> Kept(t, left)
    ensures EdgeOk(l, t, left)
  {
    hide Kept;
  }

  lemma BeginReceiveKept(s: Scheduler, left: bool)
    requires Kept(s, left)
    ensures Kept(BeginReceiveGeneration(s), left)
  {
  }

  lemma StepEdges(w: World, l: Ledger, a: Action, left: bool)
    requires HistoryOk(w) && LedgerOk(l, w.s) && EdgeOk(l, w.s, left)
    requires Unretired(Advance(w, a)) && Advance(w, a).s.overflows == w.s.overflows
    ensures EdgeOk(Keep(l, w.s, a), Advance(w, a).s, left)
  {
    assert Inv(w.s) && Tagged(w.s) && LanesOk(w.s);
    AdvanceIsStep(w, a);
    if a.Receive? {
      hide HistoryOk, Inv, Tagged, LanesOk, Accept, Enter, EdgeOk, LedgerOk, Transition, Unretired;
      if Admissible(w.s, a.generation) {
        if Transition(w.s, Received(a.state)) {
          TransitionEdges(l, w.s, Received(a.state), a.at, left);
        } else {
          ContinuousEdges(l, w.s, Received(a.state), a.at, left);
        }
      }
    } else {
      UnretiredKeeps(w, l, a);
      hide HistoryOk, Inv, Tagged, LanesOk, EdgeOk, LedgerOk, Advance, Keep;
      QuietEdges(w, l, a, left);
    }
  }

  lemma QuietEdges(w: World, l: Ledger, a: Action, left: bool)
    requires Inv(w.s) && EdgeOk(l, w.s, left) && !a.Receive?
    requires Unretired(Advance(w, a))
    ensures EdgeOk(l, Advance(w, a).s, left)
  {
    var s, t := w.s, Advance(w, a).s;
    assert LanesOk(s) && s.presentationGeneration > 0;
    hide Inv, LanesOk, EdgeOk, Kept, Collapse, NewClaim, CommitClaim, DeferClaim;
    match a
    case BeginReceive =>
      if Kept(s, left) { BeginReceiveKept(s, left); }
      EndpointEdges(l, s, t, left);
    case TakeClaim(at, battery, size) =>
      if Kept(s, left) { ClaimKeeps(s, at, battery, size, left); }
      ClaimPresses(s, at, battery, size);
      EndpointEdges(l, s, t, left);
    case ResolveClaim(token, generation, outcome, at) =>
      if Resolves(s, token, generation, outcome) {
        match outcome
        case Commit =>
          if Kept(s, left) { CommitKeepsPeak(s, left); }
          CommitPresses(s);
          EndpointEdges(l, s, t, left);
        case Defer =>
          if Kept(s, left) { DeferKeepsPeak(s, left); }
          DeferPresses(s);
          EndpointEdges(l, s, t, left);
        case Retire =>
          CollapseGeneration(s, at);
          assert false;
      }
    case RetirePresentation(generation, at) =>
      if Retires(s, generation) {
        CollapseGeneration(s, at);
        assert false;
      }
  }

  predicate EdgesOk(l: Ledger, s: Scheduler) {
    EdgeOk(l, s, true) && EdgeOk(l, s, false)
  }

  /** In every run without overflow and retirement, whatever the status: old peaks are kept. */
  lemma {:induction false} PlayEdges(edge: bool, start: int, actions: seq<Action>)
    requires var w := Play(NewWorld(edge, start), actions); Unretired(w) && w.s.overflows == 0
    ensures EdgesOk(Books(edge, start, actions), Play(NewWorld(edge, start), actions).s)
  {
    if actions != [] {
      var init, last := actions[..|actions| - 1], actions[|actions| - 1];
      var w, l := Play(NewWorld(edge, start), init), Books(edge, start, init);
      PlayHistory(edge, start, init);
      PlayIsRun(NewWorld(edge, start), init);
      BooksKeep(edge, start, init);
      assert Inv(w.s) && w.s.presentationGeneration > 0;
      hide HistoryOk, Inv, Advance, Keep, LedgerOk, EdgeOk;
      MarksStay(w, last);
      PlayEdges(edge, start, init);
      StepEdges(w, l, last, true);
      StepEdges(w, l, last, false);
    }
  }

  // ---------------------------------------------------------------- stale tags

  /** A saved peak would be stale only if the peak is kept already. */
  lemma StaleIsKept(l: Ledger, s: Scheduler, next: InputState, now: int, left: bool)
    requires Inv(s) && LedgerOk(l, s) && EdgeOk(l, s, left) && EpochOf(Observe(s, next, now), left).active
    requires TagIsStale(Observe(s, next, now), left, StartOf(Enter(l, s, next, now), !left))
    ensures Kept(Observe(s, next, now), left)
  {
    var o := Observe(s, next, now);
    ObserveMoves(s, next, now, left);
    TrackKeeps(s, next, now, !left);
    EnterObserves(l, s, next, now, !left);
    ObserveOrdinal(s, next, now);
    GrowsReflexive(s.ring);
    assert o.ring == s.ring && o.claim == s.claim && o.retry == s.retry;
    assert EpochOk(s, !left);
    hide Grows, Kept, StaleSaves, NewEntry, Inv, TrackEpoch, LedgerOk, Transition;
    if EpochOf(o, left).peakOrdinal <= l.edge { KeptStays(s, o, left); }
  }
}
