/**
 When a stale tag can arise at all. An old peak is kept, and it is saved once more only because the
 physical status of its trigger changed since. So a run in which trigger status never changes, and in
 particular one without metadata, never queues a saved peak with a stale tag.
 */
module InputSchedulerSteadyRuns {
  import opened Options
  import opened DualSenseInput
  import opened InputScheduler
  import opened InputSchedulerInvariant
  import opened InputSchedulerHistory
  import opened InputSchedulerTags
  import opened InputSchedulerOrder
  import opened InputSchedulerPeaks
  import opened InputSchedulerReceipts
  import opened InputSchedulerKeptPeaks

  /** Both triggers have the physical status that they have in `r`. */
  predicate SteadyState(state: InputState, r: InputState) {
    StatusMatches(state, r, true) && StatusMatches(state, r, false)
  }

  predicate SteadyEntry(entry: Entry, r: InputState) {
    entry.l2Epoch > 0 || entry.r2Epoch > 0 ==> SteadyState(entry.state, r)
  }

  predicate SteadyEpoch(e: Epoch, r: InputState) {
    e.active ==>
      SteadyState(e.peakState, r) && (e.presentedPeak > 0 ==> SteadyState(e.presentedPeakState, r))
  }

  predicate SteadyLanes(s: Scheduler, r: InputState) {
    && (forall i :: 0 <= i < |s.ring| ==> SteadyEntry(s.ring[i], r))
    && (s.latest.Some? ==> SteadyEntry(s.latest.value, r))
    && (s.retry.Some? ==> SteadyEntry(s.retry.value.entry, r))
    && (s.claim.Some? ==> SteadyEntry(s.claim.value.entry, r))
    && SteadyEntry(s.lastPresented, r)
  }

  predicate SteadyEpochs(s: Scheduler, r: InputState) {
    SteadyEpoch(s.l2, r) && SteadyEpoch(s.r2, r)
  }

  predicate Steady(s: Scheduler, r: InputState) {
    SteadyLanes(s, r) && SteadyEpochs(s, r) && (s.previous.Some? ==> SteadyState(s.previous.value, r))
  }

  // ---------------------------------------------------------------- preserving a peak

  lemma CopySteady(a: InputState, b: InputState, left: bool, r: InputState)
    requires SteadyState(a, r) && SteadyState(b, r)
    ensures SteadyState(CopyStatus(a, b, left), r)
    ensures forall side :: StatusMatches(a, b, side)
  {
  }

  lemma AnchoredSteady(pending: Entry, epoch: Epoch, left: bool, r: InputState)
    requires SteadyEntry(pending, r) && SteadyState(epoch.peakState, r)
    ensures SteadyEntry(Anchored(pending, epoch, left), r)
  {
  }

  lemma EnqueueSteady(s: Scheduler, entry: Entry, r: InputState)
    requires SteadyLanes(s, r) && SteadyEntry(entry, r)
    ensures SteadyLanes(Enqueue(s, entry), r)
  {
    assert SteadyEntry(entry.(ordered := true), r);
    hide SteadyEntry;
  }

  lemma ReplaceSteady(s: Scheduler, i: nat, entry: Entry, r: InputState)
    requires i < |s.ring| && SteadyLanes(s, r) && SteadyEntry(entry, r)
    ensures SteadyLanes(s.(ring := s.ring[i := entry]), r)
  {
    hide SteadyEntry;
  }

  lemma PromoteSteady(s: Scheduler, left: bool, r: InputState)
    requires SteadyLanes(s, r) && s.latest.Some? && SteadyState(EpochOf(s, left).peakState, r)
    ensures SteadyLanes(Enqueue(s, s.latest.value.(state := CopyStatus(s.latest.value.state, EpochOf(s, left).peakState, left))), r)
  {
    hide CopyStatus, SteadyState, Enqueue;
    var source := EpochOf(s, left).peakState;
    if SteadyState(s.latest.value.state, r) { CopySteady(s.latest.value.state, source, left, r); }
    EnqueueSteady(s, s.latest.value.(state := CopyStatus(s.latest.value.state, source, left)), r);
  }

  lemma QueuePeakSteady(s: Scheduler, left: bool, r: InputState)
    requires SteadyLanes(s, r) && SteadyState(EpochOf(s, left).peakState, r)
    ensures SteadyLanes(QueuePeak(s, left), r)
  {
    var epoch := EpochOf(s, left);
    var i := FirstAnchor(s.ring, epoch, left, 0);
    assert SteadyEntry(SavedPeak(s, left), r);
    hide Anchored, StatusMatches, LayoutsMatch, SavedPeak, CopyStatus, Anchors, Enqueue, SteadyEntry, SteadyState, Represents;
    if i < |s.ring| {
      AnchoredSteady(s.ring[i], epoch, left, r);
      ReplaceSteady(s, i, Anchored(s.ring[i], epoch, left), r);
    }
    if s.latest.Some? { PromoteSteady(s, left, r); }
    EnqueueSteady(s, SavedPeak(s, left), r);
  }

  lemma PreserveSteady(s: Scheduler, left: bool, upcoming: Entry, r: InputState)
    requires SteadyLanes(s, r) && SteadyEpochs(s, r)
    ensures SteadyLanes(Preserve(s, left, upcoming), r) && SteadyEpochs(Preserve(s, left, upcoming), r)
  {
    hide QueuePeak, SteadyState, SteadyEntry, RepresentsTruthfully, RingRepresents, StatusMatches;
    if EpochOf(s, left).active {
      QueuePeakSteady(s, left, r);
      QueuePeakEpochs(s, left);
    }
  }

  lemma PreserveBothSteady(s: Scheduler, upcoming: Entry, r: InputState)
    requires SteadyLanes(s, r) && SteadyEpochs(s, r)
    ensures SteadyLanes(PreserveBoth(s, upcoming), r) && SteadyEpochs(PreserveBoth(s, upcoming), r)
  {
    hide Preserve, SteadyLanes, SteadyEpochs;
    PreserveSteady(s, LeftFirst(s), upcoming, r);
    PreserveSteady(Preserve(s, LeftFirst(s), upcoming), !LeftFirst(s), upcoming, r);
  }

  // ---------------------------------------------------------------- every call

  lemma ObserveSteady(s: Scheduler, next: InputState, now: int, r: InputState)
    requires Steady(s, r) && SteadyState(next, r)
    ensures var o := Observe(s, next, now); SteadyLanes(o, r) && SteadyEpochs(o, r)
  {
    hide SteadyEntry;
    TrackSteady(s.l2, Pressed(s, next, true), next, now, s.receiveOrdinal + 1, true, r);
    TrackSteady(s.r2, Pressed(s, next, false), next, now, s.receiveOrdinal + 1, false, r);
    hide TrackEpoch, SteadyEpoch, SteadyState;
  }

  lemma TrackSteady(e: Epoch, pressed: bool, next: InputState, now: int, ordinal: nat, left: bool, r: InputState)
    requires SteadyEpoch(e, r) && SteadyState(next, r)
    ensures SteadyEpoch(TrackEpoch(e, pressed, next, now, ordinal, left), r)
  {
    if e.active { CopySteady(e.peakState, next, left, r); }
    hide SteadyState, CopyStatus, LayoutsMatch;
  }

  lemma AcceptSteady(s: Scheduler, next: InputState, now: int, r: InputState)
    requires Steady(s, r) && SteadyState(next, r)
    ensures Steady(Accept(s, next, now), r)
  {
    var o := Observe(s, next, now);
    var entry := NewEntry(s, next, now);
    ObserveSteady(s, next, now, r);
    assert SteadyEntry(entry, r);
    hide Observe, NewEntry, PreserveBoth, SteadyEntry, SteadyState, Transition, Released, Enqueue;
    if Transition(s, next) {
      PreserveBothSteady(o, entry, r);
      var p := PreserveBoth(o, entry);
      EnqueueSteady(p, entry, r);
      EnqueueEpochs(p, p.l2, p.r2, entry);
      CloseSteady(Enqueue(p, entry), s, next, r);
    } else {
      CloseSteady(o.(latest := Some(entry)), s, next, r);
    }
  }

  lemma CloseSteady(a: Scheduler, s: Scheduler, next: InputState, r: InputState)
    requires SteadyLanes(a, r) && SteadyEpochs(a, r) && SteadyState(next, r)
    ensures Steady(a.(previous := Some(next), l2 := CloseEpoch(a.l2, Released(s, next, true)),
                                              r2 := CloseEpoch(a.r2, Released(s, next, false))), r)
  {
    hide SteadyEntry, SteadyState, Released;
  }

  lemma ClaimSteady(s: Scheduler, at: int, battery: nat, size: nat, r: InputState)
    requires Steady(s, r)
    ensures Steady(BeginClaim(s, at, battery, size), r)
  {
    assert SteadyEntry(s.lastPresented.(receivedAt := at, sampleQueueAge := false), r);
    NewClaimEntry(s, at, battery);
    hide NewClaim, SteadyEntry, SteadyState;
  }

  lemma PresentSteady(e: Epoch, entry: Entry, left: bool, r: InputState)
    requires SteadyEpoch(e, r) && SteadyEntry(entry, r) && (e.active ==> e.id > 0)
    ensures SteadyEpoch(PresentPeak(e, entry, left), r)
  {
    if e.active && e.presentedPeak > 0 && EpochTag(entry, left) == e.id {
      CopySteady(e.presentedPeakState, entry.state, left, r);
    }
    hide SteadyState, CopyStatus;
  }

  lemma CommitSteady(s: Scheduler, r: InputState)
    requires Inv(s) && Steady(s, r) && s.claim.Some?
    ensures Steady(CommitClaim(s), r)
  {
    PresentSteady(s.l2, s.claim.value.entry, true, r);
    PresentSteady(s.r2, s.claim.value.entry, false, r);
    hide PresentPeak, SteadyEntry, SteadyEpoch, SteadyState, Inv;
  }

  lemma DeferSteady(s: Scheduler, r: InputState)
    requires Steady(s, r) && s.claim.Some?
    ensures Steady(DeferClaim(s), r)
  {
    assert SteadyEntry(s.claim.value.entry.(ordered := true), r);
    hide SteadyEntry, SteadyEpoch, SteadyState;
  }

  lemma CollapseSteady(s: Scheduler, at: int, r: InputState)
    requires Steady(s, r)
    ensures Steady(Collapse(s, at), r)
  {
    hide SteadyState;
  }

  lemma StepSteady(s: Scheduler, a: Action, r: InputState)
    requires Inv(s) && Steady(s, r) && (a.Receive? ==> SteadyState(Received(a.state), r))
    ensures Steady(Step(s, a), r)
  {
    hide Inv, Accept, NewClaim, CommitClaim, DeferClaim, Collapse, SteadyState, SteadyEpoch, SteadyEntry;
    match a
    case BeginReceive =>
    case Receive(state, generation, at) => AcceptSteady(s, Received(state), at, r);
    case TakeClaim(at, battery, size) => ClaimSteady(s, at, battery, size, r);
    case ResolveClaim(_, _, _, at) =>
      CollapseSteady(s, at, r);
      if s.claim.Some? {
        CommitSteady(s, r);
        DeferSteady(s, r);
      }
    case RetirePresentation(_, at) => CollapseSteady(s, at, r);
  }

  /** Every state received in the run has the physical trigger status of `r`. */
  predicate SteadyRun(actions: seq<Action>, r: InputState) {
    forall i :: 0 <= i < |actions| && actions[i].Receive? ==> SteadyState(Received(actions[i].state), r)
  }

  lemma {:induction false} RunSteady(edge: bool, start: int, actions: seq<Action>, r: InputState)
    requires SteadyRun(actions, r)
    ensures Steady(Run(NewScheduler(edge, start), actions), r)
  {
    if actions != [] {
      var init := actions[..|actions| - 1];
      assert SteadyRun(init, r) && (actions[|actions| - 1].Receive? ==> SteadyState(Received(actions[|actions| - 1].state), r));
      NewSchedulerInv(edge, start);
      RunKeeps(NewScheduler(edge, start), init);
      hide Step, Steady, Inv, SteadyState;
      RunSteady(edge, start, init, r);
      StepSteady(Run(NewScheduler(edge, start), init), actions[|actions| - 1], r);
    }
  }

  // ---------------------------------------------------------------- no stale saves

  /** With steady status, what is kept is not saved again. */
  lemma KeptIsNotSaved(s: Scheduler, left: bool, upcoming: Entry, r: InputState)
    requires Kept(s, left) && SteadyLanes(s, r) && SteadyEpochs(s, r) && EpochOf(s, left).id > 0
    ensures !SavesPeak(s, left, upcoming)
  {
    var e := EpochOf(s, left);
    if e.active && e.peak != 0 {
      assert SteadyState(e.peakState, r);
      if e.presentedPeak >= e.peak {
        CopySteady(e.presentedPeakState, e.peakState, left, r);
      } else if s.claim.Some? && Represents(s.claim.value.entry, e.id, e.peak, left) {
        CopySteady(s.claim.value.entry.state, e.peakState, left, r);
      } else if s.retry.Some? && Represents(s.retry.value.entry, e.id, e.peak, left) {
        CopySteady(s.retry.value.entry.state, e.peakState, left, r);
      } else {
        var k :| 0 <= k < |s.ring| && Represents(s.ring[k], e.id, e.peak, left);
        CopySteady(s.ring[k].state, e.peakState, left, r);
        assert RepresentsTruthfully(s.ring[k], e, left);
      }
    }
  }

  lemma EnterIsNotStale(l: Ledger, s: Scheduler, next: InputState, now: int, r: InputState)
    requires Inv(s) && Tagged(s) && LedgerOk(l, s) && EdgesOk(l, s) && Steady(s, r) && SteadyState(next, r)
    ensures Enter(l, s, next, now).stale == l.stale
  {
    hide QueuesStale, Observe, NewEntry, Preserve, Tagged, Steady, LedgerOk, EdgesOk, Inv, SteadyLanes, SteadyEpochs, PeaksOk, Grows,
         Transition, LeftFirst, SteadyState, LanesOk;
    var t := Enter(l, s, next, now);
    var o := Observe(s, next, now);
    var entry := NewEntry(s, next, now);
    var first := LeftFirst(o);
    var m := Preserve(o, first, entry);
    ObserveSteady(s, next, now, r);
    ObserveTagged(s, next, now);
    ObserveKeepsLanes(s, next, now);
    PreserveSteady(o, first, entry, r);
    PreserveTagged(o, first, entry);
    PreserveKeeps(o, first, entry);
    GrowsReflexive(o.ring);
    SideIsNotStale(l, s, next, now, first, o, r);
    SideIsNotStale(l, s, next, now, !first, m, r);
  }

  lemma ObserveKeepsLanes(s: Scheduler, next: InputState, now: int)
    requires Inv(s)
    ensures LanesOk(Observe(s, next, now))
  {
  }

  lemma SavesHeld(s: Scheduler, left: bool, upcoming: Entry)
    requires SavesPeak(s, left, upcoming)
    ensures EpochOf(s, left).active
  {
  }

  /** Nothing stale is saved for one trigger, neither before nor after the other one is preserved. */
  lemma SideIsNotStale(l: Ledger, s: Scheduler, next: InputState, now: int, left: bool, m: Scheduler, r: InputState)
    requires Inv(s) && LedgerOk(l, s) && EdgesOk(l, s)
    requires PeaksOk(m) && SteadyLanes(m, r) && SteadyEpochs(m, r)
    requires var o := Observe(s, next, now);
             m.l2 == o.l2 && m.r2 == o.r2 && Grows(o.ring, m.ring) && SameClaim(o, m) && m.retry == o.retry
    ensures !QueuesStale(m, left, NewEntry(s, next, now), StartOf(Enter(l, s, next, now), !left))
  {
    var o := Observe(s, next, now);
    var entry := NewEntry(s, next, now);
    var oppositeStart := StartOf(Enter(l, s, next, now), !left);
    hide Observe, NewEntry, Enter, Inv, LedgerOk, EdgeOk, SteadyEpochs, SteadyLanes, Grows, SavesPeak;
    if QueuesStale(m, left, entry, oppositeStart) {
      SavesHeld(m, left, entry);
      assert TagIsStale(o, left, oppositeStart);
      StaleIsKept(l, s, next, now, left);
      KeptStays(o, m, left);
      KeptIsNotSaved(m, left, entry, r);
    }
  }

  /**
   A run without overflow and retirement, in which no received state changes the physical status of a
   trigger, queues no saved peak with a stale tag.
   */
  lemma {:induction false} SteadyRunsAreNotStale(edge: bool, start: int, actions: seq<Action>, r: InputState)
    requires var w := Play(NewWorld(edge, start), actions); Unretired(w) && w.s.overflows == 0
    requires SteadyRun(actions, r)
    ensures Books(edge, start, actions).stale == 0
  {
    if actions != [] {
      var init, last := actions[..|actions| - 1], actions[|actions| - 1];
      var w, l := Play(NewWorld(edge, start), init), Books(edge, start, init);
      assert SteadyRun(init, r) && (last.Receive? ==> SteadyState(Received(last.state), r));
      PlayHistory(edge, start, init);
      PlayIsRun(NewWorld(edge, start), init);
      BooksKeep(edge, start, init);
      assert Inv(w.s) && Tagged(w.s) && w.s.presentationGeneration > 0;
      hide HistoryOk, Inv, Tagged, Advance, Keep, LedgerOk, EdgesOk, Steady, SteadyRun, SteadyState;
      MarksStay(w, last);
      PlayEdges(edge, start, init);
      RunSteady(edge, start, init, r);
      SteadyRunsAreNotStale(edge, start, init, r);
      KeepIsNotStale(l, w.s, last, r);
    }
  }

  lemma KeepIsNotStale(l: Ledger, s: Scheduler, a: Action, r: InputState)
    requires Inv(s) && Tagged(s) && LedgerOk(l, s) && EdgesOk(l, s) && Steady(s, r)
    requires a.Receive? ==> SteadyState(Received(a.state), r)
    ensures Keep(l, s, a).stale == l.stale
  {
    hide Inv, Tagged, LedgerOk, EdgesOk, Steady, SteadyState, Enter, Collapse;
    if a.Receive? { EnterIsNotStale(l, s, Received(a.state), a.at, r); }
  }

  /** Without metadata there is no status that could change. */
  lemma PlainRunsAreNotStale(edge: bool, start: int, actions: seq<Action>)
    requires var w := Play(NewWorld(edge, start), actions); Unretired(w) && w.s.overflows == 0
    requires forall i :: 0 <= i < |actions| && actions[i].Receive? && actions[i].state.Some? ==>
                           actions[i].state.value.metadata.NoMetadata?
    ensures Books(edge, start, actions).stale == 0
  {
    hide Play, Books;
    assert SteadyRun(actions, NEUTRAL);
    SteadyRunsAreNotStale(edge, start, actions, NEUTRAL);
  }
}
