/**
 Exact trigger peaks. As long as no saved peak is queued with a stale tag, no report of a press is
 stronger than the strongest value received in that press. The report that protects a peak then
 carries exactly that value.
 */
module InputSchedulerExactPeaks {
  import opened DualSenseInput
  import opened InputScheduler
  import opened InputSchedulerInvariant
  import opened InputSchedulerHistory
  import opened InputSchedulerOrder
  import opened InputSchedulerPeaks
  import opened InputSchedulerReceipts

  /** The entry is no stronger than the press that it is tagged with. */
  predicate Within(entry: Entry, peaks: seq<nat>, left: bool) {
    EpochTag(entry, left) <= |peaks| &&
    (EpochTag(entry, left) > 0 ==> TriggerValue(entry.state, left) <= peaks[EpochTag(entry, left) - 1])
  }

  predicate LanesWithin(s: Scheduler, peaks: seq<nat>, left: bool) {
    && (forall i :: 0 <= i < |s.ring| ==> Within(s.ring[i], peaks, left))
    && (s.latest.Some? ==> Within(s.latest.value, peaks, left))
    && (s.retry.Some? ==> Within(s.retry.value.entry, peaks, left))
    && (s.claim.Some? ==> Within(s.claim.value.entry, peaks, left))
    && Within(s.lastPresented, peaks, left)
  }

  /** Every received value is within the peak of its press: what a peak is. */
  predicate ReceiptsWithin(receipts: seq<Receipt>, peaks: seq<nat>, left: bool) {
    forall k :: 0 <= k < |receipts| ==>
      PressOf(receipts[k], left) <= |peaks| &&
      (PressOf(receipts[k], left) > 0 ==> TriggerValue(receipts[k].state, left) <= peaks[PressOf(receipts[k], left) - 1])
  }

  predicate SideWithin(w: World, l: Ledger, left: bool) {
    && PeakHistory(w, left)
    && LanesWithin(w.s, Peaks(w, left), left)
    && (forall i :: 0 <= i < |w.log| ==> Within(w.log[i].entry, Peaks(w, left), left))
    && ReceiptsWithin(l.receipts, Peaks(w, left), left)
  }

  // ---------------------------------------------------------------- preserving a peak

  predicate Extends(before: seq<nat>, after: seq<nat>) {
    |before| <= |after| && forall n :: 0 <= n < |before| ==> before[n] <= after[n]
  }

  lemma LanesGrow(s: Scheduler, before: seq<nat>, after: seq<nat>, left: bool)
    requires LanesWithin(s, before, left) && Extends(before, after)
    ensures LanesWithin(s, after, left)
  {
  }

  lemma EnqueueWithin(s: Scheduler, entry: Entry, peaks: seq<nat>, left: bool)
    requires LanesWithin(s, peaks, left) && Within(entry, peaks, left)
    ensures LanesWithin(Enqueue(s, entry), peaks, left)
  {
    assert Within(entry.(ordered := true), peaks, left);
    hide Within;
  }

  lemma ReplaceWithin(s: Scheduler, i: nat, entry: Entry, peaks: seq<nat>, left: bool)
    requires i < |s.ring| && LanesWithin(s, peaks, left) && Within(entry, peaks, left)
    ensures LanesWithin(s.(ring := s.ring[i := entry]), peaks, left)
  {
    hide Within;
  }

  /** The recorded peak of a trigger, while it is held or about to be released. */
  predicate Records(peaks: seq<nat>, epoch: Epoch) {
    |peaks| == epoch.id && (epoch.active ==> |peaks| > 0 && peaks[|peaks| - 1] == epoch.peak)
  }

  lemma AnchoredWithin(pending: Entry, epoch: Epoch, left: bool, peaks: seq<nat>, side: bool)
    requires Anchors(pending, epoch, left) && Within(pending, peaks, side) && epoch.active
    requires side == left ==> Records(peaks, epoch)
    ensures Within(Anchored(pending, epoch, left), peaks, side)
  {
  }

  lemma CopyWithin(pending: Entry, source: InputState, left: bool, peaks: seq<nat>, side: bool)
    requires Within(pending, peaks, side)
    ensures Within(pending.(state := CopyStatus(pending.state, source, left)), peaks, side)
  {
  }

  /** A saved peak that is not stale is within the peaks of both triggers. */
  lemma SavedWithin(l: Ledger, o: Scheduler, next: InputState, left: bool, peaks: seq<nat>, side: bool)
    requires l.receipts != [] && EpochOf(o, left).active
    requires Observed(l.receipts, EpochOf(o, left), StartOf(l, left), left, next)
    requires Observed(l.receipts, EpochOf(o, !left), StartOf(l, !left), !left, next)
    requires ReceiptsWithin(l.receipts, peaks, side) && !TagIsStale(o, left, StartOf(l, !left))
    ensures Within(SavedPeak(o, left), peaks, side)
  {
    SavedIsObserved(l, o, next, left);
    hide Observed, TagIsStale;
    assert Within(SavedPeak(o, left), peaks, side) by {
      if side != left && EpochTag(SavedPeak(o, left), side) == 0 { }
    }
  }

  lemma PreserveWithin(l: Ledger, o: Scheduler, next: InputState, left: bool, upcoming: Entry, peaks: seq<nat>, side: bool)
    requires LanesWithin(o, peaks, side) && Records(peaks, EpochOf(o, side))
    requires l.receipts != [] && ReceiptsWithin(l.receipts, peaks, side)
    requires Observed(l.receipts, EpochOf(o, left), StartOf(l, left), left, next)
    requires Observed(l.receipts, EpochOf(o, !left), StartOf(l, !left), !left, next)
    requires !QueuesStale(o, left, upcoming, StartOf(l, !left))
    ensures LanesWithin(Preserve(o, left, upcoming), peaks, side)
  {
    hide Observed, Records, ReceiptsWithin, TagIsStale, Within, RepresentsTruthfully, Represents, StatusMatches, LayoutsMatch,
         SavedPeak, Anchored, Anchors, CopyStatus;
    if SavesPeak(o, left, upcoming) {
      SavedWithin(l, o, next, left, peaks, side);
      EnqueueWithin(o, SavedPeak(o, left), peaks, side);
    } else if EpochOf(o, left).active {
      hide Enqueue;
      PreserveAnchorsWithin(o, left, upcoming, peaks, side);
    }
  }

  lemma PreserveAnchorsWithin(o: Scheduler, left: bool, upcoming: Entry, peaks: seq<nat>, side: bool)
    requires LanesWithin(o, peaks, side) && Records(peaks, EpochOf(o, side)) && EpochOf(o, left).active
    requires !SavesPeak(o, left, upcoming)
    ensures LanesWithin(Preserve(o, left, upcoming), peaks, side)
  {
    var epoch := EpochOf(o, left);
    var i := FirstAnchor(o.ring, epoch, left, 0);
    if i < |o.ring| { AnchorWithin(o, i, left, peaks, side); }
    if o.latest.Some? { PromoteWithin(o, left, peaks, side); }
    hide Anchored, StatusMatches, LayoutsMatch, SavedPeak, CopyStatus, Anchors, Enqueue, Within, Records, Represents,
         RepresentsTruthfully, RingRepresents, NeedsPreserving;
  }

  lemma AnchorWithin(o: Scheduler, i: nat, left: bool, peaks: seq<nat>, side: bool)
    requires LanesWithin(o, peaks, side) && Records(peaks, EpochOf(o, side)) && EpochOf(o, left).active
    requires i < |o.ring| && Anchors(o.ring[i], EpochOf(o, left), left)
    ensures LanesWithin(o.(ring := o.ring[i := Anchored(o.ring[i], EpochOf(o, left), left)]), peaks, side)
  {
    hide Anchored, Anchors, Within, Records;
    AnchoredWithin(o.ring[i], EpochOf(o, left), left, peaks, side);
    ReplaceWithin(o, i, Anchored(o.ring[i], EpochOf(o, left), left), peaks, side);
  }

  lemma PromoteWithin(o: Scheduler, left: bool, peaks: seq<nat>, side: bool)
    requires LanesWithin(o, peaks, side) && o.latest.Some?
    ensures LanesWithin(Enqueue(o, o.latest.value.(state := CopyStatus(o.latest.value.state, EpochOf(o, left).peakState, left))),
                        peaks, side)
  {
    hide CopyStatus, Within, Enqueue;
    var source := EpochOf(o, left).peakState;
    CopyWithin(o.latest.value, source, left, peaks, side);
    EnqueueWithin(o, o.latest.value.(state := CopyStatus(o.latest.value.state, source, left)), peaks, side);
  }

  predicate BothObserved(l: Ledger, o: Scheduler, next: InputState) {
    && l.receipts != []
    && Observed(l.receipts, o.l2, l.l2Start, true, next)
    && Observed(l.receipts, o.r2, l.r2Start, false, next)
  }

  lemma PreserveBothWithin(l: Ledger, o: Scheduler, next: InputState, upcoming: Entry, peaks: seq<nat>, side: bool)
    requires LanesOk(o) && LanesWithin(o, peaks, side) && Records(peaks, EpochOf(o, side))
    requires BothObserved(l, o, next) && ReceiptsWithin(l.receipts, peaks, side)
    requires StaleSaves(o, upcoming, l.l2Start, l.r2Start) == 0
    ensures LanesWithin(PreserveBoth(o, upcoming), peaks, side)
  {
    hide Preserve, LanesWithin, LanesOk, Records, Observed, ReceiptsWithin, QueuesStale;
    var first := LeftFirst(o);
    var m := Preserve(o, first, upcoming);
    PreserveKeeps(o, first, upcoming);
    PreserveWithin(l, o, next, first, upcoming, peaks, side);
    PreserveWithin(l, m, next, !first, upcoming, peaks, side);
  }

  // ---------------------------------------------------------------- receiving

  /** The recorded peaks follow the epoch, before and after a release closes it. */
  lemma PeaksFollow(w: World, next: InputState, now: int, left: bool)
    requires Inv(w.s) && PeakHistory(w, left)
    ensures Records(NewPeaks(w, next, left), EpochOf(Observe(w.s, next, now), left))
    ensures Extends(Peaks(w, left), NewPeaks(w, next, left))
  {
    TrackKeeps(w.s, next, now, left);
    hide CopyStatus, LayoutsMatch;
  }

  /** The new state is within the peak of its own press, as an entry and as a receipt. */
  lemma NewEntryWithin(s: Scheduler, next: InputState, now: int, peaks: seq<nat>, left: bool)
    requires Inv(s) && Records(peaks, EpochOf(Observe(s, next, now), left))
    ensures Within(NewEntry(s, next, now), peaks, left)
    ensures ReceiptsWithin([ReceiptFor(Observe(s, next, now), next)], peaks, left)
  {
    TrackKeeps(s, next, now, left);
    hide Observe;
  }

  lemma ReceiptsGrow(receipts: seq<Receipt>, receipt: Receipt, before: seq<nat>, after: seq<nat>, left: bool)
    requires ReceiptsWithin(receipts, before, left) && Extends(before, after) && ReceiptsWithin([receipt], after, left)
    ensures ReceiptsWithin(receipts + [receipt], after, left)
  {
    assert [receipt][0] == receipt;
  }

  lemma AdmitWithin(l: Ledger, s: Scheduler, next: InputState, now: int, peaks: seq<nat>, left: bool)
    requires Inv(s) && LedgerOk(l, s) && LanesWithin(s, peaks, left)
    requires Records(peaks, EpochOf(Observe(s, next, now), left))
    requires ReceiptsWithin(Enter(l, s, next, now).receipts, peaks, left) && Enter(l, s, next, now).stale == l.stale
    ensures LanesWithin(Admit(s, next, now), peaks, left)
  {
    var o := Observe(s, next, now);
    var entry := NewEntry(s, next, now);
    var t := Enter(l, s, next, now);
    EnterObserves(l, s, next, now, true);
    EnterObserves(l, s, next, now, false);
    NewEntryWithin(s, next, now, peaks, left);
    assert LanesOk(o) && LanesWithin(o, peaks, left) by { ObserveLanes(s, next, now, peaks, left); }
    hide Observe, NewEntry, Records, ReceiptsWithin, Observed, LanesOk, LedgerOk, Inv, Within, StaleSaves, PreserveBoth, Transition;
    if Transition(s, next) {
      assert BothObserved(t, o, next);
      PreserveBothWithin(t, o, next, entry, peaks, left);
      EnqueueWithin(PreserveBoth(o, entry), entry, peaks, left);
    }
  }

  lemma ObserveLanes(s: Scheduler, next: InputState, now: int, peaks: seq<nat>, left: bool)
    requires LanesOk(s) && LanesWithin(s, peaks, left)
    ensures LanesOk(Observe(s, next, now)) && LanesWithin(Observe(s, next, now), peaks, left)
  {
    hide Within, TrackEpoch;
  }

  lemma AcceptWithin(l: Ledger, s: Scheduler, next: InputState, now: int, peaks: seq<nat>, left: bool)
    requires LanesWithin(Admit(s, next, now), peaks, left)
    ensures LanesWithin(Accept(s, next, now), peaks, left)
  {
    hide Admit, Within;
  }

  lemma ReceiveWithin(w: World, t: World, l: Ledger, next: InputState, now: int, left: bool)
    requires Inv(w.s) && LedgerOk(l, w.s) && SideWithin(w, l, left)
    requires t.log == w.log && t.s == Accept(w.s, next, now) && Peaks(t, left) == NewPeaks(w, next, left)
    requires Enter(l, w.s, next, now).stale == l.stale
    ensures SideWithin(t, Enter(l, w.s, next, now), left)
  {
    var peaks := NewPeaks(w, next, left);
    PeaksFollow(w, next, now, left);
    NewEntryWithin(w.s, next, now, peaks, left);
    ReceiptsGrow(l.receipts, ReceiptFor(Observe(w.s, next, now), next), Peaks(w, left), peaks, left);
    LanesGrow(w.s, Peaks(w, left), peaks, left);
    AdmitWithin(l, w.s, next, now, peaks, left);
    AcceptWithin(l, w.s, next, now, peaks, left);
    AcceptEpoch(w, next, now, left);
    hide Accept, Inv, LedgerOk, LanesWithin, ReceiptsWithin, Records, NewEntry, NewPeaks, StaleSaves, Observe, Moves, Within;
    LogGrows(w.log, Peaks(w, left), peaks, left);
  }

  lemma LogGrows(log: seq<Committed>, before: seq<nat>, after: seq<nat>, left: bool)
    requires Extends(before, after) && forall i :: 0 <= i < |log| ==> Within(log[i].entry, before, left)
    ensures forall i :: 0 <= i < |log| ==> Within(log[i].entry, after, left)
  {
  }

  // ---------------------------------------------------------------- claiming and resolving

  lemma ClaimWithin(s: Scheduler, at: int, battery: nat, size: nat, peaks: seq<nat>, left: bool)
    requires LanesWithin(s, peaks, left)
    ensures LanesWithin(BeginClaim(s, at, battery, size), peaks, left)
  {
    assert Within(s.lastPresented.(receivedAt := at, sampleQueueAge := false), peaks, left);
    NewClaimEntry(s, at, battery);
    hide NewClaim, Within;
  }

  lemma CommitWithin(s: Scheduler, peaks: seq<nat>, left: bool)
    requires LanesWithin(s, peaks, left) && s.claim.Some?
    ensures LanesWithin(CommitClaim(s), peaks, left)
  {
    hide Within, PresentPeak;
  }

  lemma DeferWithin(s: Scheduler, peaks: seq<nat>, left: bool)
    requires LanesWithin(s, peaks, left) && s.claim.Some?
    ensures LanesWithin(DeferClaim(s), peaks, left)
  {
    assert Within(s.claim.value.entry.(ordered := true), peaks, left);
    hide Within;
  }

  lemma BeginReceiveWithin(s: Scheduler, peaks: seq<nat>, left: bool)
    requires LanesWithin(s, peaks, left)
    ensures LanesWithin(BeginReceiveGeneration(s), peaks, left)
  {
    hide Within;
  }

  /** The endpoint moves entries between lanes and into the log. */
  lemma MovedWithin(w: World, t: World, l: Ledger, left: bool)
    requires SideWithin(w, l, left) && Peaks(t, left) == Peaks(w, left) && LanesWithin(t.s, Peaks(w, left), left)
    requires SamePress(EpochOf(w.s, left), EpochOf(t.s, left))
    requires t.log == w.log || (w.s.claim.Some? && exists c :: t.log == w.log + [c] && c.entry == w.s.claim.value.entry)
    ensures SideWithin(t, l, left)
  {
    hide ReceiptsWithin, Within;
  }

  lemma EndpointWithin(w: World, l: Ledger, a: Action, left: bool)
    requires HistoryOk(w) && SideWithin(w, l, left) && !a.Receive? && Unretired(Advance(w, a))
    ensures SideWithin(Advance(w, a), l, left)
  {
    var t := Advance(w, a);
    var peaks := Peaks(w, left);
    assert Inv(w.s) && LanesWithin(w.s, peaks, left);
    hide HistoryOk, Inv, SideWithin, Collapse, NewClaim, CommitClaim, DeferClaim, LanesWithin;
    match a
    case BeginReceive => BeginReceiveWithin(w.s, peaks, left); MovedWithin(w, t, l, left);
    case TakeClaim(at, battery, size) =>
      ClaimWithin(w.s, at, battery, size, peaks, left);
      ClaimPresses(w.s, at, battery, size);
      MovedWithin(w, t, l, left);
    case ResolveClaim(token, generation, outcome, at) =>
      if Resolves(w.s, token, generation, outcome) {
        match outcome
        case Commit => CommitWithin(w.s, peaks, left); CommitPresses(w.s); MovedWithin(w, t, l, left);
        case Defer => DeferWithin(w.s, peaks, left); DeferPresses(w.s); MovedWithin(w, t, l, left);
        case Retire =>
          CollapseGeneration(w.s, at);
          assert false;
      }
    case RetirePresentation(generation, at) =>
      if Retires(w.s, generation) {
        CollapseGeneration(w.s, at);
        assert false;
      }
  }

  // ---------------------------------------------------------------- whole runs

  predicate AllWithin(w: World, l: Ledger) {
    SideWithin(w, l, true) && SideWithin(w, l, false)
  }

  lemma AdvanceWithin(w: World, l: Ledger, a: Action)
    requires HistoryOk(w) && LedgerOk(l, w.s) && AllWithin(w, l)
    requires Unretired(Advance(w, a)) && Keep(l, w.s, a).stale == l.stale
    ensures AllWithin(Advance(w, a), Keep(l, w.s, a))
  {
    assert Inv(w.s) && w.s.presentationGeneration > 0;
    hide HistoryOk, SideWithin, Inv, LedgerOk, Accept, Enter, Reenter, Collapse, NewClaim, CommitClaim, DeferClaim;
    if a.Receive? {
      if Admissible(w.s, a.generation) {
        ReceiveWithin(w, Advance(w, a), l, Received(a.state), a.at, true);
        ReceiveWithin(w, Advance(w, a), l, Received(a.state), a.at, false);
      }
    } else {
      EndpointWithin(w, l, a, true);
      EndpointWithin(w, l, a, false);
      UnretiredKeeps(w, l, a);
    }
  }

  /** Without a retirement only a received state is entered in the ledger. */
  lemma UnretiredKeeps(w: World, l: Ledger, a: Action)
    requires Inv(w.s) && Unretired(Advance(w, a)) && !a.Receive?
    ensures Keep(l, w.s, a) == l
  {
    hide Inv, Reenter, Collapse, NewClaim, CommitClaim, DeferClaim;
    match a
    case ResolveClaim(token, generation, outcome, at) =>
      if Resolves(w.s, token, generation, outcome) && outcome.Retire? {
        CollapseGeneration(w.s, at);
      }
    case RetirePresentation(generation, at) =>
      if Retires(w.s, generation) { CollapseGeneration(w.s, at); }
    case _ =>
  }

  lemma StaleStays(l: Ledger, s: Scheduler, a: Action)
    ensures Keep(l, s, a).stale >= l.stale
  {
    hide StaleSaves, Observe, Collapse, Transition, Pressed, NewEntry;
  }

  lemma {:induction false} PlayWithin(edge: bool, start: int, actions: seq<Action>)
    requires Unretired(Play(NewWorld(edge, start), actions)) && Books(edge, start, actions).stale == 0
    ensures AllWithin(Play(NewWorld(edge, start), actions), Books(edge, start, actions))
  {
    if actions != [] {
      var init, last := actions[..|actions| - 1], actions[|actions| - 1];
      var w, l := Play(NewWorld(edge, start), init), Books(edge, start, init);
      PlayHistory(edge, start, init);
      PlayIsRun(NewWorld(edge, start), init);
      BooksKeep(edge, start, init);
      assert Inv(w.s) && w.s.presentationGeneration > 0;
      hide HistoryOk, SideWithin, Inv, Advance, Keep, LedgerOk;
      MarksStay(w, last);
      StaleStays(l, w.s, last);
      PlayWithin(edge, start, init);
      AdvanceWithin(w, l, last);
    }
  }

  /**
   For both triggers and every press, in every run that queues no saved peak with a stale tag: no
   committed report of the press is stronger than the strongest value received in it, and by the time a
   committed report releases the press, or belongs to a later press, an earlier committed report of that
   press carried exactly that value.
   */
  lemma TriggerPeaksAreExact(edge: bool, start: int, actions: seq<Action>, left: bool, i: nat, press: nat)
    requires var w := Play(NewWorld(edge, start), actions);
             Unretired(w) && w.s.overflows == 0 && Books(edge, start, actions).stale == 0 &&
             i < |w.log| && 0 < press <= |Peaks(w, left)| && After(w.log[i].entry, press, left)
    ensures var w := Play(NewWorld(edge, start), actions);
            && (forall k :: 0 <= k < |w.log| && EpochTag(w.log[k].entry, left) == press ==>
                  TriggerValue(w.log[k].entry.state, left) <= Peaks(w, left)[press - 1])
            && exists j :: 0 <= j < i && EpochTag(w.log[j].entry, left) == press &&
                           TriggerValue(w.log[j].entry.state, left) == Peaks(w, left)[press - 1]
  {
    hide Play, Books;
    PlayWithin(edge, start, actions);
    TriggerPeaksSurvive(edge, start, actions, left, i, press);
    var w := Play(NewWorld(edge, start), actions);
    assert SideWithin(w, Books(edge, start, actions), left);
    assert forall k :: 0 <= k < |w.log| ==> Within(w.log[k].entry, Peaks(w, left), left);
  }
}
