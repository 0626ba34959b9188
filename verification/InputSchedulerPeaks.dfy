/**
 Trigger peaks survive. In every run without queue overflow or presentation retirement, a
 report that releases a press, or belongs to a later press of the same trigger, is committed
 only after a report tagged with that press and at least as strong as anything received during it.
 */
module InputSchedulerPeaks {
  import opened DualSenseInput
  import opened InputScheduler
  import opened InputSchedulerInvariant
  import opened InputSchedulerHistory
  import opened InputSchedulerTags
  import opened InputSchedulerOrder

  /** The strongest value received in each press of one trigger; press number n is element n - 1. */
  function Peaks(w: World, left: bool): seq<nat> {
    if left then w.l2Peaks else w.r2Peaks
  }

  /** The entry releases press `id` or belongs to a later press. */
  predicate After(entry: Entry, id: nat, left: bool) {
    EpochTag(entry, left) > id || (EpochTag(entry, left) == id && TriggerValue(entry.state, left) == 0)
  }

  predicate InLog(log: seq<Committed>, id: nat, peak: nat, left: bool) {
    exists j :: 0 <= j < |log| && Represents(log[j].entry, id, peak, left)
  }

  predicate RingCarries(ring: seq<Entry>, id: nat, peak: nat, left: bool) {
    exists k :: 0 <= k < |ring| && Represents(ring[k], id, peak, left) &&
                forall i :: 0 <= i < k ==> !After(ring[i], id, left)
  }

  predicate LaneAfter(s: Scheduler, id: nat, left: bool) {
    (s.claim.Some? && After(s.claim.value.entry, id, left)) ||
    (s.retry.Some? && After(s.retry.value.entry, id, left))
  }

  /** The peak waits ahead of everything that must follow it, in a place that cannot be dropped. */
  predicate Protected(s: Scheduler, id: nat, peak: nat, left: bool) {
    || (s.claim.Some? && Represents(s.claim.value.entry, id, peak, left) &&
        (s.claim.value.entry.ordered || s.claim.value.orderedRecovery))
    || (!LaneAfter(s, id, left) &&
        ((s.retry.Some? && Represents(s.retry.value.entry, id, peak, left)) ||
         RingCarries(s.ring, id, peak, left)))
  }

  predicate LogBefore(log: seq<Committed>, id: nat, left: bool) {
    forall i :: 0 <= i < |log| ==> !After(log[i].entry, id, left)
  }

  predicate PressSafe(w: World, id: nat, peak: nat, left: bool) {
    InLog(w.log, id, peak, left) ||
    (Protected(w.s, id, peak, left) && LogBefore(w.log, id, left))
  }

  /** Nothing of a press is committed after it is over without its peak having been committed. */
  predicate PeakFirst(log: seq<Committed>, peaks: seq<nat>, left: bool) {
    forall i, n :: 0 <= i < |log| && 0 <= n < |peaks| && After(log[i].entry, n + 1, left) ==>
                     InLog(log[..i], n + 1, peaks[n], left)
  }

  predicate PeakHistory(w: World, left: bool) {
    var epoch := EpochOf(w.s, left);
    var peaks := Peaks(w, left);
    && |peaks| == epoch.id
    && (forall n :: 0 <= n < |peaks| ==> peaks[n] > 0)
    && (epoch.active ==> |peaks| > 0 && peaks[|peaks| - 1] == epoch.peak)
  }

  predicate Finished(epoch: Epoch, id: nat) {
    0 < id <= epoch.id && (id == epoch.id ==> !epoch.active)
  }

  predicate SideOk(w: World, left: bool) {
    var epoch := EpochOf(w.s, left);
    && PeakHistory(w, left)
    && (forall i :: 0 <= i < |w.log| ==> TagOk(w.log[i].entry, epoch, left))
    && (epoch.presentedPeak > 0 ==> InLog(w.log, epoch.id, epoch.presentedPeak, left))
    && (forall n :: 0 <= n < |Peaks(w, left)| && Finished(epoch, n + 1) ==>
          PressSafe(w, n + 1, Peaks(w, left)[n], left))
    && PeakFirst(w.log, Peaks(w, left), left)
  }

  // ---------------------------------------------------------------- receiving

  /** Receiving never takes a protected peak away. */
  lemma ProtectedStays(s: Scheduler, t: Scheduler, id: nat, peak: nat, left: bool)
    requires Protected(s, id, peak, left) && Grows(s.ring, t.ring) && SameClaim(s, t) && t.retry == s.retry
    ensures Protected(t, id, peak, left)
  {
    if RingCarries(s.ring, id, peak, left) {
      var k :| 0 <= k < |s.ring| && Represents(s.ring[k], id, peak, left) &&
               forall i :: 0 <= i < k ==> !After(s.ring[i], id, left);
      forall i | 0 <= i <= k ensures Strengthened(s.ring[i], t.ring[i]) {
        assert Strengthened(s.ring[i], t.ring[..|s.ring|][i]);
      }
      hide Strengthened;
      assert Represents(t.ring[k], id, peak, left) by { StrengthenedStands(s.ring[k], t.ring[k], id, peak, left); }
      forall i | 0 <= i < k ensures !After(t.ring[i], id, left) {
        StrengthenedStands(s.ring[i], t.ring[i], id, peak, left);
      }
      assert RingCarries(t.ring, id, peak, left);
    }
  }

  lemma StrengthenedStands(a: Entry, b: Entry, id: nat, peak: nat, left: bool)
    requires Strengthened(a, b)
    ensures Represents(a, id, peak, left) ==> Represents(b, id, peak, left)
    ensures !After(a, id, left) ==> !After(b, id, left)
  {
  }

  /** While the trigger is held, nothing queued or claimed is after its press. */
  lemma HeldIsNotAfter(s: Scheduler, left: bool)
    requires TagsOk(s, EpochOf(s, left), left) && EpochOf(s, left).active
    ensures !LaneAfter(s, EpochOf(s, left).id, left)
    ensures forall i :: 0 <= i < |s.ring| ==> !After(s.ring[i], EpochOf(s, left).id, left)
  {
  }

  /** The queue holds the peak: then it is protected, because nothing queued is after it. */
  lemma QueuedIsProtected(s: Scheduler, left: bool, k: nat)
    requires TagsOk(s, EpochOf(s, left), left) && EpochOf(s, left).active
    requires k < |s.ring| && Represents(s.ring[k], EpochOf(s, left).id, EpochOf(s, left).peak, left)
    ensures Protected(s, EpochOf(s, left).id, EpochOf(s, left).peak, left)
  {
    HeldIsNotAfter(s, left);
  }

  /** The peak that nothing represents yet ends up in the queue. */
  lemma QueuePeakQueues(s: Scheduler, left: bool)
    requires Tagged(s) && PeaksOk(s) && EpochOf(s, left).active
    requires QueuePeak(s, left).overflows == s.overflows
    ensures var t := QueuePeak(s, left);
            exists k :: 0 <= k < |t.ring| && Represents(t.ring[k], EpochOf(s, left).id, EpochOf(s, left).peak, left)
  {
    var epoch := EpochOf(s, left);
    var t := QueuePeak(s, left);
    var i := FirstAnchor(s.ring, epoch, left, 0);
    hide Anchored, StatusMatches, LayoutsMatch, SavedPeak, CopyStatus, Anchors, TagsOk, Enqueue;
    if i < |s.ring| && (i == |s.ring| - 1 || StatusMatches(s.ring[i].state, epoch.peakState, left)) {
      AnchoredRepresents(s.ring[i], epoch, left);
      assert Represents(t.ring[i], epoch.id, epoch.peak, left);
    } else {
      assert Represents(SavedPeak(s, left), epoch.id, epoch.peak, left) by { SavedRepresents(s, left); }
      if t == Enqueue(s, SavedPeak(s, left)) {
        EnqueueLast(s, SavedPeak(s, left));
      } else {
        CopyKeepsTriggers(s.latest.value.state, epoch.peakState, left);
        EnqueueLast(s, s.latest.value.(state := CopyStatus(s.latest.value.state, epoch.peakState, left)));
      }
      assert Represents(t.ring[|t.ring| - 1], epoch.id, epoch.peak, left);
    }
  }

  lemma EnqueueLast(s: Scheduler, entry: Entry)
    requires Enqueue(s, entry).overflows == s.overflows
    ensures Enqueue(s, entry).ring == s.ring + [entry.(ordered := true)]
  {
  }

  lemma SavedRepresents(s: Scheduler, left: bool)
    requires PeaksOk(s) && EpochOf(s, left).active
    ensures Represents(SavedPeak(s, left), EpochOf(s, left).id, EpochOf(s, left).peak, left)
  {
  }

  lemma CopyKeepsTriggers(state: InputState, source: InputState, left: bool)
    ensures forall side :: TriggerValue(CopyStatus(state, source, left), side) == TriggerValue(state, side)
  {
  }

  lemma AnchoredRepresents(pending: Entry, epoch: Epoch, left: bool)
    requires Anchors(pending, epoch, left)
    ensures Represents(Anchored(pending, epoch, left), epoch.id, epoch.peak, left)
  {
  }

  /** Before a release, the peak of the press is presented already or becomes protected. */
  lemma PreserveProtects(s: Scheduler, left: bool, upcoming: Entry)
    requires Tagged(s) && PeaksOk(s) && EpochOf(s, left).active
    requires TriggerValue(upcoming.state, left) == 0
    requires Preserve(s, left, upcoming).overflows == s.overflows
    ensures var epoch := EpochOf(s, left);
            epoch.presentedPeak >= epoch.peak || Protected(Preserve(s, left, upcoming), epoch.id, epoch.peak, left)
  {
    var epoch := EpochOf(s, left);
    var t := Preserve(s, left, upcoming);
    PreserveTagged(s, left, upcoming);
    HeldIsNotAfter(s, left);
    hide QueuePeak, StatusMatches;
    if NeedsPreserving(epoch, left) {
      if s.claim.Some? && RepresentsTruthfully(s.claim.value.entry, epoch, left) {
      } else if s.retry.Some? && RepresentsTruthfully(s.retry.value.entry, epoch, left) {
      } else if RingRepresents(s.ring, epoch, left) {
        var k :| 0 <= k < |s.ring| && RepresentsTruthfully(s.ring[k], epoch, left);
        QueuedIsProtected(s, left, k);
      } else {
        QueuePeakQueues(s, left);
        var k :| 0 <= k < |t.ring| && Represents(t.ring[k], epoch.id, epoch.peak, left);
        QueuedIsProtected(t, left, k);
      }
    }
  }

  lemma PreserveOverflows(s: Scheduler, left: bool, upcoming: Entry)
    ensures Preserve(s, left, upcoming).overflows >= s.overflows
  {
    hide RepresentsTruthfully, NeedsPreserving, RingRepresents, StatusMatches, LayoutsMatch, Anchored, SavedPeak, CopyStatus;
  }

  lemma PreserveBothProtects(s: Scheduler, left: bool, upcoming: Entry)
    requires LanesOk(s) && Tagged(s) && PeaksOk(s) && EpochOf(s, left).active
    requires TriggerValue(upcoming.state, left) == 0
    requires PreserveBoth(s, upcoming).overflows == s.overflows
    ensures var epoch := EpochOf(s, left);
            epoch.presentedPeak >= epoch.peak || Protected(PreserveBoth(s, upcoming), epoch.id, epoch.peak, left)
  {
    hide Preserve, Protected, Tagged, LanesOk, PeaksOk;
    var first := !(s.l2.active && s.r2.active && s.r2.peakOrdinal < s.l2.peakOrdinal);
    var m := Preserve(s, first, upcoming);
    var t := Preserve(m, !first, upcoming);
    assert t == PreserveBoth(s, upcoming);
    PreserveKeeps(s, first, upcoming);
    PreserveTagged(s, first, upcoming);
    PreserveKeeps(m, !first, upcoming);
    PreserveTagged(m, !first, upcoming);
    PreserveOverflows(s, first, upcoming);
    PreserveOverflows(m, !first, upcoming);
    if left == first {
      PreserveProtects(s, left, upcoming);
      var epoch := EpochOf(s, left);
      if Protected(m, epoch.id, epoch.peak, left) { ProtectedStays(m, t, epoch.id, epoch.peak, left); }
    } else {
      assert EpochOf(m, left) == EpochOf(s, left);
      PreserveProtects(m, left, upcoming);
    }
  }

  lemma ReleaseProtects(s: Scheduler, next: InputState, now: int, left: bool)
    requires Inv(s) && Tagged(s) && Released(s, next, left)
    requires Accept(s, next, now).overflows == s.overflows
    ensures var epoch := EpochOf(s, left);
            epoch.presentedPeak >= epoch.peak || Protected(Accept(s, next, now), epoch.id, epoch.peak, left)
  {
    var o := Observe(s, next, now);
    var entry := NewEntry(s, next, now);
    var t := Accept(s, next, now);
    assert EpochOf(o, left) == EpochOf(s, left);
    assert Transition(s, next);
    ObserveTagged(s, next, now);
    PreserveBothKeeps(o, entry);
    PreserveBothOverflows(o, entry);
    var p := PreserveBoth(o, entry);
    hide PreserveBoth, Observe, NewEntry, Tagged, PeaksOk, LanesOk, Protected, Transition, Released;
    assert t.ring == Enqueue(p, entry).ring;
    PreserveBothProtects(o, left, entry);
    EnqueueGrows(p, entry);
    var epoch := EpochOf(s, left);
    if Protected(p, epoch.id, epoch.peak, left) { ProtectedStays(p, t, epoch.id, epoch.peak, left); }
  }

  lemma PreserveBothOverflows(s: Scheduler, upcoming: Entry)
    ensures PreserveBoth(s, upcoming).overflows >= s.overflows
  {
    hide Preserve;
    PreserveOverflows(s, false, upcoming);
    PreserveOverflows(Preserve(s, false, upcoming), true, upcoming);
    PreserveOverflows(s, true, upcoming);
    PreserveOverflows(Preserve(s, true, upcoming), false, upcoming);
  }

  /** What one received state may do to an epoch and to the recorded peaks of its trigger. */
  predicate Moves(e: Epoch, f: Epoch, before: seq<nat>, after: seq<nat>) {
    && (f.id == e.id || (f.id == e.id + 1 && f.active && !e.active && f.presentedPeak == 0))
    && (f.id == e.id ==> f.presentedPeak == e.presentedPeak)
    && Later(e, f)
    && |before| <= |after|
    && (forall n :: 0 <= n < |before| && Finished(e, n + 1) ==> after[n] == before[n])
    && (e.active && !f.active ==> after == before)
  }

  function NewPeaks(w: World, next: InputState, left: bool): seq<nat> {
    ExtendPeaks(Peaks(w, left), TriggerValue(Current(w.s), left), TriggerValue(next, left))
  }

  lemma AcceptEpochIs(s: Scheduler, next: InputState, now: int, left: bool)
    requires LanesOk(s)
    ensures EpochOf(Accept(s, next, now), left) ==
            CloseEpoch(EpochOf(Observe(s, next, now), left), Released(s, next, left))
  {
    hide Admit, Observe;
    AdmitKeeps(s, next, now);
  }

  /** How one received state moves the epoch of one trigger, and the recorded peaks with it. */
  lemma AcceptEpoch(w: World, next: InputState, now: int, left: bool)
    requires Inv(w.s) && PeakHistory(w, left)
    ensures var t := Accept(w.s, next, now);
            Moves(EpochOf(w.s, left), EpochOf(t, left), Peaks(w, left), NewPeaks(w, next, left)) &&
            (EpochOf(w.s, left).active && !EpochOf(t, left).active ==> Released(w.s, next, left))
    ensures var f := EpochOf(Accept(w.s, next, now), left);
            var peaks := NewPeaks(w, next, left);
            |peaks| == f.id && (forall n :: 0 <= n < |peaks| ==> peaks[n] > 0) &&
            (f.active ==> |peaks| > 0 && peaks[|peaks| - 1] == f.peak)
  {
    TrackKeeps(w.s, next, now, left);
    AcceptEpochIs(w.s, next, now, left);
    hide Accept, CopyStatus, LayoutsMatch;
  }

  /** A peak in the log that is strong enough for one bound is strong enough for a lower one. */
  lemma InLogWeakens(log: seq<Committed>, id: nat, peak: nat, lower: nat, left: bool)
    requires InLog(log, id, peak, left) && lower <= peak
    ensures InLog(log, id, lower, left)
  {
    var j :| 0 <= j < |log| && Represents(log[j].entry, id, peak, left);
    assert Represents(log[j].entry, id, lower, left);
  }

  predicate LogTagged(log: seq<Committed>, epoch: Epoch, left: bool) {
    forall i :: 0 <= i < |log| ==> TagOk(log[i].entry, epoch, left)
  }

  /** Nothing committed so far is after a press that has not ended. */
  lemma OpenPressIsNotPassed(log: seq<Committed>, epoch: Epoch, id: nat, left: bool)
    requires LogTagged(log, epoch, left) && id >= epoch.id && (id == epoch.id ==> epoch.active)
    ensures LogBefore(log, id, left)
  {
  }

  /** The presses that had already ended keep their safety and their recorded peak. */
  lemma ReceiveKeepsFinished(w: World, t: World, n: nat, left: bool)
    requires n < |Peaks(w, left)| && PressSafe(w, n + 1, Peaks(w, left)[n], left)
    requires t.log == w.log && Grows(w.s.ring, t.s.ring) && SameLanes(w.s, t.s)
    ensures PressSafe(t, n + 1, Peaks(w, left)[n], left)
  {
    hide Protected, Grows, InLog, LogBefore;
    var peak := Peaks(w, left)[n];
    if Protected(w.s, n + 1, peak, left) { ProtectedStays(w.s, t.s, n + 1, peak, left); }
  }

  /** A press that ends now has its peak committed or protected. */
  lemma ReceiveFinishes(w: World, t: World, next: InputState, now: int, left: bool)
    requires Inv(w.s) && Tagged(w.s) && SideOk(w, left) && Released(w.s, next, left)
    requires t.log == w.log && t.s == Accept(w.s, next, now) && t.s.overflows == w.s.overflows
    ensures var epoch := EpochOf(w.s, left); PressSafe(t, epoch.id, epoch.peak, left)
  {
    hide Accept, Protected, InLog, LogBefore, Tagged;
    var epoch := EpochOf(w.s, left);
    assert epoch.active && epoch.peak > 0;
    ReleaseProtects(w.s, next, now, left);
    if epoch.presentedPeak >= epoch.peak {
      InLogWeakens(w.log, epoch.id, epoch.presentedPeak, epoch.peak, left);
    } else {
      OpenPressIsNotPassed(w.log, epoch, epoch.id, left);
    }
  }

  predicate FinishedSafe(w: World, left: bool) {
    forall n :: 0 <= n < |Peaks(w, left)| && Finished(EpochOf(w.s, left), n + 1) ==>
                  PressSafe(w, n + 1, Peaks(w, left)[n], left)
  }

  lemma ReceivePressSafe(w: World, t: World, next: InputState, now: int, left: bool, n: nat)
    requires Inv(w.s) && Tagged(w.s) && SideOk(w, left)
    requires t.log == w.log && t.s == Accept(w.s, next, now) && t.s.overflows == w.s.overflows
    requires Peaks(t, left) == NewPeaks(w, next, left)
    requires n < |Peaks(t, left)| && Finished(EpochOf(t.s, left), n + 1)
    ensures PressSafe(t, n + 1, Peaks(t, left)[n], left)
  {
    AcceptEpoch(w, next, now, left);
    AcceptTagged(w.s, next, now);
    AcceptLanes(w.s, next, now);
    hide Accept, PressSafe, ExtendPeaks, Tagged, Grows, Released, SameLanes, InLog, PeakFirst, TagOk;
    if n + 1 == EpochOf(w.s, left).id && EpochOf(w.s, left).active {
      ReceiveFinishes(w, t, next, now, left);
    } else {
      assert Finished(EpochOf(w.s, left), n + 1);
      ReceiveKeepsFinished(w, t, n, left);
    }
  }

  lemma ReceiveFinishedSafe(w: World, t: World, next: InputState, now: int, left: bool)
    requires Inv(w.s) && Tagged(w.s) && SideOk(w, left)
    requires t.log == w.log && t.s == Accept(w.s, next, now) && t.s.overflows == w.s.overflows
    requires Peaks(t, left) == NewPeaks(w, next, left)
    ensures FinishedSafe(t, left)
  {
    hide Accept, PressSafe, NewPeaks, Inv, Tagged, SideOk;
    forall n | 0 <= n < |Peaks(t, left)| && Finished(EpochOf(t.s, left), n + 1)
      ensures PressSafe(t, n + 1, Peaks(t, left)[n], left)
    {
      ReceivePressSafe(w, t, next, now, left, n);
    }
  }

  lemma ReceivePeakFirst(w: World, next: InputState, now: int, left: bool)
    requires Inv(w.s) && SideOk(w, left)
    ensures PeakFirst(w.log, NewPeaks(w, next, left), left)
  {
    AcceptEpoch(w, next, now, left);
    hide Accept, ExtendPeaks, InLog, Inv, PressSafe;
    var e := EpochOf(w.s, left);
    var peaks := NewPeaks(w, next, left);
    forall i, n | 0 <= i < |w.log| && 0 <= n < |peaks| && After(w.log[i].entry, n + 1, left)
      ensures InLog(w.log[..i], n + 1, peaks[n], left)
    {
      assert TagOk(w.log[i].entry, e, left);
      assert Finished(e, n + 1);
    }
  }

  lemma ReceivePeaks(w: World, t: World, next: InputState, now: int, left: bool)
    requires Inv(w.s) && Tagged(w.s) && SideOk(w, left)
    requires t.log == w.log && t.s == Accept(w.s, next, now) && t.s.overflows == w.s.overflows
    requires Peaks(t, left) == NewPeaks(w, next, left)
    ensures SideOk(t, left)
  {
    ReceiveFinishedSafe(w, t, next, now, left);
    ReceivePeakFirst(w, next, now, left);
    AcceptEpoch(w, next, now, left);
    hide Accept, ExtendPeaks, InLog, PressSafe, PeakFirst, Inv, Tagged;
    forall i | 0 <= i < |w.log| ensures TagOk(w.log[i].entry, EpochOf(t.s, left), left) {
      assert TagOk(w.log[i].entry, EpochOf(w.s, left), left);
    }
  }

  // ---------------------------------------------------------------- claiming and resolving

  /** The endpoint operations that leave the epochs and the log alone. */
  lemma QuietPeaks(w: World, t: World, left: bool)
    requires SideOk(w, left) && t.log == w.log && Peaks(t, left) == Peaks(w, left)
    requires EpochOf(t.s, left) == EpochOf(w.s, left)
    requires forall id, peak :: peak > 0 && Protected(w.s, id, peak, left) ==> Protected(t.s, id, peak, left)
    ensures SideOk(t, left)
  {
    hide Protected, InLog, LogBefore, PeakFirst;
  }

  lemma ClaimProtects(s: Scheduler, now: int, battery: nat, size: nat, id: nat, peak: nat, left: bool)
    requires LanesOk(s) && CanClaim(s, size) && Protected(s, id, peak, left)
    ensures Protected(BeginClaim(s, now, battery, size), id, peak, left)
  {
    NewClaimEntry(s, now, battery);
    hide NewClaim, Represents, After;
    var t := BeginClaim(s, now, battery, size);
    if RingCarries(s.ring, id, peak, left) {
      var k :| 0 <= k < |s.ring| && Represents(s.ring[k], id, peak, left) &&
               forall i :: 0 <= i < k ==> !After(s.ring[i], id, left);
      if s.retry.None? && k > 0 {
        assert t.ring[k - 1] == s.ring[k];
        assert !After(s.ring[0], id, left);
        forall i | 0 <= i < k - 1 ensures !After(t.ring[i], id, left) {
          assert t.ring[i] == s.ring[i + 1];
        }
        assert RingCarries(t.ring, id, peak, left);
      }
    }
  }

  lemma DeferProtects(s: Scheduler, id: nat, peak: nat, left: bool)
    requires LanesOk(s) && s.claim.Some? && peak > 0 && Protected(s, id, peak, left)
    ensures Protected(DeferClaim(s), id, peak, left)
  {
    hide RingCarries;
  }

  /** What a commit adds to the log is not ahead of a protected peak. */
  lemma CommitSafe(w: World, t: World, id: nat, peak: nat, left: bool)
    requires LanesOk(w.s) && w.s.claim.Some? && PressSafe(w, id, peak, left)
    requires t.s == CommitClaim(w.s) && |t.log| == |w.log| + 1 && t.log[..|w.log|] == w.log
    requires t.log[|w.log|].entry == w.s.claim.value.entry
    ensures PressSafe(t, id, peak, left)
  {
    hide PresentPeak, After, Represents, RingCarries;
    if InLog(w.log, id, peak, left) {
      var j :| 0 <= j < |w.log| && Represents(w.log[j].entry, id, peak, left);
      assert t.log[j] == w.log[j];
    } else if Represents(w.s.claim.value.entry, id, peak, left) {
      assert Represents(t.log[|w.log|].entry, id, peak, left);
    } else {
      forall i | 0 <= i < |t.log| ensures !After(t.log[i].entry, id, left) {
        if i < |w.log| { assert t.log[i] == w.log[i]; }
      }
    }
  }

  /** A release or a later press is committed only when the peak is in the log. */
  lemma CommitPeakFirst(w: World, t: World, left: bool)
    requires LanesOk(w.s) && Tagged(w.s) && w.s.claim.Some? && SideOk(w, left)
    requires |t.log| == |w.log| + 1 && t.log[..|w.log|] == w.log
    requires t.log[|w.log|].entry == w.s.claim.value.entry
    ensures PeakFirst(t.log, Peaks(w, left), left)
  {
    var peaks := Peaks(w, left);
    forall i, n | 0 <= i < |t.log| && 0 <= n < |peaks| && After(t.log[i].entry, n + 1, left)
      ensures InLog(t.log[..i], n + 1, peaks[n], left)
    {
      if i < |w.log| {
        assert t.log[i] == w.log[i] && t.log[..i] == w.log[..i];
      } else {
        PassedPeakIsInLog(w, n, left);
      }
    }
  }

  lemma PassedPeakIsInLog(w: World, n: nat, left: bool)
    requires LanesOk(w.s) && Tagged(w.s) && w.s.claim.Some? && SideOk(w, left)
    requires n < |Peaks(w, left)| && After(w.s.claim.value.entry, n + 1, left)
    ensures InLog(w.log, n + 1, Peaks(w, left)[n], left)
  {
    hide PeakFirst, InLog, RingCarries;
    assert TagOk(w.s.claim.value.entry, EpochOf(w.s, left), left);
    assert Finished(EpochOf(w.s, left), n + 1);
    assert PressSafe(w, n + 1, Peaks(w, left)[n], left);
  }

  lemma CommitPresented(w: World, t: World, left: bool)
    requires w.s.claim.Some? && t.s == CommitClaim(w.s)
    requires EpochOf(w.s, left).presentedPeak > 0 ==>
               InLog(w.log, EpochOf(w.s, left).id, EpochOf(w.s, left).presentedPeak, left)
    requires |t.log| == |w.log| + 1 && t.log[..|w.log|] == w.log
    requires t.log[|w.log|].entry == w.s.claim.value.entry
    ensures EpochOf(t.s, left).presentedPeak > 0 ==>
              InLog(t.log, EpochOf(t.s, left).id, EpochOf(t.s, left).presentedPeak, left)
  {
    hide CopyStatus;
    var e := EpochOf(w.s, left);
    var f := EpochOf(t.s, left);
    if f.presentedPeak != e.presentedPeak {
      assert Represents(t.log[|w.log|].entry, f.id, f.presentedPeak, left);
    } else if e.presentedPeak > 0 {
      var j :| 0 <= j < |w.log| && Represents(w.log[j].entry, e.id, e.presentedPeak, left);
      assert t.log[j] == w.log[j];
    }
  }

  lemma CommitPeaks(w: World, t: World, left: bool)
    requires LanesOk(w.s) && Tagged(w.s) && w.s.claim.Some? && SideOk(w, left)
    requires t.s == CommitClaim(w.s) && Peaks(t, left) == Peaks(w, left)
    requires |t.log| == |w.log| + 1 && t.log[..|w.log|] == w.log
    requires t.log[|w.log|].entry == w.s.claim.value.entry
    ensures SideOk(t, left)
  {
    CommitPeakFirst(w, t, left);
    CommitPresented(w, t, left);
    var e := EpochOf(w.s, left);
    var f := EpochOf(t.s, left);
    hide PresentPeak, InLog, PressSafe, PeakFirst;
    assert f.id == e.id && f.active == e.active && f.peak == e.peak by { CommitEpoch(w.s, left); }
    forall n | 0 <= n < |Peaks(t, left)| && Finished(f, n + 1)
      ensures PressSafe(t, n + 1, Peaks(t, left)[n], left)
    {
      assert Finished(e, n + 1);
      CommitSafe(w, t, n + 1, Peaks(w, left)[n], left);
    }
    forall i | 0 <= i < |t.log| ensures TagOk(t.log[i].entry, f, left) {
      if i < |w.log| { assert t.log[i] == w.log[i] && TagOk(w.log[i].entry, e, left); }
    }
  }

  lemma CommitEpoch(s: Scheduler, left: bool)
    requires s.claim.Some?
    ensures var e := EpochOf(s, left);
            var f := EpochOf(CommitClaim(s), left);
            f.id == e.id && f.active == e.active && f.peak == e.peak
  {
  }

  // ---------------------------------------------------------------- whole runs

  predicate PeaksSafe(w: World) {
    SideOk(w, true) && SideOk(w, false)
  }

  lemma EndpointPeaks(w: World, a: Action, left: bool)
    requires HistoryOk(w) && SideOk(w, left) && !a.Receive?
    requires Unretired(Advance(w, a))
    ensures SideOk(Advance(w, a), left)
  {
    var t := Advance(w, a);
    assert LanesOk(w.s) && Tagged(w.s);
    hide HistoryOk, SideOk, Protected, LanesOk, Tagged, PeakFirst, Collapse, NewClaim, CommitClaim, DeferClaim;
    match a
    case BeginReceive => QuietPeaks(w, t, left) by { BeginReceiveProtects(w.s, left); }
    case TakeClaim(at, battery, size) =>
      if CanClaim(w.s, size) {
        forall id, peak | peak > 0 && Protected(w.s, id, peak, left) ensures Protected(t.s, id, peak, left) {
          ClaimProtects(w.s, at, battery, size, id, peak, left);
        }
        QuietPeaks(w, t, left);
      }
    case ResolveClaim(token, generation, outcome, at) =>
      if Resolves(w.s, token, generation, outcome) {
        match outcome
        case Commit => CommitPeaks(w, t, left);
        case Defer =>
          forall id, peak | peak > 0 && Protected(w.s, id, peak, left) ensures Protected(t.s, id, peak, left) {
            DeferProtects(w.s, id, peak, left);
          }
          assert EpochOf(t.s, left) == EpochOf(w.s, left) by { DeferEpoch(w.s, left); }
          QuietPeaks(w, t, left);
        case Retire =>
          CollapseGeneration(w.s, at);
          assert false;
      }
    case RetirePresentation(generation, at) =>
      if Retires(w.s, generation) {
        CollapseGeneration(w.s, at);
        assert false;
      }
  }

  lemma DeferEpoch(s: Scheduler, left: bool)
    requires s.claim.Some?
    ensures EpochOf(DeferClaim(s), left) == EpochOf(s, left)
  {
  }

  lemma BeginReceiveProtects(s: Scheduler, left: bool)
    ensures forall id, peak :: Protected(s, id, peak, left) ==> Protected(BeginReceiveGeneration(s), id, peak, left)
  {
  }

  lemma AcceptOverflows(s: Scheduler, next: InputState, now: int)
    ensures Accept(s, next, now).overflows >= s.overflows
  {
    hide PreserveBoth, NewEntry;
    PreserveBothOverflows(Observe(s, next, now), NewEntry(s, next, now));
  }

  /** Retirement and overflow are never undone. */
  lemma MarksStay(w: World, a: Action)
    requires Inv(w.s)
    ensures Advance(w, a).s.overflows >= w.s.overflows
    ensures Advance(w, a).s.presentationGeneration >= w.s.presentationGeneration
  {
    hide Accept, NewClaim, PresentPeak, RestartEpoch;
    if a.Receive? {
      AcceptOverflows(w.s, Received(a.state), a.at);
      AcceptLanes(w.s, Received(a.state), a.at);
    }
  }

  lemma AdvancePeaks(w: World, a: Action)
    requires HistoryOk(w) && PeaksSafe(w)
    requires Unretired(Advance(w, a)) && Advance(w, a).s.overflows == w.s.overflows
    ensures PeaksSafe(Advance(w, a))
  {
    assert Inv(w.s) && Tagged(w.s);
    hide HistoryOk, SideOk, Inv, Tagged, Accept;
    if a.Receive? {
      if Admissible(w.s, a.generation) {
        ReceivePeaks(w, Advance(w, a), Received(a.state), a.at, true);
        ReceivePeaks(w, Advance(w, a), Received(a.state), a.at, false);
      }
    } else {
      EndpointPeaks(w, a, true);
      EndpointPeaks(w, a, false);
    }
  }

  lemma {:induction false} PlayPeaks(edge: bool, start: int, actions: seq<Action>)
    requires var w := Play(NewWorld(edge, start), actions); Unretired(w) && w.s.overflows == 0
    ensures PeaksSafe(Play(NewWorld(edge, start), actions))
  {
    if actions != [] {
      var before := Play(NewWorld(edge, start), actions[..|actions| - 1]);
      PlayHistory(edge, start, actions[..|actions| - 1]);
      assert Inv(before.s) && before.s.presentationGeneration > 0;
      hide HistoryOk, SideOk, Inv, Advance;
      MarksStay(before, actions[|actions| - 1]);
      PlayPeaks(edge, start, actions[..|actions| - 1]);
      AdvancePeaks(before, actions[|actions| - 1]);
    }
  }

  /**
   For both triggers and every press: by the time a committed report releases the press, or
   belongs to a later press, an earlier committed report tagged with that press was at least as
   strong as the strongest value received during it.
   */
  lemma TriggerPeaksSurvive(edge: bool, start: int, actions: seq<Action>, left: bool, i: nat, press: nat)
    requires var w := Play(NewWorld(edge, start), actions);
             Unretired(w) && w.s.overflows == 0 && i < |w.log| && 0 < press <= |Peaks(w, left)| &&
             After(w.log[i].entry, press, left)
    ensures var w := Play(NewWorld(edge, start), actions);
            exists j :: 0 <= j < i && EpochTag(w.log[j].entry, left) == press &&
                        TriggerValue(w.log[j].entry.state, left) >= Peaks(w, left)[press - 1]
  {
    var w := Play(NewWorld(edge, start), actions);
    PlayPeaks(edge, start, actions);
    hide PressSafe, Play;
    assert InLog(w.log[..i], press - 1 + 1, Peaks(w, left)[press - 1], left);
    var j :| 0 <= j < |w.log[..i]| && Represents(w.log[..i][j].entry, press, Peaks(w, left)[press - 1], left);
    assert w.log[..i][j] == w.log[j];
  }
}
