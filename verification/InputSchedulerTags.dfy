/**
 How entries are tagged with the presses they belong to, and how a queued entry may still
 change: only a pending press, and only by raising its own trigger.
 */
module InputSchedulerTags {
  import opened Options
  import opened DualSenseInput
  import opened InputScheduler
  import opened InputSchedulerInvariant

  // ---------------------------------------------------------------- strengthening

  predicate SameOutsideTriggers(a: Metadata, b: Metadata) {
    match (a, b)
    case (NoMetadata, NoMetadata) => true
    case (Metadata(_, _, _, _, _, _, _), Metadata(_, _, _, _, _, _, _)) =>
      b == a.(l2Status := b.l2Status, l2Effect := b.l2Effect, r2Status := b.r2Status, r2Effect := b.r2Effect)
    case _ => false
  }

  /** Equal but for trigger values that went up and trigger status that was updated with them. */
  predicate TriggersRaised(a: InputState, b: InputState) {
    && b == a.(l2 := b.l2, l2Button := b.l2Button, r2 := b.r2, r2Button := b.r2Button, metadata := b.metadata)
    && a.l2 <= b.l2 && a.r2 <= b.r2
    && SameOutsideTriggers(a.metadata, b.metadata)
  }

  predicate SameTrigger(a: InputState, b: InputState, left: bool) {
    TriggerValue(a, left) == TriggerValue(b, left) && StatusMatches(a, b, left)
  }

  /** `b` is the queued entry `a`, possibly strengthened on a trigger whose press it carries. */
  predicate Strengthened(a: Entry, b: Entry) {
    && b == a.(state := b.state, l2Anchored := b.l2Anchored, r2Anchored := b.r2Anchored)
    && TriggersRaised(a.state, b.state)
    && (forall left :: PressFlag(a, left) || SameTrigger(a.state, b.state, left))
  }

  predicate Matches(a: seq<Entry>, b: seq<Entry>) {
    |a| == |b| && forall k :: 0 <= k < |a| ==> Strengthened(a[k], b[k])
  }

  /** The queue kept every entry in its place and only appended. */
  predicate Grows(a: seq<Entry>, b: seq<Entry>) {
    |a| <= |b| && Matches(a, b[..|a|])
  }

  lemma StrengthenedReflexive(a: Entry)
    ensures Strengthened(a, a)
  {
  }

  lemma MatchesReflexive(a: seq<Entry>)
    ensures Matches(a, a)
  {
    forall k | 0 <= k < |a| ensures Strengthened(a[k], a[k]) { StrengthenedReflexive(a[k]); }
  }

  lemma StrengthenedTransitive(a: Entry, b: Entry, c: Entry)
    requires Strengthened(a, b) && Strengthened(b, c)
    ensures Strengthened(a, c)
  {
    forall left ensures PressFlag(a, left) || SameTrigger(a.state, c.state, left) {
      assert PressFlag(a, left) || SameTrigger(a.state, b.state, left);
      assert PressFlag(b, left) || SameTrigger(b.state, c.state, left);
    }
  }

  lemma MatchesTransitive(a: seq<Entry>, b: seq<Entry>, c: seq<Entry>)
    requires Matches(a, b) && Matches(b, c)
    ensures Matches(a, c)
  {
    forall k | 0 <= k < |a| ensures Strengthened(a[k], c[k]) {
      StrengthenedTransitive(a[k], b[k], c[k]);
    }
  }

  lemma GrowsTransitive(a: seq<Entry>, b: seq<Entry>, c: seq<Entry>)
    requires Grows(a, b) && Grows(b, c)
    ensures Grows(a, c)
  {
    forall k | 0 <= k < |a| ensures Strengthened(a[k], c[..|a|][k]) {
      assert Strengthened(a[k], b[..|a|][k]);
      assert Strengthened(b[k], c[..|b|][k]);
      StrengthenedTransitive(a[k], b[k], c[k]);
    }
  }

  lemma MatchesConcat(a: seq<Entry>, b: seq<Entry>, c: seq<Entry>, d: seq<Entry>)
    requires Matches(a, b) && Matches(c, d)
    ensures Matches(a + c, b + d)
  {
  }

  // ---------------------------------------------------------------- tags

  /** An entry's tag names this press or an earlier one; a tagged entry of a held trigger is actuated. */
  predicate TagOk(entry: Entry, epoch: Epoch, left: bool) {
    && EpochTag(entry, left) <= epoch.id
    && (epoch.active && EpochTag(entry, left) == epoch.id ==>
          TriggerValue(entry.state, left) != 0 &&
          (PressFlag(entry, left) ==> TriggerValue(entry.state, left) <= epoch.peak))
  }

  predicate TagsOk(s: Scheduler, epoch: Epoch, left: bool) {
    && (forall i :: 0 <= i < |s.ring| ==> TagOk(s.ring[i], epoch, left))
    && (s.latest.Some? ==> TagOk(s.latest.value, epoch, left))
    && (s.retry.Some? ==> TagOk(s.retry.value.entry, epoch, left))
    && (s.claim.Some? ==> TagOk(s.claim.value.entry, epoch, left))
    && TagOk(s.lastPresented, epoch, left)
  }

  predicate Tagged(s: Scheduler) {
    TagsOk(s, s.l2, true) && TagsOk(s, s.r2, false)
  }

  /** An epoch that is ready to have its peak preserved. */
  predicate PeakOk(epoch: Epoch, left: bool) {
    epoch.active ==> 0 < epoch.id && 0 < epoch.peak == TriggerValue(epoch.peakState, left)
  }

  predicate PeaksOk(s: Scheduler) {
    PeakOk(s.l2, true) && PeakOk(s.r2, false)
  }

  /** The epoch moved on to one in which every earlier entry is still correctly tagged. */
  predicate Later(epoch: Epoch, next: Epoch) {
    (next.id > epoch.id) || (next.id == epoch.id && (next.active ==> epoch.active && epoch.peak <= next.peak))
  }

  lemma LaterKeepsTags(s: Scheduler, epoch: Epoch, next: Epoch, left: bool)
    requires TagsOk(s, epoch, left) && Later(epoch, next)
    ensures TagsOk(s, next, left)
  {
  }

  lemma EnqueueTagged(s: Scheduler, entry: Entry, epoch: Epoch, left: bool)
    requires TagsOk(s, epoch, left) && TagOk(entry, epoch, left)
    ensures TagsOk(Enqueue(s, entry), epoch, left)
  {
  }

  lemma EnqueueGrows(s: Scheduler, entry: Entry)
    ensures Grows(s.ring, Enqueue(s, entry).ring)
  {
    MatchesReflexive(s.ring);
    assert Enqueue(s, entry).ring[..|s.ring|] == s.ring;
  }

  lemma SavedPeakTagged(s: Scheduler, left: bool, side: bool)
    requires PeaksOk(s) && EpochOf(s, left).active
    ensures TagOk(SavedPeak(s, left), EpochOf(s, side), side)
  {
  }

  lemma AnchoredStrengthens(pending: Entry, epoch: Epoch, left: bool)
    requires PressFlag(pending, left) && TriggerValue(pending.state, left) <= epoch.peak
    requires LayoutsMatch(pending.state, epoch.peakState)
    ensures Strengthened(pending, Anchored(pending, epoch, left))
    ensures TriggerValue(Anchored(pending, epoch, left).state, left) == epoch.peak
    ensures TriggerValue(Anchored(pending, epoch, left).state, !left) == TriggerValue(pending.state, !left)
  {
  }

  lemma AnchorTagged(s: Scheduler, i: nat, left: bool)
    requires Tagged(s) && PeaksOk(s) && EpochOf(s, left).active
    requires i < |s.ring| && Anchors(s.ring[i], EpochOf(s, left), left)
    ensures var t := s.(ring := s.ring[i := Anchored(s.ring[i], EpochOf(s, left), left)]);
            Tagged(t) && Grows(s.ring, t.ring) && |t.ring| == |s.ring|
  {
    hide TagOk, Strengthened, Anchored, Anchors;
    var epoch := EpochOf(s, left);
    var raised := Anchored(s.ring[i], epoch, left);
    AnchoredTagged(s.ring[i], epoch, left, s.l2, true);
    AnchoredTagged(s.ring[i], epoch, left, s.r2, false);
    MatchesReflexive(s.ring);
    var t := s.(ring := s.ring[i := raised]);
    assert t.ring[..|s.ring|] == t.ring;
  }

  lemma AnchoredTagged(pending: Entry, epoch: Epoch, left: bool, sideEpoch: Epoch, side: bool)
    requires Anchors(pending, epoch, left) && TagOk(pending, sideEpoch, side) && TagOk(pending, epoch, left)
    requires epoch.active && PeakOk(epoch, left) && (side == left ==> sideEpoch == epoch)
    ensures TagOk(Anchored(pending, epoch, left), sideEpoch, side)
    ensures Strengthened(pending, Anchored(pending, epoch, left))
  {
    hide LayoutsMatch, SetTriggerPeak, StatusMatches, TriggersRaised, Strengthened;
    AnchoredStrengthens(pending, epoch, left);
    assert EpochTag(Anchored(pending, epoch, left), side) == EpochTag(pending, side);
  }

  lemma QueuePeakTagged(s: Scheduler, left: bool)
    requires Tagged(s) && PeaksOk(s) && EpochOf(s, left).active
    ensures Tagged(QueuePeak(s, left)) && Grows(s.ring, QueuePeak(s, left).ring)
  {
    hide StatusMatches, LayoutsMatch, Represents, SavedPeak, Anchored, Anchors, Enqueue, CopyStatus;
    var epoch := EpochOf(s, left);
    var i := FirstAnchor(s.ring, epoch, left, 0);
    if i < |s.ring| {
      AnchorTagged(s, i, left);
    }
    SavedPeakTagged(s, left, true);
    SavedPeakTagged(s, left, false);
    EnqueueBothTagged(s, SavedPeak(s, left));
    if s.latest.Some? {
      CopyTagged(s, left);
      EnqueueBothTagged(s, s.latest.value.(state := CopyStatus(s.latest.value.state, epoch.peakState, left)));
    }
  }

  lemma CopyTagged(s: Scheduler, left: bool)
    requires Tagged(s) && s.latest.Some?
    ensures var promoted := s.latest.value.(state := CopyStatus(s.latest.value.state, EpochOf(s, left).peakState, left));
            TagOk(promoted, s.l2, true) && TagOk(promoted, s.r2, false)
  {
  }

  lemma EnqueueBothTagged(s: Scheduler, entry: Entry)
    requires Tagged(s) && TagOk(entry, s.l2, true) && TagOk(entry, s.r2, false)
    ensures Tagged(Enqueue(s, entry)) && Grows(s.ring, Enqueue(s, entry).ring)
  {
    EnqueueTagged(s, entry, s.l2, true);
    EnqueueTagged(s, entry, s.r2, false);
    EnqueueGrows(s, entry);
  }

  lemma PreserveTagged(s: Scheduler, left: bool, upcoming: Entry)
    requires Tagged(s) && PeaksOk(s)
    ensures var t := Preserve(s, left, upcoming); Tagged(t) && PeaksOk(t) && Grows(s.ring, t.ring)
    ensures EpochOf(Preserve(s, left, upcoming), true) == s.l2 && EpochOf(Preserve(s, left, upcoming), false) == s.r2
  {
    hide QueuePeak, RepresentsTruthfully, RingRepresents;
    MatchesReflexive(s.ring);
    assert s.ring[..|s.ring|] == s.ring;
    if EpochOf(s, left).active {
      QueuePeakTagged(s, left);
      QueuePeakEpochs(s, left);
    }
  }

  lemma QueuePeakEpochs(s: Scheduler, left: bool)
    ensures QueuePeak(s, left).l2 == s.l2 && QueuePeak(s, left).r2 == s.r2
  {
    hide StatusMatches, LayoutsMatch, Represents, Anchored, Anchors, CopyStatus;
  }

  lemma PreserveBothTagged(s: Scheduler, upcoming: Entry)
    requires Tagged(s) && PeaksOk(s)
    ensures var t := PreserveBoth(s, upcoming);
            Tagged(t) && Grows(s.ring, t.ring) && t.l2 == s.l2 && t.r2 == s.r2
  {
    hide Preserve;
    PreserveTagged(s, false, upcoming);
    PreserveTagged(Preserve(s, false, upcoming), true, upcoming);
    PreserveTagged(s, true, upcoming);
    PreserveTagged(Preserve(s, true, upcoming), false, upcoming);
    GrowsTransitive(s.ring, Preserve(s, false, upcoming).ring, Preserve(Preserve(s, false, upcoming), true, upcoming).ring);
    GrowsTransitive(s.ring, Preserve(s, true, upcoming).ring, Preserve(Preserve(s, true, upcoming), false, upcoming).ring);
  }

  lemma ObserveTagged(s: Scheduler, next: InputState, now: int)
    requires Inv(s) && Tagged(s)
    ensures var o := Observe(s, next, now); Tagged(o) && PeaksOk(o) && o.ring == s.ring
  {
    var o := Observe(s, next, now);
    TrackKeeps(s, next, now, true);
    TrackKeeps(s, next, now, false);
    hide ObserveEpoch;
    assert Later(s.l2, o.l2) by { TrackLater(s, next, now, true); }
    assert Later(s.r2, o.r2) by { TrackLater(s, next, now, false); }
    LaterKeepsTags(s, s.l2, o.l2, true);
    LaterKeepsTags(s, s.r2, o.r2, false);
  }

  lemma TrackLater(s: Scheduler, next: InputState, now: int, left: bool)
    ensures Later(EpochOf(s, left), EpochOf(Observe(s, next, now), left))
  {
  }

  lemma NewEntryTagged(s: Scheduler, next: InputState, now: int, left: bool)
    requires Inv(s)
    ensures var o := Observe(s, next, now);
            TagOk(NewEntry(s, next, now), CloseEpoch(EpochOf(o, left), Released(s, next, left)), left)
  {
    TrackKeeps(s, next, now, left);
  }

  /** Closing the released epochs and adding the new entry keeps every tag correct. */
  lemma CloseTagged(s: Scheduler, p: Scheduler, next: InputState, now: int)
    requires Inv(s) && Tagged(p)
    requires p.l2 == Observe(s, next, now).l2 && p.r2 == Observe(s, next, now).r2
    ensures var l2 := CloseEpoch(p.l2, Released(s, next, true));
            var r2 := CloseEpoch(p.r2, Released(s, next, false));
            Tagged(p.(l2 := l2, r2 := r2)) &&
            TagOk(NewEntry(s, next, now), l2, true) && TagOk(NewEntry(s, next, now), r2, false)
  {
    hide Observe, NewEntry, Released;
    NewEntryTagged(s, next, now, true);
    NewEntryTagged(s, next, now, false);
    LaterKeepsTags(p, p.l2, CloseEpoch(p.l2, Released(s, next, true)), true);
    LaterKeepsTags(p, p.r2, CloseEpoch(p.r2, Released(s, next, false)), false);
  }

  lemma AcceptTagged(s: Scheduler, next: InputState, now: int)
    requires Inv(s) && Tagged(s)
    ensures Tagged(Accept(s, next, now)) && Grows(s.ring, Accept(s, next, now).ring)
  {
    hide Observe, NewEntry, PreserveBoth, Transition, Enqueue, Released, CloseEpoch, TagsOk, Grows;
    var o := Observe(s, next, now);
    var entry := NewEntry(s, next, now);
    var l2 := CloseEpoch(o.l2, Released(s, next, true));
    var r2 := CloseEpoch(o.r2, Released(s, next, false));
    ObserveTagged(s, next, now);
    if Transition(s, next) {
      var p := PreserveBoth(o, entry);
      PreserveBothTagged(o, entry);
      CloseTagged(s, p, next, now);
      EnqueueBothTagged(p.(l2 := l2, r2 := r2), entry);
      EnqueueEpochs(p, l2, r2, entry);
      GrowsTransitive(s.ring, p.ring, Enqueue(p, entry).ring);
      assert Accept(s, next, now) == Enqueue(p.(l2 := l2, r2 := r2), entry).(previous := Some(next));
      PreviousUntagged(Enqueue(p.(l2 := l2, r2 := r2), entry), Some(next));
    } else {
      CloseTagged(s, o, next, now);
      LatestTagged(o.(l2 := l2, r2 := r2), entry);
      GrowsReflexive(s.ring);
      assert Accept(s, next, now) == o.(l2 := l2, r2 := r2, latest := Some(entry), previous := Some(next));
      PreviousUntagged(o.(l2 := l2, r2 := r2, latest := Some(entry)), Some(next));
    }
  }

  lemma GrowsReflexive(a: seq<Entry>)
    ensures Grows(a, a)
  {
    MatchesReflexive(a);
    assert a[..|a|] == a;
  }

  lemma PreviousUntagged(s: Scheduler, previous: Option<InputState>)
    requires Tagged(s)
    ensures Tagged(s.(previous := previous))
  {
  }

  lemma LatestTagged(s: Scheduler, entry: Entry)
    requires Tagged(s) && TagOk(entry, s.l2, true) && TagOk(entry, s.r2, false)
    ensures Tagged(s.(latest := Some(entry)))
  {
  }

  lemma EnqueueEpochs(s: Scheduler, l2: Epoch, r2: Epoch, entry: Entry)
    ensures Enqueue(s.(l2 := l2, r2 := r2), entry) == Enqueue(s, entry).(l2 := l2, r2 := r2)
    ensures Enqueue(s, entry).l2 == s.l2 && Enqueue(s, entry).r2 == s.r2
  {
  }

  /** Nothing the endpoint does, retirement included, disturbs a tag. */
  lemma EndpointTagged(s: Scheduler, a: Action)
    requires Tagged(s) && !a.Receive?
    ensures Tagged(Step(s, a))
  {
    hide NewClaim, CommitClaim, DeferClaim, Collapse;
    match a
    case BeginReceive =>
    case TakeClaim(at, battery, size) => ClaimTagged(s, at, battery, size);
    case ResolveClaim(_, _, _, at) =>
      CollapseTagged(s, at);
      if s.claim.Some? {
        CommitTagged(s);
        DeferTagged(s);
      }
    case RetirePresentation(_, at) => CollapseTagged(s, at);
  }

  lemma ClaimTagged(s: Scheduler, at: int, battery: nat, size: nat)
    requires Tagged(s)
    ensures Tagged(BeginClaim(s, at, battery, size))
  {
    hide TimestampTicks;
  }

  lemma CommitTagged(s: Scheduler)
    requires Tagged(s) && s.claim.Some?
    ensures Tagged(CommitClaim(s))
  {
    hide CopyStatus;
  }

  lemma DeferTagged(s: Scheduler)
    requires Tagged(s) && s.claim.Some?
    ensures Tagged(DeferClaim(s))
  {
  }

  lemma CollapseTagged(s: Scheduler, at: int)
    requires Tagged(s)
    ensures Tagged(Collapse(s, at))
  {
  }

  lemma StepTagged(s: Scheduler, a: Action)
    requires Inv(s) && Tagged(s)
    ensures Tagged(Step(s, a))
  {
    hide Accept, Tagged;
    if a.Receive? { AcceptTagged(s, Received(a.state), a.at); } else { EndpointTagged(s, a); }
  }

  /** In every run, every entry names a press that has begun, and an entry of a press in progress is actuated. */
  lemma {:induction false} RunTagged(edge: bool, start: int, actions: seq<Action>)
    ensures Tagged(Run(NewScheduler(edge, start), actions))
  {
    if actions != [] {
      hide Step, Tagged, Inv;
      NewSchedulerInv(edge, start);
      RunKeeps(NewScheduler(edge, start), actions[..|actions| - 1]);
      RunTagged(edge, start, actions[..|actions| - 1]);
      StepTagged(Run(NewScheduler(edge, start), actions[..|actions| - 1]), actions[|actions| - 1]);
    }
  }
}
