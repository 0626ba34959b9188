/**
 The clean cut at retirement. What the endpoint is offered after a presentation generation is
 retired is determined by the newest state at that moment and by what is received afterwards:
 two schedulers that differ in everything they had queued, claimed, deferred or presented
 before the cut are indistinguishable after it.
 */
module InputSchedulerRetirement {
  import opened DualSenseInput
  import opened InputScheduler
  import opened InputSchedulerInvariant

  /** What a caller of the scheduler observes. */
  datatype Answer =
    | Generation(value: nat)
    | Accepted(ok: bool)
    | Offered(report: Report, token: nat, generation: nat, ordered: bool)
    | NoOffer

  function Answers(s: Scheduler, a: Action): Answer {
    match a
    case BeginReceive => Generation(s.generation + 1)
    case Receive(_, generation, _) => Accepted(Admissible(s, generation))
    case TakeClaim(at, battery, size) =>
      if CanClaim(s, size) then
        var c := NewClaim(s, at, battery);
        Offered(c.report, c.token, c.generation, c.entry.ordered)
      else NoOffer
    case ResolveClaim(token, generation, outcome, _) => Accepted(Resolves(s, token, generation, outcome))
    case RetirePresentation(generation, _) => Accepted(Retires(s, generation))
  }

  function Trace(s: Scheduler, actions: seq<Action>): seq<Answer> {
    if actions == [] then []
    else
      var before := actions[..|actions| - 1];
      Trace(s, before) + [Answers(Run(s, before), actions[|actions| - 1])]
  }

  /** Equal up to what was presented before the cut, which can no longer be selected. */
  predicate Indistinguishable(s: Scheduler, t: Scheduler) {
    s == t || (t == s.(lastPresented := t.lastPresented) && Waiting(s) > 0)
  }

  lemma PreserveIgnoresPresented(s: Scheduler, p: Entry, left: bool, upcoming: Entry)
    ensures Preserve(s.(lastPresented := p), left, upcoming) ==
            Preserve(s, left, upcoming).(lastPresented := p)
  {
    hide QueuePeak, RepresentsTruthfully, NeedsPreserving, RingRepresents;
    QueuePeakIgnoresPresented(s, p, left);
  }

  lemma SavedPeakIgnoresPresented(s: Scheduler, p: Entry, left: bool)
    ensures SavedPeak(s.(lastPresented := p), left) == SavedPeak(s, left)
  {
  }

  lemma EnqueueIgnoresPresented(s: Scheduler, p: Entry, entry: Entry)
    ensures Enqueue(s.(lastPresented := p), entry) == Enqueue(s, entry).(lastPresented := p)
  {
  }

  lemma QueuePeakIgnoresPresented(s: Scheduler, p: Entry, left: bool)
    ensures QueuePeak(s.(lastPresented := p), left) == QueuePeak(s, left).(lastPresented := p)
  {
    hide CopyStatus, LayoutsMatch, StatusMatches, FirstAnchor, Anchored, Represents, SavedPeak, Enqueue;
    var epoch := EpochOf(s, left);
    assert SavedPeak(s.(lastPresented := p), left) == SavedPeak(s, left) by { SavedPeakIgnoresPresented(s, p, left); }
    EnqueueIgnoresPresented(s, p, SavedPeak(s, left));
    if s.latest.Some? {
      EnqueueIgnoresPresented(s, p, s.latest.value.(state := CopyStatus(s.latest.value.state, epoch.peakState, left)));
    }
  }

  lemma PreserveBothIgnoresPresented(s: Scheduler, p: Entry, upcoming: Entry)
    ensures PreserveBoth(s.(lastPresented := p), upcoming) == PreserveBoth(s, upcoming).(lastPresented := p)
  {
    hide Preserve;
    PreserveIgnoresPresented(s, p, true, upcoming);
    PreserveIgnoresPresented(s, p, false, upcoming);
    PreserveIgnoresPresented(Preserve(s, true, upcoming), p, false, upcoming);
    PreserveIgnoresPresented(Preserve(s, false, upcoming), p, true, upcoming);
  }

  lemma ObserveIgnoresPresented(s: Scheduler, p: Entry, next: InputState, now: int)
    ensures Observe(s.(lastPresented := p), next, now) == Observe(s, next, now).(lastPresented := p)
    ensures NewEntry(s.(lastPresented := p), next, now) == NewEntry(s, next, now)
  {
    hide TrackEpoch;
  }

  lemma AcceptIgnoresPresented(s: Scheduler, p: Entry, next: InputState, now: int)
    ensures Accept(s.(lastPresented := p), next, now) == Accept(s, next, now).(lastPresented := p)
  {
    hide Observe, NewEntry, PreserveBoth, HasTransition, NonNeutral;
    ObserveIgnoresPresented(s, p, next, now);
    PreserveBothIgnoresPresented(Observe(s, next, now), p, NewEntry(s, next, now));
  }

  lemma ClaimIndistinguishable(s: Scheduler, p: Entry, now: int, battery: nat, size: nat)
    requires CanClaim(s, size) && Waiting(s) > 0
    ensures var t := s.(lastPresented := p);
            NewClaim(s, now, battery) == NewClaim(t, now, battery) &&
            Indistinguishable(BeginClaim(s, now, battery, size), BeginClaim(t, now, battery, size))
  {
  }

  lemma ResolveIndistinguishable(s: Scheduler, p: Entry)
    requires s.claim.Some?
    ensures var t := s.(lastPresented := p);
            CommitClaim(s) == CommitClaim(t) &&
            Indistinguishable(DeferClaim(s), DeferClaim(t))
  {
  }

  lemma StepIndistinguishable(s: Scheduler, t: Scheduler, a: Action)
    requires Indistinguishable(s, t)
    ensures Answers(s, a) == Answers(t, a) && Indistinguishable(Step(s, a), Step(t, a))
  {
    hide NewClaim, BeginClaim, CommitClaim, DeferClaim, Collapse, Accept;
    if s != t {
      var p := t.lastPresented;
      match a
      case BeginReceive =>
      case Receive(state, generation, at) =>
        AcceptIgnoresPresented(s, p, Received(state), at);
        AcceptWaits(s, Received(state), at);
      case TakeClaim(at, battery, size) =>
        if CanClaim(s, size) {
          ClaimIndistinguishable(s, p, at, battery, size);
        } else {
          assert BeginClaim(s, at, battery, size) == s && BeginClaim(t, at, battery, size) == t by {
            RefusedClaim(s, at, battery, size);
            RefusedClaim(t, at, battery, size);
          }
        }
      case ResolveClaim(_, _, outcome, at) =>
        if s.claim.Some? { ResolveIndistinguishable(s, p); }
        CollapseIndistinguishable(s, p, at);
      case RetirePresentation(_, at) =>
        CollapseIndistinguishable(s, p, at);
    }
  }

  lemma RefusedClaim(s: Scheduler, at: int, battery: nat, size: nat)
    requires !CanClaim(s, size)
    ensures BeginClaim(s, at, battery, size) == s
  {
  }

  lemma CollapseIndistinguishable(s: Scheduler, p: Entry, at: int)
    ensures Indistinguishable(Collapse(s, at), Collapse(s.(lastPresented := p), at))
  {
  }

  lemma AcceptWaits(s: Scheduler, next: InputState, now: int)
    ensures Waiting(Accept(s, next, now)) > 0
  {
    hide PreserveBoth;
  }

  lemma {:induction false} RunIndistinguishable(s: Scheduler, t: Scheduler, actions: seq<Action>)
    requires Indistinguishable(s, t)
    ensures Trace(s, actions) == Trace(t, actions)
    ensures Indistinguishable(Run(s, actions), Run(t, actions))
  {
    if actions != [] {
      var before := actions[..|actions| - 1];
      RunIndistinguishable(s, t, before);
      StepIndistinguishable(Run(s, before), Run(t, before), actions[|actions| - 1]);
    }
  }

  /** The newest state and the plain counters that survive retirement. */
  predicate SameSurvivors(s: Scheduler, t: Scheduler) {
    && s.previous == t.previous && s.edge == t.edge && s.timestampBase == t.timestampBase
    && s.nextClaimToken == t.nextClaimToken && s.receiveOrdinal == t.receiveOrdinal
    && s.sequence == t.sequence && s.packetSequence == t.packetSequence
    && s.generation == t.generation && s.presentationGeneration == t.presentationGeneration
    && s.l2.id == t.l2.id && s.r2.id == t.r2.id && s.overflows == t.overflows
  }

  /** Nothing of the retired generation except the newest state is ever offered again. */
  lemma CleanCut(s: Scheduler, t: Scheduler, at: int, actions: seq<Action>)
    requires SameSurvivors(s, t)
    ensures Trace(Collapse(s, at), actions) == Trace(Collapse(t, at), actions)
  {
    RunIndistinguishable(Collapse(s, at), Collapse(t, at), actions);
  }

  lemma {:induction false} TokensAdvance(s: Scheduler, actions: seq<Action>)
    requires Inv(s) && s.claim.None?
    ensures var t := Run(s, actions);
            Inv(t) && t.nextClaimToken >= s.nextClaimToken &&
            (t.claim.Some? ==> t.claim.value.token > s.nextClaimToken)
  {
    if actions != [] {
      var before := actions[..|actions| - 1];
      TokensAdvance(s, before);
      StepKeeps(Run(s, before), actions[|actions| - 1]);
      TokenStep(Run(s, before), actions[|actions| - 1]);
    }
  }

  lemma TokenStep(s: Scheduler, a: Action)
    requires Inv(s)
    ensures var t := Step(s, a);
            t.nextClaimToken >= s.nextClaimToken &&
            (t.claim.Some? ==> t.nextClaimToken > s.nextClaimToken ||
                               (s.claim.Some? && t.claim.value.token == s.claim.value.token))
  {
    if a.Receive? { AdmitKeeps(s, Received(a.state), a.at); }
  }

  /** A token issued before retirement never resolves again, whatever generation it is shown with. */
  lemma OldTokensAreDead(s: Scheduler, at: int, actions: seq<Action>, token: nat, generation: nat, outcome: Outcome)
    requires Inv(s) && token <= s.nextClaimToken
    ensures !Resolves(Run(Collapse(s, at), actions), token, generation, outcome)
  {
    CollapseKeeps(s, at);
    TokensAdvance(Collapse(s, at), actions);
  }
}
