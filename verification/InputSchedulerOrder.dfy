/**
 Ordered work is first-in first-out through failure: what the transition queue accepted is
 committed in exactly that order, a deferred ordered report is offered again unchanged, and
 committed sequence numbers count the commits.
 */
module InputSchedulerOrder {
  import opened DualSenseInput
  import opened InputScheduler
  import opened InputSchedulerInvariant
  import opened InputSchedulerHistory
  import opened InputSchedulerTags

  /** The committed entries that came from the transition queue, in commit order. */
  function Delivered(log: seq<Committed>): seq<Entry> {
    if log == [] then []
    else
      var last := log[|log| - 1];
      Delivered(log[..|log| - 1]) + if last.origin.Queue? then [last.entry] else []
  }

  /** The queue entry that has been claimed and not yet committed. */
  function Flight(w: World): seq<Entry> {
    if !w.laneOrigin.Queue? then []
    else if w.s.claim.Some? then [w.s.claim.value.entry]
    else if w.s.retry.Some? then [w.s.retry.value.entry]
    else []
  }

  /** Accepted entries are committed, in flight or queued, in acceptance order, each exactly once. */
  predicate InOrder(w: World) {
    Matches(w.accepted, Delivered(w.log) + Flight(w) + w.s.ring)
  }

  predicate Unretired(w: World) {
    w.s.presentationGeneration == 1
  }

  /** The same presentation, up to the bookkeeping of an idle repeat. */
  predicate SamePresentation(a: Entry, b: Entry) {
    a == b.(receivedAt := a.receivedAt, sampleQueueAge := a.sampleQueueAge, ordered := a.ordered)
  }

  function PresentedBefore(log: seq<Committed>, i: nat): Entry
    requires i <= |log|
  {
    if i == 0 then PlainEntry(NEUTRAL, 0, 1) else log[i - 1].entry
  }

  /** Idle repeats repeat what was presented last and nothing else. */
  predicate RepeatsOk(w: World) {
    && (forall i :: 0 <= i < |w.log| && w.log[i].origin.Repeat? ==>
          SamePresentation(w.log[i].entry, PresentedBefore(w.log, i)))
    && SamePresentation(w.s.lastPresented, PresentedBefore(w.log, |w.log|))
    && (w.laneOrigin.Repeat? ==>
          (w.s.claim.Some? ==> SamePresentation(w.s.claim.value.entry, w.s.lastPresented)) &&
          (w.s.retry.Some? ==> SamePresentation(w.s.retry.value.entry, w.s.lastPresented)))
    && (w.latestOrigin.Repeat? && w.s.latest.Some? ==>
          SamePresentation(w.s.latest.value, w.s.lastPresented) &&
          w.s.ring == [] && w.s.retry.None? && w.s.claim.None?)
  }

  /** Report i carries the counters i + 1, and the bytes of the state it was claimed for. */
  predicate CountersRun(w: World) {
    && w.s.sequence == |w.log| % 0x100
    && w.s.packetSequence == |w.log| % 0x1_0000_0000
    && (forall i :: 0 <= i < |w.log| ==>
          w.log[i].report.sequence == (i + 1) % 0x100 &&
          w.log[i].report.packetSequence == (i + 1) % 0x1_0000_0000 &&
          w.log[i].report.state == w.log[i].entry.state)
  }

  /** Only ordered entries come from the queue, and the latest slot never holds one of them. */
  predicate OriginsOk(w: World) {
    !w.latestOrigin.Queue? && (w.laneOrigin.Queue? && w.s.claim.Some? ==> w.s.claim.value.entry.ordered)
  }

  predicate HistoryOk(w: World) {
    && Inv(w.s) && Tagged(w.s) && OriginsOk(w)
    && (Unretired(w) ==> InOrder(w))
    && CountersRun(w) && RepeatsOk(w)
  }

  // ---------------------------------------------------------------- receiving

  lemma ReceiveOrder(w: World, t: World)
    requires InOrder(w) && Grows(w.s.ring, t.s.ring)
    requires t.accepted == w.accepted + t.s.ring[|w.s.ring|..]
    requires t.log == w.log && Flight(t) == Flight(w)
    ensures InOrder(t)
  {
    hide Strengthened;
    var n := |w.s.ring|;
    var front := Delivered(w.log) + Flight(w);
    MatchesReflexive(front);
    MatchesConcat(front, front, w.s.ring, t.s.ring[..n]);
    MatchesTransitive(w.accepted, front + w.s.ring, front + t.s.ring[..n]);
    MatchesReflexive(t.s.ring[n..]);
    MatchesConcat(w.accepted, front + t.s.ring[..n], t.s.ring[n..], t.s.ring[n..]);
    assert (front + t.s.ring[..n]) + t.s.ring[n..] == Delivered(t.log) + Flight(t) + t.s.ring;
  }

  /** Receiving leaves the lanes and everything committed alone. */
  predicate SameLanes(s: Scheduler, t: Scheduler) {
    && SameClaim(s, t) && t.retry == s.retry && t.lastPresented == s.lastPresented
    && t.sequence == s.sequence && t.packetSequence == s.packetSequence
    && t.presentationGeneration == s.presentationGeneration
  }

  lemma AcceptLanes(s: Scheduler, next: InputState, now: int)
    requires LanesOk(s)
    ensures SameLanes(s, Accept(s, next, now))
  {
    hide Admit, CloseEpoch, LanesOk;
    AdmitKeeps(s, next, now);
  }

  lemma ReceiveHistory(w: World, a: Action)
    requires HistoryOk(w) && a.Receive?
    ensures HistoryOk(Advance(w, a))
  {
    hide Accept, ExtendPeaks, Inv, Tagged, InOrder;
    if Admissible(w.s, a.generation) {
      var t := Advance(w, a);
      var next := Received(a.state);
      AcceptKeeps(w.s, next, a.at);
      AcceptTagged(w.s, next, a.at);
      assert LanesOk(w.s) by { InvLanes(w.s); }
      AcceptLanes(w.s, next, a.at);
      if Unretired(t) { ReceiveOrder(w, t); }
    }
  }

  lemma InvLanes(s: Scheduler)
    requires Inv(s)
    ensures LanesOk(s) && CountersOk(s)
  {
  }

  // ---------------------------------------------------------------- claiming and resolving

  lemma NewClaimEntry(s: Scheduler, now: int, battery: nat)
    ensures NewClaim(s, now, battery).entry == Selected(s, now)
  {
  }

  lemma ClaimOrder(w: World, a: Action)
    requires LanesOk(w.s) && OriginsOk(w) && a.TakeClaim? && CanClaim(w.s, a.size)
    ensures OriginsOk(Advance(w, a))
    ensures InOrder(w) ==> InOrder(Advance(w, a))
  {
    var t := Advance(w, a);
    NewClaimEntry(w.s, a.at, a.battery);
    hide NewClaim, Strengthened, Delivered, Matches;
    if w.s.retry.None? && w.s.ring != [] {
      assert w.s.ring == [w.s.ring[0]] + w.s.ring[1..];
    }
    assert Delivered(w.log) + Flight(w) + w.s.ring == Delivered(t.log) + Flight(t) + t.s.ring;
  }

  lemma ClaimRepeats(w: World, a: Action)
    requires a.TakeClaim? && CanClaim(w.s, a.size) && RepeatsOk(w)
    ensures RepeatsOk(Advance(w, a))
  {
    NewClaimEntry(w.s, a.at, a.battery);
    hide NewClaim;
  }

  lemma ClaimHistory(w: World, a: Action)
    requires HistoryOk(w) && a.TakeClaim?
    ensures HistoryOk(Advance(w, a))
  {
    hide NewClaim, Inv, Tagged, InOrder, RepeatsOk, OriginsOk;
    if CanClaim(w.s, a.size) {
      BeginClaimKeeps(w.s, a.at, a.battery, a.size);
      ClaimTagged(w.s, a.at, a.battery, a.size);
      assert LanesOk(w.s) by { InvLanes(w.s); }
      ClaimOrder(w, a);
      ClaimRepeats(w, a);
    }
  }

  lemma CommitOrder(w: World, a: Action)
    requires a.ResolveClaim? && a.outcome.Commit? && Resolves(w.s, a.token, a.generation, a.outcome)
    requires LanesOk(w.s) && InOrder(w)
    ensures InOrder(Advance(w, a))
  {
    hide PresentPeak, Strengthened, Matches;
    var t := Advance(w, a);
    assert t.log[..|t.log| - 1] == w.log;
    assert Delivered(t.log) + Flight(t) + t.s.ring == Delivered(w.log) + Flight(w) + w.s.ring;
  }

  lemma NextCounters(n: nat)
    ensures (n % 0x100 + 1) % 0x100 == (n + 1) % 0x100
    ensures (n % 0x1_0000_0000 + 1) % 0x1_0000_0000 == (n + 1) % 0x1_0000_0000
  {
    NextByte(n);
    NextWord(n);
  }

  lemma NextByte(n: nat)
    ensures (n % 0x100 + 1) % 0x100 == (n + 1) % 0x100
  {
    assert n == 0x100 * (n / 0x100) + n % 0x100;
  }

  lemma NextWord(n: nat)
    ensures (n % 0x1_0000_0000 + 1) % 0x1_0000_0000 == (n + 1) % 0x1_0000_0000
  {
    assert n == 0x1_0000_0000 * (n / 0x1_0000_0000) + n % 0x1_0000_0000;
  }

  lemma CommitCounters(w: World, a: Action)
    requires a.ResolveClaim? && a.outcome.Commit? && Resolves(w.s, a.token, a.generation, a.outcome)
    requires CountersOk(w.s) && CountersRun(w)
    ensures CountersRun(Advance(w, a))
  {
    hide PresentPeak;
    NextCounters(|w.log|);
  }

  lemma CommitRepeats(w: World, a: Action)
    requires a.ResolveClaim? && a.outcome.Commit? && Resolves(w.s, a.token, a.generation, a.outcome)
    requires LanesOk(w.s) && RepeatsOk(w)
    ensures RepeatsOk(Advance(w, a))
  {
    hide PresentPeak;
  }

  lemma DeferOrder(w: World, a: Action)
    requires a.ResolveClaim? && a.outcome.Defer? && Resolves(w.s, a.token, a.generation, a.outcome)
    requires LanesOk(w.s) && OriginsOk(w)
    ensures OriginsOk(Advance(w, a))
    ensures InOrder(w) ==> InOrder(Advance(w, a))
  {
    hide Strengthened, Delivered;
    var t := Advance(w, a);
    assert Flight(t) == Flight(w);
  }

  lemma DeferRepeats(w: World, a: Action)
    requires a.ResolveClaim? && a.outcome.Defer? && Resolves(w.s, a.token, a.generation, a.outcome)
    requires LanesOk(w.s) && RepeatsOk(w)
    ensures RepeatsOk(Advance(w, a))
  {
  }

  lemma RetireHistory(w: World, t: World, at: int)
    requires HistoryOk(w) && t == w.(s := Collapse(w.s, at), latestOrigin := Latest)
    ensures HistoryOk(t)
  {
    CollapseKeeps(w.s, at);
    CollapseTagged(w.s, at);
    hide Inv, Tagged, RestartEpoch, InOrder;
    assert !Unretired(t) by { CollapseGeneration(w.s, at); }
  }

  lemma CollapseGeneration(s: Scheduler, at: int)
    requires Inv(s)
    ensures Collapse(s, at).presentationGeneration > 1
  {
  }

  lemma ResolveHistory(w: World, a: Action)
    requires HistoryOk(w) && a.ResolveClaim? && Resolves(w.s, a.token, a.generation, a.outcome)
    ensures HistoryOk(Advance(w, a))
  {
    hide Inv, Tagged, InOrder, RepeatsOk, OriginsOk, CountersRun, Collapse;
    assert LanesOk(w.s) && CountersOk(w.s) by { InvLanes(w.s); }
    match a.outcome
    case Retire => RetireHistory(w, Advance(w, a), a.at);
    case Commit =>
      CommitKeeps(w.s);
      CommitTagged(w.s);
      CommitCounters(w, a);
      CommitRepeats(w, a);
      if Unretired(w) { CommitOrder(w, a); }
      assert OriginsOk(Advance(w, a)) by { CommitOrigins(w, a); }
    case Defer =>
      DeferKeeps(w.s);
      DeferTagged(w.s);
      DeferOrder(w, a);
      DeferRepeats(w, a);
      DeferCounters(w, a);
  }

  lemma CommitOrigins(w: World, a: Action)
    requires a.ResolveClaim? && a.outcome.Commit? && Resolves(w.s, a.token, a.generation, a.outcome)
    requires OriginsOk(w)
    ensures OriginsOk(Advance(w, a))
  {
    hide PresentPeak;
  }

  lemma DeferCounters(w: World, a: Action)
    requires a.ResolveClaim? && a.outcome.Defer? && Resolves(w.s, a.token, a.generation, a.outcome)
    requires CountersRun(w)
    ensures CountersRun(Advance(w, a))
  {
  }

  // ---------------------------------------------------------------- whole runs

  lemma AdvanceHistory(w: World, a: Action)
    requires HistoryOk(w)
    ensures HistoryOk(Advance(w, a))
  {
    hide HistoryOk, Accept, Collapse;
    match a
    case BeginReceive => BeginReceiveHistory(w);
    case Receive(_, _, _) => ReceiveHistory(w, a);
    case TakeClaim(_, _, _) => ClaimHistory(w, a);
    case ResolveClaim(token, generation, outcome, _) =>
      if Resolves(w.s, token, generation, outcome) { ResolveHistory(w, a); }
    case RetirePresentation(generation, at) =>
      if Retires(w.s, generation) { RetireHistory(w, Advance(w, a), at); }
  }

  lemma BeginReceiveHistory(w: World)
    requires HistoryOk(w)
    ensures HistoryOk(Advance(w, BeginReceive))
  {
    StepKeeps(w.s, BeginReceive);
    hide Strengthened, Delivered;
  }

  lemma NewWorldHistory(edge: bool, start: int)
    ensures HistoryOk(NewWorld(edge, start))
  {
  }

  lemma {:induction false} PlayHistory(edge: bool, start: int, actions: seq<Action>)
    ensures HistoryOk(Play(NewWorld(edge, start), actions))
  {
    hide HistoryOk, Advance;
    if actions == [] {
      NewWorldHistory(edge, start);
    } else {
      PlayHistory(edge, start, actions[..|actions| - 1]);
      AdvanceHistory(Play(NewWorld(edge, start), actions[..|actions| - 1]), actions[|actions| - 1]);
    }
  }

  /**
   Without retirement, for every run: the queue commits in acceptance order, loses nothing and
   repeats nothing, an idle repeat repeats what was presented last, and sequence numbers advance
   by one with every commit.
   */
  lemma OrderedWorkIsFifo(edge: bool, start: int, actions: seq<Action>)
    ensures var w := Play(NewWorld(edge, start), actions);
            && w.s == Run(NewScheduler(edge, start), actions)
            && (Unretired(w) ==> Matches(w.accepted, Delivered(w.log) + Flight(w) + w.s.ring))
            && (forall i :: 0 <= i < |w.log| ==>
                  w.log[i].report.sequence == (i + 1) % 0x100 &&
                  w.log[i].report.packetSequence == (i + 1) % 0x1_0000_0000 &&
                  w.log[i].report.state == w.log[i].entry.state)
            && (forall i :: 0 <= i < |w.log| && w.log[i].origin.Repeat? ==>
                  SamePresentation(w.log[i].entry, PresentedBefore(w.log, i)))
  {
    hide Matches, Delivered;
    PlayHistory(edge, start, actions);
    PlayIsRun(NewWorld(edge, start), actions);
  }

  // ---------------------------------------------------------------- exact recovery

  lemma {:induction false} ReceivingKeepsRetry(s: Scheduler, actions: seq<Action>)
    requires Inv(s) && s.claim.None?
    requires forall i :: 0 <= i < |actions| ==> actions[i].Receive? || actions[i].BeginReceive?
    ensures var t := Run(s, actions); Inv(t) && t.claim.None? && t.retry == s.retry
  {
    hide Inv;
    if actions != [] {
      var before := actions[..|actions| - 1];
      ReceivingKeepsRetry(s, before);
      StepKeeps(Run(s, before), actions[|actions| - 1]);
      ReceiveKeepsRetry(Run(s, before), actions[|actions| - 1]);
    }
  }

  lemma ReceiveKeepsRetry(s: Scheduler, a: Action)
    requires Inv(s) && s.claim.None? && (a.Receive? || a.BeginReceive?)
    ensures Step(s, a).claim.None? && Step(s, a).retry == s.retry
  {
    hide Accept;
    if a.Receive? { AcceptLanes(s, Received(a.state), a.at); }
  }

  /** A deferred ordered claim is the next offer, byte for byte, whatever was received meanwhile. */
  lemma DeferredWorkIsExact(s: Scheduler, received: seq<Action>, at: int, battery: nat, size: nat)
    requires Inv(s) && s.claim.Some? && (s.claim.value.entry.ordered || s.claim.value.orderedRecovery)
    requires forall i :: 0 <= i < |received| ==> received[i].Receive? || received[i].BeginReceive?
    requires size >= REPORT_SIZE
    ensures var c := s.claim.value;
            var t := BeginClaim(Run(DeferClaim(s), received), at, battery, size);
            t.claim.Some? && t.claim.value.report == c.report && t.claim.value.sequence == c.sequence &&
            t.claim.value.packetSequence == c.packetSequence &&
            t.claim.value.entry == c.entry.(ordered := true)
  {
    DeferKeeps(s);
    ReceivingKeepsRetry(DeferClaim(s), received);
  }
}
