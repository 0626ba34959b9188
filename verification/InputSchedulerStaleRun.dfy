/**
 A run that queues a stale save. R2 is pressed twice while L2 is held at one value. The state saved for
 L2 still has the R2 value of the first press. L2 needs saving again because its physical status changed,
 and the saved state is tagged with the second R2 press. The scheduler then takes it for the peak of the
 second press, and the real one is never committed.
 */
module InputSchedulerStaleRun {
  import opened Options
  import opened DualSenseInput
  import opened InputScheduler
  import opened InputSchedulerInvariant
  import opened InputSchedulerHistory
  import opened InputSchedulerOrder
  import opened InputSchedulerPeaks
  import opened InputSchedulerReceipts
  import opened InputSchedulerExactPeaks

  /** A state with the two trigger values, and with one status for L2. */
  function Held(l2: nat, r2: nat, status: nat): InputState {
    NEUTRAL.(l2 := l2, l2Button := l2 != 0, r2 := r2, r2Button := r2 != 0,
             metadata := Metadata(false, 0, status, 0, 0, 0, []))
  }

  function Tell(l2: nat, r2: nat, status: nat): Action { Receive(Some(Held(l2, r2, status)), 0, 0) }

  function Queued(state: InputState, l2Epoch: nat, r2Epoch: nat, l2Press: bool, r2Press: bool): Entry {
    Entry(state, 0, 1, true, true, l2Epoch, r2Epoch, l2Press, r2Press, false, false)
  }

  function LeftEpoch(status: nat, presented: nat, presentedState: InputState): Epoch {
    Epoch(1, true, 100, presented, presentedState, Held(100, 200, status), 0, 1)
  }

  const FIRST := Held(100, 200, 1)
  const LEFT := LeftEpoch(1, 100, FIRST)
  const RIGHT := Epoch(1, true, 200, 200, FIRST, FIRST, 0, 1)
  const RIGHT_AGAIN := Epoch(2, true, 10, 0, ZERO_STATE, Held(100, 10, 1), 0, 3)
  const RIGHT_PEAK := Epoch(2, true, 150, 10, Held(100, 10, 1), Held(100, 150, 2), 0, 4)

  const PRESS := Queued(FIRST, 1, 1, true, true)
  const RELEASE := Queued(Held(100, 0, 1), 1, 1, false, false)
  const SECOND := Queued(Held(100, 10, 1), 1, 2, false, true)
  const SAVED := Queued(Held(100, 200, 2), 1, 2, false, false)
  const LAST := Queued(Held(50, 0, 2), 1, 2, false, false)

  /** What matters of the scheduler between the steps of the run. */
  predicate At(s: Scheduler, ring: seq<Entry>, l2: Epoch, r2: Epoch, ordinal: nat, token: nat) {
    && s.ring == ring && s.retry.None? && s.claim.None? && s.l2 == l2 && s.r2 == r2
    && s.receiveOrdinal == ordinal && s.nextClaimToken == token && s.overflows == 0
    && s.generation == 1 && s.presentationGeneration == 1
  }

  lemma TellFirst(edge: bool, start: int)
    ensures var t := Accept(NewScheduler(edge, start), FIRST, 0);
            At(t, [PRESS], LeftEpoch(1, 0, ZERO_STATE), RIGHT.(presentedPeak := 0, presentedPeakState := ZERO_STATE), 1, 0)
  {
  }

  lemma TellRelease(s: Scheduler)
    requires At(s, [], LEFT, RIGHT, 1, 1) && s.previous == Some(FIRST)
    ensures At(Accept(s, Held(100, 0, 1), 0), [RELEASE], LEFT, RIGHT.(active := false), 2, 1)
  {
  }

  lemma TellSecond(s: Scheduler)
    requires At(s, [], LEFT, RIGHT.(active := false), 2, 2) && s.previous == Some(Held(100, 0, 1))
    ensures At(Accept(s, Held(100, 10, 1), 0), [SECOND], LEFT, RIGHT_AGAIN, 3, 2)
  {
  }

  lemma TellPeak(s: Scheduler)
    requires At(s, [], LEFT, RIGHT_AGAIN.(presentedPeak := 10, presentedPeakState := Held(100, 10, 1)), 3, 3)
    requires s.previous == Some(Held(100, 10, 1))
    ensures At(Accept(s, Held(100, 150, 2), 0), [], LeftEpoch(2, 100, FIRST), RIGHT_PEAK, 4, 3)
  {
  }

  lemma TellFade(s: Scheduler)
    requires At(s, [], LeftEpoch(2, 100, FIRST), RIGHT_PEAK, 4, 3) && s.previous == Some(Held(100, 150, 2))
    ensures var t := Accept(s, Held(50, 120, 2), 0);
            At(t, [], LeftEpoch(2, 100, FIRST), RIGHT_PEAK, 5, 3) && t.latest.Some? && t.latest.value.state == Held(50, 120, 2)
  {
  }

  lemma TellLast(s: Scheduler)
    requires At(s, [], LeftEpoch(2, 100, FIRST), RIGHT_PEAK, 5, 3) && s.previous == Some(Held(50, 120, 2))
    requires s.latest.Some? && s.latest.value.state == Held(50, 120, 2)
    ensures At(Accept(s, Held(50, 0, 2), 0), [SAVED, LAST], LeftEpoch(2, 100, FIRST), RIGHT_PEAK.(active := false), 6, 3)
  {
    var o := Observe(s, Held(50, 0, 2), 0);
    var entry := NewEntry(s, Held(50, 0, 2), 0);
    assert entry == LAST.(ordered := false);
    assert o == s.(receiveOrdinal := 6);
    var m := Preserve(o, true, entry);
    assert m.ring == [SAVED];
    assert RepresentsTruthfully(m.ring[0], o.r2, false);
  }

  // ---------------------------------------------------------------- the run with its history

  predicate Logged(log: seq<Committed>, entries: seq<Entry>) {
    |log| == |entries| && forall i :: 0 <= i < |log| ==> log[i].entry == entries[i]
  }

  /** The last received state, everything committed, and the peaks received for R2. */
  predicate Scene(w: World, previous: InputState, entries: seq<Entry>, peaks: seq<nat>) {
    w.s.previous == Some(previous) && Logged(w.log, entries) && w.r2Peaks == peaks
  }

  lemma TellScene(w: World, l2: nat, r2: nat, status: nat)
    ensures var t := Advance(w, Tell(l2, r2, status));
            && t.s == Accept(w.s, Held(l2, r2, status), 0) && t.s.previous == Some(Held(l2, r2, status))
            && t.log == w.log && t.r2Peaks == ExtendPeaks(w.r2Peaks, Current(w.s).r2, r2)
  {
    hide Admit;
    assert Received(Some(Held(l2, r2, status))) == Held(l2, r2, status);
  }

  function Take(): Action { TakeClaim(0, 0, REPORT_SIZE) }

  function Done(token: nat): Action { ResolveClaim(token, 1, Commit, 0) }

  lemma Drains(w: World, ring: seq<Entry>, l2: Epoch, r2: Epoch, ordinal: nat, token: nat, entries: seq<Entry>)
    requires At(w.s, ring, l2, r2, ordinal, token) && ring != [] && Logged(w.log, entries)
    ensures var t := Advance(Advance(w, Take()), Done(token + 1));
            && At(t.s, ring[1..], PresentPeak(l2, ring[0], true), PresentPeak(r2, ring[0], false), ordinal, token + 1)
            && t.s.previous == w.s.previous && Logged(t.log, entries + [ring[0]]) && t.r2Peaks == w.r2Peaks
  {
    hide PresentPeak, Collapse, DeferClaim, TimestampTicks;
    var m := Advance(w, Take());
    assert Advance(m, Done(token + 1)).log == w.log + [Committed(ring[0], m.s.claim.value.report, m.laneOrigin)];
  }

  lemma PlayOn(w: World, actions: seq<Action>, a: Action)
    ensures Play(w, actions + [a]) == Advance(Play(w, actions), a)
  {
    assert (actions + [a])[..|actions|] == actions;
  }

  /** A state is received and, if it was queued, presented. */
  lemma PlayThenDrain(w: World, actions: seq<Action>, a: Action, token: nat)
    ensures Play(w, actions + [a] + [Take()] + [Done(token)]) == Advance(Advance(Advance(Play(w, actions), a), Take()), Done(token))
  {
    hide Advance;
    PlayOn(w, actions, a);
    PlayOn(w, actions + [a], Take());
    PlayOn(w, actions + [a] + [Take()], Done(token));
  }

  lemma FirstIsPresented(edge: bool, start: int) returns (actions: seq<Action>)
    ensures var w := Play(NewWorld(edge, start), actions);
            At(w.s, [], LEFT, RIGHT, 1, 1) && Scene(w, FIRST, [PRESS], [200])
  {
    hide Accept, Advance;
    var w := NewWorld(edge, start);
    var a := Tell(100, 200, 1);
    TellScene(w, 100, 200, 1);
    TellFirst(edge, start);
    Drains(Advance(w, a), [PRESS], LeftEpoch(1, 0, ZERO_STATE), RIGHT.(presentedPeak := 0, presentedPeakState := ZERO_STATE), 1, 0, []);
    PlayThenDrain(w, [], a, 1);
    actions := [] + [a] + [Take()] + [Done(1)];
  }

  lemma ReleaseIsPresented(edge: bool, start: int) returns (actions: seq<Action>)
    ensures var w := Play(NewWorld(edge, start), actions);
            At(w.s, [], LEFT, RIGHT.(active := false), 2, 2) && Scene(w, Held(100, 0, 1), [PRESS, RELEASE], [200])
  {
    hide Accept, Advance;
    var before := FirstIsPresented(edge, start);
    var w := Play(NewWorld(edge, start), before);
    hide Play;
    var a := Tell(100, 0, 1);
    TellScene(w, 100, 0, 1);
    TellRelease(w.s);
    Drains(Advance(w, a), [RELEASE], LEFT, RIGHT.(active := false), 2, 1, [PRESS]);
    PlayThenDrain(NewWorld(edge, start), before, a, 2);
    actions := before + [a] + [Take()] + [Done(2)];
  }

  lemma SecondIsPresented(edge: bool, start: int) returns (actions: seq<Action>)
    ensures var w := Play(NewWorld(edge, start), actions);
            At(w.s, [], LEFT, RIGHT_AGAIN.(presentedPeak := 10, presentedPeakState := Held(100, 10, 1)), 3, 3) &&
            Scene(w, Held(100, 10, 1), [PRESS, RELEASE, SECOND], [200, 10])
  {
    hide Accept, Advance;
    var before := ReleaseIsPresented(edge, start);
    var w := Play(NewWorld(edge, start), before);
    hide Play;
    var a := Tell(100, 10, 1);
    TellScene(w, 100, 10, 1);
    TellSecond(w.s);
    Drains(Advance(w, a), [SECOND], LEFT, RIGHT_AGAIN, 3, 2, [PRESS, RELEASE]);
    PlayThenDrain(NewWorld(edge, start), before, a, 3);
    actions := before + [a] + [Take()] + [Done(3)];
  }

  lemma PeakIsReceived(edge: bool, start: int) returns (actions: seq<Action>)
    ensures var w := Play(NewWorld(edge, start), actions);
            && At(w.s, [], LeftEpoch(2, 100, FIRST), RIGHT_PEAK, 5, 3)
            && w.s.latest.Some? && w.s.latest.value.state == Held(50, 120, 2)
            && Scene(w, Held(50, 120, 2), [PRESS, RELEASE, SECOND], [200, 150])
  {
    hide Accept, Advance;
    var before := SecondIsPresented(edge, start);
    var w := Play(NewWorld(edge, start), before);
    hide Play;
    var a, b := Tell(100, 150, 2), Tell(50, 120, 2);
    TellScene(w, 100, 150, 2);
    TellPeak(w.s);
    TellScene(Advance(w, a), 50, 120, 2);
    TellFade(Advance(w, a).s);
    PlayOn(NewWorld(edge, start), before, a);
    PlayOn(NewWorld(edge, start), before + [a], b);
    actions := before + [a] + [b];
  }

  lemma LastIsPresented(edge: bool, start: int) returns (actions: seq<Action>)
    ensures var w := Play(NewWorld(edge, start), actions);
            && Unretired(w) && w.s.overflows == 0
            && Logged(w.log, [PRESS, RELEASE, SECOND, SAVED, LAST]) && w.r2Peaks == [200, 150]
  {
    hide Accept, Advance;
    var before := PeakIsReceived(edge, start);
    var w := Play(NewWorld(edge, start), before);
    hide Play;
    var a := Tell(50, 0, 2);
    TellScene(w, 50, 0, 2);
    TellLast(w.s);
    var left, right := LeftEpoch(2, 100, FIRST), RIGHT_PEAK.(active := false);
    var t := Advance(w, a);
    Drains(t, [SAVED, LAST], left, right, 6, 3, [PRESS, RELEASE, SECOND]);
    assert [SAVED, LAST][1..] == [LAST];
    var u := Advance(Advance(t, Take()), Done(4));
    Drains(u, [LAST], PresentPeak(left, SAVED, true), PresentPeak(right, SAVED, false), 6, 4, [PRESS, RELEASE, SECOND, SAVED]);
    PlayThenDrain(NewWorld(edge, start), before, a, 4);
    var done := before + [a] + [Take()] + [Done(4)];
    PlayOn(NewWorld(edge, start), done, Take());
    PlayOn(NewWorld(edge, start), done + [Take()], Done(5));
    actions := done + [Take()] + [Done(5)];
  }

  /**
   The peak of a press can be lost. In this run nothing overflows and nothing is retired, the second
   press of R2 reaches 150 and its release is committed, and no committed report of that press carries
   150. One carries the 200 of the first press instead.
   */
  lemma StaleSaveHidesThePeak(edge: bool, start: int) returns (actions: seq<Action>)
    ensures var w := Play(NewWorld(edge, start), actions);
            && Unretired(w) && w.s.overflows == 0 && Books(edge, start, actions).stale > 0
            && w.r2Peaks == [200, 150]
            && (exists i :: 0 <= i < |w.log| && After(w.log[i].entry, 2, false))
            && (exists j :: 0 <= j < |w.log| && w.log[j].entry.r2Epoch == 2 && w.log[j].entry.state.r2 == 200)
            && (forall j :: 0 <= j < |w.log| && w.log[j].entry.r2Epoch == 2 ==> w.log[j].entry.state.r2 != 150)
  {
    hide Play, Books;
    actions := LastIsPresented(edge, start);
    var w := Play(NewWorld(edge, start), actions);
    assert w.log[3].entry == SAVED && w.log[4].entry == LAST;
    if Books(edge, start, actions).stale == 0 {
      TriggerPeaksAreExact(edge, start, actions, false, 4, 2);
    }
  }
}
