/**
 A ledger of what was received: every received state under its receive ordinal, with the press of each
 trigger that it belongs to. It decides whether a saved peak is tagged truthfully. The saved state of
 one trigger carries the value that the other trigger had then, and it is tagged with the press that
 the other trigger is in now.
 */
module InputSchedulerReceipts {
  import opened DualSenseInput
  import opened InputScheduler
  import opened InputSchedulerInvariant

  /** A received state and the presses in progress when it was received; zero for a trigger at rest. */
  datatype Receipt = Receipt(state: InputState, l2Press: nat, r2Press: nat)

  /**
   The receipt with ordinal n is element n - 1. The start of a press is the ordinal of its first
   receipt, `edge` is the ordinal of the last transition, and `stale` counts the saved peaks that were
   queued with a false tag.
   */
  datatype Ledger = Ledger(receipts: seq<Receipt>, l2Start: nat, r2Start: nat, edge: nat, stale: nat)

  const NEW_LEDGER := Ledger([], 0, 0, 0, 0)

  function PressOf(r: Receipt, left: bool): nat { if left then r.l2Press else r.r2Press }

  function StartOf(l: Ledger, left: bool): nat { if left then l.l2Start else l.r2Start }

  // ---------------------------------------------------------------- stale saves

  /** The peak is queued as its own saved state, because nothing pending can stand for it. */
  predicate SavesPeak(s: Scheduler, left: bool, upcoming: Entry) {
    var epoch := EpochOf(s, left);
    var i := FirstAnchor(s.ring, epoch, left, 0);
    && NeedsPreserving(epoch, left) && !RepresentsTruthfully(upcoming, epoch, left)
    && !(s.claim.Some? && RepresentsTruthfully(s.claim.value.entry, epoch, left))
    && !(s.retry.Some? && RepresentsTruthfully(s.retry.value.entry, epoch, left))
    && !RingRepresents(s.ring, epoch, left)
    && !(i < |s.ring| && (i == |s.ring| - 1 || StatusMatches(s.ring[i].state, epoch.peakState, left)))
    && !(s.latest.Some? && Represents(s.latest.value, epoch.id, epoch.peak, left) &&
         LayoutsMatch(s.latest.value.state, epoch.peakState))
  }

  lemma SavesPeakSaves(s: Scheduler, left: bool, upcoming: Entry)
    requires SavesPeak(s, left, upcoming)
    ensures Preserve(s, left, upcoming) == Enqueue(s, SavedPeak(s, left))
  {
  }

  /** A saved peak would be tagged with an opposite press that began after the saved state was received. */
  predicate TagIsStale(s: Scheduler, left: bool, oppositeStart: nat) {
    EpochTag(SavedPeak(s, left), !left) != 0 && EpochOf(s, left).peakOrdinal < oppositeStart
  }

  predicate QueuesStale(s: Scheduler, left: bool, upcoming: Entry, oppositeStart: nat) {
    SavesPeak(s, left, upcoming) && TagIsStale(s, left, oppositeStart)
  }

  /** Which trigger's peak is preserved first. */
  predicate LeftFirst(s: Scheduler) { !(s.l2.active && s.r2.active && s.r2.peakOrdinal < s.l2.peakOrdinal) }

  function StaleSaves(s: Scheduler, upcoming: Entry, l2Start: nat, r2Start: nat): nat {
    var first := LeftFirst(s);
    var m := Preserve(s, first, upcoming);
    (if QueuesStale(s, first, upcoming, if first then r2Start else l2Start) then 1 else 0) +
    (if QueuesStale(m, !first, upcoming, if first then l2Start else r2Start) then 1 else 0)
  }

  // ---------------------------------------------------------------- keeping the ledger

  function ReceiptFor(s: Scheduler, next: InputState): Receipt {
    Receipt(next, if next.l2 != 0 then s.l2.id else 0, if next.r2 != 0 then s.r2.id else 0)
  }

  /** One received state: `s` is the scheduler before it. */
  function Enter(l: Ledger, s: Scheduler, next: InputState, now: int): Ledger {
    var o := Observe(s, next, now);
    var l2Start := if Pressed(s, next, true) then o.receiveOrdinal else l.l2Start;
    var r2Start := if Pressed(s, next, false) then o.receiveOrdinal else l.r2Start;
    Ledger(l.receipts + [ReceiptFor(o, next)], l2Start, r2Start,
           if Transition(s, next) then o.receiveOrdinal else l.edge,
           if Transition(s, next) then l.stale + StaleSaves(o, NewEntry(s, next, now), l2Start, r2Start) else l.stale)
  }

  /** A retirement receives the newest state again, and restarts both presses with it. */
  function Reenter(l: Ledger, s: Scheduler, now: int): Ledger {
    var t := Collapse(s, now);
    Ledger(l.receipts + [ReceiptFor(t, Current(s))], t.receiveOrdinal, t.receiveOrdinal, t.receiveOrdinal, l.stale)
  }

  function Keep(l: Ledger, s: Scheduler, a: Action): Ledger {
    match a
    case Receive(state, generation, at) => if Admissible(s, generation) then Enter(l, s, Received(state), at) else l
    case ResolveClaim(token, generation, outcome, at) =>
      if Resolves(s, token, generation, outcome) && outcome.Retire? then Reenter(l, s, at) else l
    case RetirePresentation(generation, at) => if Retires(s, generation) then Reenter(l, s, at) else l
    case _ => l
  }

  /** The ledger of a run. */
  function Books(edge: bool, start: int, actions: seq<Action>): Ledger {
    if actions == [] then NEW_LEDGER
    else
      var init := actions[..|actions| - 1];
      Keep(Books(edge, start, init), Run(NewScheduler(edge, start), init), actions[|actions| - 1])
  }

  // ---------------------------------------------------------------- invariant

  predicate SameTriggers(a: InputState, b: InputState) { a.l2 == b.l2 && a.r2 == b.r2 }

  /** The receipts of one trigger: the present press is exactly what was received since its start. */
  predicate PressesOk(receipts: seq<Receipt>, e: Epoch, start: nat, left: bool) {
    && (forall k :: 0 <= k < |receipts| ==> PressOf(receipts[k], left) <= e.id)
    && (e.active ==>
          0 < start <= |receipts| &&
          forall k :: 0 <= k < |receipts| ==> (PressOf(receipts[k], left) == e.id <==> start <= k + 1))
  }

  /** The peak of an epoch was received under its ordinal, in its own press. */
  predicate PeakReceived(receipts: seq<Receipt>, e: Epoch, left: bool) {
    e.active ==>
      0 < e.peakOrdinal <= |receipts| &&
      SameTriggers(receipts[e.peakOrdinal - 1].state, e.peakState) &&
      PressOf(receipts[e.peakOrdinal - 1], left) == e.id
  }

  predicate SideKept(l: Ledger, s: Scheduler, left: bool) {
    PressesOk(l.receipts, EpochOf(s, left), StartOf(l, left), left) && PeakReceived(l.receipts, EpochOf(s, left), left)
  }

  predicate LedgerOk(l: Ledger, s: Scheduler) {
    |l.receipts| == s.receiveOrdinal && SideKept(l, s, true) && SideKept(l, s, false)
  }

  /** The epoch of one trigger and its receipts, once `next` is observed and before a release closes the press. */
  predicate Observed(receipts: seq<Receipt>, e: Epoch, start: nat, left: bool, next: InputState)
    requires receipts != []
  {
    var n := |receipts| - 1;
    && receipts[n].state == next
    && (forall k :: 0 <= k <= n ==> PressOf(receipts[k], left) <= e.id)
    && (e.active ==>
          0 < start <= n + 1 &&
          forall k :: 0 <= k <= n ==>
            (PressOf(receipts[k], left) == e.id <==> start <= k + 1 && (k < n || TriggerValue(next, left) != 0)))
    && PeakReceived(receipts, e, left)
  }

  lemma EnterObserves(l: Ledger, s: Scheduler, next: InputState, now: int, left: bool)
    requires LedgerOk(l, s) && Inv(s)
    ensures var t := Enter(l, s, next, now);
            t.receipts != [] && Observed(t.receipts, EpochOf(Observe(s, next, now), left), StartOf(t, left), left, next)
  {
    hide StaleSaves, NewEntry, Transition, CopyStatus, LayoutsMatch;
    var e := EpochOf(s, left);
    assert SideKept(l, s, left) && EpochOk(s, left);
    TracksPeak(l.receipts, e, Pressed(s, next, left), next, now, s.receiveOrdinal + 1, left);
  }

  /** How the peak moves: to the new state, or it stays with its old ordinal and values. */
  lemma TracksPeak(receipts: seq<Receipt>, e: Epoch, pressed: bool, next: InputState, now: int, ordinal: nat, left: bool)
    requires PeakReceived(receipts, e, left) && ordinal == |receipts| + 1
    ensures var f := TrackEpoch(e, pressed, next, now, ordinal, left);
            f.active ==>
              (f.peakOrdinal == ordinal && SameTriggers(f.peakState, next)) ||
              (e.active && f.id == e.id && f.peakOrdinal == e.peakOrdinal && SameTriggers(f.peakState, e.peakState))
  {
  }

  lemma EnterKeeps(l: Ledger, s: Scheduler, next: InputState, now: int, left: bool)
    requires LedgerOk(l, s) && Inv(s)
    ensures SideKept(Enter(l, s, next, now), Accept(s, next, now), left)
  {
    hide Enter, Admit, Observe, StaleSaves, Observed;
    EnterObserves(l, s, next, now, left);
    TrackKeeps(s, next, now, left);
    AdmitKeeps(s, next, now);
    ObservedCloses(Enter(l, s, next, now), EpochOf(Observe(s, next, now), left), left, next, Released(s, next, left));
    assert EpochOf(Accept(s, next, now), left) == CloseEpoch(EpochOf(Observe(s, next, now), left), Released(s, next, left));
  }

  lemma ObservedCloses(t: Ledger, e: Epoch, left: bool, next: InputState, release: bool)
    requires t.receipts != [] && Observed(t.receipts, e, StartOf(t, left), left, next)
    requires CloseEpoch(e, release).active ==> TriggerValue(next, left) != 0
    ensures PressesOk(t.receipts, CloseEpoch(e, release), StartOf(t, left), left)
    ensures PeakReceived(t.receipts, CloseEpoch(e, release), left)
  {
  }

  lemma ReenterKeeps(l: Ledger, s: Scheduler, now: int)
    requires LedgerOk(l, s)
    ensures LedgerOk(Reenter(l, s, now), Collapse(s, now))
  {
  }

  /** Claims, commits and deferrals leave the ledger and the presses alone. */
  lemma QuietKeeps(l: Ledger, s: Scheduler, t: Scheduler)
    requires LedgerOk(l, s) && t.receiveOrdinal == s.receiveOrdinal
    requires forall left :: SamePress(EpochOf(s, left), EpochOf(t, left))
    ensures LedgerOk(l, t)
  {
    assert SamePress(EpochOf(s, true), EpochOf(t, true)) && SamePress(EpochOf(s, false), EpochOf(t, false));
  }

  predicate SamePress(e: Epoch, f: Epoch) {
    f == e.(presentedPeak := f.presentedPeak, presentedPeakState := f.presentedPeakState)
  }

  lemma ReceiveOrdinals(s: Scheduler, next: InputState, now: int)
    requires LanesOk(s)
    ensures Accept(s, next, now).receiveOrdinal == s.receiveOrdinal + 1
  {
    hide Admit, Observe;
    AdmitKeeps(s, next, now);
    assert Observe(s, next, now).receiveOrdinal == s.receiveOrdinal + 1 by { ObserveOrdinal(s, next, now); }
  }

  lemma ObserveOrdinal(s: Scheduler, next: InputState, now: int)
    ensures Observe(s, next, now).receiveOrdinal == s.receiveOrdinal + 1
  {
  }

  lemma KeepKeeps(l: Ledger, s: Scheduler, a: Action)
    requires LedgerOk(l, s) && Inv(s)
    ensures LedgerOk(Keep(l, s, a), Step(s, a))
  {
    hide Enter, Accept, Reenter, Collapse, NewClaim, PresentPeak, DeferClaim, CommitClaim, LedgerOk, Inv;
    match a
    case BeginReceive => QuietKeeps(l, s, Step(s, a));
    case Receive(state, generation, at) =>
      if Admissible(s, generation) { EnterKeepsBoth(l, s, Received(state), at); }
    case TakeClaim(at, battery, size) => ClaimPresses(s, at, battery, size); QuietKeeps(l, s, Step(s, a));
    case ResolveClaim(token, generation, outcome, at) =>
      if Resolves(s, token, generation, outcome) {
        match outcome
        case Retire => ReenterKeeps(l, s, at);
        case Commit => CommitPresses(s); QuietKeeps(l, s, Step(s, a));
        case Defer => DeferPresses(s); QuietKeeps(l, s, Step(s, a));
      }
    case RetirePresentation(generation, at) => if Retires(s, generation) { ReenterKeeps(l, s, at); }
  }

  lemma EnterKeepsBoth(l: Ledger, s: Scheduler, next: InputState, now: int)
    requires LedgerOk(l, s) && Inv(s)
    ensures LedgerOk(Enter(l, s, next, now), Accept(s, next, now))
  {
    hide Accept, SideKept, StaleSaves, NewEntry;
    ReceiveOrdinals(s, next, now);
    EnterKeeps(l, s, next, now, true);
    EnterKeeps(l, s, next, now, false);
  }

  lemma ClaimPresses(s: Scheduler, at: int, battery: nat, size: nat)
    ensures var t := BeginClaim(s, at, battery, size);
            t.receiveOrdinal == s.receiveOrdinal && t.l2 == s.l2 && t.r2 == s.r2
  {
    hide NewClaim;
  }

  lemma CommitPresses(s: Scheduler)
    requires s.claim.Some?
    ensures var t := CommitClaim(s);
            t.receiveOrdinal == s.receiveOrdinal && SamePress(s.l2, t.l2) && SamePress(s.r2, t.r2)
  {
    hide CopyStatus;
  }

  lemma DeferPresses(s: Scheduler)
    requires s.claim.Some?
    ensures var t := DeferClaim(s); t.receiveOrdinal == s.receiveOrdinal && t.l2 == s.l2 && t.r2 == s.r2
  {
  }

  lemma {:induction false} BooksKeep(edge: bool, start: int, actions: seq<Action>)
    ensures Inv(Run(NewScheduler(edge, start), actions))
    ensures LedgerOk(Books(edge, start, actions), Run(NewScheduler(edge, start), actions))
  {
    hide Keep, Step, Inv;
    NewSchedulerInv(edge, start);
    RunKeeps(NewScheduler(edge, start), actions);
    if actions != [] {
      var init := actions[..|actions| - 1];
      BooksKeep(edge, start, init);
      KeepKeeps(Books(edge, start, init), Run(NewScheduler(edge, start), init), actions[|actions| - 1]);
    }
  }

  // ---------------------------------------------------------------- main result

  /**
   A saved peak tells the truth about its own trigger. About the opposite trigger it does so exactly
   when the opposite press had begun by the ordinal under which the peak was received: then, and only
   then, the value that it carries was received in the press that it is tagged with.
   */
  lemma OppositeTagIsTrueExactlyWhenFresh(edge: bool, start: int, actions: seq<Action>, next: InputState, now: int, left: bool)
    requires EpochOf(Observe(Run(NewScheduler(edge, start), actions), next, now), left).active
    ensures var s := Run(NewScheduler(edge, start), actions);
            var o := Observe(s, next, now);
            var l := Enter(Books(edge, start, actions), s, next, now);
            var e, saved := EpochOf(o, left), SavedPeak(o, left);
            && 0 < e.peakOrdinal <= |l.receipts|
            && SameTriggers(l.receipts[e.peakOrdinal - 1].state, saved.state)
            && PressOf(l.receipts[e.peakOrdinal - 1], left) == EpochTag(saved, left)
            && (EpochTag(saved, !left) != 0 ==>
                  (PressOf(l.receipts[e.peakOrdinal - 1], !left) == EpochTag(saved, !left) <==>
                   !TagIsStale(o, left, StartOf(l, !left))))
  {
    hide Run, Books, Enter, Inv, Observe;
    BooksKeep(edge, start, actions);
    var s := Run(NewScheduler(edge, start), actions);
    var l := Books(edge, start, actions);
    EnterObserves(l, s, next, now, left);
    EnterObserves(l, s, next, now, !left);
    SavedIsObserved(Enter(l, s, next, now), Observe(s, next, now), next, left);
  }

  lemma SavedIsObserved(l: Ledger, o: Scheduler, next: InputState, left: bool)
    requires l.receipts != [] && EpochOf(o, left).active
    requires Observed(l.receipts, EpochOf(o, left), StartOf(l, left), left, next)
    requires Observed(l.receipts, EpochOf(o, !left), StartOf(l, !left), !left, next)
    ensures var e, saved := EpochOf(o, left), SavedPeak(o, left);
            && 0 < e.peakOrdinal <= |l.receipts|
            && SameTriggers(l.receipts[e.peakOrdinal - 1].state, saved.state)
            && PressOf(l.receipts[e.peakOrdinal - 1], left) == EpochTag(saved, left)
            && (EpochTag(saved, !left) != 0 ==>
                  (PressOf(l.receipts[e.peakOrdinal - 1], !left) == EpochTag(saved, !left) <==>
                   !TagIsStale(o, left, StartOf(l, !left))))
  {
  }
}
