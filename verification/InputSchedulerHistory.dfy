/**
 The scheduler together with the history of one run: which reports were committed and from
 where, which entries the transition queue accepted, and the strongest value received in every
 press of each trigger. The history is bookkeeping about calls and answers; it does not feed
 back into the scheduler.
 */
module InputSchedulerHistory {
  import opened InputScheduler
  import opened InputSchedulerInvariant

  /** Where a claimed entry came from. */
  datatype Origin = Queue | Latest | Repeat

  datatype Committed = Committed(entry: Entry, report: Report, origin: Origin)

  datatype World = World(
    s: Scheduler, log: seq<Committed>, accepted: seq<Entry>,
    laneOrigin: Origin, latestOrigin: Origin, l2Peaks: seq<nat>, r2Peaks: seq<nat>)

  function NewWorld(edge: bool, now: int): World {
    World(NewScheduler(edge, now), [], [], Queue, Latest, [], [])
  }

  /** The strongest values after one received state: one element per press. */
  function ExtendPeaks(peaks: seq<nat>, before: nat, value: nat): (r: seq<nat>)
    ensures |r| == |peaks| || |r| == |peaks| + 1
  {
    if value == 0 then peaks
    else if before == 0 || peaks == [] then peaks + [value]
    else if value > peaks[|peaks| - 1] then peaks[|peaks| - 1 := value]
    else peaks
  }

  /** What the queue appended while going from one scheduler to the next. */
  function Appended(s: Scheduler, t: Scheduler): seq<Entry> {
    if |s.ring| <= |t.ring| then t.ring[|s.ring|..] else []
  }

  function SelectedOrigin(w: World): Origin {
    if w.s.retry.Some? then w.laneOrigin
    else if w.s.ring != [] then Queue
    else if w.s.latest.Some? then w.latestOrigin
    else Repeat
  }

  function Advance(w: World, a: Action): World {
    var t := Step(w.s, a);
    match a
    case BeginReceive => w.(s := t)
    case Receive(state, generation, _) =>
      if Admissible(w.s, generation) then
        var current := Current(w.s);
        var next := Received(state);
        w.(s := t, accepted := w.accepted + Appended(w.s, t), latestOrigin := Latest,
           l2Peaks := ExtendPeaks(w.l2Peaks, current.l2, next.l2),
           r2Peaks := ExtendPeaks(w.r2Peaks, current.r2, next.r2))
      else w
    case TakeClaim(_, _, size) =>
      if CanClaim(w.s, size) then w.(s := t, laneOrigin := SelectedOrigin(w)) else w
    case ResolveClaim(token, generation, outcome, _) =>
      if !Resolves(w.s, token, generation, outcome) then w
      else if outcome.Commit? then
        var c := w.s.claim.value;
        w.(s := t, log := w.log + [Committed(c.entry, c.report, w.laneOrigin)])
      else if outcome.Defer? then
        w.(s := t, latestOrigin := if t.retry.None? && w.s.latest.None? then w.laneOrigin else w.latestOrigin)
      else w.(s := t, latestOrigin := Latest)
    case RetirePresentation(generation, _) =>
      if Retires(w.s, generation) then w.(s := t, latestOrigin := Latest) else w
  }

  function Play(w: World, actions: seq<Action>): World {
    if actions == [] then w
    else Advance(Play(w, actions[..|actions| - 1]), actions[|actions| - 1])
  }

  /** The history never changes what the scheduler does. */
  lemma {:induction false} PlayIsRun(w: World, actions: seq<Action>)
    ensures Play(w, actions).s == Run(w.s, actions)
  {
    hide Step;
    if actions != [] {
      PlayIsRun(w, actions[..|actions| - 1]);
      AdvanceIsStep(Play(w, actions[..|actions| - 1]), actions[|actions| - 1]);
    }
  }

  lemma AdvanceIsStep(w: World, a: Action)
    ensures Advance(w, a).s == Step(w.s, a)
  {
    hide Accept, NewClaim, Collapse, CommitClaim, DeferClaim;
  }
}
