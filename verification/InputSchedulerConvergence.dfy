/**
 Convergence: once producers stop, committing as many reports as there are waiting entries
 makes the presented state the newest received one, whatever is deferred in between.
 */
module InputSchedulerConvergence {
  import opened InputScheduler
  import opened InputSchedulerInvariant

  /** A call of the endpoint alone: no state is received and no generation is retired. */
  predicate EndpointOnly(a: Action) {
    a.TakeClaim? || (a.ResolveClaim? && !a.outcome.Retire?)
  }

  predicate CommitsAt(s: Scheduler, a: Action) {
    a.ResolveClaim? && a.outcome.Commit? && Resolves(s, a.token, a.generation, a.outcome)
  }

  /** How many reports a run commits. */
  function Commits(s: Scheduler, actions: seq<Action>): nat {
    if actions == [] then 0
    else
      var before := actions[..|actions| - 1];
      Commits(s, before) + if CommitsAt(Run(s, before), actions[|actions| - 1]) then 1 else 0
  }

  /** Everything presented or waiting already is the newest received state. */
  predicate Settled(s: Scheduler) {
    && s.lastPresented.state == Current(s)
    && (s.claim.Some? ==> s.claim.value.entry.state == Current(s))
    && (s.retry.Some? ==> s.retry.value.entry.state == Current(s))
    && (forall i :: 0 <= i < |s.ring| ==> s.ring[i].state == Current(s))
    && (s.latest.Some? ==> s.latest.value.state == Current(s))
  }

  lemma EndpointStep(s: Scheduler, a: Action)
    requires Inv(s) && EndpointOnly(a)
    ensures var t := Step(s, a);
            t.previous == s.previous && (Settled(s) ==> Settled(t)) &&
            (Settled(t) || Waiting(t) + (if CommitsAt(s, a) then 1 else 0) <= Waiting(s))
  {
    hide Inv, BeginClaim, CommitClaim, DeferClaim, Settled, Waiting, Accept, Collapse;
    if a.TakeClaim? {
      if CanClaim(s, a.size) { TakeClaimStep(s, a.at, a.battery, a.size); } else { RefusedClaimStep(s, a.at, a.battery, a.size); }
    } else if a.ResolveClaim? && s.claim.Some? {
      CommitStep(s);
      DeferStep(s);
    }
  }

  lemma RefusedClaimStep(s: Scheduler, now: int, battery: nat, size: nat)
    requires !CanClaim(s, size)
    ensures BeginClaim(s, now, battery, size) == s
  {
  }

  lemma CommitStep(s: Scheduler)
    requires Inv(s) && s.claim.Some?
    ensures var t := CommitClaim(s);
            t.previous == s.previous && (Settled(s) ==> Settled(t)) && Waiting(t) + 1 <= Waiting(s)
  {
    hide PresentPeak;
  }

  lemma DeferStep(s: Scheduler)
    requires Inv(s) && s.claim.Some?
    ensures var t := DeferClaim(s);
            t.previous == s.previous && (Settled(s) ==> Settled(t)) && (Settled(t) || Waiting(t) <= Waiting(s))
  {
  }

  lemma TakeClaimStep(s: Scheduler, now: int, battery: nat, size: nat)
    requires Inv(s) && CanClaim(s, size)
    ensures var t := BeginClaim(s, now, battery, size);
            t.previous == s.previous && (Settled(s) ==> Settled(t)) &&
            (Settled(t) || Waiting(t) <= Waiting(s))
  {
  }

  lemma {:induction false} EndpointRun(s: Scheduler, actions: seq<Action>)
    requires Inv(s)
    requires forall i :: 0 <= i < |actions| ==> EndpointOnly(actions[i])
    ensures var t := Run(s, actions);
            Inv(t) && t.previous == s.previous &&
            (Settled(t) || Waiting(t) + Commits(s, actions) <= Waiting(s))
  {
    if actions != [] {
      var before := actions[..|actions| - 1];
      var a := actions[|actions| - 1];
      assert EndpointOnly(a);
      EndpointRun(s, before);
      EndpointStep(Run(s, before), a);
      StepKeeps(Run(s, before), a);
    }
  }

  /**
   The bound is the number of waiting entries. It holds after every run from a new scheduler,
   including runs that overflowed the queue or retired presentation generations.
   */
  lemma Converges(edge: bool, start: int, history: seq<Action>, actions: seq<Action>)
    requires forall i :: 0 <= i < |actions| ==> EndpointOnly(actions[i])
    ensures var s := Run(NewScheduler(edge, start), history);
            Commits(s, actions) >= Waiting(s) ==>
              Run(s, actions).lastPresented.state == Current(s)
  {
    var s := Run(NewScheduler(edge, start), history);
    NewSchedulerInv(edge, start);
    RunKeeps(NewScheduler(edge, start), history);
    EndpointRun(s, actions);
  }

  /** Committing is always possible: a claim and its commit present one more report. */
  lemma CommitIsEnabled(s: Scheduler, at: int, battery: nat, size: nat)
    requires Inv(s) && size >= REPORT_SIZE
    ensures var t := BeginClaim(s, at, battery, size);
            t.claim.Some? &&
            CommitsAt(t, ResolveClaim(t.claim.value.token, t.claim.value.generation, Commit, at))
  {
    BeginClaimKeeps(s, at, battery, size);
  }
}
