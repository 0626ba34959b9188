/**
 The feedback mailbox: one replaceable complete snapshot, and a cursor that reserves, retries and
 completes its delivery. Revisions number the accepted publications from one.
 */
module FeedbackMailbox {
  import opened Options
  import opened FeedbackFrame

  datatype Disposition = ClaimFrame | ClaimRelease

  datatype Snapshot = Snapshot(latest: Option<Frame>, revision: nat)

  datatype Flight = Flight(token: nat, revision: nat, disposition: Disposition, completesRelease: bool)

  datatype Cursor = Cursor(applied: nat, released: nat, nextToken: nat, inFlight: Option<Flight>)

  const NEW_SNAPSHOT := Snapshot(None, 0)
  const NEW_CURSOR := Cursor(0, 0, 0, None)

  predicate Publishes(m: Snapshot, f: Frame) {
    ValidFrame(f) && (m.latest.Some? ==> NewerFrame(f, m.latest.value))
  }

  function Publish(m: Snapshot, f: Frame): Snapshot {
    if Publishes(m, f) then Snapshot(Some(f), m.revision + 1) else m
  }

  /** What the next claim would hand out: the frame while it is fresh, the release otherwise, each once. */
  function Owed(m: Snapshot, c: Cursor, now: nat): Option<Disposition> {
    if m.latest.None? || c.inFlight.Some? then None
    else if FreshAt(m.latest.value, now) then
      if c.applied == m.revision then None else Some(ClaimFrame)
    else
      if c.released == m.revision then None else Some(ClaimRelease)
  }

  function Claim(m: Snapshot, c: Cursor, now: nat): Cursor {
    var owed := Owed(m, c, now);
    if owed.None? then c
    else
      c.(nextToken := c.nextToken + 1,
         inFlight := Some(Flight(c.nextToken + 1, m.revision, owed.value,
                                 owed.value.ClaimRelease? || m.latest.value.command == COMMAND_STOP)))
  }

  predicate CanDeliver(m: Snapshot, c: Cursor, token: nat, now: nat) {
    && token != 0 && c.inFlight.Some? && c.inFlight.value.token == token
    && m.latest.Some? && m.revision == c.inFlight.value.revision
    && (FreshAt(m.latest.value, now) <==> c.inFlight.value.disposition.ClaimFrame?)
  }

  predicate Completes(c: Cursor, token: nat) {
    token != 0 && c.inFlight.Some? && c.inFlight.value.token == token
  }

  function Complete(c: Cursor, token: nat, delivered: bool): Cursor {
    if !Completes(c, token) then c
    else
      var flight := c.inFlight.value;
      Cursor(if delivered then flight.revision else c.applied,
             if delivered && flight.completesRelease then flight.revision else c.released,
             c.nextToken, None)
  }

  // ---------------------------------------------------------------- runs

  datatype Action =
    | PublishFrame(frame: Frame)
    | ClaimAt(now: nat)
    | CompleteWith(token: nat, delivered: bool)

  /** A successfully completed delivery. */
  datatype Delivered = Delivered(revision: nat, disposition: Disposition)

  /** `published[r - 1]` is the frame of revision r; `offered` is the frame of the claim in flight. */
  datatype World = World(
    mailbox: Snapshot, cursor: Cursor, published: seq<Frame>, offered: Option<Frame>, log: seq<Delivered>)

  const NEW_WORLD := World(NEW_SNAPSHOT, NEW_CURSOR, [], None, [])

  function Advance(w: World, a: Action): World {
    match a
    case PublishFrame(f) =>
      if Publishes(w.mailbox, f)
      then w.(mailbox := Publish(w.mailbox, f), published := w.published + [f]) else w
    case ClaimAt(now) =>
      var owed := Owed(w.mailbox, w.cursor, now);
      if owed.None? then w
      else w.(cursor := Claim(w.mailbox, w.cursor, now),
              offered := if owed.value.ClaimFrame? then w.mailbox.latest else None)
    case CompleteWith(token, delivered) =>
      if !Completes(w.cursor, token) then w
      else
        var flight := w.cursor.inFlight.value;
        w.(cursor := Complete(w.cursor, token, delivered), offered := None,
           log := if delivered then w.log + [Delivered(flight.revision, flight.disposition)] else w.log)
  }

  function Run(actions: seq<Action>): World {
    if actions == [] then NEW_WORLD
    else Advance(Run(actions[..|actions| - 1]), actions[|actions| - 1])
  }

  /** The successful deliveries of one revision, in order. */
  function DeliveriesOf(log: seq<Delivered>, revision: nat): seq<Disposition> {
    if log == [] then []
    else
      var last := log[|log| - 1];
      DeliveriesOf(log[..|log| - 1], revision) + if last.revision == revision then [last.disposition] else []
  }

  /** The deliveries after which nothing more is owed for a frame. */
  predicate Released(deliveries: seq<Disposition>, f: Frame) {
    if f.command == COMMAND_STOP then deliveries == [ClaimRelease] || deliveries == [ClaimFrame]
    else deliveries == [ClaimRelease] || deliveries == [ClaimFrame, ClaimRelease]
  }

  predicate Applied(deliveries: seq<Disposition>, f: Frame) {
    f.command != COMMAND_STOP && deliveries == [ClaimFrame]
  }

  predicate Disciplined(deliveries: seq<Disposition>, f: Frame) {
    deliveries == [] || Applied(deliveries, f) || Released(deliveries, f)
  }

  // ---------------------------------------------------------------- invariant

  predicate SnapshotOk(w: World) {
    && |w.published| == w.mailbox.revision
    && (w.mailbox.latest.Some? <==> w.published != [])
    && (w.published != [] ==> w.mailbox.latest == Some(w.published[|w.published| - 1]))
    && (forall i :: 0 <= i < |w.published| ==> ValidFrame(w.published[i]))
    && (forall i :: 0 < i < |w.published| ==> NewerFrame(w.published[i], w.published[i - 1]))
  }

  predicate FlightOk(w: World, flight: Flight) {
    && 0 < flight.token == w.cursor.nextToken
    && 0 < flight.revision <= |w.published| && w.cursor.applied <= flight.revision
    && (flight.completesRelease <==>
        flight.disposition.ClaimRelease? || w.published[flight.revision - 1].command == COMMAND_STOP)
    && (flight.disposition.ClaimFrame? ==>
        w.cursor.applied < flight.revision && w.offered == Some(w.published[flight.revision - 1]))
    && (flight.disposition.ClaimRelease? ==> w.cursor.released < flight.revision)
  }

  predicate CursorOk(w: World) {
    && w.cursor.released <= w.cursor.applied <= |w.published|
    && (w.cursor.inFlight.Some? ==> FlightOk(w, w.cursor.inFlight.value))
  }

  predicate LogOk(w: World)
    requires w.cursor.applied <= |w.published|
  {
    && (forall i :: 0 <= i < |w.log| ==> 0 < w.log[i].revision <= w.cursor.applied)
    && (forall i, j :: 0 <= i < j < |w.log| ==> w.log[i].revision <= w.log[j].revision)
    && (forall r :: 0 < r <= |w.published| ==> RevisionOk(w, r))
  }

  predicate RevisionOk(w: World, r: nat)
    requires 0 < r <= |w.published|
  {
    var deliveries := DeliveriesOf(w.log, r);
    if r > w.cursor.applied then deliveries == []
    else if r == w.cursor.released then Released(deliveries, w.published[r - 1])
    else if r == w.cursor.applied then Applied(deliveries, w.published[r - 1])
    else Disciplined(deliveries, w.published[r - 1])
  }

  predicate Inv(w: World) { SnapshotOk(w) && CursorOk(w) && LogOk(w) }

  lemma {:induction false} NothingLogged(log: seq<Delivered>, r: nat)
    requires forall i :: 0 <= i < |log| ==> log[i].revision != r
    ensures DeliveriesOf(log, r) == []
  {
    if log != [] { NothingLogged(log[..|log| - 1], r); }
  }

  lemma LoggedOnce(log: seq<Delivered>, revision: nat, disposition: Disposition, r: nat)
    ensures DeliveriesOf(log + [Delivered(revision, disposition)], r) ==
            if revision == r then DeliveriesOf(log, r) + [disposition] else DeliveriesOf(log, r)
  {
    var longer := log + [Delivered(revision, disposition)];
    assert longer[..|longer| - 1] == log;
  }

  lemma PublishKeeps(w: World, f: Frame)
    requires Inv(w) && Publishes(w.mailbox, f)
    ensures Inv(Advance(w, PublishFrame(f)))
  {
    var w' := Advance(w, PublishFrame(f));
    forall r | 0 < r <= |w'.published| ensures RevisionOk(w', r) {
      if r == |w'.published| { NothingLogged(w.log, r); } else { assert RevisionOk(w, r); }
    }
  }

  lemma ClaimKeeps(w: World, now: nat)
    requires Inv(w)
    ensures Inv(Advance(w, ClaimAt(now)))
  {
    var w' := Advance(w, ClaimAt(now));
    forall r | 0 < r <= |w'.published| ensures RevisionOk(w', r) { assert RevisionOk(w, r); }
  }

  lemma CompleteKeeps(w: World, token: nat, delivered: bool)
    requires Inv(w)
    ensures Inv(Advance(w, CompleteWith(token, delivered)))
  {
    var w' := Advance(w, CompleteWith(token, delivered));
    forall r | 0 < r <= |w'.published| ensures RevisionOk(w', r) {
      assert RevisionOk(w, r);
      if Completes(w.cursor, token) && delivered {
        var flight := w.cursor.inFlight.value;
        LoggedOnce(w.log, flight.revision, flight.disposition, r);
        assert [ClaimFrame] + [ClaimRelease] == [ClaimFrame, ClaimRelease];
      }
    }
  }

  lemma {:induction false} RunKeeps(actions: seq<Action>)
    ensures Inv(Run(actions))
  {
    if actions != [] {
      var before := Run(actions[..|actions| - 1]);
      RunKeeps(actions[..|actions| - 1]);
      match actions[|actions| - 1]
      case PublishFrame(f) => if Publishes(before.mailbox, f) { PublishKeeps(before, f); }
      case ClaimAt(now) => ClaimKeeps(before, now);
      case CompleteWith(token, delivered) => CompleteKeeps(before, token, delivered);
    }
  }

  // ---------------------------------------------------------------- main results

  /** Each revision is delivered as nothing, its frame, a release, a frame then a release, or a Stop alone. */
  lemma PerRevisionDiscipline(actions: seq<Action>, r: nat)
    requires 0 < r <= |Run(actions).published|
    ensures Disciplined(DeliveriesOf(Run(actions).log, r), Run(actions).published[r - 1])
  {
    RunKeeps(actions);
    assert RevisionOk(Run(actions), r);
  }

  /** Nothing is delivered twice or out of order: the watermark only rises, whatever is called. */
  lemma {:induction false} WatermarksRise(actions: seq<Action>, more: seq<Action>)
    ensures Run(actions).cursor.applied <= Run(actions + more).cursor.applied
    ensures Run(actions).cursor.released <= Run(actions + more).cursor.released
    ensures Run(actions).log <= Run(actions + more).log
  {
    if more == [] {
      assert actions + more == actions;
    } else {
      var init := more[..|more| - 1];
      WatermarksRise(actions, init);
      RunKeeps(actions + init);
      assert (actions + more)[..|actions + more| - 1] == actions + init;
    }
  }

  /** A failed completion changes no watermark, so the same thing is owed again at every later instant. */
  lemma FailureIsRetryable(m: Snapshot, c: Cursor, claimed: nat, now: nat)
    requires Owed(m, c, claimed).Some?
    ensures var held := Claim(m, c, claimed);
            var failed := Complete(held, held.nextToken, false);
            Owed(m, held, now).None? && Owed(m, failed, now) == Owed(m, c, now) &&
            failed.applied == c.applied && failed.released == c.released
  {
  }

  /** A delivery that is still permitted carries exactly the current, fresh frame, or releases a stale one. */
  lemma PermittedDeliveryIsCurrent(actions: seq<Action>, token: nat, now: nat)
    requires CanDeliver(Run(actions).mailbox, Run(actions).cursor, token, now)
    ensures var w := Run(actions);
            var latest := w.mailbox.latest.value;
            if w.cursor.inFlight.value.disposition.ClaimFrame?
            then w.offered == Some(latest) && FreshAt(latest, now)
            else !FreshAt(latest, now)
  {
    RunKeeps(actions);
  }

  /** A retired epoch is never revived: after a Stop every later publication has a newer generation or epoch. */
  lemma {:induction false} StopEndsItsEpoch(actions: seq<Action>, stop: nat, later: nat)
    requires stop < later < |Run(actions).published|
    requires Run(actions).published[stop].command == COMMAND_STOP
    ensures var a, b := Run(actions).published[stop], Run(actions).published[later];
            (a.device, a.transport, a.ownershipEpoch) != (b.device, b.transport, b.ownershipEpoch) &&
            EpochPrecedes(a, b)
    decreases later
  {
    RunKeeps(actions);
    var published := Run(actions).published;
    assert NewerFrame(published[later], published[later - 1]);
    if later > stop + 1 { StopEndsItsEpoch(actions, stop, later - 1); }
  }

  predicate EpochPrecedes(a: Frame, b: Frame) {
    a.device < b.device ||
    (a.device == b.device && (a.transport < b.transport ||
                              (a.transport == b.transport && a.ownershipEpoch < b.ownershipEpoch)))
  }
}

/** The mailbox and its cursor as objects; a cursor binds to the first mailbox that it claims from. */
module FeedbackMailboxObjects {
  import opened Options
  import opened FeedbackFrame
  import Spec = FeedbackMailbox

  class ClaimCursor {
    var applied: nat
    var released: nat
    var nextToken: nat
    var inFlight: Option<Spec.Flight>
    var owner: Mailbox?

    constructor ()
      ensures View() == Spec.NEW_CURSOR && owner == null
    {
      applied, released, nextToken, inFlight, owner := 0, 0, 0, None, null;
    }

    ghost function View(): Spec.Cursor
      reads this
    {
      Spec.Cursor(applied, released, nextToken, inFlight)
    }
  }

  class Mailbox {
    var latest: Option<Frame>
    var revision: nat

    constructor ()
      ensures View() == Spec.NEW_SNAPSHOT
    {
      latest, revision := None, 0;
    }

    ghost function View(): Spec.Snapshot
      reads this
    {
      Spec.Snapshot(latest, revision)
    }

    method Publish(f: Frame) returns (ok: bool)
      modifies this
      ensures View() == Spec.Publish(old(View()), f)
      ensures ok == Spec.Publishes(old(View()), f)
    {
      if !ValidFrame(f) { return false; }
      if latest.Some? && !NewerFrame(f, latest.value) { return false; }
      latest, revision := Some(f), revision + 1;
      return true;
    }

    /** Reserves what is owed. A cursor bound to another mailbox gets nothing and is not disturbed. */
    method Claim(now: nat, cursor: ClaimCursor?) returns (offer: Option<Spec.Disposition>, frame: Option<Frame>, token: nat)
      modifies cursor
      ensures cursor == null ==> offer.None?
      ensures cursor != null && old(cursor.owner) != null && old(cursor.owner) != this ==>
                offer.None? && cursor.View() == old(cursor.View()) && cursor.owner == old(cursor.owner)
      ensures cursor != null && (old(cursor.owner) == null || old(cursor.owner) == this) ==>
                cursor.owner == this && cursor.View() == Spec.Claim(View(), old(cursor.View()), now) &&
                offer == Spec.Owed(View(), old(cursor.View()), now) &&
                (offer.Some? ==> token == cursor.nextToken) &&
                frame == if offer == Some(Spec.ClaimFrame) then latest else None
    {
      offer, frame, token := None, None, 0;
      if cursor == null { return; }
      if cursor.owner == null { cursor.owner := this; }
      else if cursor.owner != this { return; }
      if latest.None? || cursor.inFlight.Some? { return; }
      if FreshAt(latest.value, now) {
        if cursor.applied == revision { return; }
        token := BeginClaim(cursor, Spec.ClaimFrame, latest.value.command == COMMAND_STOP);
        offer, frame := Some(Spec.ClaimFrame), latest;
      } else {
        if cursor.released == revision { return; }
        token := BeginClaim(cursor, Spec.ClaimRelease, true);
        offer := Some(Spec.ClaimRelease);
      }
    }

    method BeginClaim(cursor: ClaimCursor, disposition: Spec.Disposition, completesRelease: bool) returns (token: nat)
      modifies cursor`nextToken, cursor`inFlight
      ensures token == cursor.nextToken == old(cursor.nextToken) + 1
      ensures cursor.inFlight == Some(Spec.Flight(token, revision, disposition, completesRelease))
    {
      token := cursor.nextToken + 1;
      cursor.nextToken := token;
      cursor.inFlight := Some(Spec.Flight(token, revision, disposition, completesRelease));
    }

    method CanDeliver(cursor: ClaimCursor?, token: nat, now: nat) returns (ok: bool)
      ensures ok == (cursor != null && cursor.owner == this && Spec.CanDeliver(View(), cursor.View(), token, now))
    {
      if cursor == null || token == 0 || cursor.inFlight.None? || cursor.inFlight.value.token != token ||
         cursor.owner != this {
        return false;
      }
      if latest.None? || revision != cursor.inFlight.value.revision { return false; }
      if cursor.inFlight.value.disposition.ClaimFrame? { return FreshAt(latest.value, now); }
      return !FreshAt(latest.value, now);
    }

    method Complete(cursor: ClaimCursor?, token: nat, delivered: bool) returns (ok: bool)
      modifies cursor
      ensures cursor != null ==> cursor.owner == old(cursor.owner)
      ensures ok == (cursor != null && old(cursor.owner) == this && Spec.Completes(old(cursor.View()), token))
      ensures cursor != null ==>
                cursor.View() == if ok then Spec.Complete(old(cursor.View()), token, delivered) else old(cursor.View())
    {
      if cursor == null || token == 0 || cursor.inFlight.None? || cursor.inFlight.value.token != token ||
         cursor.owner != this {
        return false;
      }
      if delivered {
        cursor.applied := cursor.inFlight.value.revision;
        if cursor.inFlight.value.completesRelease { cursor.released := cursor.inFlight.value.revision; }
      }
      cursor.inFlight := None;
      return true;
    }
  }
}
