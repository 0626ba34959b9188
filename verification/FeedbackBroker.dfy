/**
 The runtime as an object with a sole active writer lease, both updated in place. Each method is
 proved to take the abstract runtime to the value that `FeedbackRuntime` specifies, and to leave
 everything alone when it is shown a lease other than the active one.
 */
module FeedbackBroker {
  import opened Basics
  import opened Options
  import opened FeedbackFrame
  import opened FeedbackRuntime

  class WriterLease {
    const broker: Broker
    const generation: nat
    const device: nat
    const transport: nat
    var nextToken: nat
    var claim: Option<Claim>
    var completed: nat
    var active: bool

    constructor (broker: Broker, generation: nat, device: nat, transport: nat)
      ensures this.broker == broker && active
      ensures View() == Writer(generation, device, transport, 0, None, 0)
    {
      this.broker, this.generation, this.device, this.transport := broker, generation, device, transport;
      nextToken, claim, completed, active := 0, None, 0, true;
    }

    ghost function View(): Writer
      reads this
    {
      Writer(generation, device, transport, nextToken, claim, completed)
    }
  }

  class Broker {
    var profile: Option<Publication>
    var audio: Option<Publication>
    var game: Option<Publication>
    var preview: Option<Publication>
    var activeWriter: WriterLease?
    var writerGeneration: nat
    var owner: Option<Publication>
    var stopping: bool
    var mayHaveActuated: bool
    var ownerEpoch: nat
    var lastEpoch: nat
    var event: Option<Delivery>
    var revision: nat

    ghost predicate Valid()
      reads this, activeWriter
    {
      activeWriter != null ==>
        activeWriter.broker == this && activeWriter.active && activeWriter.generation == writerGeneration
    }

    ghost function View(): Runtime
      reads this, activeWriter
    {
      Runtime(Slots(profile, audio, game, preview),
              if activeWriter == null then None else Some(activeWriter.View()), writerGeneration,
              owner, stopping, mayHaveActuated, ownerEpoch, lastEpoch, event, revision)
    }

    constructor ()
      ensures Valid() && View() == NEW_RUNTIME
    {
      profile, audio, game, preview := None, None, None, None;
      activeWriter, writerGeneration := null, 0;
      owner, stopping, mayHaveActuated, ownerEpoch, lastEpoch := None, false, false, 0, 0;
      event, revision := None, 0;
    }

    method Publish(p: Publication) returns (ok: bool)
      requires Valid()
      modifies this
      ensures Valid() && View() == FeedbackRuntime.Publish(old(View()), p)
      ensures ok == Publishes(old(View()), p)
    {
      hide NewerFrame, ValidPublication;
      if !ValidPublication(p) { return false; }
      var slot := if p.origin == 1 then profile else if p.origin == 2 then audio
                  else if p.origin == 3 then game else preview;
      if slot.Some? && !NewerFrame(p.frame, slot.value.frame) { return false; }
      if p.origin == 1 { profile := Some(p); }
      else if p.origin == 2 { audio := Some(p); }
      else if p.origin == 3 { game := Some(p); }
      else { preview := Some(p); }
      return true;
    }

    method AcquireWriter(device: nat, transport: nat) returns (lease: WriterLease?)
      requires Valid()
      modifies this`activeWriter, this`writerGeneration
      ensures Valid() && View() == FeedbackRuntime.AcquireWriter(old(View()), device, transport)
      ensures if Acquires(old(View()), device, transport) then lease == activeWriter && lease != null && fresh(lease)
              else lease == null
    {
      if device == 0 || transport == 0 || activeWriter != null || writerGeneration >= MAX_U64 ||
         (event.Some? && (event.value.device != device || event.value.transport != transport)) {
        return null;
      }
      writerGeneration := writerGeneration + 1;
      lease := new WriterLease(this, writerGeneration, device, transport);
      activeWriter := lease;
    }

    /** The only lease that can act is the active one of this broker. */
    predicate IsCurrent(writer: WriterLease?)
      requires Valid()
      reads this, activeWriter, writer
      ensures IsCurrent(writer) <==> writer != null && writer == activeWriter
    {
      writer != null && writer.active && writer.broker == this && activeWriter == writer &&
      writer.generation == writerGeneration
    }

    method RetireWriter(writer: WriterLease?) returns (ok: bool)
      requires Valid()
      modifies this`activeWriter, writer
      ensures Valid()
      ensures writer == null || writer != old(activeWriter) ==> !ok && View() == old(View())
      ensures writer != null && writer == old(activeWriter) ==>
                ok == RetiresWriter(old(View()), writer.generation) &&
                View() == FeedbackRuntime.RetireWriter(old(View()), writer.generation) &&
                (ok ==> !writer.active)
    {
      if !IsCurrent(writer) || (writer.claim.Some? && writer.claim.value.admitted) { return false; }
      writer.claim, writer.active := None, false;
      activeWriter := null;
      return true;
    }

    // -------------------------------------------------------------- re-evaluation

    method SetEvent(d: Delivery)
      modifies this`revision, this`event
      ensures View() == FeedbackRuntime.SetEvent(old(View()), d)
    {
      revision, event := revision + 1, Some(d);
    }

    method StartOwner(p: Publication)
      modifies this`lastEpoch, this`ownerEpoch, this`owner, this`stopping, this`mayHaveActuated, this`revision, this`event
      ensures View() == FeedbackRuntime.StartOwner(old(View()), p)
    {
      if lastEpoch >= MAX_U64 { return; }
      lastEpoch := lastEpoch + 1;
      ownerEpoch, owner, stopping, mayHaveActuated := lastEpoch, Some(p), false, false;
      SetEvent(FrameEvent(p, lastEpoch));
    }

    method DropOwner()
      modifies this`owner, this`ownerEpoch, this`event
      ensures View() == FeedbackRuntime.DropOwner(old(View()))
    {
      owner, ownerEpoch, event := None, 0, None;
    }

    method Reevaluate(now: nat)
      requires Valid()
      modifies this`lastEpoch, this`ownerEpoch, this`owner, this`stopping, this`mayHaveActuated, this`revision, this`event
      ensures Valid() && View() == FeedbackRuntime.Reevaluate(old(View()), now)
    {
      hide SelectWinner, FeedbackRuntime.StartOwner, FeedbackRuntime.DropOwner, SameOwnership;
      if stopping { return; }
      var winner := SelectWinner(Slots(profile, audio, game, preview), now);
      if owner.None? {
        if winner.Some? { StartOwner(winner.value); }
      } else if winner.Some? && SameOwnership(winner.value, owner.value) {
        if winner != owner {
          owner := winner;
          SetEvent(FrameEvent(winner.value, ownerEpoch));
        }
      } else if !mayHaveActuated {
        DropOwner();
        if winner.Some? { StartOwner(winner.value); }
      } else {
        stopping := true;
        SetEvent(StopEvent(owner.value, ownerEpoch));
      }
    }

    // -------------------------------------------------------------- claim, admit, complete

    method Claim(writer: WriterLease?, now: nat) returns (offer: Option<Delivery>, token: nat)
      requires Valid()
      modifies this, writer
      ensures Valid() && activeWriter == old(activeWriter)
      ensures writer == null || writer != activeWriter ==> offer.None? && View() == old(View())
      ensures writer != null && writer == activeWriter ==>
                View() == ClaimEvent(old(View()), writer.generation, now) &&
                var e := FeedbackRuntime.Reevaluate(old(View()), now);
                (offer.Some? <==> CanClaim(e)) &&
                (offer.Some? ==> writer.claim == Some(FeedbackRuntime.Claim(token, e.revision, offer.value, false)))
    {
      hide FeedbackRuntime.Reevaluate;
      offer, token := None, 0;
      if !IsCurrent(writer) { return; }
      Reevaluate(now);
      if event.None? || writer.claim.Some? || writer.completed == revision ||
         writer.device != event.value.device || writer.transport != event.value.transport {
        return;
      }
      token := writer.nextToken + 1;
      offer := event;
      writer.nextToken, writer.claim := token, Some(FeedbackRuntime.Claim(token, revision, event.value, false));
    }

    method Admit(writer: WriterLease?, token: nat, now: nat) returns (ok: bool)
      requires Valid()
      modifies this, writer
      ensures Valid() && activeWriter == old(activeWriter)
      ensures writer == null || writer != activeWriter ==> !ok && View() == old(View())
      ensures writer != null && writer == activeWriter ==>
                ok == Admits(old(View()), writer.generation, token, now) &&
                View() == FeedbackRuntime.Admit(old(View()), writer.generation, token, now)
    {
      hide FeedbackRuntime.Reevaluate, ValidDelivery, FreshAt;
      if !IsCurrent(writer) || token == 0 || writer.claim.None? { return false; }
      var c := writer.claim.value;
      if c.token != token || c.revision == 0 || !ValidDelivery(c.delivery) || c.admitted { return false; }
      Reevaluate(now);
      if event.None? || revision != c.revision || event.value != c.delivery ||
         writer.device != event.value.device || writer.transport != event.value.transport {
        return false;
      }
      if event.value.FrameDelivery? && !FreshAt(event.value.frame, now) { return false; }
      writer.claim := Some(c.(admitted := true));
      if event.value.FrameDelivery? { mayHaveActuated := true; }
      return true;
    }

    method Complete(writer: WriterLease?, token: nat, delivered: bool, now: nat) returns (ok: bool)
      requires Valid()
      modifies this, writer
      ensures Valid() && activeWriter == old(activeWriter)
      ensures writer == null || writer != activeWriter ==> !ok && View() == old(View())
      ensures writer != null && writer == activeWriter ==>
                ok == Completes(old(View()), writer.generation, token, delivered) &&
                View() == FeedbackRuntime.Complete(old(View()), writer.generation, token, delivered, now)
    {
      hide FeedbackRuntime.Reevaluate, ValidDelivery, Settle, ClearClaim;
      if !IsCurrent(writer) || token == 0 || writer.claim.None? { return false; }
      var c := writer.claim.value;
      if c.token != token || c.revision == 0 || !ValidDelivery(c.delivery) || (delivered && !c.admitted) { return false; }
      EndClaim(writer, delivered);
      Reevaluate(now);
      return true;
    }

    /** Ends the writer's claim; a delivered current Stop also ends the owner's epoch. */
    method EndClaim(writer: WriterLease, delivered: bool)
      requires Valid() && writer == activeWriter && writer.claim.Some?
      modifies this`owner, this`stopping, this`mayHaveActuated, this`ownerEpoch, this`event, writer`claim, writer`completed
      ensures Valid()
      ensures var r, c := old(View()), old(writer.claim.value);
              View() == if delivered && c.delivery.StopDelivery? && r.event == Some(c.delivery) && r.revision == c.revision
                        then Settle(ClearClaim(r, delivered)) else ClearClaim(r, delivered)
    {
      var c := writer.claim.value;
      if delivered { writer.completed := c.revision; }
      writer.claim := None;
      if delivered && c.delivery.StopDelivery? && event.Some? && revision == c.revision && event.value == c.delivery {
        owner, stopping, mayHaveActuated, ownerEpoch, event := None, false, false, 0, None;
      }
    }
  }
}
