/** One complete canonical feedback snapshot, its validity and its freshness. */
module FeedbackFrame {

  const VERSION := 1
  const COMMAND_APPLY := 1
  const COMMAND_NEUTRAL := 2
  const COMMAND_STOP := 3
  const ACTUATOR_ALL := 0x0F
  const MAX_FUTURE_SKEW := 5_000
  const MAX_TIME_TO_LIVE := 250_000

  datatype Frame = Frame(
    version: nat, source: nat, command: nat, actuators: nat,
    bodyLow: nat, bodyHigh: nat, leftTrigger: nat, rightTrigger: nat,
    sequence: nat, device: nat, transport: nat, ownershipEpoch: nat,
    timestamp: nat, timeToLive: nat)

  predicate HasAmplitude(f: Frame) {
    f.bodyLow != 0 || f.bodyHigh != 0 || f.leftTrigger != 0 || f.rightTrigger != 0
  }

  predicate ValidFrame(f: Frame) {
    && f.version == VERSION
    && 1 <= f.source <= 6
    && COMMAND_APPLY <= f.command <= COMMAND_STOP
    && f.actuators == ACTUATOR_ALL
    && f.sequence != 0 && f.device != 0 && f.transport != 0 && f.ownershipEpoch != 0
    && 0 < f.timeToLive <= MAX_TIME_TO_LIVE
    && (HasAmplitude(f) <==> f.command == COMMAND_APPLY)
  }

  /** Expiry is inclusive; a timestamp too far in the future is not fresh either. */
  predicate FreshAt(f: Frame, now: nat) {
    if f.timestamp > now then f.timestamp - now <= MAX_FUTURE_SKEW
    else now - f.timestamp < f.timeToLive
  }

  /** The ordering watermark: generations, then ownership epoch, then sequence of a live source. */
  predicate NewerFrame(candidate: Frame, current: Frame) {
    if candidate.device != current.device then candidate.device > current.device
    else if candidate.transport != current.transport then candidate.transport > current.transport
    else if candidate.ownershipEpoch != current.ownershipEpoch then
      candidate.ownershipEpoch > current.ownershipEpoch
    else
      current.command != COMMAND_STOP && candidate.source == current.source &&
      candidate.sequence > current.sequence
  }
}
