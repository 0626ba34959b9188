/**
 Complete DualSense input states, and the two trigger views that the input scheduler takes of
 them. A `left` argument of true selects L2, false selects R2.

 The 32-bit button word is split into its two trigger bits and the remaining bits, and the
 shared effect-status byte into the nibble owned by each trigger. Metadata that the report
 marks as invalid carries no information and is `NoMetadata`.
 */
module DualSenseInput {

  datatype Touch = Touch(active: bool, tracking: nat, x: nat, y: nat)

  datatype Motion = Motion(gyroX: int, gyroY: int, gyroZ: int, accelX: int, accelY: int, accelZ: int)

  datatype Sticks = Sticks(lx: int, ly: int, rx: int, ry: int)

  datatype Metadata =
    | NoMetadata
    | Metadata(edgeLayout: bool, sensorTimestamp: nat,
               l2Status: nat, l2Effect: nat, r2Status: nat, r2Effect: nat,
               rest: seq<nat>)

  datatype InputState = InputState(
    sticks: Sticks, otherButtons: nat, l2Button: bool, r2Button: bool, dpad: nat,
    l2: nat, r2: nat, touch1: Touch, touch2: Touch, motion: Motion, metadata: Metadata)

  const NO_TOUCH := Touch(false, 0, 0, 0)

  /** The resting state: everything zero except gravity on the Z accelerometer. */
  const NEUTRAL :=
    InputState(Sticks(0, 0, 0, 0), 0, false, false, 0, 0, 0, NO_TOUCH, NO_TOUCH,
               Motion(0, 0, 0, 0, 0, -8192), NoMetadata)

  /** The zero value of the record, which is not the resting state. */
  const ZERO_STATE := NEUTRAL.(motion := Motion(0, 0, 0, 0, 0, 0))

  function TriggerValue(state: InputState, left: bool): nat {
    if left then state.l2 else state.r2
  }

  /** Makes the analog and digital views of both triggers agree. */
  function Normalize(state: InputState): (r: InputState)
    ensures forall left :: TriggerValue(r, left) != 0 <==>
              TriggerValue(state, left) != 0 || (if left then state.l2Button else state.r2Button)
  {
    var l2 := if state.l2 == 0 && state.l2Button then 1 else state.l2;
    var r2 := if state.r2 == 0 && state.r2Button then 1 else state.r2;
    state.(l2 := l2, l2Button := l2 != 0, r2 := r2, r2Button := r2 != 0)
  }

  predicate LayoutsMatch(a: InputState, b: InputState) {
    match (a.metadata, b.metadata)
    case (NoMetadata, NoMetadata) => true
    case (Metadata(_, _, _, _, _, _, _), Metadata(_, _, _, _, _, _, _)) =>
      a.metadata.edgeLayout == b.metadata.edgeLayout
    case _ => false
  }

  predicate StatusMatches(a: InputState, b: InputState, left: bool) {
    LayoutsMatch(a, b) &&
    (a.metadata.NoMetadata? ||
     if left then
       a.metadata.l2Status == b.metadata.l2Status && a.metadata.l2Effect == b.metadata.l2Effect
     else
       a.metadata.r2Status == b.metadata.r2Status && a.metadata.r2Effect == b.metadata.r2Effect)
  }

  /** Couples the physical status of one trigger to `source`, leaving everything else alone. */
  function CopyStatus(destination: InputState, source: InputState, left: bool): InputState {
    if destination.metadata.NoMetadata? || !LayoutsMatch(destination, source) then
      destination
    else if left then
      destination.(metadata := destination.metadata.(l2Status := source.metadata.l2Status,
                                                     l2Effect := source.metadata.l2Effect))
    else
      destination.(metadata := destination.metadata.(r2Status := source.metadata.r2Status,
                                                     r2Effect := source.metadata.r2Effect))
  }

  function SetTriggerPeak(state: InputState, peakState: InputState, left: bool, peak: nat): InputState {
    var raised :=
      if left then state.(l2 := peak, l2Button := state.l2Button || peak != 0)
      else state.(r2 := peak, r2Button := state.r2Button || peak != 0);
    CopyStatus(raised, peakState, left)
  }

  predicate NonNeutral(state: InputState) {
    || state.sticks != NEUTRAL.sticks
    || state.otherButtons != 0 || state.l2Button || state.r2Button
    || state.dpad != 0 || state.l2 != 0 || state.r2 != 0
    || state.touch1.active || state.touch2.active
    || state.motion != NEUTRAL.motion
  }

  predicate TouchTransition(previous: Touch, next: Touch) {
    previous.active != next.active ||
    (previous.active && next.active && previous.tracking != next.tracking)
  }

  /** Whether `next` is an edge that must be presented in order, rather than continuous motion. */
  predicate HasTransition(previous: InputState, next: InputState) {
    || previous.otherButtons != next.otherButtons
    || previous.l2Button != next.l2Button || previous.r2Button != next.r2Button
    || previous.dpad != next.dpad
    || (previous.l2 == 0) != (next.l2 == 0)
    || (previous.r2 == 0) != (next.r2 == 0)
    || TouchTransition(previous.touch1, next.touch1)
    || TouchTransition(previous.touch2, next.touch2)
  }
}
