/**
 Device registrations on one virtual bus. A registration incarnation is known by the index of its
 lifecycle object, which stands for the private pointer that its snapshots carry. Sections that run
 under the bus mutex are functions of the bus.
 */
module VirtualBus {
  import opened Basics
  import opened Options

  /** `readers` are the threads that hold the read side of the incarnation's fence. */
  datatype Lifecycle = Lifecycle(
    device: nat, address: nat, token: nat, active: bool, removing: bool, cancelled: bool,
    readers: set<nat>, writer: bool, signals: nat)

  datatype Entry = Entry(lifecycle: nat, published: bool)

  /** What a caller holds: the incarnation, and copies of its identity that the caller could have changed. */
  datatype Snapshot = Snapshot(lifecycle: nat, device: nat, address: nat, token: nat)

  datatype Bus = Bus(
    nextToken: nat, taken: set<nat>, devices: seq<Entry>, closed: bool, lifecycles: seq<Lifecycle>)

  const NEW_BUS := Bus(0, {}, [], false, [])

  // ---------------------------------------------------------------- address allocation

  /** The smallest free address in from..max, where max is at least from. */
  function NextAvailable(taken: set<nat>, from: nat, max: nat): (r: Option<nat>)
    requires from <= max
    ensures r.Some? ==> from <= r.value <= max && r.value !in taken && forall a :: from <= a < r.value ==> a in taken
    ensures r.None? ==> forall a :: from <= a <= max ==> a in taken
    decreases max - from
  {
    if from !in taken then Some(from)
    else if from == max then None
    else NextAvailable(taken, from + 1, max)
  }

  // ---------------------------------------------------------------- the bus

  predicate WellIndexed(b: Bus) {
    forall k :: 0 <= k < |b.devices| ==> b.devices[k].lifecycle < |b.lifecycles|
  }

  function DeviceAt(b: Bus, k: nat): Lifecycle
    requires WellIndexed(b) && k < |b.devices|
  {
    b.lifecycles[b.devices[k].lifecycle]
  }

  predicate HasDevice(b: Bus, device: nat)
    requires WellIndexed(b)
  {
    exists k :: 0 <= k < |b.devices| && DeviceAt(b, k).device == device
  }

  function AddressFor(b: Bus, max: nat): Option<nat> {
    if max == 0 then None else NextAvailable(b.taken, 1, max)
  }

  predicate Adds(b: Bus, device: nat, max: nat)
    requires WellIndexed(b)
  {
    max != 0 && !b.closed && b.nextToken < MAX_U64 && !HasDevice(b, device) && AddressFor(b, max).Some?
  }

  function Add(b: Bus, device: nat, published: bool, max: nat): Bus
    requires WellIndexed(b)
  {
    if !Adds(b, device, max) then b
    else
      var address := AddressFor(b, max).value;
      Bus(b.nextToken + 1, b.taken + {address}, b.devices + [Entry(|b.lifecycles|, published)], b.closed,
          b.lifecycles + [Lifecycle(device, address, b.nextToken + 1, true, false, false, {}, false, 0)])
  }

  function SnapshotOf(b: Bus, i: nat): Snapshot
    requires i < |b.lifecycles|
  {
    Snapshot(i, b.lifecycles[i].device, b.lifecycles[i].address, b.lifecycles[i].token)
  }

  /** The snapshot still names an incarnation of this bus, unmodified. */
  predicate Recognizes(b: Bus, s: Snapshot) {
    s.token != 0 && s.lifecycle < |b.lifecycles| && s == SnapshotOf(b, s.lifecycle)
  }

  predicate Live(l: Lifecycle) { l.active && !l.removing }

  predicate Authenticates(b: Bus, s: Snapshot) { Recognizes(b, s) && Live(b.lifecycles[s.lifecycle]) }

  function SetLifecycle(b: Bus, i: nat, l: Lifecycle): Bus
    requires i < |b.lifecycles|
  {
    b.(lifecycles := b.lifecycles[i := l])
  }

  function FindEntry(devices: seq<Entry>, i: nat, from: nat): (k: nat)
    requires from <= |devices|
    ensures from <= k <= |devices|
    ensures k < |devices| ==> devices[k].lifecycle == i
    ensures forall j :: from <= j < k ==> devices[j].lifecycle != i
    decreases |devices| - from
  {
    if from == |devices| || devices[from].lifecycle == i then from else FindEntry(devices, i, from + 1)
  }

  /** Cancels and delists exactly the marked incarnation and frees its address. */
  function Delist(b: Bus, i: nat): Bus
    requires i < |b.lifecycles|
  {
    var k := FindEntry(b.devices, i, 0);
    if k == |b.devices| then b
    else
      var l := b.lifecycles[i];
      b.(taken := b.taken - {l.address}, devices := b.devices[..k] + b.devices[k + 1..],
         lifecycles := b.lifecycles[i := l.(active := false, cancelled := true)])
  }

  function Publish(b: Bus, s: Snapshot): Bus {
    if b.closed || !Authenticates(b, s) then b
    else
      var k := FindEntry(b.devices, s.lifecycle, 0);
      if k == |b.devices| then b else b.(devices := b.devices[k := b.devices[k].(published := true)])
  }

  // ---------------------------------------------------------------- threads

  datatype AcquirePc =
    | Checked(snapshot: Snapshot)       // authenticated once, fence not taken
    | Fenced(snapshot: Snapshot)        // fence taken, not revalidated
    | Holding(lifecycle: nat)           // lease returned to the caller

  datatype RemovePc = Marked | WriteLocked | Delisted | Unlocked | Done

  datatype Remover = Remover(lifecycle: nat, pc: RemovePc)

  /** `closing` holds the incarnations that were listed when the bus was closed. */
  datatype World = World(bus: Bus, acquirers: map<nat, AcquirePc>, removers: seq<Remover>, closing: set<nat>)

  const NEW_WORLD := World(NEW_BUS, map[], [], {})

  function ListedSet(b: Bus): set<nat> { set k | 0 <= k < |b.devices| :: b.devices[k].lifecycle }

  datatype Action =
    | AddDevice(device: nat, published: bool, max: nat)
    | PublishDevice(provisional: Snapshot)
    | BeginAcquire(thread: nat, snapshot: Snapshot)
    | AcquireStep(stepper: nat)
    | Release(holder: nat)
    | RemoveByDevice(victim: nat)
    | RemoveRegistration(stale: Snapshot)
    | RemoverStep(remover: nat)
    | CloseBus
    | FinishClose

  function Mark(w: World, i: nat): World
    requires i < |w.bus.lifecycles|
  {
    w.(bus := SetLifecycle(w.bus, i, w.bus.lifecycles[i].(removing := true)), removers := w.removers + [Remover(i, Marked)])
  }

  /** Marks every one of the first n entries that no remover has marked yet. */
  function MarkAll(w: World, n: nat): (w': World)
    requires WellIndexed(w.bus) && n <= |w.bus.devices|
    ensures w'.bus.devices == w.bus.devices && |w'.bus.lifecycles| == |w.bus.lifecycles|
  {
    if n == 0 then w
    else
      var before := MarkAll(w, n - 1);
      var i := w.bus.devices[n - 1].lifecycle;
      if before.bus.lifecycles[i].removing then before else Mark(before, i)
  }

  function FindDevice(b: Bus, device: nat, from: nat): (k: nat)
    requires WellIndexed(b) && from <= |b.devices|
    ensures from <= k <= |b.devices|
    ensures k < |b.devices| ==> DeviceAt(b, k).device == device
    ensures forall j :: from <= j < k ==> DeviceAt(b, j).device != device
    decreases |b.devices| - from
  {
    if from == |b.devices| || DeviceAt(b, from).device == device then from else FindDevice(b, device, from + 1)
  }

  function StepAcquire(w: World, t: nat): World
    requires t in w.acquirers
  {
    match w.acquirers[t]
    case Checked(s) =>
      if s.lifecycle >= |w.bus.lifecycles| || w.bus.lifecycles[s.lifecycle].writer then w
      else
        var l := w.bus.lifecycles[s.lifecycle];
        w.(bus := SetLifecycle(w.bus, s.lifecycle, l.(readers := l.readers + {t})),
           acquirers := w.acquirers[t := Fenced(s)])
    case Fenced(s) =>
      if !w.bus.closed && Authenticates(w.bus, s) then w.(acquirers := w.acquirers[t := Holding(s.lifecycle)])
      else DropFence(w, t, s.lifecycle)
    case Holding(_) => w
  }

  function DropFence(w: World, t: nat, i: nat): World {
    if i >= |w.bus.lifecycles| then w
    else
      var l := w.bus.lifecycles[i];
      w.(bus := SetLifecycle(w.bus, i, l.(readers := l.readers - {t})), acquirers := w.acquirers - {t})
  }

  function StepRemover(w: World, k: nat): World
    requires k < |w.removers|
  {
    var i := w.removers[k].lifecycle;
    if i >= |w.bus.lifecycles| then w
    else
      var l := w.bus.lifecycles[i];
      var next := pc => w.removers[k := Remover(i, pc)];
      match w.removers[k].pc
      case Marked =>
        if l.writer || l.readers != {} then w
        else w.(bus := SetLifecycle(w.bus, i, l.(writer := true)), removers := next(WriteLocked))
      case WriteLocked => w.(bus := Delist(w.bus, i), removers := next(Delisted))
      case Delisted => w.(bus := SetLifecycle(w.bus, i, l.(writer := false)), removers := next(Unlocked))
      case Unlocked => w.(bus := SetLifecycle(w.bus, i, l.(signals := l.signals + 1)), removers := next(Done))
      case Done => w
  }

  function Step(w: World, a: Action): (w': World)
    requires WellIndexed(w.bus)
    ensures WellIndexed(w'.bus)
  {
    var b := w.bus;
    match a
    case AddDevice(device, published, max) => w.(bus := Add(b, device, published, max))
    case PublishDevice(s) => w.(bus := Publish(b, s))
    case BeginAcquire(t, s) =>
      if t in w.acquirers || b.closed || !Authenticates(b, s) then w
      else w.(acquirers := w.acquirers[t := Checked(s)])
    case AcquireStep(t) => if t in w.acquirers then StepAcquire(w, t) else w
    case Release(t) =>
      if t in w.acquirers && w.acquirers[t].Holding? then DropFence(w, t, w.acquirers[t].lifecycle) else w
    case RemoveByDevice(device) =>
      var k := FindDevice(b, device, 0);
      if k < |b.devices| && Live(DeviceAt(b, k)) then Mark(w, b.devices[k].lifecycle) else w
    case RemoveRegistration(s) =>
      if Authenticates(b, s) && FindEntry(b.devices, s.lifecycle, 0) < |b.devices| then Mark(w, s.lifecycle) else w
    case RemoverStep(k) => if k < |w.removers| then StepRemover(w, k) else w
    case CloseBus =>
      if b.closed then w
      else var m := MarkAll(w, |b.devices|); m.(bus := m.bus.(closed := true), closing := ListedSet(b))
    case FinishClose =>
      if b.closed && (forall k :: 0 <= k < |w.removers| && w.removers[k].lifecycle in w.closing ==> w.removers[k].pc.Done?)
      then w.(bus := b.(taken := {})) else w
  }

  function Run(actions: seq<Action>): (w: World)
    ensures WellIndexed(w.bus)
  {
    if actions == [] then NEW_WORLD else Step(Run(actions[..|actions| - 1]), actions[|actions| - 1])
  }
}
