/** Operation leases fence removal; every incarnation is removed once; addresses and devices stay unique. */
module VirtualBusProofs {
  import opened VirtualBus

  // ---------------------------------------------------------------- invariant

  predicate LifecycleOk(l: Lifecycle) {
    && (l.cancelled <==> !l.active) && (!l.active ==> l.removing)
    && (l.writer ==> l.removing && l.readers == {})
    && 0 < l.token && 0 < l.address
    && l.signals <= 1 && (l.signals == 1 ==> !l.active && !l.writer)
  }

  predicate LifecyclesOk(b: Bus) {
    && (forall i :: 0 <= i < |b.lifecycles| ==> LifecycleOk(b.lifecycles[i]) && b.lifecycles[i].token <= b.nextToken)
    && (forall i, j :: 0 <= i < j < |b.lifecycles| ==> b.lifecycles[i].token < b.lifecycles[j].token)
  }

  predicate IsListed(b: Bus, i: nat) { exists k :: 0 <= k < |b.devices| && b.devices[k].lifecycle == i }

  /** The list holds exactly the active incarnations, and no device or address twice. */
  predicate EntriesOk(b: Bus) {
    && WellIndexed(b)
    && (forall k :: 0 <= k < |b.devices| ==> DeviceAt(b, k).active)
    && Distinct(b) && Complete(b)
  }

  predicate Distinct(b: Bus)
    requires WellIndexed(b)
  {
    forall j, k :: 0 <= j < k < |b.devices| ==>
      DeviceAt(b, j).device != DeviceAt(b, k).device && DeviceAt(b, j).address != DeviceAt(b, k).address
  }

  predicate Complete(b: Bus) {
    forall i :: 0 <= i < |b.lifecycles| && b.lifecycles[i].active ==> IsListed(b, i)
  }

  predicate UsesAddress(b: Bus, a: nat)
    requires WellIndexed(b)
  {
    exists k :: 0 <= k < |b.devices| && DeviceAt(b, k).address == a
  }

  /** The taken addresses are exactly those of the listed devices. */
  predicate AddressesOk(b: Bus)
    requires WellIndexed(b)
  {
    && (forall k :: 0 <= k < |b.devices| ==> DeviceAt(b, k).address in b.taken)
    && (forall a :: a in b.taken ==> UsesAddress(b, a))
  }

  predicate ClosedOk(b: Bus)
    requires WellIndexed(b)
  {
    b.closed ==> forall k :: 0 <= k < |b.devices| ==> DeviceAt(b, k).removing
  }

  predicate BusOk(b: Bus) { LifecyclesOk(b) && EntriesOk(b) && AddressesOk(b) && ClosedOk(b) }

  predicate AcquirerOk(b: Bus, t: nat, pc: AcquirePc) {
    match pc
    case Checked(s) => s.lifecycle < |b.lifecycles|
    case Fenced(s) => s.lifecycle < |b.lifecycles| && t in b.lifecycles[s.lifecycle].readers
    case Holding(i) => i < |b.lifecycles| && t in b.lifecycles[i].readers && b.lifecycles[i].active
  }

  predicate Fences(pc: AcquirePc, i: nat) {
    (pc.Fenced? && pc.snapshot.lifecycle == i) || (pc.Holding? && pc.lifecycle == i)
  }

  /** Fences are held by exactly the threads that say so. */
  predicate AcquirersOk(w: World) {
    && (forall t :: t in w.acquirers ==> AcquirerOk(w.bus, t, w.acquirers[t]))
    && (forall i, t :: 0 <= i < |w.bus.lifecycles| && t in w.bus.lifecycles[i].readers ==>
          t in w.acquirers && Fences(w.acquirers[t], i))
  }

  predicate RemoverOk(b: Bus, r: Remover) {
    r.lifecycle < |b.lifecycles| &&
    var l := b.lifecycles[r.lifecycle];
    l.removing &&
    match r.pc
    case Marked => l.active && !l.writer && l.signals == 0
    case WriteLocked => l.active && l.writer && l.signals == 0
    case Delisted => !l.active && l.writer && l.signals == 0
    case Unlocked => !l.active && !l.writer && l.signals == 0
    case Done => !l.active && !l.writer && l.signals == 1
  }

  predicate HasRemover(removers: seq<Remover>, i: nat) {
    exists k :: 0 <= k < |removers| && removers[k].lifecycle == i
  }

  /** Every marked incarnation has exactly one remover. */
  predicate RemoversOk(w: World) {
    && (forall k :: 0 <= k < |w.removers| ==> RemoverOk(w.bus, w.removers[k]))
    && (forall j, k :: 0 <= j < k < |w.removers| ==> w.removers[j].lifecycle != w.removers[k].lifecycle)
    && (forall i :: 0 <= i < |w.bus.lifecycles| && w.bus.lifecycles[i].removing ==> HasRemover(w.removers, i))
  }

  /** Nothing is listed on a closed bus that was not listed when it was closed. */
  predicate ClosingOk(b: Bus, closing: set<nat>) {
    b.closed ==> forall k :: 0 <= k < |b.devices| ==> b.devices[k].lifecycle in closing
  }

  predicate Inv(w: World) { BusOk(w.bus) && AcquirersOk(w) && RemoversOk(w) && ClosingOk(w.bus, w.closing) }

  // ---------------------------------------------------------------- updates of one incarnation

  /** An update that keeps an incarnation's identity and activity, and does not unmark it, keeps the bus. */
  lemma LocalKeeps(b: Bus, i: nat, l: Lifecycle)
    requires BusOk(b) && i < |b.lifecycles| && LifecycleOk(l)
    requires var was := b.lifecycles[i];
             l.device == was.device && l.address == was.address && l.token == was.token && l.active == was.active &&
             (was.removing ==> l.removing)
    ensures BusOk(SetLifecycle(b, i, l))
  {
    var b' := SetLifecycle(b, i, l);
    forall k | 0 <= k < |b.devices|
      ensures DeviceAt(b', k).device == DeviceAt(b, k).device && DeviceAt(b', k).address == DeviceAt(b, k).address
      ensures DeviceAt(b', k).active == DeviceAt(b, k).active && (DeviceAt(b, k).removing ==> DeviceAt(b', k).removing)
    {
    }
    forall a | a in b.taken ensures UsesAddress(b', a) {
      assert UsesAddress(b, a);
      var k :| 0 <= k < |b.devices| && DeviceAt(b, k).address == a;
      assert DeviceAt(b', k).address == a;
    }
    forall j | 0 <= j < |b'.lifecycles| && b'.lifecycles[j].active ensures IsListed(b', j) {
      assert IsListed(b, j);
    }
  }

  lemma MarkKeeps(w: World, i: nat)
    requires Inv(w) && i < |w.bus.lifecycles| && Live(w.bus.lifecycles[i])
    ensures Inv(Mark(w, i))
  {
    var w' := Mark(w, i);
    assert LifecycleOk(w.bus.lifecycles[i]);
    LocalKeeps(w.bus, i, w'.bus.lifecycles[i]);
    assert AcquirersOk(w') by {
      hide BusOk, RemoversOk;
      forall t | t in w'.acquirers ensures AcquirerOk(w'.bus, t, w'.acquirers[t]) {
        assert AcquirerOk(w.bus, t, w.acquirers[t]);
      }
    }
    MarkRemovers(w, i);
  }

  lemma MarkRemovers(w: World, i: nat)
    requires RemoversOk(w) && LifecyclesOk(w.bus) && i < |w.bus.lifecycles| && Live(w.bus.lifecycles[i])
    ensures RemoversOk(Mark(w, i))
  {
    var w' := Mark(w, i);
    assert LifecycleOk(w.bus.lifecycles[i]);
    forall k | 0 <= k < |w'.removers|
      ensures RemoverOk(w'.bus, w'.removers[k])
      ensures k < |w.removers| ==> w'.removers[k].lifecycle != i
    {
      if k < |w.removers| { assert RemoverOk(w.bus, w.removers[k]); }
    }
    forall j | 0 <= j < |w'.bus.lifecycles| && w'.bus.lifecycles[j].removing ensures HasRemover(w'.removers, j) {
      if j == i {
        assert w'.removers[|w.removers|].lifecycle == i;
      } else {
        assert HasRemover(w.removers, j);
        var k :| 0 <= k < |w.removers| && w.removers[k].lifecycle == j;
        assert w'.removers[k].lifecycle == j;
      }
    }
  }

  lemma {:induction false} MarkAllKeeps(w: World, n: nat)
    requires Inv(w) && n <= |w.bus.devices|
    ensures Inv(MarkAll(w, n))
    ensures forall k :: 0 <= k < n ==> DeviceAt(MarkAll(w, n).bus, k).removing
  {
    if n > 0 {
      MarkAllKeeps(w, n - 1);
      MarkOneMore(w, MarkAll(w, n - 1), n);
    }
  }

  lemma MarkOneMore(w: World, before: World, n: nat)
    requires Inv(w) && Inv(before) && 0 < n <= |w.bus.devices| && before == MarkAll(w, n - 1)
    requires forall k :: 0 <= k < n - 1 ==> DeviceAt(before.bus, k).removing
    ensures Inv(MarkAll(w, n))
    ensures forall k :: 0 <= k < n ==> DeviceAt(MarkAll(w, n).bus, k).removing
  {
    hide LifecyclesOk, AddressesOk, AcquirersOk, RemoversOk, Distinct, Complete;
    var i := w.bus.devices[n - 1].lifecycle;
    assert DeviceAt(before.bus, n - 1).active;
    if !before.bus.lifecycles[i].removing {
      MarkKeeps(before, i);
      hide Inv;
      MarkAdds(before, n - 1);
    }
  }

  lemma MarkAdds(w: World, n: nat)
    requires WellIndexed(w.bus) && n < |w.bus.devices|
    ensures var b := Mark(w, w.bus.devices[n].lifecycle).bus;
            WellIndexed(b) && DeviceAt(b, n).removing &&
            forall k :: 0 <= k < |b.devices| && DeviceAt(w.bus, k).removing ==> DeviceAt(b, k).removing
  {
  }

  // ---------------------------------------------------------------- threads

  /** Threads and removers look only at the incarnations, and are undisturbed by new ones. */
  lemma BusChangeKeeps(w: World, b: Bus)
    requires Inv(w) && BusOk(b) && ClosingOk(b, w.closing)
    requires |w.bus.lifecycles| <= |b.lifecycles| && b.lifecycles[..|w.bus.lifecycles|] == w.bus.lifecycles
    requires forall i :: |w.bus.lifecycles| <= i < |b.lifecycles| ==>
               !b.lifecycles[i].removing && b.lifecycles[i].readers == {}
    ensures Inv(w.(bus := b))
  {
    hide BusOk;
    var w' := w.(bus := b);
    forall i | 0 <= i < |w.bus.lifecycles| ensures b.lifecycles[i] == w.bus.lifecycles[i] {
      assert b.lifecycles[i] == b.lifecycles[..|w.bus.lifecycles|][i];
    }
    forall t | t in w'.acquirers ensures AcquirerOk(w'.bus, t, w'.acquirers[t]) {
      assert AcquirerOk(w.bus, t, w.acquirers[t]);
    }
    forall k | 0 <= k < |w'.removers| ensures RemoverOk(w'.bus, w'.removers[k]) {
      assert RemoverOk(w.bus, w.removers[k]);
    }
  }

  lemma AddKeeps(w: World, device: nat, published: bool, max: nat)
    requires Inv(w)
    ensures Inv(w.(bus := Add(w.bus, device, published, max)))
  {
    var b, b' := w.bus, Add(w.bus, device, published, max);
    if Adds(b, device, max) {
      AddBusKeeps(b, device, published, max);
      BusChangeKeeps(w, b');
    }
  }

  lemma AddBusKeeps(b: Bus, device: nat, published: bool, max: nat)
    requires BusOk(b) && Adds(b, device, max)
    ensures BusOk(Add(b, device, published, max))
  {
    var b' := Add(b, device, published, max);
    var n := |b.devices|;
    forall k | 0 <= k < n ensures DeviceAt(b', k) == DeviceAt(b, k) { }
    AddEntries(b, b', n);
    AddAddresses(b, b', n);
  }

  /** The list grew by one entry for one new incarnation. */
  predicate GrownFrom(b: Bus, b': Bus, n: nat)
    requires WellIndexed(b)
  {
    && WellIndexed(b') && |b.devices| == n && |b'.devices| == n + 1 && b'.devices[n].lifecycle == |b.lifecycles|
    && |b'.lifecycles| == |b.lifecycles| + 1 && b'.closed == b.closed && DeviceAt(b', n).active
    && (forall i :: 0 <= i < |b.lifecycles| ==> b'.lifecycles[i] == b.lifecycles[i])
    && (forall k :: 0 <= k < n ==> b'.devices[k] == b.devices[k] && DeviceAt(b', k) == DeviceAt(b, k))
  }

  lemma AddEntries(b: Bus, b': Bus, n: nat)
    requires EntriesOk(b) && AddressesOk(b) && GrownFrom(b, b', n)
    requires !HasDevice(b, DeviceAt(b', n).device) && DeviceAt(b', n).address !in b.taken
    ensures EntriesOk(b')
  {
    assert Distinct(b') by {
      hide Complete;
      forall k | 0 <= k < n
        ensures DeviceAt(b', k).device != DeviceAt(b', n).device && DeviceAt(b', k).address != DeviceAt(b', n).address
      {
        assert DeviceAt(b, k).address in b.taken;
      }
    }
    assert Complete(b') by {
      hide Distinct, AddressesOk, HasDevice;
      forall i | 0 <= i < |b'.lifecycles| && b'.lifecycles[i].active ensures IsListed(b', i) {
        if i == |b.lifecycles| { assert b'.devices[n].lifecycle == i; }
        else {
          assert IsListed(b, i);
          var k :| 0 <= k < |b.devices| && b.devices[k].lifecycle == i;
          assert b'.devices[k].lifecycle == i;
        }
      }
    }
    hide Distinct, Complete;
  }

  lemma AddAddresses(b: Bus, b': Bus, n: nat)
    requires WellIndexed(b) && AddressesOk(b) && GrownFrom(b, b', n) && b'.taken == b.taken + {DeviceAt(b', n).address}
    ensures AddressesOk(b')
  {
    forall a | a in b'.taken ensures UsesAddress(b', a) {
      if a in b.taken {
        assert UsesAddress(b, a);
        var k :| 0 <= k < |b.devices| && DeviceAt(b, k).address == a;
        assert DeviceAt(b', k).address == a;
      } else {
        assert DeviceAt(b', n).address == a;
      }
    }
  }

  /** Publication and closure relabel the entries but not which incarnations they list. */
  lemma RelabelKeeps(b: Bus, b': Bus)
    requires BusOk(b) && b'.lifecycles == b.lifecycles && b'.taken == b.taken && b'.nextToken == b.nextToken
    requires |b'.devices| == |b.devices| && forall k :: 0 <= k < |b.devices| ==> b'.devices[k].lifecycle == b.devices[k].lifecycle
    requires b'.closed ==> forall k :: 0 <= k < |b.devices| ==> DeviceAt(b, k).removing
    ensures BusOk(b')
  {
    forall k | 0 <= k < |b.devices| ensures DeviceAt(b', k) == DeviceAt(b, k) { }
    assert AddressesOk(b') by {
      hide Distinct, Complete, LifecyclesOk;
      forall a | a in b'.taken ensures UsesAddress(b', a) {
        assert UsesAddress(b, a);
        var k :| 0 <= k < |b.devices| && DeviceAt(b, k).address == a;
        assert DeviceAt(b', k).address == a;
      }
    }
    assert Complete(b') by {
      hide Distinct, AddressesOk, LifecyclesOk;
      forall i | 0 <= i < |b'.lifecycles| && b'.lifecycles[i].active ensures IsListed(b', i) {
        assert IsListed(b, i);
        var k :| 0 <= k < |b.devices| && b.devices[k].lifecycle == i;
        assert b'.devices[k].lifecycle == i;
      }
    }
    hide Complete, AddressesOk;
  }

  lemma PublishKeeps(w: World, s: Snapshot)
    requires Inv(w)
    ensures Inv(w.(bus := Publish(w.bus, s)))
  {
    RelabelKeeps(w.bus, Publish(w.bus, s));
    BusChangeKeeps(w, Publish(w.bus, s));
  }

  /** Thread facts survive an update of one incarnation that only changes who holds its fence. */
  lemma FenceRemovers(w: World, i: nat, readers: set<nat>)
    requires RemoversOk(w) && i < |w.bus.lifecycles|
    ensures RemoversOk(w.(bus := SetLifecycle(w.bus, i, w.bus.lifecycles[i].(readers := readers))))
  {
    var w' := w.(bus := SetLifecycle(w.bus, i, w.bus.lifecycles[i].(readers := readers)));
    forall k | 0 <= k < |w'.removers| ensures RemoverOk(w'.bus, w'.removers[k]) {
      assert RemoverOk(w.bus, w.removers[k]);
    }
  }

  lemma FenceKeeps(w: World, t: nat)
    requires Inv(w) && t in w.acquirers && w.acquirers[t].Checked?
    ensures Inv(StepAcquire(w, t))
  {
    var w' := StepAcquire(w, t);
    if w' != w {
      var i := w.acquirers[t].snapshot.lifecycle;
      var readers := w.bus.lifecycles[i].readers + {t};
      assert LifecycleOk(w.bus.lifecycles[i]);
      LocalKeeps(w.bus, i, w.bus.lifecycles[i].(readers := readers));
      FenceRemovers(w, i, readers);
      assert RemoversOk(w');
      hide BusOk, RemoversOk;
      forall u | u in w'.acquirers ensures AcquirerOk(w'.bus, u, w'.acquirers[u]) {
        assert u != t ==> AcquirerOk(w.bus, u, w.acquirers[u]);
      }
    }
  }

  lemma DropKeeps(w: World, t: nat, i: nat)
    requires Inv(w) && t in w.acquirers && Fences(w.acquirers[t], i)
    ensures Inv(DropFence(w, t, i))
  {
    hide AcquirersOk, EntriesOk, AddressesOk, ClosedOk, LifecyclesOk;
    var w' := DropFence(w, t, i);
    FencedIsOk(w, t, i);
    var readers := w.bus.lifecycles[i].readers - {t};
    LocalKeeps(w.bus, i, w.bus.lifecycles[i].(readers := readers));
    FenceRemovers(w, i, readers);
    assert RemoversOk(w');
    DropAcquirers(w, t, i);
  }

  lemma FencedIsOk(w: World, t: nat, i: nat)
    requires Inv(w) && t in w.acquirers && Fences(w.acquirers[t], i)
    ensures i < |w.bus.lifecycles| && LifecycleOk(w.bus.lifecycles[i])
  {
    hide EntriesOk, AddressesOk, ClosedOk, RemoversOk;
    assert AcquirerOk(w.bus, t, w.acquirers[t]);
  }

  lemma DropAcquirers(w: World, t: nat, i: nat)
    requires AcquirersOk(w) && t in w.acquirers && Fences(w.acquirers[t], i)
    ensures AcquirersOk(DropFence(w, t, i))
  {
    var w' := DropFence(w, t, i);
    assert AcquirerOk(w.bus, t, w.acquirers[t]);
    forall u | u in w'.acquirers ensures AcquirerOk(w'.bus, u, w'.acquirers[u]) {
      assert AcquirerOk(w.bus, u, w.acquirers[u]);
    }
  }

  lemma AcquireKeeps(w: World, t: nat)
    requires Inv(w) && t in w.acquirers
    ensures Inv(StepAcquire(w, t))
  {
    match w.acquirers[t]
    case Checked(_) => FenceKeeps(w, t);
    case Fenced(s) =>
      if !w.bus.closed && Authenticates(w.bus, s) {
        var w' := StepAcquire(w, t);
        assert AcquirerOk(w.bus, t, w.acquirers[t]);
        assert RemoversOk(w');
        hide BusOk, RemoversOk;
        forall u | u in w'.acquirers ensures AcquirerOk(w'.bus, u, w'.acquirers[u]) {
          assert u != t ==> AcquirerOk(w.bus, u, w.acquirers[u]);
        }
      } else {
        DropKeeps(w, t, s.lifecycle);
      }
    case Holding(_) =>
  }

  // ---------------------------------------------------------------- removal

  /** A step of the only remover of an incarnation: its own facts change, everyone else's stay. */
  lemma MoveKeeps(w: World, k: nat, b: Bus, pc: RemovePc)
    requires Inv(w) && k < |w.removers| && BusOk(b) && |b.lifecycles| == |w.bus.lifecycles| && ClosingOk(b, w.closing)
    requires var i := w.removers[k].lifecycle;
             && (forall j :: 0 <= j < |b.lifecycles| && j != i ==> b.lifecycles[j] == w.bus.lifecycles[j])
             && RemoverOk(b, Remover(i, pc))
             && b.lifecycles[i].readers == w.bus.lifecycles[i].readers
             && (b.lifecycles[i].active == w.bus.lifecycles[i].active || b.lifecycles[i].readers == {})
    ensures Inv(w.(bus := b, removers := w.removers[k := Remover(w.removers[k].lifecycle, pc)]))
  {
    hide BusOk;
    var i := w.removers[k].lifecycle;
    var w' := w.(bus := b, removers := w.removers[k := Remover(i, pc)]);
    forall t | t in w'.acquirers ensures AcquirerOk(w'.bus, t, w'.acquirers[t]) {
      assert AcquirerOk(w.bus, t, w.acquirers[t]);
    }
    assert RemoverOk(w.bus, w.removers[k]);
    forall m | 0 <= m < |w'.removers|
      ensures w'.removers[m].lifecycle == w.removers[m].lifecycle && RemoverOk(w'.bus, w'.removers[m])
    {
      if m != k { assert RemoverOk(w.bus, w.removers[m]); }
    }
    forall j | 0 <= j < |w'.bus.lifecycles| && w'.bus.lifecycles[j].removing ensures HasRemover(w'.removers, j) {
      assert HasRemover(w.removers, j);
      var m :| 0 <= m < |w.removers| && w.removers[m].lifecycle == j;
      assert w'.removers[m].lifecycle == j;
    }
  }

  /** Delisting takes out exactly one entry and frees exactly its address. */
  lemma DelistKeeps(b: Bus, i: nat)
    requires BusOk(b) && i < |b.lifecycles| && b.lifecycles[i].active && b.lifecycles[i].removing && b.lifecycles[i].signals == 0
    ensures BusOk(Delist(b, i)) && !Delist(b, i).lifecycles[i].active
    ensures !IsListed(Delist(b, i), i) && b.lifecycles[i].address !in Delist(b, i).taken
  {
    assert IsListed(b, i) && LifecycleOk(b.lifecycles[i]);
    var k, b' := FindEntry(b.devices, i, 0), Delist(b, i);
    forall m | 0 <= m < |b'.devices|
      ensures b'.devices[m] == b.devices[if m < k then m else m + 1] && b'.devices[m].lifecycle != i
    {
      assert m >= k ==> DeviceAt(b, k).device != DeviceAt(b, m + 1).device;
    }
    DelistEntries(b, b', i, k);
    DelistAddresses(b, b', i, k);
  }

  predicate ShiftedFrom(b: Bus, b': Bus, i: nat, k: nat) {
    && k < |b.devices| == |b'.devices| + 1 && i < |b.lifecycles|
    && b'.lifecycles == b.lifecycles[i := b.lifecycles[i].(active := false, cancelled := true)]
    && b'.taken == b.taken - {b.lifecycles[i].address} && b'.closed == b.closed && b'.nextToken == b.nextToken
    && b.devices[k].lifecycle == i
    && (forall m :: 0 <= m < |b'.devices| ==>
          b'.devices[m] == b.devices[if m < k then m else m + 1] && b'.devices[m].lifecycle != i)
  }

  lemma DelistEntries(b: Bus, b': Bus, i: nat, k: nat)
    requires EntriesOk(b) && ClosedOk(b) && ShiftedFrom(b, b', i, k)
    ensures EntriesOk(b') && ClosedOk(b')
    ensures forall m :: 0 <= m < |b'.devices| ==> DeviceAt(b', m) == DeviceAt(b, if m < k then m else m + 1)
  {
    forall m | 0 <= m < |b'.devices|
      ensures b'.devices[m].lifecycle < |b'.lifecycles| &&
              b'.lifecycles[b'.devices[m].lifecycle] == DeviceAt(b, if m < k then m else m + 1)
    {
    }
    forall j | 0 <= j < |b'.lifecycles| && b'.lifecycles[j].active ensures IsListed(b', j) {
      assert IsListed(b, j);
      var m :| 0 <= m < |b.devices| && b.devices[m].lifecycle == j;
      assert b'.devices[if m < k then m else m - 1].lifecycle == j;
    }
  }

  lemma DelistAddresses(b: Bus, b': Bus, i: nat, k: nat)
    requires EntriesOk(b) && AddressesOk(b) && ShiftedFrom(b, b', i, k) && WellIndexed(b')
    requires forall m :: 0 <= m < |b'.devices| ==> DeviceAt(b', m) == DeviceAt(b, if m < k then m else m + 1)
    ensures AddressesOk(b')
  {
    assert DeviceAt(b, k).address == b.lifecycles[i].address;
    forall m | 0 <= m < |b'.devices| ensures DeviceAt(b', m).address in b'.taken {
      var n := if m < k then m else m + 1;
      assert DeviceAt(b, n).address in b.taken && DeviceAt(b, n).address != DeviceAt(b, k).address;
    }
    forall a | a in b'.taken ensures UsesAddress(b', a) {
      assert UsesAddress(b, a);
      var n :| 0 <= n < |b.devices| && DeviceAt(b, n).address == a;
      assert DeviceAt(b', if n < k then n else n - 1).address == a;
    }
  }

  lemma RemoverKeeps(w: World, k: nat)
    requires Inv(w) && k < |w.removers|
    ensures Inv(StepRemover(w, k))
  {
    var i := w.removers[k].lifecycle;
    assert RemoverOk(w.bus, w.removers[k]) && LifecycleOk(w.bus.lifecycles[i]);
    var w' := StepRemover(w, k);
    if w' != w {
      if w.removers[k].pc.WriteLocked? { DelistKeeps(w.bus, i); } else { LocalKeeps(w.bus, i, w'.bus.lifecycles[i]); }
      MoveKeeps(w, k, w'.bus, w'.removers[k].pc);
    }
  }

  /** A listed incarnation that is marked still has work for its remover. */
  lemma PendingRemover(w: World, n: nat)
    requires Inv(w) && n < |w.bus.devices| && DeviceAt(w.bus, n).removing
    ensures exists k :: 0 <= k < |w.removers| && w.removers[k].lifecycle == w.bus.devices[n].lifecycle && !w.removers[k].pc.Done?
  {
    var i := w.bus.devices[n].lifecycle;
    assert DeviceAt(w.bus, n).active;
    assert HasRemover(w.removers, i);
    var k :| 0 <= k < |w.removers| && w.removers[k].lifecycle == i;
    assert RemoverOk(w.bus, w.removers[k]);
  }

  lemma FinishKeeps(w: World)
    requires Inv(w)
    ensures Inv(Step(w, FinishClose))
  {
    if w.bus.closed && |w.bus.devices| > 0 {
      assert DeviceAt(w.bus, 0).removing;
      PendingRemover(w, 0);
    }
    BusChangeKeeps(w, Step(w, FinishClose).bus);
  }

  lemma CloseKeeps(w: World)
    requires Inv(w)
    ensures Inv(Step(w, CloseBus))
  {
    if !w.bus.closed {
      MarkAllKeeps(w, |w.bus.devices|);
      var m := MarkAll(w, |w.bus.devices|);
      var b := m.bus.(closed := true);
      RelabelKeeps(m.bus, b);
      BusChangeKeeps(m.(closing := ListedSet(w.bus)), b);
    }
  }

  lemma BeginAcquireKeeps(w: World, t: nat, s: Snapshot)
    requires Inv(w)
    ensures Inv(Step(w, BeginAcquire(t, s)))
  {
    var w' := Step(w, BeginAcquire(t, s));
    assert RemoversOk(w');
    hide BusOk, RemoversOk;
    forall u | u in w'.acquirers ensures AcquirerOk(w'.bus, u, w'.acquirers[u]) {
      assert u != t ==> u in w.acquirers && AcquirerOk(w.bus, u, w.acquirers[u]);
    }
  }

  lemma StepKeeps(w: World, a: Action)
    requires Inv(w)
    ensures Inv(Step(w, a))
  {
    hide LifecyclesOk, AddressesOk, AcquirersOk, RemoversOk, StepAcquire, StepRemover, Mark, MarkAll;
    match a
    case AddDevice(device, published, max) => AddKeeps(w, device, published, max);
    case PublishDevice(s) => PublishKeeps(w, s);
    case BeginAcquire(t, s) => BeginAcquireKeeps(w, t, s);
    case AcquireStep(t) => if t in w.acquirers { AcquireKeeps(w, t); }
    case Release(t) =>
      if t in w.acquirers && w.acquirers[t].Holding? { DropKeeps(w, t, w.acquirers[t].lifecycle); }
    case RemoveByDevice(device) =>
      var k := FindDevice(w.bus, device, 0);
      if k < |w.bus.devices| && Live(DeviceAt(w.bus, k)) { MarkKeeps(w, w.bus.devices[k].lifecycle); }
    case RemoveRegistration(s) => if Authenticates(w.bus, s) { MarkKeeps(w, s.lifecycle); }
    case RemoverStep(k) => if k < |w.removers| { RemoverKeeps(w, k); }
    case CloseBus => CloseKeeps(w);
    case FinishClose => FinishKeeps(w);
  }

  lemma {:induction false} RunKeeps(actions: seq<Action>)
    ensures Inv(Run(actions))
  {
    hide Step;
    if actions != [] {
      RunKeeps(actions[..|actions| - 1]);
      StepKeeps(Run(actions[..|actions| - 1]), actions[|actions| - 1]);
    }
  }

  // ---------------------------------------------------------------- main results

  /** While a lease is held, its exact incarnation is listed, active and uncancelled, and owns its address. */
  lemma LeaseFencesRemoval(actions: seq<Action>, t: nat)
    requires t in Run(actions).acquirers && Run(actions).acquirers[t].Holding?
    ensures var b, i := Run(actions).bus, Run(actions).acquirers[t].lifecycle;
            i < |b.lifecycles| && IsListed(b, i) && b.lifecycles[i].active && !b.lifecycles[i].cancelled &&
            b.lifecycles[i].address in b.taken
  {
    RunKeeps(actions);
    var b, i := Run(actions).bus, Run(actions).acquirers[t].lifecycle;
    assert AcquirerOk(b, t, Run(actions).acquirers[t]) && LifecycleOk(b.lifecycles[i]);
    assert IsListed(b, i);
    var k :| 0 <= k < |b.devices| && b.devices[k].lifecycle == i;
    assert DeviceAt(b, k).address in b.taken;
  }

  /** No incarnation has two removers, and its completion is signalled once, exactly when its remover is done. */
  lemma RemovedOnceSignalledOnce(actions: seq<Action>, j: nat, k: nat)
    requires j < |Run(actions).removers| && k < |Run(actions).removers|
    ensures var w := Run(actions);
            && (w.removers[j].lifecycle == w.removers[k].lifecycle <==> j == k)
            && w.removers[k].lifecycle < |w.bus.lifecycles|
            && w.bus.lifecycles[w.removers[k].lifecycle].signals == if w.removers[k].pc.Done? then 1 else 0
  {
    RunKeeps(actions);
    assert RemoverOk(Run(actions).bus, Run(actions).removers[k]);
  }

  /** Left alone, an operation on a live registration of an open bus gets its lease, and gives it back. */
  lemma LiveRegistrationsAreAcquirable(actions: seq<Action>, t: nat, s: Snapshot)
    requires var w := Run(actions); t !in w.acquirers && !w.bus.closed && Authenticates(w.bus, s)
    ensures var w := Run(actions);
            var held := Step(Step(Step(w, BeginAcquire(t, s)), AcquireStep(t)), AcquireStep(t));
            && t in held.acquirers && held.acquirers[t] == Holding(s.lifecycle)
            && Step(held, Release(t)).bus.lifecycles[s.lifecycle] == w.bus.lifecycles[s.lifecycle]
  {
    hide Step, Run, EntriesOk, AddressesOk, ClosedOk, RemoversOk;
    RunKeeps(actions);
    var w := Run(actions);
    assert LifecycleOk(w.bus.lifecycles[s.lifecycle]);
    AcquireUndisturbed(w, t, s);
  }

  lemma AcquireUndisturbed(w: World, t: nat, s: Snapshot)
    requires WellIndexed(w.bus) && t !in w.acquirers && !w.bus.closed && Authenticates(w.bus, s)
    requires var l := w.bus.lifecycles[s.lifecycle]; !l.writer && t !in l.readers
    ensures var held := Step(Step(Step(w, BeginAcquire(t, s)), AcquireStep(t)), AcquireStep(t));
            && t in held.acquirers && held.acquirers[t] == Holding(s.lifecycle)
            && Step(held, Release(t)).bus.lifecycles[s.lifecycle] == w.bus.lifecycles[s.lifecycle]
  {
    var readers := w.bus.lifecycles[s.lifecycle].readers;
    assert readers + {t} - {t} == readers;
  }

  /** An incarnation that is unlisted, and only such a one, has been delisted by its own remover. */
  lemma DelistedByItsRemover(actions: seq<Action>, i: nat)
    requires i < |Run(actions).bus.lifecycles|
    ensures var w := Run(actions);
            IsListed(w.bus, i) <==>
            !exists k :: 0 <= k < |w.removers| && w.removers[k].lifecycle == i && !w.removers[k].pc.Marked? && !w.removers[k].pc.WriteLocked?
  {
    RunKeeps(actions);
    var w := Run(actions);
    if IsListed(w.bus, i) {
      var n :| 0 <= n < |w.bus.devices| && w.bus.devices[n].lifecycle == i;
      assert DeviceAt(w.bus, n).active;
      forall k | 0 <= k < |w.removers| && w.removers[k].lifecycle == i
        ensures w.removers[k].pc.Marked? || w.removers[k].pc.WriteLocked?
      {
        assert RemoverOk(w.bus, w.removers[k]);
      }
    } else {
      assert LifecycleOk(w.bus.lifecycles[i]) && HasRemover(w.removers, i);
      var k :| 0 <= k < |w.removers| && w.removers[k].lifecycle == i;
      assert RemoverOk(w.bus, w.removers[k]);
    }
  }

  /** A remover that cannot move is waiting for a thread that really holds the fence of its incarnation. */
  lemma RemovalWaitsOnlyForLeases(actions: seq<Action>, k: nat)
    requires k < |Run(actions).removers| && !Run(actions).removers[k].pc.Done?
    requires Step(Run(actions), RemoverStep(k)) == Run(actions)
    ensures var w := Run(actions);
            exists t :: t in w.acquirers && Fences(w.acquirers[t], w.removers[k].lifecycle)
  {
    RunKeeps(actions);
    var w := Run(actions);
    var i := w.removers[k].lifecycle;
    assert RemoverOk(w.bus, w.removers[k]);
    assert Step(w, RemoverStep(k)).removers[k] == w.removers[k];
    assert w.bus.lifecycles[i].readers != {};
    var t :| t in w.bus.lifecycles[i].readers;
    assert t in w.acquirers && Fences(w.acquirers[t], i);
  }

  /** A snapshot that authenticates names the one listed registration with its address and its device, so it can
      never stand for a successor that reuses either. */
  lemma AuthenticatedIsTheOnlyOne(actions: seq<Action>, s: Snapshot, k: nat)
    requires Authenticates(Run(actions).bus, s) && k < |Run(actions).bus.devices|
    ensures var b := Run(actions).bus;
            var l := DeviceAt(b, k);
            l.address == s.address || l.device == s.device || l.token == s.token <==> b.devices[k].lifecycle == s.lifecycle
  {
    RunKeeps(actions);
    var b := Run(actions).bus;
    assert IsListed(b, s.lifecycle);
    var n :| 0 <= n < |b.devices| && b.devices[n].lifecycle == s.lifecycle;
    assert DeviceAt(b, n).address == s.address && DeviceAt(b, n).device == s.device;
    assert n != k ==> DeviceAt(b, n).device != DeviceAt(b, k).device;
  }

  predicate Unlive(b: Bus, i: nat) { i < |b.lifecycles| && !Live(b.lifecycles[i]) }

  lemma StepKeepsUnlive(w: World, a: Action, i: nat)
    requires WellIndexed(w.bus) && Unlive(w.bus, i)
    ensures Unlive(Step(w, a).bus, i)
  {
    hide Unlive, Add, Publish, StepAcquire, StepRemover, DropFence, Mark, MarkAll, Authenticates, AddressFor;
    match a
    case AddDevice(device, published, max) => AddKeepsUnlive(w.bus, device, published, max, i);
    case PublishDevice(s) => PublishKeepsUnlive(w.bus, s, i);
    case BeginAcquire(_, _) =>
    case AcquireStep(t) => if t in w.acquirers { AcquireKeepsUnlive(w, t, i); }
    case Release(t) => if t in w.acquirers && w.acquirers[t].Holding? { DropKeepsUnlive(w, t, w.acquirers[t].lifecycle, i); }
    case RemoveByDevice(device) =>
      var k := FindDevice(w.bus, device, 0);
      if k < |w.bus.devices| { MarkKeepsUnlive(w, w.bus.devices[k].lifecycle, i); }
    case RemoveRegistration(s) => if s.lifecycle < |w.bus.lifecycles| { MarkKeepsUnlive(w, s.lifecycle, i); } else { NotAuthentic(w.bus, s); }
    case RemoverStep(k) => if k < |w.removers| { RemoverKeepsUnlive(w, k, i); }
    case CloseBus =>
      if !w.bus.closed { MarkAllKeepsUnlive(w, |w.bus.devices|, i); }
      SameLifecycles(MarkAll(w, |w.bus.devices|).bus, MarkAll(w, |w.bus.devices|).bus.(closed := true), i);
    case FinishClose => SameLifecycles(w.bus, w.bus.(taken := {}), i);
  }

  lemma NotAuthentic(b: Bus, s: Snapshot)
    requires s.lifecycle >= |b.lifecycles|
    ensures !Authenticates(b, s)
  {
  }

  lemma SameLifecycles(b: Bus, b': Bus, i: nat)
    requires b'.lifecycles == b.lifecycles
    ensures Unlive(b', i) == Unlive(b, i)
  {
  }

  lemma AddKeepsUnlive(b: Bus, device: nat, published: bool, max: nat, i: nat)
    requires WellIndexed(b) && Unlive(b, i)
    ensures Unlive(Add(b, device, published, max), i)
  {
  }

  lemma PublishKeepsUnlive(b: Bus, s: Snapshot, i: nat)
    requires Unlive(b, i)
    ensures Unlive(Publish(b, s), i)
  {
  }

  lemma AcquireKeepsUnlive(w: World, t: nat, i: nat)
    requires t in w.acquirers && Unlive(w.bus, i)
    ensures Unlive(StepAcquire(w, t).bus, i)
  {
  }

  lemma DropKeepsUnlive(w: World, t: nat, j: nat, i: nat)
    requires Unlive(w.bus, i)
    ensures Unlive(DropFence(w, t, j).bus, i)
  {
  }

  lemma MarkKeepsUnlive(w: World, j: nat, i: nat)
    requires j < |w.bus.lifecycles| && Unlive(w.bus, i)
    ensures Unlive(Mark(w, j).bus, i)
  {
  }

  lemma RemoverKeepsUnlive(w: World, k: nat, i: nat)
    requires k < |w.removers| && Unlive(w.bus, i)
    ensures Unlive(StepRemover(w, k).bus, i)
  {
  }

  lemma {:induction false} MarkAllKeepsUnlive(w: World, n: nat, i: nat)
    requires WellIndexed(w.bus) && n <= |w.bus.devices| && Unlive(w.bus, i)
    ensures Unlive(MarkAll(w, n).bus, i)
  {
    if n > 0 { MarkAllKeepsUnlive(w, n - 1, i); }
  }

  /** Once an incarnation is marked or gone, no snapshot of it authenticates again, whatever is added later. */
  lemma {:induction false} StaleSnapshotsStayDead(actions: seq<Action>, more: seq<Action>, s: Snapshot)
    requires Unlive(Run(actions).bus, s.lifecycle)
    ensures Unlive(Run(actions + more).bus, s.lifecycle) && !Authenticates(Run(actions + more).bus, s)
  {
    if more == [] {
      assert actions + more == actions;
    } else {
      var init := actions + more[..|more| - 1];
      StaleSnapshotsStayDead(actions, more[..|more| - 1], s);
      assert (actions + more)[..|actions + more| - 1] == init;
      StepKeepsUnlive(Run(init), more[|more| - 1], s.lifecycle);
    }
  }

  /** A new registration gets the least address that no listed device uses, and a device and token of its own. */
  lemma AddAllocatesLeastFreeAddress(actions: seq<Action>, device: nat, published: bool, max: nat)
    requires Adds(Run(actions).bus, device, max)
    ensures var b := Run(actions).bus;
            var b' := Step(Run(actions), AddDevice(device, published, max)).bus;
            var l := DeviceAt(b', |b.devices|);
            && Live(l) && l.device == device && 1 <= l.address <= max && !UsesAddress(b, l.address)
            && (forall a :: 1 <= a < l.address ==> UsesAddress(b, a))
            && (forall i :: 0 <= i < |b.lifecycles| ==> b.lifecycles[i].token < l.token)
            && Authenticates(b', SnapshotOf(b', |b.lifecycles|))
  {
    RunKeeps(actions);
    var b := Run(actions).bus;
  }

  /** Add is refused for want of an address only when every address up to the ceiling is in use. */
  lemma RefusedOnlyWhenFull(actions: seq<Action>, max: nat, a: nat)
    requires 1 <= a <= max && AddressFor(Run(actions).bus, max).None?
    ensures UsesAddress(Run(actions).bus, a)
  {
    RunKeeps(actions);
  }

  /** Closing marks everything that is listed, and when the removers are done nothing is left. */
  lemma CloseTakesEverything(actions: seq<Action>, k: nat)
    requires Run(actions).bus.closed && k < |Run(actions).bus.devices|
    ensures DeviceAt(Run(actions).bus, k).removing
    ensures var w := Run(actions);
            w.bus.devices[k].lifecycle in w.closing &&
            exists r :: 0 <= r < |w.removers| && w.removers[r].lifecycle == w.bus.devices[k].lifecycle && !w.removers[r].pc.Done?
  {
    RunKeeps(actions);
    assert DeviceAt(Run(actions).bus, k).removing;
    PendingRemover(Run(actions), k);
  }

  /** Once the removers that the closing call waits for are done, nothing is listed and no address is left to clear. */
  lemma FinishedCloseIsEmpty(actions: seq<Action>)
    requires var w := Run(actions);
             w.bus.closed && forall k :: 0 <= k < |w.removers| && w.removers[k].lifecycle in w.closing ==> w.removers[k].pc.Done?
    ensures var w := Run(actions); w.bus.devices == [] && w.bus.taken == {} && Step(w, FinishClose) == w
  {
    RunKeeps(actions);
    var w := Run(actions);
    if w.bus.devices != [] { CloseTakesEverything(actions, 0); }
    assert forall a :: a in w.bus.taken ==> UsesAddress(w.bus, a);
  }
}
