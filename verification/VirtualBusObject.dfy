/**
 The bus as an object with its search loops. `lifecycles` stands for the heap of lifecycle objects; the
 list of devices, the set of taken addresses and the counters are the fields that the source mutates.
 */
module VirtualBusObject {
  import opened Basics
  import opened Options
  import opened VirtualBus

  class BusRegistry {
    var nextToken: nat
    var taken: set<nat>
    var devices: seq<Entry>
    var closed: bool
    var lifecycles: seq<Lifecycle>

    ghost function View(): Bus
      reads this
    {
      Bus(nextToken, taken, devices, closed, lifecycles)
    }

    ghost predicate Valid()
      reads this
    {
      WellIndexed(View())
    }

    constructor ()
      ensures Valid() && View() == NEW_BUS
    {
      nextToken, taken, devices, closed, lifecycles := 0, {}, [], false, [];
    }

    /** Tries addresses upwards from one until a free one or the ceiling. */
    method NextAvailableDeviceId(max: nat) returns (address: Option<nat>)
      requires max >= 1
      ensures address == NextAvailable(taken, 1, max)
    {
      var a := 1;
      while true
        invariant 1 <= a <= max
        invariant NextAvailable(taken, 1, max) == NextAvailable(taken, a, max)
        decreases max - a
      {
        if a !in taken { return Some(a); }
        if a == max { return None; }
        a := a + 1;
      }
    }

    method IsRegistered(device: nat) returns (found: bool)
      requires Valid()
      ensures found == HasDevice(View(), device)
    {
      for k := 0 to |devices|
        invariant forall j :: 0 <= j < k ==> DeviceAt(View(), j).device != device
      {
        if lifecycles[devices[k].lifecycle].device == device {
          assert DeviceAt(View(), k).device == device;
          return true;
        }
      }
      return false;
    }

    method AddRegistration(device: nat, published: bool, max: nat) returns (snapshot: Option<Snapshot>)
      requires Valid()
      modifies this
      ensures Valid() && View() == Add(old(View()), device, published, max)
      ensures snapshot.Some? <==> Adds(old(View()), device, max)
      ensures snapshot.Some? ==> Authenticates(View(), snapshot.value) && snapshot.value.lifecycle == |old(lifecycles)|
    {
      if max == 0 || closed || nextToken >= MAX_U64 { return None; }
      var duplicate := IsRegistered(device);
      if duplicate { return None; }
      var address := NextAvailableDeviceId(max);
      if address.None? { return None; }
      var i := |lifecycles|;
      taken, nextToken := taken + {address.value}, nextToken + 1;
      lifecycles := lifecycles + [Lifecycle(device, address.value, nextToken, true, false, false, {}, false, 0)];
      devices := devices + [Entry(i, published)];
      return Some(Snapshot(i, device, address.value, nextToken));
    }

    method FindRegistration(i: nat) returns (k: nat)
      ensures k == FindEntry(devices, i, 0)
    {
      k := 0;
      while k < |devices| && devices[k].lifecycle != i
        invariant k <= |devices| && FindEntry(devices, i, 0) == FindEntry(devices, i, k)
      {
        k := k + 1;
      }
    }

    method PublishRegistration(s: Snapshot) returns (ok: bool)
      requires Valid()
      modifies this`devices
      ensures Valid() && View() == Publish(old(View()), s)
      ensures ok <==> !closed && Authenticates(old(View()), s) && FindEntry(old(devices), s.lifecycle, 0) < |old(devices)|
    {
      if closed || s.token == 0 || s.lifecycle >= |lifecycles| { return false; }
      var l := lifecycles[s.lifecycle];
      if s != Snapshot(s.lifecycle, l.device, l.address, l.token) || !l.active || l.removing { return false; }
      var k := FindRegistration(s.lifecycle);
      if k == |devices| { return false; }
      devices := devices[k := devices[k].(published := true)];
      return true;
    }

    method AuthenticatesRegistration(s: Snapshot) returns (ok: bool)
      ensures ok <==> !closed && Authenticates(View(), s)
    {
      if closed || s.token == 0 || s.lifecycle >= |lifecycles| { return false; }
      var l := lifecycles[s.lifecycle];
      return s == Snapshot(s.lifecycle, l.device, l.address, l.token) && l.active && !l.removing;
    }

    /** The read side of an incarnation's fence; it is refused while a remover holds the write side. */
    method TakeFence(i: nat, thread: nat) returns (ok: bool)
      requires Valid() && i < |lifecycles|
      modifies this`lifecycles
      ensures Valid() && ok == !old(lifecycles)[i].writer
      ensures View() == if ok then SetLifecycle(old(View()), i, old(lifecycles)[i].(readers := old(lifecycles)[i].readers + {thread}))
                        else old(View())
    {
      var l := lifecycles[i];
      if l.writer { return false; }
      lifecycles := lifecycles[i := l.(readers := l.readers + {thread})];
      return true;
    }

    /** Behind the fence the snapshot is checked again; a stale one gives the fence back. */
    method Revalidate(s: Snapshot, thread: nat) returns (held: bool)
      requires Valid() && s.lifecycle < |lifecycles|
      modifies this`lifecycles
      ensures Valid() && held == (!closed && Authenticates(old(View()), s))
      ensures View() == if held then old(View())
                        else SetLifecycle(old(View()), s.lifecycle,
                                          old(lifecycles)[s.lifecycle].(readers := old(lifecycles)[s.lifecycle].readers - {thread}))
    {
      held := AuthenticatesRegistration(s);
      if !held { Release(s.lifecycle, thread); }
    }

    method Release(i: nat, thread: nat)
      requires Valid() && i < |lifecycles|
      modifies this`lifecycles
      ensures Valid() && View() == SetLifecycle(old(View()), i, old(lifecycles)[i].(readers := old(lifecycles)[i].readers - {thread}))
    {
      lifecycles := lifecycles[i := lifecycles[i].(readers := lifecycles[i].readers - {thread})];
    }

    /** Marks exactly the named live incarnation, for the one remover that then finishes it. */
    method MarkRegistration(s: Snapshot) returns (marked: bool)
      requires Valid()
      modifies this`lifecycles
      ensures Valid()
      ensures marked == (Authenticates(old(View()), s) && FindEntry(devices, s.lifecycle, 0) < |devices|)
      ensures View() == if marked then Mark(World(old(View()), map[], [], {}), s.lifecycle).bus else old(View())
    {
      if s.token == 0 || s.lifecycle >= |lifecycles| { return false; }
      var l := lifecycles[s.lifecycle];
      if s != Snapshot(s.lifecycle, l.device, l.address, l.token) || !l.active || l.removing { return false; }
      var k := FindRegistration(s.lifecycle);
      if k == |devices| { return false; }
      lifecycles := lifecycles[s.lifecycle := l.(removing := true)];
      return true;
    }

    /** Closes admission and marks every listed incarnation that no remover has marked; returns those marked here. */
    method CloseAndMark() returns (marked: seq<nat>)
      requires Valid()
      modifies this`closed, this`lifecycles
      ensures Valid() && closed
      ensures if old(closed) then marked == [] && View() == old(View())
              else
                var m := MarkAll(World(old(View()), map[], [], {}), |devices|);
                View() == m.bus.(closed := true) && marked == seq(|m.removers|, k requires 0 <= k < |m.removers| => m.removers[k].lifecycle)
    {
      marked := [];
      if closed { return; }
      closed := true;
      ghost var w := World(old(View()), map[], [], {});
      assert MarkAll(w, 0) == w;
      for k := 0 to |devices|
        invariant Valid() && closed && View() == MarkAll(w, k).bus.(closed := true)
        invariant marked == seq(|MarkAll(w, k).removers|, j requires 0 <= j < |MarkAll(w, k).removers| => MarkAll(w, k).removers[j].lifecycle)
      {
        ghost var before := MarkAll(w, k);
        var i := devices[k].lifecycle;
        if !lifecycles[i].removing {
          lifecycles := lifecycles[i := lifecycles[i].(removing := true)];
          marked := marked + [i];
        }
        assert MarkAll(w, k + 1) == if before.bus.lifecycles[i].removing then before else Mark(before, i);
      }
    }

    /** The part of a marked removal that runs under the bus lock, with the fence of the incarnation held. */
    method FinishMarkedRemoval(i: nat)
      requires Valid() && i < |lifecycles|
      modifies this`taken, this`devices, this`lifecycles
      ensures Valid() && View() == Delist(old(View()), i)
    {
      var k := FindRegistration(i);
      if k == |devices| { return; }
      var l := lifecycles[i];
      taken := taken - {l.address};
      devices := devices[..k] + devices[k + 1..];
      lifecycles := lifecycles[i := l.(active := false, cancelled := true)];
    }
  }
}
