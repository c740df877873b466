/** The MMIO device manager as the builder sees it: a registry that gives each
    registered device the next free MMIO window and the next free interrupt
    line. Its allocation policy lives outside the builder; the model takes
    the usual bump allocator (the window base moves on by one window length,
    the interrupt line by one) and proves what the builder relies on: slots
    handed out in order never overlap. */
module Mmio {
  import opened Wrappers
  import opened Events

  /** One registered device and the slot it was given. */
  datatype Entry = Entry(dev: Device, base: nat, irq: nat)

  /** The next free window base and interrupt line, the window length, and what
      has been registered so far, in order. */
  datatype Manager = Manager(nextBase: nat, nextIrq: nat, len: nat, entries: seq<Entry>)

  /** `MMIODeviceManager::new(MMIO_MEM_START, (IRQ_BASE, IRQ_MAX))`. */
  function New(memStart: nat, irqBase: nat, len: nat): (m: Manager)
    ensures m.entries == [] && m.nextBase == memStart && m.nextIrq == irqBase
  {
    Manager(memStart, irqBase, len, [])
  }

  /** The identifier a virtio device is registered under (the console is
      always `hvc0`); the legacy devices carry none. */
  function DeviceId(dev: Device): (id: Option<string>)
    ensures dev.Console? ==> id == Some("hvc0")
    ensures dev.Rtc? || dev.Gic? <==> id.None?
  {
    match dev
    case Balloon(i) => Some(i)
    case Console => Some("hvc0")
    case Fs(_, i) => Some(i)
    case Vsock(i) => Some(i)
    case Rtc => None
    case Gic => None
  }

  /** A successful registration: the device takes the next slot. */
  function Register(m: Manager, dev: Device): (m': Manager)
    ensures m'.entries == m.entries + [Entry(dev, m.nextBase, m.nextIrq)]
    ensures m'.nextBase == m.nextBase + m.len && m'.nextIrq == m.nextIrq + 1
    ensures m'.len == m.len
  {
    Manager(m.nextBase + m.len, m.nextIrq + 1, m.len, m.entries + [Entry(dev, m.nextBase, m.nextIrq)])
  }

  /** Successful registrations of `devs`, in order. */
  function RegisterAll(m: Manager, devs: seq<Device>): Manager
  {
    if devs == [] then m else Register(RegisterAll(m, devs[..|devs| - 1]), devs[|devs| - 1])
  }

  /** Registering one more device after a list registers it last. */
  lemma RegisterAllLast(m: Manager, devs: seq<Device>, dev: Device)
    ensures RegisterAll(m, devs + [dev]) == Register(RegisterAll(m, devs), dev)
  {
    assert (devs + [dev])[..|devs|] == devs;
  }

  /** Registering `a` and then `b` is registering `a + b`. */
  lemma {:induction false} RegisterAllAppend(m: Manager, a: seq<Device>, b: seq<Device>)
    ensures RegisterAll(m, a + b) == RegisterAll(RegisterAll(m, a), b)
  {
    if b == [] {
      assert a + b == a;
    } else {
      assert (a + b)[..|a + b| - 1] == a + b[..|b| - 1];
      RegisterAllAppend(m, a, b[..|b| - 1]);
    }
  }

  function Devices(entries: seq<Entry>): (ds: seq<Device>)
    ensures |ds| == |entries|
    ensures forall i :: 0 <= i < |entries| ==> ds[i] == entries[i].dev
  {
    if entries == [] then [] else Devices(entries[..|entries| - 1]) + [entries[|entries| - 1].dev]
  }

  /** Registering a list of devices appends exactly those devices, the k-th of
      them at the k-th free window and line. */
  lemma {:induction false} RegisterAllSlots(m: Manager, devs: seq<Device>)
    ensures RegisterAll(m, devs).len == m.len
    ensures |RegisterAll(m, devs).entries| == |m.entries| + |devs|
    ensures RegisterAll(m, devs).entries[..|m.entries|] == m.entries
    ensures forall k :: 0 <= k < |devs| ==>
      RegisterAll(m, devs).entries[|m.entries| + k]
        == Entry(devs[k], m.nextBase + k * m.len, m.nextIrq + k)
    ensures RegisterAll(m, devs).nextBase == m.nextBase + |devs| * m.len
    ensures RegisterAll(m, devs).nextIrq == m.nextIrq + |devs|
  {
    if devs != [] {
      var init := devs[..|devs| - 1];
      RegisterAllSlots(m, init);
    }
  }

  lemma SplitLast<X>(s: seq<X>)
    requires s != []
    ensures s == s[..|s| - 1] + [s[|s| - 1]]
  {
  }

  /** The registry after `devs` lists the devices it had, then `devs`. */
  lemma {:induction false} RegisterAllDevices(m: Manager, devs: seq<Device>)
    ensures Devices(RegisterAll(m, devs).entries) == Devices(m.entries) + devs
  {
    if devs == [] {
      assert Devices(m.entries) + [] == Devices(m.entries);
    } else {
      var init, last := devs[..|devs| - 1], devs[|devs| - 1];
      RegisterAllDevices(m, init);
      var before := RegisterAll(m, init).entries;
      var after := RegisterAll(m, devs).entries;
      assert after == before + [Entry(last, RegisterAll(m, init).nextBase, RegisterAll(m, init).nextIrq)];
      assert after[..|after| - 1] == before;
      SplitLast(devs);
    }
  }

  /** Slots handed out so far lie below the next free ones and never overlap:
      windows are `len` apart in registration order, lines strictly increase. */
  predicate Valid(m: Manager)
  {
    m.len > 0
    && (forall i, j :: 0 <= i < j < |m.entries| ==>
          m.entries[i].base + m.len <= m.entries[j].base && m.entries[i].irq < m.entries[j].irq)
    && (forall i :: 0 <= i < |m.entries| ==>
          m.entries[i].base + m.len <= m.nextBase && m.entries[i].irq < m.nextIrq)
  }

  lemma NewValid(memStart: nat, irqBase: nat, len: nat)
    requires len > 0
    ensures Valid(New(memStart, irqBase, len))
  {
  }

  lemma RegisterValid(m: Manager, dev: Device)
    requires Valid(m)
    ensures Valid(Register(m, dev))
  {
    var m' := Register(m, dev);
    assert forall i :: 0 <= i < |m.entries| ==> m'.entries[i] == m.entries[i];
  }

  lemma {:induction false} RegisterAllValid(m: Manager, devs: seq<Device>)
    requires Valid(m)
    ensures Valid(RegisterAll(m, devs))
  {
    if devs != [] {
      RegisterAllValid(m, devs[..|devs| - 1]);
      RegisterValid(RegisterAll(m, devs[..|devs| - 1]), devs[|devs| - 1]);
    }
  }

  /** In a valid registry two different entries have disjoint windows and
      different interrupt lines. */
  lemma SlotsDisjoint(m: Manager, i: int, j: int)
    requires Valid(m)
    requires 0 <= i < |m.entries| && 0 <= j < |m.entries| && i != j
    ensures m.entries[i].irq != m.entries[j].irq
    ensures m.entries[i].base + m.len <= m.entries[j].base || m.entries[j].base + m.len <= m.entries[i].base
  {
  }
}
