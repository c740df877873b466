/** What the device attachments of a build leave behind when all their calls
    go through: the subscriptions in the event manager, the registrations in
    the MMIO manager and, on x86_64, one `virtio_mmio.device=` description per
    registered device on the kernel command line, each naming the slot its
    device got. */
module Records {
  import opened Events
  import opened Machine
  import Mmio

  /** The event-manager entries of a list of devices, in order. */
  function DeviceSubs(devs: seq<Device>): seq<Subscriber>
  {
    seq(|devs|, k requires 0 <= k < |devs| => DeviceSub(devs[k]))
  }

  /** The descriptions of the slots `devs` get when registered, in order,
      starting from `m`. */
  function Slots(m: Mmio.Manager, devs: seq<Device>): seq<CmdlineArg>
  {
    if devs == [] then []
    else
      var before := Mmio.RegisterAll(m, devs[..|devs| - 1]);
      Slots(m, devs[..|devs| - 1]) + [VirtioMmio(before.nextBase, before.nextIrq)]
  }

  /** The descriptions of registered devices, one per entry, naming its slot. */
  function Descriptions(entries: seq<Mmio.Entry>): seq<CmdlineArg>
  {
    seq(|entries|, k requires 0 <= k < |entries| => VirtioMmio(entries[k].base, entries[k].irq))
  }

  lemma SlotsLast(m: Mmio.Manager, devs: seq<Device>, dev: Device)
    ensures var before := Mmio.RegisterAll(m, devs);
      Slots(m, devs + [dev]) == Slots(m, devs) + [VirtioMmio(before.nextBase, before.nextIrq)]
  {
    assert (devs + [dev])[..|devs|] == devs;
  }

  lemma DeviceSubsAppend(a: seq<Device>, b: seq<Device>)
    ensures DeviceSubs(a + b) == DeviceSubs(a) + DeviceSubs(b)
  {
  }

  /** Slots handed out for `a` and then for `b` are the slots handed out for
      `a + b`. */
  lemma {:induction false} SlotsAppend(m: Mmio.Manager, a: seq<Device>, b: seq<Device>)
    ensures Slots(m, a + b) == Slots(m, a) + Slots(Mmio.RegisterAll(m, a), b)
  {
    if b == [] {
      assert a + b == a;
    } else {
      var b' := b[..|b| - 1];
      assert (a + b)[..|a + b| - 1] == a + b';
      SlotsAppend(m, a, b');
      Mmio.RegisterAllAppend(m, a, b');
    }
  }

  /** Registering devices adds, after the descriptions of what was there, the
      descriptions of the slots the new devices got. */
  lemma {:induction false} DescriptionsRegisterAll(m: Mmio.Manager, devs: seq<Device>)
    ensures Descriptions(Mmio.RegisterAll(m, devs).entries) == Descriptions(m.entries) + Slots(m, devs)
  {
    if devs != [] {
      var init := devs[..|devs| - 1];
      var before := Mmio.RegisterAll(m, init);
      DescriptionsRegisterAll(m, init);
      assert Descriptions(before.entries + [Mmio.Entry(devs[|devs| - 1], before.nextBase, before.nextIrq)])
        == Descriptions(before.entries) + [VirtioMmio(before.nextBase, before.nextIrq)];
    }
  }

}
