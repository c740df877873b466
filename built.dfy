/** What a successful `build_microvm` guarantees about the microVM it returns:
    the MMIO registry holds the legacy devices and then every attached device,
    in attachment order, in slots that never overlap; on x86_64 the kernel
    command line describes exactly those slots; the vCPUs are numbered from 0
    and start at the kernel entry point (joined by the boot rendezvous on
    macOS); and the event manager gained one entry per device, then the VMM. */
module Built {
  import opened Events
  import opened Machine
  import Mmio
  import opened Vcpus
  import opened Devices
  import opened Legacy
  import opened Records
  import opened Stages
  import opened Attach
  import opened Tail
  import opened Builder

  /** The devices the MMIO manager holds before the first virtio device: none
      on x86_64 (its legacy devices sit on port I/O), the RTC (and on macOS
      the interrupt controller) on aarch64. */
  function LegacyMmioDevices(p: Platform): seq<Device>
  {
    if p.IsX86() then [] else MmioLegacy(p)
  }

  /** The registry lists the legacy devices, then the attached devices in the
      order they were attached. */
  lemma BuiltRegistry(p: Platform, consts: Consts, res: VmResources, subs: seq<Subscriber>)
    requires res.kernel.Some? && res.memSizeMib.Some? && !Stalls(p, res.vcpuCount)
    ensures Mmio.Devices(BuiltVmm(p, consts, res, subs).mmio.entries) == LegacyMmioDevices(p) + Attached(consts, res)
  {
    var m := Mmio.New(consts.mmioMemStart, consts.irqBase, consts.mmioLen);
    assert Mmio.Devices(m.entries) == [];
    Mmio.RegisterAllDevices(LegacyManager(p, consts), Attached(consts, res));
    if !p.IsX86() {
      Mmio.RegisterAllDevices(m, MmioLegacy(p));
      assert [] + MmioLegacy(p) == MmioLegacy(p);
    } else {
      assert [] + Attached(consts, res) == Attached(consts, res);
    }
  }

  /** With a non-empty window length, the registry is valid: its slots lie
      apart in registration order. */
  lemma BuiltRegistryValid(p: Platform, consts: Consts, res: VmResources, subs: seq<Subscriber>)
    requires res.kernel.Some? && res.memSizeMib.Some? && !Stalls(p, res.vcpuCount)
    requires consts.mmioLen > 0
    ensures Mmio.Valid(BuiltVmm(p, consts, res, subs).mmio)
  {
    var m := Mmio.New(consts.mmioMemStart, consts.irqBase, consts.mmioLen);
    Mmio.NewValid(consts.mmioMemStart, consts.irqBase, consts.mmioLen);
    if !p.IsX86() {
      Mmio.RegisterAllValid(m, MmioLegacy(p));
    }
    Mmio.RegisterAllValid(LegacyManager(p, consts), Attached(consts, res));
  }

  /** The kernel command line is the prolog (or the default command line), on
      x86_64 one description per registry entry naming that entry's slot, and
      the epilog. */
  lemma BuiltCmdline(p: Platform, consts: Consts, res: VmResources, subs: seq<Subscriber>)
    requires res.kernel.Some? && res.memSizeMib.Some? && !Stalls(p, res.vcpuCount)
    ensures var vmm := BuiltVmm(p, consts, res, subs);
      vmm.cmdline == [Text(PrologText(consts, res))]
                     + (if p.IsX86() then Descriptions(vmm.mmio.entries) else [])
                     + EpilogArgs(res)
  {
    if p.IsX86() {
      DescriptionsRegisterAll(LegacyManager(p, consts), Attached(consts, res));
      assert Descriptions([]) == [];
      assert [] + Slots(LegacyManager(p, consts), Attached(consts, res))
          == Slots(LegacyManager(p, consts), Attached(consts, res));
    }
  }

  /** On x86_64 with a non-empty window length, two different device
      descriptions on the command line name different interrupt lines and
      windows that do not overlap. */
  lemma BuiltDescriptionsDisjoint(p: Platform, consts: Consts, res: VmResources, subs: seq<Subscriber>,
                                  i: nat, j: nat)
    requires res.kernel.Some? && res.memSizeMib.Some? && !Stalls(p, res.vcpuCount)
    requires p.IsX86() && consts.mmioLen > 0
    requires i < |Attached(consts, res)| && j < |Attached(consts, res)| && i != j
    ensures var c := BuiltVmm(p, consts, res, subs).cmdline;
      1 + i < |c| && 1 + j < |c| && c[1 + i].VirtioMmio? && c[1 + j].VirtioMmio?
      && c[1 + i].irq != c[1 + j].irq
      && (c[1 + i].base + consts.mmioLen <= c[1 + j].base || c[1 + j].base + consts.mmioLen <= c[1 + i].base)
  {
    var vmm := BuiltVmm(p, consts, res, subs);
    var m := vmm.mmio;
    BuiltCmdline(p, consts, res, subs);
    BuiltRegistryValid(p, consts, res, subs);
    Mmio.RegisterAllSlots(LegacyManager(p, consts), Attached(consts, res));
    assert m.len == consts.mmioLen;
    var ds := Descriptions(m.entries);
    assert |ds| == |m.entries| == |Attached(consts, res)|;
    assert vmm.cmdline == [Text(PrologText(consts, res))] + ds + EpilogArgs(res);
    assert vmm.cmdline[1 + i] == ds[i] && vmm.cmdline[1 + j] == ds[j];
    Mmio.SlotsDisjoint(m, i, j);
  }

  /** Exactly the configured number of vCPUs, the k-th with index k and the
      kernel entry point; on macOS they are joined by the boot rendezvous,
      elsewhere none of them holds a boot channel. */
  lemma BuiltVcpus(p: Platform, consts: Consts, res: VmResources, subs: seq<Subscriber>)
    requires res.kernel.Some? && res.memSizeMib.Some? && !Stalls(p, res.vcpuCount)
    ensures var vs := BuiltVmm(p, consts, res, subs).vcpus;
      |vs| == res.vcpuCount
      && (forall k :: 0 <= k < |vs| ==> vs[k].index == k && vs[k].entry == res.kernel.value.guestAddr)
      && (p.IsMacOS() ==> BootRendezvous(vs))
      && (!p.IsMacOS() ==> forall k :: 0 <= k < |vs| ==> vs[k].bootReceiver.None? && vs[k].bootSenders == [])
  {
    var entry := res.kernel.value.guestAddr;
    if p.IsMacOS() {
      BootVcpusRendezvous(res.vcpuCount, entry);
    } else {
      KvmVcpusIndices(res.vcpuCount, entry);
    }
  }

  /** The event manager keeps what it held, then gains one entry per attached
      device in attachment order, then the VMM itself, last. */
  lemma BuiltSubscribers(p: Platform, consts: Consts, res: VmResources, subs: seq<Subscriber>)
    requires res.kernel.Some? && res.memSizeMib.Some? && !Stalls(p, res.vcpuCount)
    ensures var s := BuiltVmm(p, consts, res, subs).subscribers;
      var devs := Attached(consts, res);
      |s| == |subs| + |devs| + 1 && s[..|subs|] == subs && s[|s| - 1] == Machine
      && forall k :: 0 <= k < |devs| ==> s[|subs| + k] == DeviceSub(devs[k])
  {
    var devs := Attached(consts, res);
    var s := BuiltVmm(p, consts, res, subs).subscribers;
    assert s == subs + DeviceSubs(devs) + [Machine];
    forall k | 0 <= k < |devs| ensures s[|subs| + k] == DeviceSub(devs[k]) {
      assert s[|subs| + k] == DeviceSubs(devs)[k];
    }
  }

  /** The attached devices: the balloon, the console, one filesystem device per
      configured share in configuration order, then the vsock device when one
      is configured. */
  lemma AttachedOrder(consts: Consts, res: VmResources)
    ensures var devs := Attached(consts, res);
      |devs| == 2 + |res.fs| + (if res.vsock.Some? then 1 else 0)
      && devs[0] == Balloon(consts.balloonId) && devs[1] == Console
      && (forall k :: 0 <= k < |res.fs| ==> devs[2 + k] == Fs(k, res.fs[k].id))
      && (res.vsock.Some? ==> devs[|devs| - 1] == Vsock(res.vsock.value))
  {
    var fs := FsDevices(res.fs, |res.fs|);
    var devs := Attached(consts, res);
    forall k | 0 <= k < |res.fs| ensures devs[2 + k] == Fs(k, res.fs[k].id) {
      assert devs[2 + k] == fs[k];
    }
  }
}
