/** `build_microvm`: checks the configuration, maps the kernel, prepares memory,
    command line, VM and exit event, runs the per-architecture block, builds the
    `Vmm`, attaches the devices, finishes the command line, starts the vCPUs and
    registers the VMM with the event manager, stopping at the first failure. */
module Builder {
  import opened Wrappers
  import opened Errors
  import opened Events
  import opened Machine
  import Mmio
  import opened Setup
  import opened Vcpus
  import opened Devices
  import opened Legacy
  import opened Records
  import opened Stages
  import opened Attach
  import opened Tail

  // ---------------------------------------------------------------------------
  // The plan of a build

  /** From the guest memory on, once both the kernel and the memory size are
      configured: on macOS without a vCPU the build panics after the
      preparation. */
  function MachinePlan(p: Platform, host: Host, consts: Consts, res: VmResources, mib: nat,
                       kernel: KernelBundle): seq<Event>
  {
    PreparePlan(p, consts, res, mib, kernel)
      + if Stalls(p, res.vcpuCount) then [] else ArchPlan(p, res.vcpuCount) + AssemblyPlan(p, host, consts, res)
  }

  /** The device attachments, starting from the manager the per-architecture
      block leaves, then the tail. */
  function AssemblyPlan(p: Platform, host: Host, consts: Consts, res: VmResources): seq<Event>
  {
    DevicesPlan(p, host, consts, res, LegacyManager(p, consts)) + TailPlan(p, res)
  }

  /** Every call of a build, given a configured kernel: the kernel region is
      mapped before the memory size is checked. */
  function BuildPlan(p: Platform, host: Host, consts: Consts, res: VmResources): seq<Event>
    requires res.kernel.Some?
  {
    [BuildKernelRegion] + SizedPlan(p, host, consts, res)
  }

  /** After the kernel region: nothing when the memory size is missing. */
  function SizedPlan(p: Platform, host: Host, consts: Consts, res: VmResources): seq<Event>
    requires res.kernel.Some?
  {
    if res.memSizeMib.None? then [] else MachinePlan(p, host, consts, res, res.memSizeMib.value, res.kernel.value)
  }

  // ---------------------------------------------------------------------------
  // The built microVM

  /** The VM after the per-architecture block: the interrupt controller exists
      and, on x86_64, the legacy devices' event sources are bound. */
  function BuiltVm(p: Platform): Vm
  {
    Machine.Vm(true, if p.IsX86() then LegacyIrqfds else [])
  }

  function BuiltPio(p: Platform): Option<PioManager>
  {
    if p.IsX86() then Some(PioManager(true)) else None
  }

  /** The kernel command line of a built microVM: the prolog (or the default
      command line), on x86_64 one description per attached device with its
      slot, then the epilog. */
  function BuiltCmdline(p: Platform, consts: Consts, res: VmResources): seq<CmdlineArg>
  {
    [Text(PrologText(consts, res))]
      + (if p.IsX86() then Slots(LegacyManager(p, consts), Attached(consts, res)) else [])
      + EpilogArgs(res)
  }

  /** What a successful build leaves in the event manager (which held `subs`)
      and in the returned `Vmm`. */
  function BuiltVmm(p: Platform, consts: Consts, res: VmResources, subs: seq<Subscriber>): Snapshot
    requires res.kernel.Some? && res.memSizeMib.Some? && !Stalls(p, res.vcpuCount)
  {
    var devs := Attached(consts, res);
    Snapshot(
      subs + DeviceSubs(devs) + [Machine],
      GuestMemory(MemSizeBytes(res.memSizeMib.value), res.kernel.value.guestAddr),
      BuiltCmdline(p, consts, res),
      BuiltVm(p),
      Mmio.RegisterAll(LegacyManager(p, consts), devs),
      BuiltPio(p),
      ArchVcpus(p, res.vcpuCount, res.kernel.value.guestAddr))
  }

  // ---------------------------------------------------------------------------
  // The build

  /** The per-architecture block of the running platform. */
  method ArchBlock(p: Platform, host: Host, consts: Consts, count: nat, entry: nat, vm: Vm, pio: Option<PioManager>)
    returns (r: Result<Arch, Fault>, t: seq<Event>)
    requires p.IsX86() ==> pio.Some?
    ensures Stalls(p, count) ==> r == Err(Panic) && t == []
    ensures !Stalls(p, count) ==> t == Run(host, ArchPlan(p, count)) && Reports(host, t, r)
    ensures r.Ok? ==> (!Stalls(p, count) && r.value == Arch(
      vm.(irqchip := true, irqfds := vm.irqfds + if p.IsX86() then LegacyIrqfds else []),
      LegacyManager(p, consts),
      if p.IsX86() then Some(pio.value.(registered := true)) else None,
      ArchVcpus(p, count, entry)))
  {
    if p.IsX86() {
      r, t := SetupArchX86(host, consts, count, entry, vm, pio.value);
    } else {
      r, t := SetupArchArm(p, host, consts, count, entry, vm);
      assert vm.irqfds + [] == vm.irqfds;
    }
  }

  /** Preparation, then the per-architecture block, for a build that does
      not stall. */
  method PrepareArch(p: Platform, host: Host, consts: Consts, res: VmResources, mib: nat, kernel: KernelBundle)
    returns (r: Result<(GuestMemory, Arch), Fault>, t: seq<Event>)
    requires !Stalls(p, res.vcpuCount)
    ensures t == Run(host, PreparePlan(p, consts, res, mib, kernel) + ArchPlan(p, res.vcpuCount))
    ensures Reports(host, t, r)
    ensures r.Ok? ==> r.value == (
      GuestMemory(MemSizeBytes(mib), kernel.guestAddr),
      Arch(BuiltVm(p), LegacyManager(p, consts), BuiltPio(p), ArchVcpus(p, res.vcpuCount, kernel.guestAddr)))
  {
    var count := res.vcpuCount;
    ghost var prep := PreparePlan(p, consts, res, mib, kernel);
    var prepared, seg := Prepare(p, host, consts, res, mib, kernel);
    AdvanceFirst(host, prep + ArchPlan(p, count), prep, ArchPlan(p, count), seg, prepared);
    if prepared.Err? {
      return Err(prepared.error), seg;
    }
    var built, aseg := ArchBlock(p, host, consts, count, kernel.guestAddr, prepared.value.vm, prepared.value.pio);
    AdvanceLast(host, prep + ArchPlan(p, count), seg, ArchPlan(p, count), aseg, built);
    if built.Err? {
      return Err(built.error), seg + aseg;
    }
    assert built.value.vm == BuiltVm(p) by {
      assert prepared.value.vm.irqfds == [];
    }
    r, t := Ok((prepared.value.memory, built.value)), seg + aseg;
  }

  /** The `Vmm { .. }` literal, the device attachments and the tail. */
  method Assemble(p: Platform, host: Host, consts: Consts, res: VmResources, memory: GuestMemory,
                  cmdline: seq<CmdlineArg>, arch: Arch, em: EventManager)
    returns (r: Result<Vmm, Fault>, t: seq<Event>)
    modifies em
    ensures t == Run(host, DevicesPlan(p, host, consts, res, arch.mmio) + TailPlan(p, res)) && Reports(host, t, r)
    ensures em.subscribers == old(em.subscribers) + Collect(t, Subscribed(host))
    ensures r.Ok? ==> fresh(r.value) && Snap(r.value, em) == Snapshot(
      old(em.subscribers) + DeviceSubs(Attached(consts, res)) + [Machine],
      memory,
      cmdline + (if p.IsX86() then Slots(arch.mmio, Attached(consts, res)) else []) + EpilogArgs(res),
      arch.vm,
      Mmio.RegisterAll(arch.mmio, Attached(consts, res)),
      arch.pio,
      arch.vcpus)
  {
    ghost var devices := DevicesPlan(p, host, consts, res, arch.mmio);
    ghost var subs := em.subscribers;
    var vmm := new Vmm(memory, cmdline, arch.vm, arch.mmio, arch.pio);
    ghost var s0 := Snap(vmm, em);
    var attached, seg := AttachDevices(p, host, consts, res, vmm, em);
    AdvanceFirst(host, devices + TailPlan(p, res), devices, TailPlan(p, res), seg, attached);
    assert em.subscribers == subs + Collect(seg, Subscribed(host));
    if attached.Err? {
      return Err(attached.error), seg;
    }
    ghost var a := Collect(seg, Subscribed(host));
    var finished, fseg := Finish(p, host, res, vmm, em, arch.vcpus);
    AdvanceLast(host, devices + TailPlan(p, res), seg, TailPlan(p, res), fseg, finished);
    ghost var b := Collect(fseg, Subscribed(host));
    CollectAppend(seg, fseg, Subscribed(host));
    assert em.subscribers == (subs + a) + b;
    AppendAssoc(subs, a, b);
    t := seg + fseg;
    if finished.Err? {
      return Err(finished.error), t;
    }
    r := Ok(vmm);
  }

  /** The microVM `Assemble` leaves, from what the preparation and the
      per-architecture block produced, is the one a build promises. */
  lemma AssembledIsBuilt(p: Platform, consts: Consts, res: VmResources, subs: seq<Subscriber>,
                         memory: GuestMemory, arch: Arch)
    requires res.kernel.Some? && res.memSizeMib.Some? && !Stalls(p, res.vcpuCount)
    requires memory == GuestMemory(MemSizeBytes(res.memSizeMib.value), res.kernel.value.guestAddr)
    requires arch == Arch(BuiltVm(p), LegacyManager(p, consts), BuiltPio(p),
                          ArchVcpus(p, res.vcpuCount, res.kernel.value.guestAddr))
    ensures BuiltVmm(p, consts, res, subs) == Snapshot(
      subs + DeviceSubs(Attached(consts, res)) + [Machine],
      memory,
      [Text(PrologText(consts, res))] + (if p.IsX86() then Slots(arch.mmio, Attached(consts, res)) else [])
        + EpilogArgs(res),
      arch.vm,
      Mmio.RegisterAll(arch.mmio, Attached(consts, res)),
      arch.pio,
      arch.vcpus)
  {
  }

  /** A build that does not stall, from the guest memory on. */
  method BuildRunning(p: Platform, host: Host, consts: Consts, res: VmResources, em: EventManager)
    returns (r: Result<Vmm, Fault>, t: seq<Event>)
    requires res.kernel.Some? && res.memSizeMib.Some? && !Stalls(p, res.vcpuCount)
    modifies em
    ensures t == Run(host, (PreparePlan(p, consts, res, res.memSizeMib.value, res.kernel.value)
                            + ArchPlan(p, res.vcpuCount)) + AssemblyPlan(p, host, consts, res))
    ensures Reports(host, t, r)
    ensures r.Ok? ==> fresh(r.value) && Snap(r.value, em) == BuiltVmm(p, consts, res, old(em.subscribers))
    ensures em.subscribers == old(em.subscribers) + Collect(t, Subscribed(host))
  {
    var mib, kernel := res.memSizeMib.value, res.kernel.value;
    ghost var front := PreparePlan(p, consts, res, mib, kernel) + ArchPlan(p, res.vcpuCount);
    ghost var assembly := AssemblyPlan(p, host, consts, res);
    ghost var subs := em.subscribers;
    PrepareUnsubscribed(p, consts, res, mib, kernel);
    ArchUnsubscribed(p, res.vcpuCount);
    UnsubscribedAppend(PreparePlan(p, consts, res, mib, kernel), ArchPlan(p, res.vcpuCount));
    var prepared, seg := PrepareArch(p, host, consts, res, mib, kernel);
    AdvanceFirst(host, front + assembly, front, assembly, seg, prepared);
    NoSubscription(host, seg, front);
    assert subs + Collect(seg, Subscribed(host)) == subs;
    if prepared.Err? {
      return Err(prepared.error), seg;
    }
    var memory, arch := prepared.value.0, prepared.value.1;
    AssembledIsBuilt(p, consts, res, subs, memory, arch);
    var built, bseg := Assemble(p, host, consts, res, memory, [Text(PrologText(consts, res))], arch, em);
    AdvanceLast(host, front + assembly, seg, assembly, bseg, built);
    CollectAppend(seg, bseg, Subscribed(host));
    assert Collect(seg + bseg, Subscribed(host)) == Collect(bseg, Subscribed(host));
    r, t := built, seg + bseg;
  }

  /** On macOS without a vCPU the build panics once the preparation is done. */
  method BuildStalled(p: Platform, host: Host, consts: Consts, res: VmResources, mib: nat, kernel: KernelBundle)
    returns (r: Result<Vmm, Fault>, t: seq<Event>)
    requires Stalls(p, res.vcpuCount)
    ensures t == Run(host, PreparePlan(p, consts, res, mib, kernel))
    ensures Reports(host, t, r) || (Clean(host, t) && r == Err(Panic))
    ensures r.Err? && Collect(t, Subscribed(host)) == []
  {
    PrepareUnsubscribed(p, consts, res, mib, kernel);
    var prepared, seg := Prepare(p, host, consts, res, mib, kernel);
    NoSubscription(host, seg, PreparePlan(p, consts, res, mib, kernel));
    if prepared.Err? {
      return Err(prepared.error), seg;
    }
    r, t := Err(Panic), seg;
  }

  /** Everything after the memory-size check. */
  method BuildMachine(p: Platform, host: Host, consts: Consts, res: VmResources, em: EventManager)
    returns (r: Result<Vmm, Fault>, t: seq<Event>)
    requires res.kernel.Some? && res.memSizeMib.Some?
    modifies em
    ensures t == Run(host, MachinePlan(p, host, consts, res, res.memSizeMib.value, res.kernel.value))
    ensures Reports(host, t, r) || (Stalls(p, res.vcpuCount) && Clean(host, t) && r == Err(Panic))
    ensures r.Ok? ==> !Stalls(p, res.vcpuCount) && fresh(r.value)
                      && Snap(r.value, em) == BuiltVmm(p, consts, res, old(em.subscribers))
    ensures em.subscribers == old(em.subscribers) + Collect(t, Subscribed(host))
  {
    var mib, kernel := res.memSizeMib.value, res.kernel.value;
    ghost var prep := PreparePlan(p, consts, res, mib, kernel);
    if Stalls(p, res.vcpuCount) {
      assert MachinePlan(p, host, consts, res, mib, kernel) == prep + [];
      assert prep + [] == prep;
      r, t := BuildStalled(p, host, consts, res, mib, kernel);
      assert em.subscribers + [] == em.subscribers;
    } else {
      AppendAssoc(prep, ArchPlan(p, res.vcpuCount), AssemblyPlan(p, host, consts, res));
      r, t := BuildRunning(p, host, consts, res, em);
    }
  }

  /** The error a build returns although every call it made succeeded: a
      missing kernel or memory size, or the macOS stall; none for a build that
      goes through. */
  function Refusal(p: Platform, res: VmResources): Option<Fault>
  {
    if res.kernel.None? then Some(Error(MissingKernelConfig))
    else if res.memSizeMib.None? then Some(Error(MissingMemSizeConfig))
    else if Stalls(p, res.vcpuCount) then Some(Panic)
    else None
  }

  /** The build went through, and `vmm` and the event manager hold the
      microVM `BuiltVmm` describes. */
  ghost predicate Delivers(p: Platform, consts: Consts, res: VmResources, subs: seq<Subscriber>,
                           vmm: Vmm, em: EventManager)
    reads vmm, em
  {
    Refusal(p, res).None? && Snap(vmm, em) == BuiltVmm(p, consts, res, subs)
  }

  /** `build_microvm`. Without a kernel it fails before any call; the kernel
      region is mapped before the memory size is checked. A build whose calls
      all succeed returns its refusal, or the microVM `BuiltVmm` describes; one
      whose last call failed returns that call's error. */
  method BuildMicrovm(p: Platform, host: Host, consts: Consts, res: VmResources, em: EventManager)
    returns (r: Result<Vmm, Fault>, t: seq<Event>)
    modifies em
    ensures res.kernel.None? ==> t == []
    ensures res.kernel.Some? ==> t == Run(host, BuildPlan(p, host, consts, res))
    ensures Clean(host, t) ==> r.Err? == Refusal(p, res).Some? && (r.Err? ==> r.error == Refusal(p, res).value)
    ensures !Clean(host, t) ==> r.Err? && FailsLast(host, t) && r.error == FaultOf(host, Last(t))
    ensures r.Ok? ==> fresh(r.value) && Delivers(p, consts, res, old(em.subscribers), r.value, em)
    ensures em.subscribers == old(em.subscribers) + Collect(t, Subscribed(host))
  {
    if res.kernel.None? {
      return Err(Error(MissingKernelConfig)), [];
    }
    r, t := BuildConfigured(p, host, consts, res, em);
  }

  /** A build with a kernel: the kernel region, then the rest. */
  method BuildConfigured(p: Platform, host: Host, consts: Consts, res: VmResources, em: EventManager)
    returns (r: Result<Vmm, Fault>, t: seq<Event>)
    requires res.kernel.Some?
    modifies em
    ensures t == Run(host, BuildPlan(p, host, consts, res))
    ensures Clean(host, t) ==> r.Err? == Refusal(p, res).Some? && (r.Err? ==> r.error == Refusal(p, res).value)
    ensures !Clean(host, t) ==> r.Err? && FailsLast(host, t) && r.error == FaultOf(host, Last(t))
    ensures r.Ok? ==> fresh(r.value) && Delivers(p, consts, res, old(em.subscribers), r.value, em)
    ensures em.subscribers == old(em.subscribers) + Collect(t, Subscribed(host))
  {
    ghost var sized := SizedPlan(p, host, consts, res);
    assert BuildPlan(p, host, consts, res) == [BuildKernelRegion] + sized;
    RunPrepend(host, BuildKernelRegion, sized);
    ghost var subs := em.subscribers;
    assert Collect([BuildKernelRegion], Subscribed(host)) == [] by {
      CollectOne([], BuildKernelRegion, Subscribed(host));
      assert [] + [BuildKernelRegion] == [BuildKernelRegion];
    }
    var mapped := host.fails(BuildKernelRegion);
    if mapped.Some? {
      assert !Succeeds(host, BuildKernelRegion);
      assert subs + [] == subs;
      return Err(Error(StartMicrovmError.KernelBundle(mapped.value))), [BuildKernelRegion];
    }
    assert Succeeds(host, BuildKernelRegion);
    var built, seg := BuildSized(p, host, consts, res, em);
    CollectAppend([BuildKernelRegion], seg, Subscribed(host));
    assert [] + Collect(seg, Subscribed(host)) == Collect(seg, Subscribed(host));
    r, t := built, [BuildKernelRegion] + seg;
  }

  /** After the kernel region: the memory-size check, then the machine. */
  method BuildSized(p: Platform, host: Host, consts: Consts, res: VmResources, em: EventManager)
    returns (r: Result<Vmm, Fault>, t: seq<Event>)
    requires res.kernel.Some?
    modifies em
    ensures t == Run(host, SizedPlan(p, host, consts, res))
    ensures Clean(host, t) ==> r.Err? == Refusal(p, res).Some? && (r.Err? ==> r.error == Refusal(p, res).value)
    ensures !Clean(host, t) ==> r.Err? && FailsLast(host, t) && r.error == FaultOf(host, Last(t))
    ensures r.Ok? ==> fresh(r.value) && Delivers(p, consts, res, old(em.subscribers), r.value, em)
    ensures em.subscribers == old(em.subscribers) + Collect(t, Subscribed(host))
  {
    if res.memSizeMib.None? {
      return Err(Error(MissingMemSizeConfig)), [];
    }
    r, t := BuildMachine(p, host, consts, res, em);
  }
}
