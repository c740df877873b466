/** The stretches of `build_microvm` between its calls into the helpers: the
    preparation of memory, command line, VM and exit event; the per-architecture
    block (interrupt controller, legacy devices, vCPUs); the device
    attachments; and the tail (epilog, command-line load, system
    configuration, vCPU start, registration of the VMM with the event
    manager). Each stage issues its plan up to the first failing call and
    reports that call's error. */
module Stages {
  import opened Wrappers
  import opened Errors
  import opened Events
  import opened Machine
  import Mmio
  import opened Setup
  import opened Vcpus
  import opened Devices
  import opened Legacy
  import opened Records

  // ---------------------------------------------------------------------------
  // Chaining stages

  /** A stage run after the clean calls `done`, inside the plan `whole`: on
      success its plan went through and the rest of `whole` comes next; on
      failure `whole` stops at the stage's failing call. */
  lemma Advance<T>(host: Host, whole: seq<Event>, done: seq<Event>, stage: seq<Event>, rest: seq<Event>,
                   seg: seq<Event>, rs: Result<T, Fault>)
    requires whole == done + (stage + rest) && Clean(host, done)
    requires seg == Run(host, stage) && Reports(host, seg, rs)
    ensures rs.Ok? ==> seg == stage && whole == (done + seg) + rest && Clean(host, done + seg)
    ensures rs.Err? ==> Run(host, whole) == done + seg && FailsLast(host, done + seg)
                        && FaultOf(host, Last(done + seg)) == rs.error
  {
    if rs.Ok? {
      assert done + (stage + rest) == (done + stage) + rest;
      CleanAppend(host, done, seg);
    } else {
      StageFails(host, whole, done, stage, rest, seg);
    }
  }

  lemma StageFails(host: Host, whole: seq<Event>, done: seq<Event>, stage: seq<Event>, rest: seq<Event>,
                   seg: seq<Event>)
    requires whole == done + (stage + rest) && Clean(host, done)
    requires seg == Run(host, stage) && FailsLast(host, seg)
    ensures Run(host, whole) == done + seg && FailsLast(host, done + seg) && Last(done + seg) == Last(seg)
  {
    assert !Clean(host, seg) by {
      assert seg[|seg| - 1] == Last(seg);
    }
    StopsInside(host, whole, done, stage, seg);
    ThenRun(host, done, stage, seg);
  }

  /** `Advance` for the first stage of a plan. */
  lemma AdvanceFirst<T>(host: Host, whole: seq<Event>, stage: seq<Event>, rest: seq<Event>,
                        seg: seq<Event>, rs: Result<T, Fault>)
    requires whole == stage + rest
    requires seg == Run(host, stage) && Reports(host, seg, rs)
    ensures rs.Ok? ==> seg == stage && whole == seg + rest && Clean(host, seg)
    ensures rs.Err? ==> Run(host, whole) == seg && FailsLast(host, seg) && FaultOf(host, Last(seg)) == rs.error
  {
    assert [] + (stage + rest) == whole;
    Advance(host, whole, [], stage, rest, seg, rs);
    assert [] + seg == seg;
  }

  /** `Advance` for the last stage of a plan. */
  lemma AdvanceLast<T>(host: Host, whole: seq<Event>, done: seq<Event>, stage: seq<Event>,
                       seg: seq<Event>, rs: Result<T, Fault>)
    requires whole == done + stage && Clean(host, done)
    requires seg == Run(host, stage) && Reports(host, seg, rs)
    ensures rs.Ok? ==> seg == stage && whole == done + seg && Clean(host, done + seg)
    ensures rs.Err? ==> Run(host, whole) == done + seg && FailsLast(host, done + seg)
                        && FaultOf(host, Last(done + seg)) == rs.error
  {
    assert stage + [] == stage;
    Advance(host, whole, done, stage, [], seg, rs);
    assert (done + seg) + [] == done + seg;
  }

  /** A single call made after the clean calls `done`, inside `whole`. */
  lemma AdvanceOne(host: Host, whole: seq<Event>, done: seq<Event>, e: Event, rest: seq<Event>)
    requires whole == done + ([e] + rest) && Clean(host, done)
    ensures Succeeds(host, e) ==> whole == (done + [e]) + rest && Clean(host, done + [e])
    ensures !Succeeds(host, e) ==> Run(host, whole) == done + [e] && FailsLast(host, done + [e])
                                   && Last(done + [e]) == e
  {
    CleanAppend(host, done, [e]);
    if !Succeeds(host, e) {
      StopHere(host, whole, done, e);
    }
  }

  /** A stage whose plan subscribes nothing. */
  predicate Unsubscribed(plan: seq<Event>)
  {
    forall i :: 0 <= i < |plan| ==> !plan[i].Subscribe?
  }

  /** What part of such a plan ran records no subscription. */
  lemma NoSubscription(host: Host, t: seq<Event>, plan: seq<Event>)
    requires t <= plan && Unsubscribed(plan)
    ensures Collect(t, Subscribed(host)) == []
    ensures forall e :: e in t ==> !e.Subscribe?
  {
    assert forall i :: 0 <= i < |t| ==> t[i] == plan[i];
    CollectNone(t, Subscribed(host));
  }

  lemma UnsubscribedAppend(a: seq<Event>, b: seq<Event>)
    requires Unsubscribed(a) && Unsubscribed(b)
    ensures Unsubscribed(a + b)
  {
    assert forall i :: |a| <= i < |a + b| ==> (a + b)[i] == b[i - |a|];
  }

  lemma {:induction false} VcpusUnsubscribed(n: nat)
    ensures Unsubscribed(VcpusPlan(n))
  {
    if n > 0 {
      VcpusUnsubscribed(n - 1);
      UnsubscribedAppend(VcpusPlan(n - 1), VcpuPlan(n - 1));
    }
  }

  // ---------------------------------------------------------------------------
  // Preparation: memory, command line, VM, exit event, port-I/O manager

  /** The first command-line text: the configured prolog, or the default
      command line when none is configured. */
  function PrologText(consts: Consts, res: VmResources): string
  {
    if res.prolog.Some? then res.prolog.value else consts.defaultCmdline
  }

  /** x86_64 only: clone the exit event for the port-I/O manager, then create
      the manager. */
  function PioPlan(p: Platform): seq<Event>
  {
    if p.IsX86() then [CloneExitEvent(ForPio), CreatePioManager] else []
  }

  /** Guest memory with the kernel in it, then the prolog on the command line. */
  function PrologPlan(p: Platform, consts: Consts, res: VmResources, mib: nat, kernel: KernelBundle): seq<Event>
  {
    MemoryPlan(p, mib, kernel) + [InsertProlog(PrologText(consts, res))]
  }

  /** The exit event, and on x86_64 the port-I/O manager. */
  function ExitPlan(p: Platform): seq<Event>
  {
    [CreateExitEvent] + PioPlan(p)
  }

  function PreparePlan(p: Platform, consts: Consts, res: VmResources, mib: nat, kernel: KernelBundle): seq<Event>
  {
    PrologPlan(p, consts, res, mib, kernel) + (VmPlan(p) + ExitPlan(p))
  }

  datatype Prepared = Prepared(memory: GuestMemory, vm: Vm, pio: Option<PioManager>)

  lemma PrepareUnsubscribed(p: Platform, consts: Consts, res: VmResources, mib: nat, kernel: KernelBundle)
    ensures Unsubscribed(PreparePlan(p, consts, res, mib, kernel))
  {
  }

  /** `create_guest_memory`, then the prolog, or the default command line when
      none is configured; a failed insertion panics. */
  method PrepareMemory(p: Platform, host: Host, consts: Consts, res: VmResources, mib: nat, kernel: KernelBundle)
    returns (r: Result<GuestMemory, Fault>, t: seq<Event>)
    ensures t == Run(host, PrologPlan(p, consts, res, mib, kernel)) && Reports(host, t, r)
    ensures r.Ok? ==> r.value == GuestMemory(MemSizeBytes(mib), kernel.guestAddr)
  {
    ghost var whole := PrologPlan(p, consts, res, mib, kernel);
    var prolog := InsertProlog(PrologText(consts, res));
    var memory, seg := CreateGuestMemory(p, host, mib, kernel);
    AdvanceFirst(host, whole, MemoryPlan(p, mib, kernel), [prolog], seg, memory);
    if memory.Err? {
      return Err(memory.error), seg;
    }
    t := seg;
    CleanAppend(host, t, [prolog]);
    var inserted := host.fails(prolog);
    if inserted.Some? {
      // kernel_cmdline.insert_str(..).unwrap()
      StopWith<GuestMemory>(host, whole, t, prolog, Panic);
      return Err(Panic), t + [prolog];
    }
    t := t + [prolog];
    r := Ok(memory.value);
  }

  /** The exit event (an `EventFd` error), and on x86_64 the port-I/O manager
      built with its own clone of the exit event (`EventFd`, then
      `CreateLegacyDevice`). */
  method CreateExitEvents(p: Platform, host: Host) returns (r: Result<Option<PioManager>, Fault>, t: seq<Event>)
    ensures t == Run(host, ExitPlan(p)) && Reports(host, t, r)
    ensures r.Ok? ==> r.value == if p.IsX86() then Some(PioManager(false)) else None
  {
    var plan := ExitPlan(p);
    var exitEvt := host.fails(CreateExitEvent);
    t := [CreateExitEvent];
    if exitEvt.Some? {
      var f := Error(Internal(VmmError(EventFd, exitEvt.value)));
      StopFirst<Option<PioManager>>(host, plan, CreateExitEvent, f);
      return Err(f), t;
    }
    if !p.IsX86() {
      return Ok(None), t;
    }
    var cloned := host.fails(CloneExitEvent(ForPio));
    if cloned.Some? {
      var f := Error(Internal(VmmError(EventFd, cloned.value)));
      StopWith<Option<PioManager>>(host, plan, t, CloneExitEvent(ForPio), f);
      return Err(f), t + [CloneExitEvent(ForPio)];
    }
    t := t + [CloneExitEvent(ForPio)];
    var created := host.fails(CreatePioManager);
    if created.Some? {
      var f := Error(Internal(VmmError(CreateLegacyDevice, created.value)));
      StopWith<Option<PioManager>>(host, plan, t, CreatePioManager, f);
      return Err(f), t + [CreatePioManager];
    }
    t := t + [CreatePioManager];
    r := Ok(Some(PioManager(false)));
  }

  /** Everything `build_microvm` sets up before the per-architecture block. */
  method Prepare(p: Platform, host: Host, consts: Consts, res: VmResources, mib: nat, kernel: KernelBundle)
    returns (r: Result<Prepared, Fault>, t: seq<Event>)
    ensures t == Run(host, PreparePlan(p, consts, res, mib, kernel)) && Reports(host, t, r)
    ensures r.Ok? ==> r.value == Prepared(GuestMemory(MemSizeBytes(mib), kernel.guestAddr), Machine.Vm(false, []),
                                          if p.IsX86() then Some(PioManager(false)) else None)
  {
    ghost var whole := PreparePlan(p, consts, res, mib, kernel);
    var memory, seg := PrepareMemory(p, host, consts, res, mib, kernel);
    Advance(host, whole, [], PrologPlan(p, consts, res, mib, kernel), VmPlan(p) + ExitPlan(p), seg, memory);
    if memory.Err? {
      return Err(memory.error), [] + seg;
    }
    t := [] + seg;
    var vm, vseg := SetupVm(p, host);
    Advance(host, whole, t, VmPlan(p), ExitPlan(p), vseg, vm);
    if vm.Err? {
      return Err(vm.error), t + vseg;
    }
    t := t + vseg;
    var pio, eseg := CreateExitEvents(p, host);
    Advance(host, whole, t, ExitPlan(p), [], eseg, pio);
    if pio.Err? {
      return Err(pio.error), t + eseg;
    }
    t := t + eseg;
    r := Ok(Prepared(memory.value, vm.value, pio.value));
  }

  // ---------------------------------------------------------------------------
  // The per-architecture block

  /** On x86_64 the interrupt controller comes first, then the legacy devices,
      then the vCPUs; on aarch64 the vCPUs must exist before the interrupt
      controller, and the legacy devices come last. */
  function ArchPlan(p: Platform, count: nat): seq<Event>
  {
    if p.IsX86() then [SetupIrqchip] + (PioLegacyPlan + VcpusPlan(count))
    else VcpusPlan(count) + ([SetupIrqchip] + MmioLegacyPlan(p))
  }

  /** On macOS `create_vcpus_aarch64` cannot run without a vCPU: the build
      panics there. */
  predicate Stalls(p: Platform, count: nat)
  {
    p.IsMacOS() && count == 0
  }

  /** The MMIO manager after the per-architecture block: fresh on x86_64,
      holding the legacy devices on aarch64. */
  function LegacyManager(p: Platform, consts: Consts): Mmio.Manager
  {
    var m := Mmio.New(consts.mmioMemStart, consts.irqBase, consts.mmioLen);
    if p.IsX86() then m else Mmio.RegisterAll(m, MmioLegacy(p))
  }

  /** The vCPUs the block creates. */
  function ArchVcpus(p: Platform, count: nat, entry: nat): seq<Vcpu>
    requires !Stalls(p, count)
  {
    if p.IsMacOS() then BootVcpus(count, entry) else KvmVcpus(count, entry)
  }

  datatype Arch = Arch(vm: Vm, mmio: Mmio.Manager, pio: Option<PioManager>, vcpus: seq<Vcpu>)

  lemma ArchUnsubscribed(p: Platform, count: nat)
    ensures Unsubscribed(ArchPlan(p, count))
  {
    VcpusUnsubscribed(count);
    if p.IsX86() {
      UnsubscribedAppend(PioLegacyPlan, VcpusPlan(count));
      UnsubscribedAppend([SetupIrqchip], PioLegacyPlan + VcpusPlan(count));
    } else {
      UnsubscribedAppend([SetupIrqchip], MmioLegacyPlan(p));
      UnsubscribedAppend(VcpusPlan(count), [SetupIrqchip] + MmioLegacyPlan(p));
    }
  }

  /** The x86_64 block before the vCPUs: `setup_interrupt_controller`, then
      `attach_legacy_devices`. */
  method SetupIrqchipX86(host: Host, vm: Vm, pio: PioManager)
    returns (r: Result<(Vm, PioManager), Fault>, t: seq<Event>)
    ensures t == Run(host, [SetupIrqchip] + PioLegacyPlan) && Reports(host, t, r)
    ensures r.Ok? ==> r.value == (vm.(irqchip := true, irqfds := vm.irqfds + LegacyIrqfds),
                                  pio.(registered := true))
  {
    ghost var whole := [SetupIrqchip] + PioLegacyPlan;
    var irqchip, seg := SetupInterruptController(host, vm);
    Advance(host, whole, [], [SetupIrqchip], PioLegacyPlan, seg, irqchip);
    if irqchip.Err? {
      return Err(irqchip.error), [] + seg;
    }
    t := [] + seg;
    var legacy, lseg := AttachLegacyDevicesX86(host, irqchip.value, pio);
    Advance(host, whole, t, PioLegacyPlan, [], lseg, legacy);
    if legacy.Err? {
      return Err(legacy.error), t + lseg;
    }
    t := t + lseg;
    r := legacy;
  }

  /** The x86_64 block: `setup_interrupt_controller`, `attach_legacy_devices`,
      `create_vcpus_x86_64`. */
  method SetupArchX86(host: Host, consts: Consts, count: nat, entry: nat, vm: Vm, pio: PioManager)
    returns (r: Result<Arch, Fault>, t: seq<Event>)
    ensures t == Run(host, ArchPlan(X86_64Linux, count)) && Reports(host, t, r)
    ensures r.Ok? ==> r.value == Arch(vm.(irqchip := true, irqfds := vm.irqfds + LegacyIrqfds),
                                      LegacyManager(X86_64Linux, consts), Some(pio.(registered := true)),
                                      KvmVcpus(count, entry))
  {
    ghost var whole := ArchPlan(X86_64Linux, count);
    assert whole == ([SetupIrqchip] + PioLegacyPlan) + VcpusPlan(count);
    var legacy, seg := SetupIrqchipX86(host, vm, pio);
    Advance(host, whole, [], [SetupIrqchip] + PioLegacyPlan, VcpusPlan(count), seg, legacy);
    if legacy.Err? {
      return Err(legacy.error), [] + seg;
    }
    t := [] + seg;
    var vcpus, vseg := CreateVcpusKvm(host, count, entry);
    Advance(host, whole, t, VcpusPlan(count), [], vseg, vcpus);
    if vcpus.Err? {
      return Err(vcpus.error), t + vseg;
    }
    t := t + vseg;
    var m := Mmio.New(consts.mmioMemStart, consts.irqBase, consts.mmioLen);
    r := Ok(Arch(legacy.value.0, m, Some(legacy.value.1), vcpus.value));
  }

  /** `create_vcpus_aarch64`, on Linux or on macOS. */
  method CreateVcpusArm(p: Platform, host: Host, count: nat, entry: nat)
    returns (r: Result<seq<Vcpu>, Fault>, t: seq<Event>)
    requires !p.IsX86()
    ensures Stalls(p, count) ==> r == Err(Panic) && t == []
    ensures !Stalls(p, count) ==> t == Run(host, VcpusPlan(count)) && Reports(host, t, r)
    ensures r.Ok? ==> !Stalls(p, count) && r.value == ArchVcpus(p, count, entry)
  {
    if p.IsMacOS() {
      r, t := CreateVcpusMacOS(host, count, entry);
    } else {
      r, t := CreateVcpusKvm(host, count, entry);
    }
  }

  /** The aarch64 block after the vCPUs: `setup_interrupt_controller`, then
      `attach_legacy_devices`. */
  method SetupIrqchipArm(p: Platform, host: Host, consts: Consts, vm: Vm)
    returns (r: Result<(Vm, Mmio.Manager), Fault>, t: seq<Event>)
    requires !p.IsX86()
    ensures t == Run(host, [SetupIrqchip] + MmioLegacyPlan(p)) && Reports(host, t, r)
    ensures r.Ok? ==> r.value == (vm.(irqchip := true), LegacyManager(p, consts))
  {
    ghost var whole := [SetupIrqchip] + MmioLegacyPlan(p);
    var irqchip, seg := SetupInterruptController(host, vm);
    Advance(host, whole, [], [SetupIrqchip], MmioLegacyPlan(p), seg, irqchip);
    if irqchip.Err? {
      return Err(irqchip.error), [] + seg;
    }
    t := [] + seg;
    var m := Mmio.New(consts.mmioMemStart, consts.irqBase, consts.mmioLen);
    var legacy, lseg := AttachLegacyDevicesArm(p, host, m);
    Advance(host, whole, t, MmioLegacyPlan(p), [], lseg, legacy);
    if legacy.Err? {
      return Err(legacy.error), t + lseg;
    }
    t := t + lseg;
    r := Ok((irqchip.value, legacy.value));
  }

  /** The aarch64 block: `create_vcpus_aarch64`, `setup_interrupt_controller`,
      `attach_legacy_devices`. */
  method SetupArchArm(p: Platform, host: Host, consts: Consts, count: nat, entry: nat, vm: Vm)
    returns (r: Result<Arch, Fault>, t: seq<Event>)
    requires !p.IsX86()
    ensures Stalls(p, count) ==> r == Err(Panic) && t == []
    ensures !Stalls(p, count) ==> t == Run(host, ArchPlan(p, count)) && Reports(host, t, r)
    ensures r.Ok? ==> (!Stalls(p, count)
      && r.value == Arch(vm.(irqchip := true), LegacyManager(p, consts), None, ArchVcpus(p, count, entry)))
  {
    var vcpus, seg := CreateVcpusArm(p, host, count, entry);
    if Stalls(p, count) {
      return Err(Panic), seg;
    }
    ghost var whole := ArchPlan(p, count);
    Advance(host, whole, [], VcpusPlan(count), [SetupIrqchip] + MmioLegacyPlan(p), seg, vcpus);
    if vcpus.Err? {
      return Err(vcpus.error), [] + seg;
    }
    t := [] + seg;
    var rest, rseg := SetupIrqchipArm(p, host, consts, vm);
    Advance(host, whole, t, [SetupIrqchip] + MmioLegacyPlan(p), [], rseg, rest);
    if rest.Err? {
      return Err(rest.error), t + rseg;
    }
    t := t + rseg;
    r := Ok(Arch(rest.value.0, rest.value.1, None, vcpus.value));
  }
}
