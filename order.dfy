/** The order of a build: every call `build_microvm` can make has a rank (see
    `Events.RankOf`), and the calls of every plan, hence of every build, come
    in strictly increasing rank. From that follow the orderings the builder
    promises: the configuration checks and the guest memory before the VM, the
    interrupt controller before the vCPUs on x86_64 and after them on
    aarch64, the legacy devices right after the interrupt controller, the
    devices in their fixed order, each device subscribed before it is
    registered and registered before it is described, and the epilog after
    every device. */
module Order {
  import opened Events
  import opened Machine
  import Mmio
  import opened Setup
  import opened Vcpus
  import opened Devices
  import opened Legacy
  import opened Stages
  import opened Attach
  import opened Tail
  import opened Builder
  import Built

  // ---------------------------------------------------------------------------
  // Tools

  lemma OrderlyWiden(p: Platform, t: seq<Event>, lo: Rank, hi: Rank, lo': Rank, hi': Rank)
    requires Orderly(p, t, lo, hi) && AtMost(lo', lo) && AtMost(hi, hi')
    ensures Orderly(p, t, lo', hi')
  {
  }

  lemma OrderlyOne(p: Platform, e: Event, lo: Rank, hi: Rank)
    requires AtMost(lo, RankOf(p, e)) && Below(RankOf(p, e), hi)
    ensures Orderly(p, [e], lo, hi)
  {
  }

  /** A call the plan makes only under condition `c`. */
  lemma OrderlyOpt(p: Platform, c: bool, e: Event, lo: Rank, hi: Rank)
    requires c ==> AtMost(lo, RankOf(p, e)) && Below(RankOf(p, e), hi)
    ensures Orderly(p, if c then [e] else [], lo, hi)
  {
  }

  lemma OrderlyPair(p: Platform, a: Event, b: Event, lo: Rank, hi: Rank)
    requires AtMost(lo, RankOf(p, a)) && Below(RankOf(p, a), RankOf(p, b)) && Below(RankOf(p, b), hi)
    ensures Orderly(p, [a, b], lo, hi)
  {
    OrderlyOne(p, a, lo, RankOf(p, b));
    OrderlyOne(p, b, RankOf(p, b), hi);
    OrderlyAppend(p, [a], [b], lo, RankOf(p, b), hi);
    assert [a] + [b] == [a, b];
  }

  /** Three stages in a row. */
  lemma OrderlyAppend3(p: Platform, t1: seq<Event>, t2: seq<Event>, t3: seq<Event>,
                       r0: Rank, r1: Rank, r2: Rank, r3: Rank)
    requires AtMost(r0, r1) && AtMost(r1, r2) && AtMost(r2, r3)
    requires Orderly(p, t1, r0, r1) && Orderly(p, t2, r1, r2) && Orderly(p, t3, r2, r3)
    ensures Orderly(p, t1 + (t2 + t3), r0, r3)
  {
    OrderlyAppend(p, t2, t3, r1, r2, r3);
    OrderlyAppend(p, t1, t2 + t3, r0, r1, r3);
  }

  // ---------------------------------------------------------------------------
  // Ranks of the per-item calls

  lemma VcpuRanks(p: Platform, i: nat)
    ensures RankOf(p, CloneExitEvent(ForVcpu(i))) == Rank(VcpuStage(p), i, 0)
    ensures RankOf(p, NewVcpu(i)) == Rank(VcpuStage(p), i, 1)
    ensures RankOf(p, ConfigureVcpu(i)) == Rank(VcpuStage(p), i, 2)
  {
  }

  /** Balloon and vsock: subscription, interrupt controller, registration,
      description. */
  lemma SubscribeFirstRanks(p: Platform, dev: Device, base: nat, irq: nat)
    requires dev.Balloon? || dev.Vsock?
    ensures var (s, k) := DeviceSlot(p, dev);
      RankOf(p, Subscribe(DeviceSub(dev))) == Rank(s, k, 0) && RankOf(p, SetIntc(dev)) == Rank(s, k, 1)
      && RankOf(p, RegisterMmio(dev)) == Rank(s, k, 2) && RankOf(p, AddToCmdline(dev, base, irq)) == Rank(s, k, 3)
  {
  }

  /** The console's calls before its subscription. */
  lemma ConsoleFrontRanks(p: Platform)
    ensures RankOf(p, SetIntc(Console)) == Rank(ConsoleStage, 0, 0)
    ensures RankOf(p, DisableInteractive) == Rank(ConsoleStage, 0, 1)
    ensures RankOf(p, Subscribe(DeviceSub(Console))) == Rank(ConsoleStage, 0, 2)
  {
  }

  /** The console's calls from the SIGWINCH handler on. */
  lemma ConsoleBackRanks(p: Platform, base: nat, irq: nat)
    ensures RankOf(p, RegisterSigwinch) == Rank(ConsoleStage, 0, 3)
    ensures RankOf(p, RegisterMmio(Console)) == Rank(ConsoleStage, 0, 4)
    ensures RankOf(p, AddToCmdline(Console, base, irq)) == Rank(ConsoleStage, 0, 5)
  {
  }

  lemma FsRanks(p: Platform, k: nat, id: string, base: nat, irq: nat)
    ensures RankOf(p, SetIntc(Fs(k, id))) == Rank(FsStage, k, 0)
    ensures RankOf(p, SetShm(Fs(k, id))) == Rank(FsStage, k, 1)
    ensures RankOf(p, Subscribe(DeviceSub(Fs(k, id)))) == Rank(FsStage, k, 2)
    ensures RankOf(p, RegisterMmio(Fs(k, id))) == Rank(FsStage, k, 3)
    ensures RankOf(p, AddToCmdline(Fs(k, id), base, irq)) == Rank(FsStage, k, 4)
  {
  }

  /** The MMIO attachment of a device whose registration has rank `(s, k, step)`
      and whose description comes right after it. */
  lemma MmioOrderly(p: Platform, dev: Device, m: Mmio.Manager, s: nat, k: nat, step: nat)
    requires RankOf(p, RegisterMmio(dev)) == Rank(s, k, step)
    requires RankOf(p, AddToCmdline(dev, m.nextBase, m.nextIrq)) == Rank(s, k, step + 1)
    ensures Orderly(p, MmioPlan(p, dev, m), Rank(s, k, step), Rank(s, k + 1, 0))
  {
    OrderlyOne(p, RegisterMmio(dev), Rank(s, k, step), Rank(s, k, step + 1));
    OrderlyOpt(p, p.IsX86(), AddToCmdline(dev, m.nextBase, m.nextIrq), Rank(s, k, step + 1), Rank(s, k + 1, 0));
    OrderlyAppend(p, [RegisterMmio(dev)], if p.IsX86() then [AddToCmdline(dev, m.nextBase, m.nextIrq)] else [],
                  Rank(s, k, step), Rank(s, k, step + 1), Rank(s, k + 1, 0));
  }

  // ---------------------------------------------------------------------------
  // The stages

  /** Guest memory and the prolog: stages 1 and 2. */
  lemma MemoryPrologOrderly(p: Platform, consts: Consts, res: VmResources, mib: nat, kernel: KernelBundle)
    ensures Orderly(p, MemoryPlan(p, mib, kernel) + [InsertProlog(PrologText(consts, res))], StageStart(1), StageStart(3))
  {
    var memory := MemoryPlan(p, mib, kernel);
    OrderlyPair(p, memory[0], memory[1], StageStart(1), StageStart(2));
    assert memory == [memory[0], memory[1]];
    var prolog := InsertProlog(PrologText(consts, res));
    OrderlyOne(p, prolog, StageStart(2), StageStart(3));
    OrderlyAppend(p, memory, [prolog], StageStart(1), StageStart(2), StageStart(3));
  }

  /** The VM: stage 3. */
  lemma VmOrderly(p: Platform)
    ensures Orderly(p, VmPlan(p), StageStart(3), StageStart(4))
  {
    OrderlyOpt(p, p.IsLinux(), OpenKvm, StageStart(3), Rank(3, 0, 1));
    OrderlyPair(p, CreateVm, MemoryInit, Rank(3, 0, 1), StageStart(4));
    OrderlyAppend(p, if p.IsLinux() then [OpenKvm] else [], [CreateVm, MemoryInit],
                  StageStart(3), Rank(3, 0, 1), StageStart(4));
  }

  /** The exit event and the port-I/O manager: stages 4 and 5. */
  lemma ExitOrderly(p: Platform)
    ensures Orderly(p, ExitPlan(p), StageStart(4), StageStart(6))
  {
    OrderlyOne(p, CreateExitEvent, StageStart(4), StageStart(5));
    if p.IsX86() {
      OrderlyPair(p, CloneExitEvent(ForPio), CreatePioManager, StageStart(5), StageStart(6));
    }
    assert Orderly(p, PioPlan(p), StageStart(5), StageStart(6));
    OrderlyAppend(p, [CreateExitEvent], PioPlan(p), StageStart(4), StageStart(5), StageStart(6));
  }

  /** Guest memory, the prolog, the VM, the exit event and the port-I/O
      manager: stages 1 to 5. */
  lemma PrepareOrderly(p: Platform, consts: Consts, res: VmResources, mib: nat, kernel: KernelBundle)
    ensures Orderly(p, PreparePlan(p, consts, res, mib, kernel), StageStart(1), StageStart(6))
  {
    MemoryPrologOrderly(p, consts, res, mib, kernel);
    VmOrderly(p);
    ExitOrderly(p);
    OrderlyAppend3(p, MemoryPlan(p, mib, kernel) + [InsertProlog(PrologText(consts, res))], VmPlan(p), ExitPlan(p),
                   StageStart(1), StageStart(3), StageStart(4), StageStart(6));
  }

  lemma VcpuOrderly(p: Platform, i: nat)
    ensures Orderly(p, VcpuPlan(i), Rank(VcpuStage(p), i, 0), Rank(VcpuStage(p), i + 1, 0))
  {
    var s := VcpuStage(p);
    VcpuRanks(p, i);
    OrderlyOne(p, CloneExitEvent(ForVcpu(i)), Rank(s, i, 0), Rank(s, i, 1));
    OrderlyPair(p, NewVcpu(i), ConfigureVcpu(i), Rank(s, i, 1), Rank(s, i + 1, 0));
    OrderlyAppend(p, [CloneExitEvent(ForVcpu(i))], [NewVcpu(i), ConfigureVcpu(i)], Rank(s, i, 0), Rank(s, i, 1), Rank(s, i + 1, 0));
    assert VcpuPlan(i) == [CloneExitEvent(ForVcpu(i))] + [NewVcpu(i), ConfigureVcpu(i)];
  }

  /** vCPUs `0 .. n-1` in index order, within the vCPU stage. */
  lemma {:induction false} VcpusOrderly(p: Platform, n: nat)
    ensures Orderly(p, VcpusPlan(n), StageStart(VcpuStage(p)), Rank(VcpuStage(p), n, 0))
  {
    if n > 0 {
      VcpusOrderly(p, n - 1);
      VcpuOrderly(p, n - 1);
      var s := VcpuStage(p);
      OrderlyAppend(p, VcpusPlan(n - 1), VcpuPlan(n - 1), StageStart(s), Rank(s, n - 1, 0), Rank(s, n, 0));
    }
  }

  /** The x86_64 legacy devices on port I/O: stage 7. */
  lemma PioLegacyOrderly(p: Platform)
    requires p.IsX86()
    ensures Orderly(p, PioLegacyPlan, StageStart(7), StageStart(8))
  {
    OrderlyPair(p, RegisterPioDevices, RegisterIrqfd(Com1And3, 4), StageStart(7), Rank(7, 0, 2));
    OrderlyPair(p, RegisterIrqfd(Com2And4, 3), RegisterIrqfd(Keyboard, 1), Rank(7, 0, 2), StageStart(8));
    OrderlyAppend(p, [RegisterPioDevices, RegisterIrqfd(Com1And3, 4)], [RegisterIrqfd(Com2And4, 3), RegisterIrqfd(Keyboard, 1)],
                  StageStart(7), Rank(7, 0, 2), StageStart(8));
    assert PioLegacyPlan == [RegisterPioDevices, RegisterIrqfd(Com1And3, 4)] + [RegisterIrqfd(Com2And4, 3), RegisterIrqfd(Keyboard, 1)];
  }

  /** The aarch64 legacy devices on MMIO: stage 8. */
  lemma MmioLegacyOrderly(p: Platform)
    requires !p.IsX86()
    ensures Orderly(p, MmioLegacyPlan(p), StageStart(8), StageStart(9))
  {
    OrderlyOne(p, RegisterMmio(Rtc), StageStart(8), Rank(8, 3, 0));
    OrderlyOpt(p, p.IsMacOS(), RegisterMmio(Gic), Rank(8, 3, 0), StageStart(9));
    OrderlyAppend(p, [RegisterMmio(Rtc)], if p.IsMacOS() then [RegisterMmio(Gic)] else [],
                  StageStart(8), Rank(8, 3, 0), StageStart(9));
  }

  /** The per-architecture block: stages 6 to 8, in the platform's order. */
  lemma ArchOrderly(p: Platform, count: nat)
    ensures Orderly(p, ArchPlan(p, count), StageStart(6), StageStart(9))
  {
    VcpusOrderly(p, count);
    var vcpus := VcpusPlan(count);
    if p.IsX86() {
      OrderlyWiden(p, vcpus, StageStart(8), Rank(8, count, 0), StageStart(8), StageStart(9));
      OrderlyOne(p, SetupIrqchip, StageStart(6), StageStart(7));
      PioLegacyOrderly(p);
      OrderlyAppend3(p, [SetupIrqchip], PioLegacyPlan, vcpus, StageStart(6), StageStart(7), StageStart(8), StageStart(9));
    } else {
      OrderlyWiden(p, vcpus, StageStart(6), Rank(6, count, 0), StageStart(6), StageStart(7));
      OrderlyOne(p, SetupIrqchip, StageStart(7), StageStart(8));
      MmioLegacyOrderly(p);
      OrderlyAppend3(p, vcpus, [SetupIrqchip], MmioLegacyPlan(p), StageStart(6), StageStart(7), StageStart(8), StageStart(9));
    }
  }

  /** The balloon or vsock attachment: subscription, interrupt controller,
      registration, description, within the device's own stage. */
  lemma SubscribeFirstOrderly(p: Platform, dev: Device, m: Mmio.Manager)
    requires dev.Balloon? || dev.Vsock?
    ensures var (s, _) := DeviceSlot(p, dev);
      Orderly(p, SubscribeFirstPlan(p, dev, m), StageStart(s), StageStart(s + 1))
  {
    var (s, k) := DeviceSlot(p, dev);
    SubscribeFirstRanks(p, dev, m.nextBase, m.nextIrq);
    OrderlyOne(p, Subscribe(DeviceSub(dev)), Rank(s, k, 0), Rank(s, k, 1));
    OrderlyOpt(p, p.IsMacOS(), SetIntc(dev), Rank(s, k, 1), Rank(s, k, 2));
    OrderlyAppend(p, [Subscribe(DeviceSub(dev))], IntcPlan(p, dev), Rank(s, k, 0), Rank(s, k, 1), Rank(s, k, 2));
    MmioOrderly(p, dev, m, s, k, 2);
    OrderlyAppend(p, [Subscribe(DeviceSub(dev))] + IntcPlan(p, dev), MmioPlan(p, dev, m), Rank(s, k, 0), Rank(s, k, 2), Rank(s, k + 1, 0));
    assert Front([], dev, IntcPlan(p, dev)) == [Subscribe(DeviceSub(dev))] + IntcPlan(p, dev);
  }

  /** The console up to its SIGWINCH handler: interrupt controller,
      non-interactive mode, subscription, handler. */
  lemma ConsoleFrontOrderly(p: Platform, host: Host)
    ensures Orderly(p, Front(ConsolePre(p, host), Console, SigwinchPlan(p)), Rank(ConsoleStage, 0, 0), Rank(ConsoleStage, 0, 4))
  {
    var s := ConsoleStage;
    ConsoleFrontRanks(p);
    ConsoleBackRanks(p, 0, 0);
    OrderlyOpt(p, p.IsMacOS(), SetIntc(Console), Rank(s, 0, 0), Rank(s, 0, 1));
    OrderlyOpt(p, !host.stdinPollable, DisableInteractive, Rank(s, 0, 1), Rank(s, 0, 2));
    var pre := ConsolePre(p, host);
    OrderlyAppend(p, IntcPlan(p, Console), if host.stdinPollable then [] else [DisableInteractive],
                  Rank(s, 0, 0), Rank(s, 0, 1), Rank(s, 0, 2));
    OrderlyOne(p, Subscribe(DeviceSub(Console)), Rank(s, 0, 2), Rank(s, 0, 3));
    OrderlyOpt(p, p.IsLinux(), RegisterSigwinch, Rank(s, 0, 3), Rank(s, 0, 4));
    OrderlyAppend(p, pre, [Subscribe(DeviceSub(Console))], Rank(s, 0, 0), Rank(s, 0, 2), Rank(s, 0, 3));
    OrderlyAppend(p, pre + [Subscribe(DeviceSub(Console))], SigwinchPlan(p), Rank(s, 0, 0), Rank(s, 0, 3), Rank(s, 0, 4));
  }

  /** The console: interrupt controller, non-interactive mode, subscription,
      SIGWINCH handler, registration, description. */
  lemma ConsoleOrderly(p: Platform, host: Host, m: Mmio.Manager)
    ensures Orderly(p, ConsolePlan(p, host, m), StageStart(ConsoleStage), StageStart(ConsoleStage + 1))
  {
    var s := ConsoleStage;
    ConsoleFrontOrderly(p, host);
    ConsoleBackRanks(p, m.nextBase, m.nextIrq);
    MmioOrderly(p, Console, m, s, 0, 4);
    OrderlyAppend(p, Front(ConsolePre(p, host), Console, SigwinchPlan(p)), MmioPlan(p, Console, m), Rank(s, 0, 0), Rank(s, 0, 4), Rank(s, 1, 0));
  }

  /** One filesystem device: interrupt controller, shared-memory region,
      subscription, registration, description. */
  lemma FsItemOrderly(p: Platform, fs: seq<FsConfig>, k: nat, m: Mmio.Manager)
    requires k < |fs|
    ensures Orderly(p, FsItem(p, fs, k, m), Rank(FsStage, k, 0), Rank(FsStage, k + 1, 0))
  {
    var s := FsStage;
    var dev := Fs(k, fs[k].id);
    var m' := Mmio.RegisterAll(m, FsDevices(fs, k));
    FsRanks(p, k, fs[k].id, m'.nextBase, m'.nextIrq);
    OrderlyOpt(p, p.IsMacOS(), SetIntc(dev), Rank(s, k, 0), Rank(s, k, 1));
    OrderlyOpt(p, p.IsLinux(), SetShm(dev), Rank(s, k, 1), Rank(s, k, 2));
    OrderlyAppend(p, IntcPlan(p, dev), if p.IsLinux() then [SetShm(dev)] else [], Rank(s, k, 0), Rank(s, k, 1), Rank(s, k, 2));
    OrderlyOne(p, Subscribe(DeviceSub(dev)), Rank(s, k, 2), Rank(s, k, 3));
    OrderlyAppend(p, FsPre(p, dev), [Subscribe(DeviceSub(dev))], Rank(s, k, 0), Rank(s, k, 2), Rank(s, k, 3));
    assert Front(FsPre(p, dev), dev, []) == FsPre(p, dev) + [Subscribe(DeviceSub(dev))];
    MmioOrderly(p, dev, m', s, k, 3);
    OrderlyAppend(p, Front(FsPre(p, dev), dev, []), MmioPlan(p, dev, m'), Rank(s, k, 0), Rank(s, k, 3), Rank(s, k + 1, 0));
  }

  /** Filesystem devices `0 .. n-1` in list order. */
  lemma {:induction false} FsOrderly(p: Platform, fs: seq<FsConfig>, n: nat, m: Mmio.Manager)
    requires n <= |fs|
    ensures Orderly(p, FsPlan(p, fs, n, m), StageStart(FsStage), Rank(FsStage, n, 0))
  {
    if n > 0 {
      FsOrderly(p, fs, n - 1, m);
      FsItemOrderly(p, fs, n - 1, m);
      OrderlyAppend(p, FsPlan(p, fs, n - 1, m), FsItem(p, fs, n - 1, m),
                    StageStart(FsStage), Rank(FsStage, n - 1, 0), Rank(FsStage, n, 0));
    }
  }

  /** Balloon, console, filesystem devices, vsock: stages 9 to 12. */
  lemma DevicesOrderly(p: Platform, host: Host, consts: Consts, res: VmResources, m: Mmio.Manager)
    ensures Orderly(p, DevicesPlan(p, host, consts, res, m), StageStart(BalloonStage), StageStart(EpilogStage))
  {
    var balloon := Balloon(consts.balloonId);
    SubscribeFirstOrderly(p, balloon, m);
    ConsoleOrderly(p, host, Mmio.Register(m, balloon));
    OrderlyAppend(p, SubscribeFirstPlan(p, balloon, m), ConsolePlan(p, host, Mmio.Register(m, balloon)),
                  StageStart(9), StageStart(10), StageStart(11));
    var m' := Mmio.RegisterAll(m, [balloon, Console]);
    FsOrderly(p, res.fs, |res.fs|, m');
    var fsPlan := FsPlan(p, res.fs, |res.fs|, m');
    OrderlyWiden(p, fsPlan, StageStart(11), Rank(11, |res.fs|, 0), StageStart(11), StageStart(12));
    var vsock := VsockPlan(p, res, Mmio.RegisterAll(m', FsDevices(res.fs, |res.fs|)));
    if res.vsock.Some? {
      SubscribeFirstOrderly(p, Vsock(res.vsock.value), Mmio.RegisterAll(m', FsDevices(res.fs, |res.fs|)));
    }
    assert Orderly(p, vsock, StageStart(12), StageStart(13));
    OrderlyAppend(p, fsPlan, vsock, StageStart(11), StageStart(12), StageStart(13));
    OrderlyAppend(p, FrontPlan(p, host, consts, m), BackPlan(p, res, m'), StageStart(9), StageStart(11), StageStart(13));
  }

  /** The epilog and `load_cmdline`: stages 13 and 14. */
  lemma FinalCmdlineOrderly(p: Platform, res: VmResources)
    ensures Orderly(p, FinalCmdlinePlan(p, res), StageStart(EpilogStage), StageStart(15))
  {
    if res.epilog.Some? {
      OrderlyOne(p, InsertEpilog(res.epilog.value), StageStart(13), StageStart(14));
    }
    if p.IsX86() {
      OrderlyPair(p, SerializeCmdline, LoadCmdline, StageStart(14), StageStart(15));
    }
    OrderlyAppend(p, EpilogPlan(res), LoadPlan(p), StageStart(13), StageStart(14), StageStart(15));
  }

  /** System configuration, vCPU start, the VMM's subscription: stages 15 to 17. */
  lemma StartOrderly(p: Platform)
    ensures Orderly(p, StartPlan, StageStart(15), StageStart(18))
  {
    OrderlyPair(p, ConfigureSystem, StartVcpus, StageStart(15), StageStart(17));
    OrderlyOne(p, Subscribe(Machine), StageStart(17), StageStart(18));
    OrderlyAppend(p, SystemPlan, [Subscribe(Machine)], StageStart(15), StageStart(17), StageStart(18));
    assert StartPlan == SystemPlan + [Subscribe(Machine)];
  }

  /** Epilog, command line, system configuration, vCPU start, the VMM's
      subscription: stages 13 to 17. */
  lemma TailOrderly(p: Platform, res: VmResources)
    ensures Orderly(p, TailPlan(p, res), StageStart(EpilogStage), StageStart(18))
  {
    FinalCmdlineOrderly(p, res);
    StartOrderly(p);
    OrderlyAppend(p, FinalCmdlinePlan(p, res), StartPlan, StageStart(13), StageStart(15), StageStart(18));
  }

  /** Every call a build with a kernel can make, in strictly increasing rank. */
  lemma BuildOrderly(p: Platform, host: Host, consts: Consts, res: VmResources)
    requires res.kernel.Some?
    ensures Orderly(p, BuildPlan(p, host, consts, res), StageStart(0), StageStart(18))
  {
    var sized := SizedPlan(p, host, consts, res);
    assert Orderly(p, [BuildKernelRegion], StageStart(0), StageStart(1));
    if res.memSizeMib.Some? {
      var mib, kernel := res.memSizeMib.value, res.kernel.value;
      var prep := PreparePlan(p, consts, res, mib, kernel);
      PrepareOrderly(p, consts, res, mib, kernel);
      if !Stalls(p, res.vcpuCount) {
        ArchOrderly(p, res.vcpuCount);
        DevicesOrderly(p, host, consts, res, LegacyManager(p, consts));
        TailOrderly(p, res);
        var devices := DevicesPlan(p, host, consts, res, LegacyManager(p, consts));
        OrderlyAppend(p, devices, TailPlan(p, res), StageStart(9), StageStart(13), StageStart(18));
        OrderlyAppend3(p, prep, ArchPlan(p, res.vcpuCount), AssemblyPlan(p, host, consts, res),
                       StageStart(1), StageStart(6), StageStart(9), StageStart(18));
      } else {
        OrderlyWiden(p, prep, StageStart(1), StageStart(6), StageStart(1), StageStart(18));
        assert prep + [] == prep;
      }
    } else {
      assert Orderly(p, sized, StageStart(1), StageStart(18));
    }
    OrderlyAppend(p, [BuildKernelRegion], sized, StageStart(0), StageStart(1), StageStart(18));
  }

  // ---------------------------------------------------------------------------
  // What every build does in order

  /** Whatever fails, the calls a build made come in strictly increasing rank:
      of two calls, the one ranked lower came first. */
  lemma BuildOrder(p: Platform, host: Host, consts: Consts, res: VmResources, i: nat, j: nat)
    requires res.kernel.Some?
    requires i < |Run(host, BuildPlan(p, host, consts, res))| && j < |Run(host, BuildPlan(p, host, consts, res))|
    requires Below(RankOf(p, Run(host, BuildPlan(p, host, consts, res))[i]),
                   RankOf(p, Run(host, BuildPlan(p, host, consts, res))[j]))
    ensures i < j
  {
    var t := Run(host, BuildPlan(p, host, consts, res));
    BuildOrderly(p, host, consts, res);
    PrefixOrderly(p, t, BuildPlan(p, host, consts, res), StageStart(0), StageStart(18));
    RankDecidesPosition(p, t, i, j);
  }

  // ---------------------------------------------------------------------------
  // The orderings the builder promises, call by call

  /** The calls of a build that has a kernel. */
  function Trace(p: Platform, host: Host, consts: Consts, res: VmResources): seq<Event>
    requires res.kernel.Some?
  {
    Run(host, BuildPlan(p, host, consts, res))
  }

  /** Whatever fails, a build's calls come in strictly increasing rank. */
  lemma BuildIncreasing(p: Platform, host: Host, consts: Consts, res: VmResources)
    requires res.kernel.Some?
    ensures Increasing(p, Trace(p, host, consts, res))
  {
    BuildOrderly(p, host, consts, res);
    PrefixOrderly(p, Trace(p, host, consts, res), BuildPlan(p, host, consts, res), StageStart(0), StageStart(18));
  }

  lemma VcpusIrqchipIn(p: Platform, t: seq<Event>, i: nat, j: nat)
    requires Increasing(p, t) && i < |t| && j < |t|
    requires t[i] == SetupIrqchip && t[j].NewVcpu?
    ensures p.IsX86() <==> i < j
  {
    assert t[j] == NewVcpu(t[j].index);
    if p.IsX86() {
      RankDecidesPosition(p, t, i, j);
    } else {
      RankDecidesPosition(p, t, j, i);
    }
  }

  lemma AttachmentStepsIn(p: Platform, t: seq<Event>, dev: Device, i: nat, j: nat)
    requires Increasing(p, t) && i < |t| && j < |t|
    requires (t[i] == Subscribe(DeviceSub(dev)) && t[j] == RegisterMmio(dev))
          || (t[i] == RegisterMmio(dev) && t[j].AddToCmdline? && t[j].dev == dev)
    ensures i < j
  {
    if t[j].AddToCmdline? {
      assert t[j] == AddToCmdline(dev, t[j].base, t[j].irq);
    }
    RankDecidesPosition(p, t, i, j);
  }

  lemma EpilogAfterDevicesIn(p: Platform, t: seq<Event>, i: nat, j: nat)
    requires Increasing(p, t) && i < |t| && j < |t|
    requires t[j].InsertEpilog?
    requires t[i].SetIntc? || t[i].SetShm? || t[i].DisableInteractive? || t[i].RegisterSigwinch?
          || t[i].RegisterMmio? || t[i].AddToCmdline? || (t[i].Subscribe? && t[i].who.DeviceSub?)
    ensures i < j
  {
    assert t[j] == InsertEpilog(t[j].text);
    RankDecidesPosition(p, t, i, j);
  }

  /** The guest memory is mapped before the VM is created. */
  lemma MemoryBeforeVm(p: Platform, host: Host, consts: Consts, res: VmResources, i: nat, j: nat)
    requires res.kernel.Some?
    requires i < |Trace(p, host, consts, res)| && j < |Trace(p, host, consts, res)|
    requires Trace(p, host, consts, res)[i].MapGuestMemory? && Trace(p, host, consts, res)[j] == CreateVm
    ensures i < j
  {
    BuildOrder(p, host, consts, res, i, j);
  }

  /** The interrupt controller is set up before any vCPU is created on x86_64,
      and after every vCPU on aarch64. */
  lemma IrqchipAroundVcpus(p: Platform, host: Host, consts: Consts, res: VmResources, i: nat, j: nat)
    requires res.kernel.Some?
    requires i < |Trace(p, host, consts, res)| && j < |Trace(p, host, consts, res)|
    requires Trace(p, host, consts, res)[i] == SetupIrqchip && Trace(p, host, consts, res)[j].NewVcpu?
    ensures p.IsX86() <==> i < j
  {
    BuildIncreasing(p, host, consts, res);
    VcpusIrqchipIn(p, Trace(p, host, consts, res), i, j);
  }

  /** A device is subscribed before it is registered with the MMIO manager,
      and registered before it is described on the command line. */
  lemma SubscribedRegisteredDescribed(p: Platform, host: Host, consts: Consts, res: VmResources,
                                      dev: Device, i: nat, j: nat)
    requires res.kernel.Some?
    requires i < |Trace(p, host, consts, res)| && j < |Trace(p, host, consts, res)|
    requires (Trace(p, host, consts, res)[i] == Subscribe(DeviceSub(dev))
              && Trace(p, host, consts, res)[j] == RegisterMmio(dev))
          || (Trace(p, host, consts, res)[i] == RegisterMmio(dev)
              && Trace(p, host, consts, res)[j].AddToCmdline? && Trace(p, host, consts, res)[j].dev == dev)
    ensures i < j
  {
    BuildIncreasing(p, host, consts, res);
    AttachmentStepsIn(p, Trace(p, host, consts, res), dev, i, j);
  }

  /** Where the registration of the k-th attached device ranks: its stage,
      and for a filesystem device its position in the list. */
  lemma AttachedRank(p: Platform, consts: Consts, res: VmResources, k: nat)
    requires k < |Attached(consts, res)|
    ensures var r := RankOf(p, RegisterMmio(Attached(consts, res)[k]));
      && r.stage == (if k == 0 then BalloonStage else if k == 1 then ConsoleStage
                     else if k < 2 + |res.fs| then FsStage else VsockStage)
      && r.item == (if 2 <= k < 2 + |res.fs| then k - 2 else 0)
  {
    var devs := Attached(consts, res);
    Built.AttachedOrder(consts, res);
    if 2 <= k < 2 + |res.fs| {
      assert devs[k] == Fs(k - 2, res.fs[k - 2].id);
    } else if 2 <= k {
      assert devs[k] == Vsock(res.vsock.value);
    }
  }

  /** The devices of `Attach.Attached` rank in their list order. */
  lemma AttachedRanks(p: Platform, consts: Consts, res: VmResources, k1: nat, k2: nat)
    requires k1 < k2 < |Attached(consts, res)|
    ensures Below(RankOf(p, RegisterMmio(Attached(consts, res)[k1])), RankOf(p, RegisterMmio(Attached(consts, res)[k2])))
  {
    AttachedRank(p, consts, res, k1);
    AttachedRank(p, consts, res, k2);
  }

  /** The devices reach the MMIO manager in the order they are attached: the
      balloon, the console, the shares in list order, the vsock device. */
  lemma RegistrationOrder(p: Platform, host: Host, consts: Consts, res: VmResources,
                          k1: nat, k2: nat, i: nat, j: nat)
    requires res.kernel.Some?
    requires k1 < k2 < |Attached(consts, res)|
    requires i < |Trace(p, host, consts, res)| && j < |Trace(p, host, consts, res)|
    requires Trace(p, host, consts, res)[i] == RegisterMmio(Attached(consts, res)[k1])
    requires Trace(p, host, consts, res)[j] == RegisterMmio(Attached(consts, res)[k2])
    ensures i < j
  {
    BuildIncreasing(p, host, consts, res);
    AttachedRanks(p, consts, res, k1, k2);
    RankDecidesPosition(p, Trace(p, host, consts, res), i, j);
  }

  /** The epilog is written after every call of every device attachment. */
  lemma EpilogAfterDevices(p: Platform, host: Host, consts: Consts, res: VmResources, i: nat, j: nat)
    requires res.kernel.Some?
    requires i < |Trace(p, host, consts, res)| && j < |Trace(p, host, consts, res)|
    requires Trace(p, host, consts, res)[j].InsertEpilog?
    requires var e := Trace(p, host, consts, res)[i];
      e.SetIntc? || e.SetShm? || e.DisableInteractive? || e.RegisterSigwinch? || e.RegisterMmio?
      || e.AddToCmdline? || (e.Subscribe? && e.who.DeviceSub?)
    ensures i < j
  {
    BuildIncreasing(p, host, consts, res);
    EpilogAfterDevicesIn(p, Trace(p, host, consts, res), i, j);
  }
}
