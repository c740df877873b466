/** The builder's collaborators (hypervisor, event manager, MMIO and port-I/O
    device managers, kernel command line) seen as a sequence of calls. Each
    call is an `Event`; a `Host` says which calls fail and with which error; a
    build records the events it issued, in order, as its trace.

    The order the builder must follow is given once, by `Rank`: every trace the
    model produces is strictly increasing in rank. */
module Events {
  import opened Wrappers
  import opened Errors

  /** The compile-time targets the builder has code paths for. */
  datatype Platform = X86_64Linux | Aarch64Linux | Aarch64MacOS
  {
    predicate IsX86() { this == X86_64Linux }
    predicate IsLinux() { this != Aarch64MacOS }
    predicate IsMacOS() { this == Aarch64MacOS }
  }

  /** The devices the builder hands to the MMIO device manager. `Fs` devices
      carry their position in the configured list. */
  datatype Device =
    | Balloon(id: string)
    | Console
    | Fs(pos: nat, id: string)
    | Vsock(id: string)
    | Rtc
    | Gic

  /** What the event manager (the reactor) can have registered. */
  datatype Subscriber = DeviceSub(dev: Device) | SerialPort | Machine

  /** The three legacy x86 event sources wired to fixed interrupt lines. */
  datatype LegacyEvt = Com1And3 | Com2And4 | Keyboard

  /** Who asked for a clone of the exit event. */
  datatype ExitEvtUser = ForPio | ForVcpu(index: nat)

  /** One call of the builder into a collaborator, or one update it makes to a
      shared device (`SetIntc`, `SetShm`, `DisableInteractive`). */
  datatype Event =
    | BuildKernelRegion                         // MmapRegion::build_raw
    | MapGuestMemory(bytes: nat)                // GuestMemoryMmap::from_ranges
    | InsertKernelRegion(addr: nat)             // insert_region (Linux)
    | WriteKernel(addr: nat)                    // guest_mem.write(..).unwrap() (macOS)
    | InsertProlog(text: string)                // kernel_cmdline.insert_str(..).unwrap()
    | OpenKvm                                   // KvmContext::new (Linux)
    | CreateVm                                  // Vm::new
    | MemoryInit                                // vm.memory_init
    | CreateExitEvent                           // EventFd::new
    | CloneExitEvent(user: ExitEvtUser)         // exit_evt.try_clone
    | CreatePioManager                          // PortIODeviceManager::new (x86_64)
    | SetupIrqchip                              // vm.setup_irqchip
    | RegisterPioDevices                        // pio_device_manager.register_devices
    | RegisterIrqfd(evt: LegacyEvt, line: nat)  // vm.fd().register_irqfd
    | NewVcpu(index: nat)                       // Vcpu::new_*
    | ConfigureVcpu(index: nat)                 // vcpu.configure_*
    | SetIntc(dev: Device)                      // device.set_intc
    | SetShm(dev: Device)                       // device.set_shm_region
    | DisableInteractive                        // console.set_interactive(false)
    | Subscribe(who: Subscriber)                // event_manager.add_subscriber
    | RegisterSigwinch                          // register_sigwinch_handler (Linux)
    | RegisterMmio(dev: Device)                 // mmio_device_manager.register_mmio_*
    | AddToCmdline(dev: Device, base: nat, irq: nat) // add_device_to_cmdline (x86_64)
    | InsertEpilog(text: string)                // kernel_cmdline.insert_str(..).unwrap()
    | SerializeCmdline                          // kernel_cmdline.as_cstring
    | LoadCmdline                               // kernel::loader::load_cmdline
    | ConfigureSystem                           // vmm.configure_system
    | StartVcpus                                // vmm.start_vcpus
    | CreateSerialEvent                         // EventFd::new in setup_serial_device

  /** Updates of a device's own state: these cannot fail. */
  predicate Fallible(e: Event)
  {
    !(e.SetIntc? || e.SetShm? || e.DisableInteractive?)
  }

  /** The environment of one build: the error each call fails with (None when it
      succeeds) and whether standard input can be polled. */
  datatype Host = Host(fails: Event -> Option<Nested>, stdinPollable: bool)

  predicate Succeeds(host: Host, e: Event)
  {
    !Fallible(e) || host.fails(e).None?
  }

  /** How a build can end badly: an error value, or a panic from `unwrap()`. */
  datatype Fault = Error(err: StartMicrovmError) | Panic

  /** The error each device class is reported with when the MMIO manager
      refuses it (the `map_err` after each `attach_mmio_device`, and the
      `Error::RegisterMMIODevice` wrapping for the legacy MMIO devices). */
  function DeviceError(dev: Device, cause: Nested): (err: StartMicrovmError)
    ensures Carried(err) == Some(cause)
    ensures err.Internal? <==> !(dev.Balloon? || dev.Console? || dev.Fs? || dev.Vsock?)
    ensures err.Internal? ==> err.vmm.kind.RegisterMMIODevice?
  {
    match dev
    case Balloon(_) => RegisterBalloonDevice(cause)
    case Console => RegisterFsDevice(cause)
    case Fs(_, _) => RegisterFsDevice(cause)
    case Vsock(_) => RegisterVsockDevice(cause)
    case _ => Internal(VmmError(RegisterMMIODevice, cause))
  }

  /** The error class of each device, one device kind at a time. */
  lemma DeviceErrors(dev: Device, cause: Nested)
    ensures dev.Balloon? ==> DeviceError(dev, cause) == RegisterBalloonDevice(cause)
    ensures dev.Console? || dev.Fs? ==> DeviceError(dev, cause) == RegisterFsDevice(cause)
    ensures dev.Vsock? ==> DeviceError(dev, cause) == RegisterVsockDevice(cause)
  {
  }

  /** What a failed call turns into, as the builder's `map_err` chains say. */
  function Consequence(e: Event, cause: Nested): (f: Fault)
    requires Fallible(e)
    ensures f.Panic? <==> e.WriteKernel? || e.InsertProlog? || e.InsertEpilog?
    ensures f.Error? ==> Carried(f.err) == Some(cause)
  {
    match e
    case BuildKernelRegion => Error(KernelBundle(cause))
    case MapGuestMemory(_) => Error(GuestMemoryMmap(cause))
    case InsertKernelRegion(_) => Error(GuestMemoryMmap(cause))
    case WriteKernel(_) => Panic
    case InsertProlog(_) => Panic
    case OpenKvm => Error(Internal(VmmError(KvmContext, cause)))
    case CreateVm => Error(Internal(VmmError(Vm, cause)))
    case MemoryInit => Error(Internal(VmmError(Vm, cause)))
    case CreateExitEvent => Error(Internal(VmmError(EventFd, cause)))
    case CloneExitEvent(_) => Error(Internal(VmmError(EventFd, cause)))
    case CreatePioManager => Error(Internal(VmmError(CreateLegacyDevice, cause)))
    case SetupIrqchip => Error(Internal(VmmError(Vm, cause)))
    case RegisterPioDevices => Error(Internal(VmmError(LegacyIOBus, cause)))
    case RegisterIrqfd(_, _) => Error(Internal(VmmError(LegacyIOBus, cause)))
    case NewVcpu(_) => Error(Internal(VmmError(Vcpu, cause)))
    case ConfigureVcpu(_) => Error(Internal(VmmError(Vcpu, cause)))
    case Subscribe(_) => Error(RegisterEvent(cause))
    case RegisterSigwinch => Error(RegisterFsSigwinch(cause))
    case RegisterMmio(dev) => Error(DeviceError(dev, cause))
    case AddToCmdline(dev, _, _) => Error(DeviceError(dev, cause))
    case InsertEpilog(_) => Panic
    case SerializeCmdline => Error(LoadCommandline(cause))
    case LoadCmdline => Error(LoadCommandline(cause))
    case ConfigureSystem => Error(Internal(VmmError(Unspecified, cause)))
    case StartVcpus => Error(Internal(VmmError(Unspecified, cause)))
    case CreateSerialEvent => Error(Internal(VmmError(EventFd, cause)))
  }

  function FaultOf(host: Host, e: Event): Fault
    requires !Succeeds(host, e)
  {
    Consequence(e, host.fails(e).value)
  }

  // ---------------------------------------------------------------------------
  // Traces: success, and failure at the last call

  function Last(t: seq<Event>): Event
    requires |t| > 0
  {
    t[|t| - 1]
  }

  /** Every call in the trace succeeded. */
  predicate Clean(host: Host, t: seq<Event>)
  {
    forall i :: 0 <= i < |t| ==> Succeeds(host, t[i])
  }

  lemma AppendAssoc<X>(a: seq<X>, b: seq<X>, c: seq<X>)
    ensures (a + b) + c == a + (b + c)
  {
  }

  lemma CleanAppend(host: Host, a: seq<Event>, b: seq<Event>)
    ensures Clean(host, a + b) <==> Clean(host, a) && Clean(host, b)
  {
    assert forall i :: 0 <= i < |a| ==> (a + b)[i] == a[i];
    assert forall i :: 0 <= i < |b| ==> (a + b)[|a| + i] == b[i];
  }

  /** Every call succeeded but the last, which failed: the builder stopped at
      its first failure. */
  predicate FailsLast(host: Host, t: seq<Event>)
  {
    |t| > 0 && Clean(host, t[..|t| - 1]) && !Succeeds(host, Last(t))
  }

  /** The calls a stage issues, given the calls it would issue if none failed:
      the plan up to and including its first failing call. */
  function Run(host: Host, plan: seq<Event>): (t: seq<Event>)
    ensures t <= plan
    ensures Clean(host, t) || FailsLast(host, t)
    ensures Clean(host, plan) ==> t == plan
    ensures Clean(host, t) ==> t == plan
  {
    if plan == [] then []
    else if !Succeeds(host, plan[0]) then
      assert [plan[0]][..0] == [];
      [plan[0]]
    else
      var rest := Run(host, plan[1..]);
      CleanCons(host, plan);
      AfterSuccess(host, plan[0], rest);
      PrefixCons(plan[0], rest, plan[1..]);
      assert plan == [plan[0]] + plan[1..];
      [plan[0]] + rest
  }

  /** A call that succeeded in front of a trace changes neither whether the
      trace is clean nor where it failed. */
  lemma AfterSuccess(host: Host, e: Event, t: seq<Event>)
    requires Succeeds(host, e)
    ensures Clean(host, [e] + t) <==> Clean(host, t)
    ensures FailsLast(host, t) ==> FailsLast(host, [e] + t) && Last([e] + t) == Last(t)
  {
    CleanAppend(host, [e], t);
    if FailsLast(host, t) {
      assert ([e] + t)[..|t|] == [e] + t[..|t| - 1];
      CleanAppend(host, [e], t[..|t| - 1]);
    }
  }

  /** A clean trace in front of one that failed at its last call. */
  lemma AfterClean(host: Host, front: seq<Event>, t: seq<Event>)
    requires Clean(host, front) && FailsLast(host, t)
    ensures FailsLast(host, front + t) && Last(front + t) == Last(t)
  {
    assert (front + t)[..|front + t| - 1] == front + t[..|t| - 1];
    CleanAppend(host, front, t[..|t| - 1]);
  }

  lemma PrefixCons<X>(x: X, a: seq<X>, b: seq<X>)
    requires a <= b
    ensures [x] + a <= [x] + b
  {
    assert ([x] + b)[..|[x] + a|] == [x] + b[..|a|];
  }

  lemma PrefixAppend<X>(a: seq<X>, b: seq<X>)
    ensures a <= a + b
  {
    assert (a + b)[..|a|] == a;
  }

  lemma PrefixReflexive<X>(a: seq<X>)
    ensures a <= a
  {
    assert a[..|a|] == a;
  }

  lemma PrefixTransitive<X>(a: seq<X>, b: seq<X>, c: seq<X>)
    requires a <= b && b <= c
    ensures a <= c
  {
    assert c[..|a|] == b[..|a|];
  }

  /** Running two plans one after the other: the second one starts only when
      the first ran without failure. */
  lemma {:induction false} RunAppend(host: Host, a: seq<Event>, b: seq<Event>)
    ensures Run(host, a + b) == if Clean(host, a) then a + Run(host, b) else Run(host, a)
  {
    if a == [] {
      assert a + b == b;
    } else {
      var ab := a + b;
      assert ab[0] == a[0] && ab[1..] == a[1..] + b;
      RunCons(host, ab);
      RunCons(host, a);
      CleanCons(host, a);
      RunAppend(host, a[1..], b);
    }
  }

  /** A call in front of a plan: when it fails the run stops there, and when
      it succeeds the run goes on to the plan's own run and stops where that
      stops. */
  lemma RunPrepend(host: Host, e: Event, plan: seq<Event>)
    ensures Run(host, [e] + plan) == if Succeeds(host, e) then [e] + Run(host, plan) else [e]
    ensures !Succeeds(host, e) ==> FailsLast(host, [e]) && Last([e]) == e
    ensures Succeeds(host, e) ==> (Clean(host, [e] + Run(host, plan)) <==> Clean(host, Run(host, plan)))
    ensures Succeeds(host, e) && FailsLast(host, Run(host, plan)) ==>
              FailsLast(host, [e] + Run(host, plan)) && Last([e] + Run(host, plan)) == Last(Run(host, plan))
  {
    RunAppend(host, [e], plan);
    assert [e][..0] == [];
    if Succeeds(host, e) {
      AfterSuccess(host, e, Run(host, plan));
    }
  }

  lemma RunCons(host: Host, plan: seq<Event>)
    requires plan != []
    ensures Run(host, plan) == if Succeeds(host, plan[0]) then [plan[0]] + Run(host, plan[1..]) else [plan[0]]
  {
  }

  lemma CleanCons(host: Host, a: seq<Event>)
    requires a != []
    ensures Clean(host, a) <==> Succeeds(host, a[0]) && Clean(host, a[1..])
  {
    assert forall i :: 0 < i < |a| ==> a[i] == a[1..][i - 1];
  }

  /** A prefix of the plan that ran cleanly up to a failing last call is
      exactly what the plan runs: the stage stops at its first failure. */
  lemma {:induction false} RunStopsAtFirstFailure(host: Host, plan: seq<Event>, t: seq<Event>)
    requires t <= plan && FailsLast(host, t)
    ensures Run(host, plan) == t
  {
    if |t| > 1 {
      assert t[1..] <= plan[1..];
      assert t[1..][..|t| - 2] == t[1..|t| - 1];
      assert Last(t[1..]) == Last(t);
      assert Succeeds(host, t[0]) by { assert t[0] == t[..|t| - 1][0]; }
      var done := t[1..][..|t| - 2];
      assert FailsLast(host, t[1..]) by {
        forall i | 0 <= i < |done| ensures Succeeds(host, done[i]) {
          assert done[i] == t[..|t| - 1][i + 1];
        }
      }
      RunStopsAtFirstFailure(host, plan[1..], t[1..]);
      assert t == [t[0]] + t[1..];
    }
  }

  /** A stage that ran `done` cleanly and then saw `e` fail has run its plan:
      it stops there, and the failure is `e`'s. */
  lemma StopHere(host: Host, plan: seq<Event>, done: seq<Event>, e: Event)
    requires Clean(host, done) && !Succeeds(host, e)
    requires done + [e] <= plan
    ensures FailsLast(host, done + [e]) && Last(done + [e]) == e
    ensures Run(host, plan) == done + [e]
  {
    assert (done + [e])[..|done|] == done;
    RunStopsAtFirstFailure(host, plan, done + [e]);
  }

  /** The outcome of a stage: a clean trace on success, a trace that stops at
      the failing call on error, and the error is what that call turns into. */
  predicate Reports<T>(host: Host, t: seq<Event>, r: Result<T, Fault>)
  {
    (r.Ok? ==> Clean(host, t)) && (r.Err? ==> FailsLast(host, t) && FaultOf(host, Last(t)) == r.error)
  }

  lemma StopWith<T>(host: Host, plan: seq<Event>, done: seq<Event>, e: Event, f: Fault)
    requires Clean(host, done) && !Succeeds(host, e) && FaultOf(host, e) == f
    requires done + [e] <= plan
    ensures Run(host, plan) == done + [e]
    ensures Reports(host, done + [e], Result<T, Fault>.Err(f))
  {
    StopHere(host, plan, done, e);
  }

  lemma StopFirst<T>(host: Host, plan: seq<Event>, e: Event, f: Fault)
    requires !Succeeds(host, e) && FaultOf(host, e) == f
    requires [e] <= plan
    ensures Run(host, plan) == [e]
    ensures Reports(host, [e], Result<T, Fault>.Err(f))
  {
    StopHere(host, plan, [], e);
    assert [] + [e] == [e];
  }

  // ---------------------------------------------------------------------------
  // The order of the build

  /** Lexicographic position of an event in the build: the stage, an item within
      the stage (a vCPU index, a position in the filesystem-device list) and a
      step within that item. */
  datatype Rank = Rank(stage: nat, item: nat, step: nat)

  predicate Below(a: Rank, b: Rank)
  {
    a.stage < b.stage
    || (a.stage == b.stage && (a.item < b.item || (a.item == b.item && a.step < b.step)))
  }

  predicate AtMost(a: Rank, b: Rank)
  {
    a == b || Below(a, b)
  }

  /** The stage where the interrupt controller is created: before the vCPUs on
      x86_64, after them on aarch64. */
  function IrqchipStage(p: Platform): nat
  {
    if p.IsX86() then 6 else 7
  }

  /** The stage where the legacy devices are attached: right after the
      interrupt controller on both architectures. */
  function LegacyStage(p: Platform): nat
  {
    if p.IsX86() then 7 else 8
  }

  /** The stage where the vCPUs are created: last of the three on x86_64,
      first of the three on aarch64. */
  function VcpuStage(p: Platform): nat
  {
    if p.IsX86() then 8 else 6
  }

  const BalloonStage: nat := 9
  const ConsoleStage: nat := 10
  const FsStage: nat := 11
  const VsockStage: nat := 12
  const EpilogStage: nat := 13

  function StageStart(stage: nat): Rank
  {
    Rank(stage, 0, 0)
  }

  /** The stage and item a device's attachment belongs to. */
  function DeviceSlot(p: Platform, dev: Device): (nat, nat)
  {
    match dev
    case Balloon(_) => (BalloonStage, 0)
    case Console => (ConsoleStage, 0)
    case Fs(pos, _) => (FsStage, pos)
    case Vsock(_) => (VsockStage, 0)
    case Rtc => (LegacyStage(p), 2)
    case Gic => (LegacyStage(p), 3)
  }

  /** Steps within one device's attachment. Balloon and vsock: subscribe, set the
      interrupt controller, register, describe. Console: set the interrupt
      controller, maybe leave interactive mode, subscribe, SIGWINCH, register,
      describe. Filesystem: set the interrupt controller, set the shared-memory
      region, subscribe, register, describe. */
  function DeviceStep(dev: Device, e: Event): nat
  {
    match dev
    case Console =>
      (match e
       case SetIntc(_) => 0
       case DisableInteractive => 1
       case Subscribe(_) => 2
       case RegisterSigwinch => 3
       case RegisterMmio(_) => 4
       case _ => 5)
    case Fs(_, _) =>
      (match e
       case SetIntc(_) => 0
       case SetShm(_) => 1
       case Subscribe(_) => 2
       case RegisterMmio(_) => 3
       case _ => 4)
    case _ =>
      (match e
       case Subscribe(_) => 0
       case SetIntc(_) => 1
       case RegisterMmio(_) => 2
       case _ => 3)
  }

  function DeviceRank(p: Platform, dev: Device, e: Event): Rank
  {
    Rank(DeviceSlot(p, dev).0, DeviceSlot(p, dev).1, DeviceStep(dev, e))
  }

  /** The position of each call in the build, per platform. */
  function RankOf(p: Platform, e: Event): Rank
  {
    match e
    case BuildKernelRegion => Rank(0, 0, 0)
    case MapGuestMemory(_) => Rank(1, 0, 0)
    case InsertKernelRegion(_) => Rank(1, 0, 1)
    case WriteKernel(_) => Rank(1, 0, 1)
    case InsertProlog(_) => Rank(2, 0, 0)
    case OpenKvm => Rank(3, 0, 0)
    case CreateVm => Rank(3, 0, 1)
    case MemoryInit => Rank(3, 0, 2)
    case CreateExitEvent => Rank(4, 0, 0)
    case CloneExitEvent(ForPio) => Rank(5, 0, 0)
    case CreatePioManager => Rank(5, 0, 1)
    case SetupIrqchip => Rank(IrqchipStage(p), 0, 0)
    case RegisterPioDevices => Rank(LegacyStage(p), 0, 0)
    case RegisterIrqfd(evt, _) =>
      Rank(LegacyStage(p), 0, match evt case Com1And3 => 1 case Com2And4 => 2 case Keyboard => 3)
    case CloneExitEvent(ForVcpu(i)) => Rank(VcpuStage(p), i, 0)
    case NewVcpu(i) => Rank(VcpuStage(p), i, 1)
    case ConfigureVcpu(i) => Rank(VcpuStage(p), i, 2)
    case SetIntc(dev) => DeviceRank(p, dev, e)
    case SetShm(dev) => DeviceRank(p, dev, e)
    case DisableInteractive => DeviceRank(p, Console, e)
    case Subscribe(DeviceSub(dev)) => DeviceRank(p, dev, e)
    case RegisterSigwinch => DeviceRank(p, Console, e)
    case RegisterMmio(dev) => DeviceRank(p, dev, e)
    case AddToCmdline(dev, _, _) => DeviceRank(p, dev, e)
    case InsertEpilog(_) => Rank(EpilogStage, 0, 0)
    case SerializeCmdline => Rank(14, 0, 0)
    case LoadCmdline => Rank(14, 0, 1)
    case ConfigureSystem => Rank(15, 0, 0)
    case StartVcpus => Rank(16, 0, 0)
    case Subscribe(Machine) => Rank(17, 0, 0)
    case CreateSerialEvent => Rank(18, 0, 0)
    case Subscribe(SerialPort) => Rank(18, 0, 1)
  }

  /** Each call comes strictly after every call before it. */
  predicate Increasing(p: Platform, t: seq<Event>)
  {
    forall i, j :: 0 <= i < j < |t| ==> Below(RankOf(p, t[i]), RankOf(p, t[j]))
  }

  /** Every call of the trace lies in [lo, hi). */
  predicate Within(p: Platform, t: seq<Event>, lo: Rank, hi: Rank)
  {
    forall i :: 0 <= i < |t| ==> AtMost(lo, RankOf(p, t[i])) && Below(RankOf(p, t[i]), hi)
  }

  /** A well-ordered stage of the build, between lo and hi. */
  predicate Orderly(p: Platform, t: seq<Event>, lo: Rank, hi: Rank)
  {
    Increasing(p, t) && Within(p, t, lo, hi)
  }

  /** A call ranked below another one in the same trace occurs before it. */
  lemma RankDecidesPosition(p: Platform, t: seq<Event>, i: int, j: int)
    requires Increasing(p, t)
    requires 0 <= i < |t| && 0 <= j < |t|
    requires Below(RankOf(p, t[i]), RankOf(p, t[j]))
    ensures i < j
  {
    NotBelowBackwards(p, t, i, j);
  }

  /** `Below` is a strict order: irreflexive and asymmetric. */
  lemma BelowStrict(a: Rank, b: Rank)
    ensures !Below(a, a)
    ensures Below(a, b) ==> !Below(b, a)
  {
  }

  /** In an increasing trace no call is ranked below one that came before it. */
  lemma NotBelowBackwards(p: Platform, t: seq<Event>, i: int, j: int)
    requires Increasing(p, t)
    requires 0 <= i < |t| && 0 <= j < |t|
    ensures j <= i ==> !Below(RankOf(p, t[i]), RankOf(p, t[j]))
  {
    if j < i {
      assert Below(RankOf(p, t[j]), RankOf(p, t[i]));
    }
    BelowStrict(RankOf(p, t[i]), RankOf(p, t[j]));
  }

  /** Two well-ordered stages, one after the other, make a well-ordered
      stage. */
  lemma OrderlyAppend(p: Platform, t1: seq<Event>, t2: seq<Event>, lo: Rank, mid: Rank, hi: Rank)
    requires AtMost(lo, mid) && AtMost(mid, hi)
    requires Orderly(p, t1, lo, mid) && Orderly(p, t2, mid, hi)
    ensures Orderly(p, t1 + t2, lo, hi)
  {
    var t := t1 + t2;
    forall i, j | 0 <= i < j < |t|
      ensures Below(RankOf(p, t[i]), RankOf(p, t[j]))
    {
      if j < |t1| {
        assert t[i] == t1[i] && t[j] == t1[j];
      } else if i < |t1| {
        assert t[i] == t1[i] && t[j] == t2[j - |t1|];
      } else {
        assert t[i] == t2[i - |t1|] && t[j] == t2[j - |t1|];
      }
    }
    forall i | 0 <= i < |t|
      ensures AtMost(lo, RankOf(p, t[i])) && Below(RankOf(p, t[i]), hi)
    {
      if i < |t1| {
        assert t[i] == t1[i];
      } else {
        assert t[i] == t2[i - |t1|];
      }
    }
  }

  // ---------------------------------------------------------------------------
  // What a trace did to the state it touched

  /** The values `f` picks out of the trace, in order. */
  function Collect<X>(t: seq<Event>, f: Event -> Option<X>): seq<X>
  {
    if t == [] then []
    else Collect(t[..|t| - 1], f) + (if f(Last(t)).Some? then [f(Last(t)).value] else [])
  }

  lemma {:induction false} CollectAppend<X>(t1: seq<Event>, t2: seq<Event>, f: Event -> Option<X>)
    ensures Collect(t1 + t2, f) == Collect(t1, f) + Collect(t2, f)
  {
    if t2 == [] {
      assert t1 + t2 == t1;
    } else {
      assert (t1 + t2)[..|t1 + t2| - 1] == t1 + t2[..|t2| - 1];
      CollectAppend(t1, t2[..|t2| - 1], f);
    }
  }

  /** The subscribers a successful `add_subscriber` added. */
  function Subscribed(host: Host): Event -> Option<Subscriber>
  {
    (e: Event) => if e.Subscribe? && Succeeds(host, e) then Some(e.who) else None
  }

  /** A prefix of a well-ordered stage is well ordered. */
  lemma PrefixOrderly(p: Platform, t: seq<Event>, plan: seq<Event>, lo: Rank, hi: Rank)
    requires t <= plan && Orderly(p, plan, lo, hi)
    ensures Orderly(p, t, lo, hi)
  {
    assert forall i :: 0 <= i < |t| ==> t[i] == plan[i];
  }

  /** The devices the MMIO manager accepted. */
  function Registered(host: Host): Event -> Option<Device>
  {
    (e: Event) => if e.RegisterMmio? && Succeeds(host, e) then Some(e.dev) else None
  }
}
