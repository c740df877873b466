/** The end of `build_microvm`, after the devices: the epilog on the kernel
    command line, the command line written into guest memory (x86_64), the
    system configuration, the start of the vCPUs and the registration of the
    VMM itself with the event manager. */
module Tail {
  import opened Wrappers
  import opened Errors
  import opened Events
  import opened Machine
  import opened Setup
  import opened Devices
  import opened Stages

  /** A configured epilog is inserted into the command line; a failed insertion
      panics. */
  function EpilogPlan(res: VmResources): seq<Event>
  {
    if res.epilog.Some? then [InsertEpilog(res.epilog.value)] else []
  }

  function EpilogArgs(res: VmResources): seq<CmdlineArg>
  {
    if res.epilog.Some? then [Text(res.epilog.value)] else []
  }

  /** `load_cmdline` runs on x86_64 only; on aarch64 the command line goes
      through the device tree. */
  function LoadPlan(p: Platform): seq<Event>
  {
    if p.IsX86() then CmdlinePlan else []
  }

  const StartPlan: seq<Event> := [ConfigureSystem, StartVcpus, Subscribe(Machine)]

  /** The command-line part of the tail: the epilog, then `load_cmdline`. */
  function FinalCmdlinePlan(p: Platform, res: VmResources): seq<Event>
  {
    EpilogPlan(res) + LoadPlan(p)
  }

  function TailPlan(p: Platform, res: VmResources): seq<Event>
  {
    FinalCmdlinePlan(p, res) + StartPlan
  }

  lemma FinalCmdlineUnsubscribed(p: Platform, res: VmResources)
    ensures Unsubscribed(FinalCmdlinePlan(p, res))
  {
  }

  /** The epilog, when one is configured. */
  method AddEpilog(host: Host, res: VmResources, vmm: Vmm) returns (r: Result<(), Fault>, t: seq<Event>)
    modifies vmm
    ensures t == Run(host, EpilogPlan(res)) && Reports(host, t, r)
    ensures r.Err? ==> r.error == Panic
    ensures vmm.cmdline == old(vmm.cmdline) + if r.Ok? then EpilogArgs(res) else []
    ensures vmm.memory == old(vmm.memory) && vmm.vm == old(vmm.vm) && vmm.mmio == old(vmm.mmio)
    ensures vmm.pio == old(vmm.pio) && vmm.vcpus == old(vmm.vcpus)
  {
    if res.epilog.None? {
      return Ok(()), [];
    }
    var e := InsertEpilog(res.epilog.value);
    var inserted := host.fails(e);
    if inserted.Some? {
      StopFirst<()>(host, EpilogPlan(res), e, Panic);
      return Err(Panic), [e];
    }
    vmm.cmdline := vmm.cmdline + [Text(res.epilog.value)];
    r, t := Ok(()), [e];
  }

  /** `load_cmdline` on x86_64; nothing on aarch64. */
  method LoadCommandLine(p: Platform, host: Host) returns (r: Result<(), Fault>, t: seq<Event>)
    ensures t == Run(host, LoadPlan(p)) && Reports(host, t, r)
    ensures r.Err? ==> p.IsX86() && r.error.Error? && r.error.err.LoadCommandline?
  {
    if !p.IsX86() {
      return Ok(()), [];
    }
    r, t := LoadKernelCmdline(host);
  }

  const SystemPlan: seq<Event> := [ConfigureSystem, StartVcpus]

  /** `configure_system`, then `start_vcpus`, which takes the vCPUs over; both
      fail as `Internal(Unspecified)`. */
  method StartSystem(host: Host, vmm: Vmm, vcpus: seq<Vcpu>) returns (r: Result<(), Fault>, t: seq<Event>)
    modifies vmm
    ensures t == Run(host, SystemPlan) && Reports(host, t, r)
    ensures r.Err? ==> r.error.Error? && r.error.err.Internal? && r.error.err.vmm.kind.Unspecified?
    ensures vmm.vcpus == if r.Ok? then vcpus else old(vmm.vcpus)
    ensures vmm.memory == old(vmm.memory) && vmm.cmdline == old(vmm.cmdline) && vmm.vm == old(vmm.vm)
    ensures vmm.mmio == old(vmm.mmio) && vmm.pio == old(vmm.pio)
  {
    var configured := host.fails(ConfigureSystem);
    if configured.Some? {
      var f := Error(Internal(VmmError(Unspecified, configured.value)));
      StopFirst<()>(host, SystemPlan, ConfigureSystem, f);
      return Err(f), [ConfigureSystem];
    }
    var started := host.fails(StartVcpus);
    if started.Some? {
      var f := Error(Internal(VmmError(Unspecified, started.value)));
      StopWith<()>(host, SystemPlan, [ConfigureSystem], StartVcpus, f);
      return Err(f), [ConfigureSystem] + [StartVcpus];
    }
    vmm.vcpus := vcpus;
    r, t := Ok(()), SystemPlan;
  }

  /** `add_subscriber` for the VMM itself; a refusal is `RegisterEvent`. */
  method RegisterMachine(host: Host, em: EventManager) returns (r: Result<(), Fault>, t: seq<Event>)
    modifies em
    ensures t == Run(host, [Subscribe(Machine)]) && Reports(host, t, r)
    ensures r.Err? ==> r.error.Error? && r.error.err.RegisterEvent?
    ensures em.subscribers == old(em.subscribers) + Collect(t, Subscribed(host))
    ensures r.Ok? <==> Collect(t, Subscribed(host)) == [Machine]
  {
    var subscribed := em.AddSubscriber(host, Machine);
    t := [Subscribe(Machine)];
    assert Collect(t, Subscribed(host)) == if subscribed.Ok? then [Machine] else [] by {
      CollectOne([], Subscribe(Machine), Subscribed(host));
      assert [] + t == t;
    }
    if subscribed.Err? {
      var f := Error(RegisterEvent(subscribed.error));
      StopFirst<()>(host, t, Subscribe(Machine), f);
      return Err(f), t;
    }
    r := Ok(());
  }

  /** The system start, then the VMM's registration. */
  method StartMachine(host: Host, vmm: Vmm, em: EventManager, vcpus: seq<Vcpu>)
    returns (r: Result<(), Fault>, t: seq<Event>)
    modifies vmm, em
    ensures t == Run(host, StartPlan) && Reports(host, t, r)
    ensures em.subscribers == old(em.subscribers) + Collect(t, Subscribed(host))
    ensures r.Err? ==> r.error.Error?
    ensures r.Ok? ==> Collect(t, Subscribed(host)) == [Machine]
    ensures vmm.vcpus == if Subscribe(Machine) in t then vcpus else old(vmm.vcpus)
    ensures vmm.memory == old(vmm.memory) && vmm.cmdline == old(vmm.cmdline) && vmm.vm == old(vmm.vm)
    ensures vmm.mmio == old(vmm.mmio) && vmm.pio == old(vmm.pio)
  {
    assert StartPlan == SystemPlan + [Subscribe(Machine)];
    var started, seg := StartSystem(host, vmm, vcpus);
    AdvanceFirst(host, StartPlan, SystemPlan, [Subscribe(Machine)], seg, started);
    NoSubscription(host, seg, SystemPlan);
    if started.Err? {
      assert Subscribe(Machine) !in seg;
      return started, seg;
    }
    var registered, rseg := RegisterMachine(host, em);
    AdvanceLast(host, StartPlan, seg, [Subscribe(Machine)], rseg, registered);
    CollectAppend(seg, rseg, Subscribed(host));
    r, t := registered, seg + rseg;
  }

  /** The epilog, then `load_cmdline` on x86_64. */
  method FinishCmdline(p: Platform, host: Host, res: VmResources, vmm: Vmm)
    returns (r: Result<(), Fault>, t: seq<Event>)
    modifies vmm
    ensures t == Run(host, FinalCmdlinePlan(p, res)) && Reports(host, t, r)
    ensures vmm.cmdline == old(vmm.cmdline) + if r == Err(Panic) then [] else EpilogArgs(res)
    ensures vmm.memory == old(vmm.memory) && vmm.vm == old(vmm.vm) && vmm.mmio == old(vmm.mmio)
    ensures vmm.pio == old(vmm.pio) && vmm.vcpus == old(vmm.vcpus)
  {
    ghost var whole := FinalCmdlinePlan(p, res);
    var epilogued, seg := AddEpilog(host, res, vmm);
    AdvanceFirst(host, whole, EpilogPlan(res), LoadPlan(p), seg, epilogued);
    if epilogued.Err? {
      return epilogued, seg;
    }
    var loaded, lseg := LoadCommandLine(p, host);
    AdvanceLast(host, whole, seg, LoadPlan(p), lseg, loaded);
    r, t := loaded, seg + lseg;
  }

  /** The whole tail. */
  method Finish(p: Platform, host: Host, res: VmResources, vmm: Vmm, em: EventManager, vcpus: seq<Vcpu>)
    returns (r: Result<(), Fault>, t: seq<Event>)
    modifies vmm, em
    ensures t == Run(host, TailPlan(p, res)) && Reports(host, t, r)
    ensures em.subscribers == old(em.subscribers) + Collect(t, Subscribed(host))
    ensures r.Ok? ==> Collect(t, Subscribed(host)) == [Machine]
    ensures vmm.cmdline == old(vmm.cmdline) + if r == Err(Panic) then [] else EpilogArgs(res)
    ensures vmm.vcpus == if Subscribe(Machine) in t then vcpus else old(vmm.vcpus)
    ensures vmm.memory == old(vmm.memory) && vmm.vm == old(vmm.vm)
    ensures vmm.mmio == old(vmm.mmio) && vmm.pio == old(vmm.pio)
  {
    ghost var whole := TailPlan(p, res);
    ghost var subs := em.subscribers;
    FinalCmdlineUnsubscribed(p, res);
    var loaded, seg := FinishCmdline(p, host, res, vmm);
    AdvanceFirst(host, whole, FinalCmdlinePlan(p, res), StartPlan, seg, loaded);
    NoSubscription(host, seg, FinalCmdlinePlan(p, res));
    assert em.subscribers == subs + Collect(seg, Subscribed(host));
    if loaded.Err? {
      assert Subscribe(Machine) !in seg;
      return loaded, seg;
    }
    var started, sseg := StartMachine(host, vmm, em, vcpus);
    AdvanceLast(host, whole, seg, StartPlan, sseg, started);
    CollectAppend(seg, sseg, Subscribed(host));
    assert Collect(seg + sseg, Subscribed(host)) == Collect(sseg, Subscribed(host));
    r, t := started, seg + sseg;
  }
}
