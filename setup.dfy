/** The builder's single-shot steps: guest memory creation, VM creation, the
    interrupt controller and (x86_64) loading the command line into the guest.
    Each returns its outcome and the calls it issued; each error is mapped the
    way the builder's `map_err` chains map it. */
module Setup {
  import opened Wrappers
  import opened Errors
  import opened Events
  import opened Machine

  const MiB: nat := 0x10_0000
  const UsizeModulus: nat := 0x1_0000_0000_0000_0000

  /** `mem_size_mib << 20` on a 64-bit `usize`: the bits shifted out are lost. */
  function MemSizeBytes(mib: nat): nat
  {
    (mib * MiB) % UsizeModulus
  }

  /** The byte size is a whole number of MiB that fits a `usize`, and it is the
      requested size exactly when that size is below 2^44 MiB. */
  lemma MemSizeBytesBounds(mib: nat)
    requires mib < UsizeModulus
    ensures MemSizeBytes(mib) < UsizeModulus
    ensures MemSizeBytes(mib) % MiB == 0
    ensures MemSizeBytes(mib) == mib * MiB <==> mib < 0x1000_0000_0000
  {
    var q := (mib * MiB) / UsizeModulus;
    assert mib * MiB == q * UsizeModulus + MemSizeBytes(mib);
    assert UsizeModulus == 0x1000_0000_0000 * MiB;
    assert q * UsizeModulus == (q * 0x1000_0000_0000) * MiB;
    assert MemSizeBytes(mib) == (mib - q * 0x1000_0000_0000) * MiB;
    if mib >= 0x1000_0000_0000 {
      assert mib * MiB >= UsizeModulus;
    }
  }

  /** The calls of `create_guest_memory`: map the guest memory, then place the
      kernel in it (a region insertion on Linux, a byte copy on macOS). */
  function MemoryPlan(p: Platform, mib: nat, kernel: KernelBundle): seq<Event>
  {
    [MapGuestMemory(MemSizeBytes(mib)),
     if p.IsMacOS() then WriteKernel(kernel.guestAddr) else InsertKernelRegion(kernel.guestAddr)]
  }

  /** `create_guest_memory`. */
  method CreateGuestMemory(p: Platform, host: Host, mib: nat, kernel: KernelBundle)
    returns (r: Result<GuestMemory, Fault>, t: seq<Event>)
    ensures t == Run(host, MemoryPlan(p, mib, kernel))
    ensures Reports(host, t, r)
    ensures r.Ok? ==> r.value == GuestMemory(MemSizeBytes(mib), kernel.guestAddr)
    ensures r == Err(Panic) <==> p.IsMacOS() && |t| == 2 && !Succeeds(host, t[1])
  {
    var memSize := MemSizeBytes(mib);
    var plan := MemoryPlan(p, mib, kernel);
    var mapped := host.fails(MapGuestMemory(memSize));
    if mapped.Some? {
      var f := Error(GuestMemoryMmap(mapped.value));
      StopFirst<GuestMemory>(host, plan, MapGuestMemory(memSize), f);
      return Err(f), [MapGuestMemory(memSize)];
    }
    t := [MapGuestMemory(memSize)];
    if p.IsMacOS() {
      var written := host.fails(WriteKernel(kernel.guestAddr));
      if written.Some? {
        // guest_mem.write(..).unwrap()
        StopWith<GuestMemory>(host, plan, t, WriteKernel(kernel.guestAddr), Panic);
        return Err(Panic), t + [WriteKernel(kernel.guestAddr)];
      }
      t := t + [WriteKernel(kernel.guestAddr)];
    } else {
      var inserted := host.fails(InsertKernelRegion(kernel.guestAddr));
      if inserted.Some? {
        var f := Error(GuestMemoryMmap(inserted.value));
        StopWith<GuestMemory>(host, plan, t, InsertKernelRegion(kernel.guestAddr), f);
        return Err(f), t + [InsertKernelRegion(kernel.guestAddr)];
      }
      t := t + [InsertKernelRegion(kernel.guestAddr)];
    }
    r := Ok(GuestMemory(memSize, kernel.guestAddr));
  }

  /** The calls of `setup_vm`: open KVM (Linux only), create the VM, register
      guest memory with it. */
  function VmPlan(p: Platform): seq<Event>
  {
    (if p.IsLinux() then [OpenKvm] else []) + [CreateVm, MemoryInit]
  }

  /** `setup_vm`: a fresh VM with no interrupt controller and no irqfd. */
  method SetupVm(p: Platform, host: Host) returns (r: Result<Vm, Fault>, t: seq<Event>)
    ensures t == Run(host, VmPlan(p))
    ensures Reports(host, t, r)
    ensures r.Ok? ==> r.value == Machine.Vm(false, [])
    ensures r.Err? ==> r.error.Error? && r.error.err.Internal?
  {
    var plan := VmPlan(p);
    t := [];
    if p.IsLinux() {
      var kvm := host.fails(OpenKvm);
      if kvm.Some? {
        var f := Error(Internal(VmmError(KvmContext, kvm.value)));
        StopFirst<Vm>(host, plan, OpenKvm, f);
        return Err(f), [OpenKvm];
      }
      t := [OpenKvm];
    }
    var created := host.fails(CreateVm);
    if created.Some? {
      var f := Error(Internal(VmmError(Errors.Vm, created.value)));
      StopWith<Vm>(host, plan, t, CreateVm, f);
      return Err(f), t + [CreateVm];
    }
    t := t + [CreateVm];
    var init := host.fails(MemoryInit);
    if init.Some? {
      var f := Error(Internal(VmmError(Errors.Vm, init.value)));
      StopWith<Vm>(host, plan, t, MemoryInit, f);
      return Err(f), t + [MemoryInit];
    }
    t := t + [MemoryInit];
    r := Ok(Machine.Vm(false, []));
  }

  /** `setup_interrupt_controller`: on success the VM has its interrupt
      controller and nothing else about it changes. */
  method SetupInterruptController(host: Host, vm: Vm) returns (r: Result<Vm, Fault>, t: seq<Event>)
    ensures t == Run(host, [SetupIrqchip])
    ensures Reports(host, t, r)
    ensures r.Ok? ==> r.value == vm.(irqchip := true)
    ensures r.Err? ==> r.error.Error? && r.error.err.Internal? && r.error.err.vmm.kind == Errors.Vm
  {
    var irqchip := host.fails(SetupIrqchip);
    t := [SetupIrqchip];
    if irqchip.Some? {
      var f := Error(Internal(VmmError(Errors.Vm, irqchip.value)));
      StopFirst<Vm>(host, t, SetupIrqchip, f);
      return Err(f), t;
    }
    r := Ok(vm.(irqchip := true));
  }

  /** The calls of `load_cmdline` (x86_64): render the command line as a C
      string, then write it into guest memory. */
  const CmdlinePlan: seq<Event> := [SerializeCmdline, LoadCmdline]

  /** `load_cmdline`: both failures are reported as `LoadCommandline`. */
  method LoadKernelCmdline(host: Host) returns (r: Result<(), Fault>, t: seq<Event>)
    ensures t == Run(host, CmdlinePlan)
    ensures Reports(host, t, r)
    ensures r.Err? ==> r.error.Error? && r.error.err.LoadCommandline?
  {
    var rendered := host.fails(SerializeCmdline);
    if rendered.Some? {
      var f := Error(LoadCommandline(rendered.value));
      StopFirst<()>(host, CmdlinePlan, SerializeCmdline, f);
      return Err(f), [SerializeCmdline];
    }
    var loaded := host.fails(LoadCmdline);
    if loaded.Some? {
      var f := Error(LoadCommandline(loaded.value));
      StopWith<()>(host, CmdlinePlan, [SerializeCmdline], LoadCmdline, f);
      return Err(f), [SerializeCmdline] + [LoadCmdline];
    }
    t := CmdlinePlan;
    r := Ok(());
  }
}
