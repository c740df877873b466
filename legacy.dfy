/** The legacy devices (`attach_legacy_devices`) and the standalone serial
    device (`setup_serial_device`). On x86_64 the port-I/O manager puts its
    devices on the I/O bus and three of its event sources are bound to fixed
    guest interrupt lines; on aarch64 the MMIO manager takes the RTC and, on
    macOS, the interrupt controller. */
module Legacy {
  import opened Wrappers
  import opened Errors
  import opened Events
  import opened Machine
  import Mmio

  // ---------------------------------------------------------------------------
  // x86_64: the port-I/O devices

  /** The serial ports COM1/COM3 signal line 4, COM2/COM4 line 3, the i8042
      keyboard controller line 1, bound in that order. */
  const LegacyIrqfds: seq<Irqfd> := [Irqfd(Com1And3, 4), Irqfd(Com2And4, 3), Irqfd(Keyboard, 1)]

  /** The calls of `attach_legacy_devices` on x86_64. */
  const PioLegacyPlan: seq<Event> :=
    [RegisterPioDevices, RegisterIrqfd(Com1And3, 4), RegisterIrqfd(Com2And4, 3), RegisterIrqfd(Keyboard, 1)]

  /** The legacy event sources each get their own line, and no two share one. */
  lemma LegacyLinesDistinct()
    ensures |LegacyIrqfds| == 3
    ensures forall i, j :: 0 <= i < j < |LegacyIrqfds| ==>
      LegacyIrqfds[i].evt != LegacyIrqfds[j].evt && LegacyIrqfds[i].line != LegacyIrqfds[j].line
    ensures forall k :: 0 <= k < 3 ==>
      PioLegacyPlan[k + 1] == RegisterIrqfd(LegacyIrqfds[k].evt, LegacyIrqfds[k].line)
  {
  }

  /** One `register_irqfd_evt!`: bind `evt` to `line`; a failure is a
      `LegacyIOBus` error. */
  method BindIrqfd(host: Host, vm: Vm, evt: LegacyEvt, line: nat) returns (r: Result<Vm, Fault>)
    ensures r.Ok? <==> Succeeds(host, RegisterIrqfd(evt, line))
    ensures r.Ok? ==> r.value == vm.(irqfds := vm.irqfds + [Irqfd(evt, line)])
    ensures r.Err? ==> r.error == FaultOf(host, RegisterIrqfd(evt, line))
    ensures r.Err? ==> r.error.Error? && r.error.err.Internal? && r.error.err.vmm.kind == LegacyIOBus
  {
    var bound := host.fails(RegisterIrqfd(evt, line));
    if bound.Some? {
      return Err(Error(Internal(VmmError(LegacyIOBus, bound.value))));
    }
    r := Ok(vm.(irqfds := vm.irqfds + [Irqfd(evt, line)]));
  }

  /** `attach_legacy_devices` on x86_64: the devices go on the I/O bus, then
      the three event sources are bound to their lines. Every failure is a
      `LegacyIOBus` error. */
  method AttachLegacyDevicesX86(host: Host, vm: Vm, pio: PioManager)
    returns (r: Result<(Vm, PioManager), Fault>, t: seq<Event>)
    ensures t == Run(host, PioLegacyPlan) && Reports(host, t, r)
    ensures r.Ok? ==> r.value == (vm.(irqfds := vm.irqfds + LegacyIrqfds), pio.(registered := true))
    ensures r.Err? ==> r.error.Error? && r.error.err.Internal? && r.error.err.vmm.kind == LegacyIOBus
  {
    var plan := PioLegacyPlan;
    var registered := host.fails(RegisterPioDevices);
    t := [RegisterPioDevices];
    if registered.Some? {
      var f := Error(Internal(VmmError(LegacyIOBus, registered.value)));
      StopFirst<(Vm, PioManager)>(host, plan, RegisterPioDevices, f);
      return Err(f), t;
    }
    var pio' := pio.(registered := true);
    var com13 := BindIrqfd(host, vm, Com1And3, 4);
    if com13.Err? {
      StopWith<(Vm, PioManager)>(host, plan, t, RegisterIrqfd(Com1And3, 4), com13.error);
      return Err(com13.error), t + [RegisterIrqfd(Com1And3, 4)];
    }
    t := t + [RegisterIrqfd(Com1And3, 4)];
    var com24 := BindIrqfd(host, com13.value, Com2And4, 3);
    if com24.Err? {
      StopWith<(Vm, PioManager)>(host, plan, t, RegisterIrqfd(Com2And4, 3), com24.error);
      return Err(com24.error), t + [RegisterIrqfd(Com2And4, 3)];
    }
    t := t + [RegisterIrqfd(Com2And4, 3)];
    var kbd := BindIrqfd(host, com24.value, Keyboard, 1);
    if kbd.Err? {
      StopWith<(Vm, PioManager)>(host, plan, t, RegisterIrqfd(Keyboard, 1), kbd.error);
      return Err(kbd.error), t + [RegisterIrqfd(Keyboard, 1)];
    }
    t := t + [RegisterIrqfd(Keyboard, 1)];
    assert vm.irqfds + [LegacyIrqfds[0]] + [LegacyIrqfds[1]] + [LegacyIrqfds[2]] == vm.irqfds + LegacyIrqfds;
    r := Ok((kbd.value, pio'));
  }

  // ---------------------------------------------------------------------------
  // aarch64: the MMIO legacy devices

  /** The RTC, and on macOS the interrupt controller after it. */
  function MmioLegacy(p: Platform): seq<Device>
  {
    [Rtc] + if p.IsMacOS() then [Gic] else []
  }

  function MmioLegacyPlan(p: Platform): seq<Event>
  {
    [RegisterMmio(Rtc)] + if p.IsMacOS() then [RegisterMmio(Gic)] else []
  }

  lemma LegacyRegistered(m: Mmio.Manager, a: Device, b: Device)
    ensures Mmio.RegisterAll(m, [a]) == Mmio.Register(m, a)
    ensures Mmio.RegisterAll(m, [a, b]) == Mmio.Register(Mmio.Register(m, a), b)
  {
    Mmio.RegisterAllLast(m, [], a);
    assert [] + [a] == [a];
    Mmio.RegisterAllLast(m, [a], b);
    assert [a] + [b] == [a, b];
  }

  /** The legacy MMIO devices are refused with `RegisterMMIODevice`. */
  lemma LegacyFault(host: Host, dev: Device)
    requires (dev.Rtc? || dev.Gic?) && !Succeeds(host, RegisterMmio(dev))
    ensures FaultOf(host, RegisterMmio(dev))
      == Error(Internal(VmmError(RegisterMMIODevice, host.fails(RegisterMmio(dev)).value)))
  {
  }

  /** `attach_legacy_devices` on aarch64 (the serial device is never created,
      so only the RTC and, on macOS, the interrupt controller are registered).
      Every failure is a `RegisterMMIODevice` error. */
  method AttachLegacyDevicesArm(p: Platform, host: Host, m: Mmio.Manager)
    returns (r: Result<Mmio.Manager, Fault>, t: seq<Event>)
    requires !p.IsX86()
    ensures t == Run(host, MmioLegacyPlan(p)) && Reports(host, t, r)
    ensures r.Ok? ==> r.value == Mmio.RegisterAll(m, MmioLegacy(p))
    ensures r.Err? ==> r.error.Error? && r.error.err.Internal? && r.error.err.vmm.kind == RegisterMMIODevice
  {
    var rtc := host.fails(RegisterMmio(Rtc));
    t := [RegisterMmio(Rtc)];
    if rtc.Some? {
      var f := Error(Internal(VmmError(RegisterMMIODevice, rtc.value)));
      LegacyFault(host, Rtc);
      StopFirst<Mmio.Manager>(host, MmioLegacyPlan(p), RegisterMmio(Rtc), f);
      return Err(f), t;
    }
    var m' := Mmio.Register(m, Rtc);
    LegacyRegistered(m, Rtc, Gic);
    if p.IsMacOS() {
      var gic := host.fails(RegisterMmio(Gic));
      if gic.Some? {
        var f := Error(Internal(VmmError(RegisterMMIODevice, gic.value)));
        LegacyFault(host, Gic);
        StopWith<Mmio.Manager>(host, MmioLegacyPlan(p), t, RegisterMmio(Gic), f);
        return Err(f), t + [RegisterMmio(Gic)];
      }
      t := t + [RegisterMmio(Gic)];
      m' := Mmio.Register(m', Gic);
    }
    r := Ok(m');
  }

  // ---------------------------------------------------------------------------
  // setup_serial_device

  /** `setup_serial_device`: the interrupt event must be created (an `EventFd`
      error otherwise), but a refused subscription is only logged: the
      function then succeeds all the same, without the subscription. */
  method SetupSerialDevice(host: Host, em: EventManager) returns (r: Result<(), Fault>, t: seq<Event>)
    modifies em
    ensures t == [CreateSerialEvent] + if Succeeds(host, CreateSerialEvent) then [Subscribe(SerialPort)] else []
    ensures r.Ok? <==> Succeeds(host, CreateSerialEvent)
    ensures r.Err? ==> r.error == FaultOf(host, CreateSerialEvent)
    ensures em.subscribers == old(em.subscribers) + Collect(t, Subscribed(host))
  {
    var created := host.fails(CreateSerialEvent);
    t := [CreateSerialEvent];
    assert Collect(t, Subscribed(host)) == [] by {
      assert t[..0] == [];
    }
    if created.Some? {
      return Err(Error(Internal(VmmError(EventFd, created.value)))), t;
    }
    var subscribed := em.AddSubscriber(host, SerialPort);
    // a failure is logged and otherwise ignored
    t := t + [Subscribe(SerialPort)];
    assert t[..1] == [CreateSerialEvent];
    r := Ok(());
  }
}
