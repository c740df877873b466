/** The device attachments of `build_microvm`: the balloon, the console, the
    configured filesystem devices in list order and, when configured, the vsock
    device, each one stopping the build at its first failure. On success each
    device is subscribed with the event manager, registered with the MMIO
    manager after the ones before it and, on x86_64, described on the kernel
    command line with the slot it got. */
module Attach {
  import opened Wrappers
  import opened Errors
  import opened Events
  import opened Machine
  import Mmio
  import opened Devices
  import opened Records
  import opened Stages

  // ---------------------------------------------------------------------------
  // Devices and plans

  function VsockDevices(res: VmResources): seq<Device>
  {
    if res.vsock.Some? then [Vsock(res.vsock.value)] else []
  }

  /** The devices a build attaches, in the order it attaches them. */
  function Attached(consts: Consts, res: VmResources): seq<Device>
  {
    [Balloon(consts.balloonId), Console] + (FsDevices(res.fs, |res.fs|) + VsockDevices(res))
  }

  function VsockPlan(p: Platform, res: VmResources, m: Mmio.Manager): seq<Event>
  {
    if res.vsock.Some? then SubscribeFirstPlan(p, Vsock(res.vsock.value), m) else []
  }

  /** The balloon, then the console, which the MMIO manager sees after the
      balloon. */
  function FrontPlan(p: Platform, host: Host, consts: Consts, m: Mmio.Manager): seq<Event>
  {
    SubscribeFirstPlan(p, Balloon(consts.balloonId), m)
      + ConsolePlan(p, host, Mmio.Register(m, Balloon(consts.balloonId)))
  }

  /** The filesystem devices, then the vsock device after all of them. */
  function BackPlan(p: Platform, res: VmResources, m: Mmio.Manager): seq<Event>
  {
    FsPlan(p, res.fs, |res.fs|, m) + VsockPlan(p, res, Mmio.RegisterAll(m, FsDevices(res.fs, |res.fs|)))
  }

  /** Every attachment, starting from the MMIO manager `m`. */
  function DevicesPlan(p: Platform, host: Host, consts: Consts, res: VmResources, m: Mmio.Manager): seq<Event>
  {
    FrontPlan(p, host, consts, m)
      + BackPlan(p, res, Mmio.RegisterAll(m, [Balloon(consts.balloonId), Console]))
  }

  // ---------------------------------------------------------------------------
  // What a clean run of attachments records

  /** The calls `t` subscribed, registered and (x86_64) described exactly the
      devices `devs`, in order, with the slots they get from `m`. */
  ghost predicate Recorded(host: Host, p: Platform, t: seq<Event>, m: Mmio.Manager, devs: seq<Device>)
  {
    && Collect(t, Subscribed(host)) == DeviceSubs(devs)
    && Collect(t, Registered(host)) == devs
    && Collect(t, Described(host)) == if p.IsX86() then Slots(m, devs) else []
  }

  /** Attachments run one after the other record the devices of both, the
      second ones with the slots after the first ones. */
  lemma RecordedAppend(host: Host, p: Platform, t1: seq<Event>, t2: seq<Event>, m: Mmio.Manager,
                       d1: seq<Device>, d2: seq<Device>)
    requires Recorded(host, p, t1, m, d1) && Recorded(host, p, t2, Mmio.RegisterAll(m, d1), d2)
    ensures Recorded(host, p, t1 + t2, m, d1 + d2)
  {
    CollectAppend(t1, t2, Subscribed(host));
    CollectAppend(t1, t2, Registered(host));
    CollectAppend(t1, t2, Described(host));
    DeviceSubsAppend(d1, d2);
    SlotsAppend(m, d1, d2);
  }

  lemma RecordedPair(host: Host, p: Platform, t1: seq<Event>, t2: seq<Event>, m: Mmio.Manager,
                     d1: Device, d2: Device)
    requires Recorded(host, p, t1, m, [d1]) && Recorded(host, p, t2, Mmio.RegisterAll(m, [d1]), [d2])
    ensures Recorded(host, p, t1 + t2, m, [d1, d2])
  {
    RecordedAppend(host, p, t1, t2, m, [d1], [d2]);
    assert [d1] + [d2] == [d1, d2];
  }

  lemma SlotsOne(m: Mmio.Manager, dev: Device)
    ensures Slots(m, [dev]) == [VirtioMmio(m.nextBase, m.nextIrq)]
  {
    SlotsLast(m, [], dev);
    assert [] + [dev] == [dev];
  }

  /** Balloon or vsock: a clean attachment records the device in the next
      slot. */
  lemma SubscribeFirstRecorded(host: Host, p: Platform, dev: Device, m: Mmio.Manager)
    requires Clean(host, SubscribeFirstPlan(p, dev, m))
    ensures Recorded(host, p, SubscribeFirstPlan(p, dev, m), m, [dev])
  {
    IntcQuiet(host, p, dev);
    AttachRecords(host, p, [], dev, IntcPlan(p, dev), m);
    SlotsOne(m, dev);
  }

  /** The console: a clean attachment records it in the next slot. */
  lemma ConsoleRecorded(host: Host, p: Platform, m: Mmio.Manager)
    requires Clean(host, ConsolePlan(p, host, m))
    ensures Recorded(host, p, ConsolePlan(p, host, m), m, [Console])
  {
    ConsolePreInfallible(p, host);
    assert Quiet(SigwinchPlan(p));
    AttachRecords(host, p, ConsolePre(p, host), Console, SigwinchPlan(p), m);
    SlotsOne(m, Console);
  }

  // ---------------------------------------------------------------------------
  // The attachments

  /** `attach_balloon_device`, with what it records. */
  method AttachBalloon(p: Platform, host: Host, consts: Consts, vmm: Vmm, em: EventManager)
    returns (r: Result<(), Fault>, t: seq<Event>)
    modifies vmm, em
    ensures t == Run(host, SubscribeFirstPlan(p, Balloon(consts.balloonId), old(vmm.mmio))) && Reports(host, t, r)
    ensures Snap(vmm, em) == Apply(host, t, old(Snap(vmm, em)))
    ensures r.Ok? ==> Recorded(host, p, t, old(vmm.mmio), [Balloon(consts.balloonId)])
  {
    ghost var m := vmm.mmio;
    r, t := AttachBalloonDevice(p, host, vmm, em, consts.balloonId);
    if r.Ok? {
      SubscribeFirstRecorded(host, p, Balloon(consts.balloonId), m);
    }
  }

  /** `attach_console_devices`, with what it records. */
  method AttachConsole(p: Platform, host: Host, vmm: Vmm, em: EventManager)
    returns (r: Result<(), Fault>, t: seq<Event>)
    modifies vmm, em
    ensures t == Run(host, ConsolePlan(p, host, old(vmm.mmio))) && Reports(host, t, r)
    ensures Snap(vmm, em) == Apply(host, t, old(Snap(vmm, em)))
    ensures r.Ok? ==> Recorded(host, p, t, old(vmm.mmio), [Console])
  {
    ghost var m := vmm.mmio;
    r, t := AttachConsoleDevices(p, host, vmm, em);
    if r.Ok? {
      ConsoleRecorded(host, p, m);
    }
  }

  /** The balloon, then the console. */
  method AttachFront(p: Platform, host: Host, consts: Consts, vmm: Vmm, em: EventManager)
    returns (r: Result<(), Fault>, t: seq<Event>)
    modifies vmm, em
    ensures t == Run(host, FrontPlan(p, host, consts, old(vmm.mmio))) && Reports(host, t, r)
    ensures Snap(vmm, em) == Apply(host, t, old(Snap(vmm, em)))
    ensures r.Ok? ==> Recorded(host, p, t, old(vmm.mmio), [Balloon(consts.balloonId), Console])
  {
    ghost var m := vmm.mmio;
    ghost var s0 := Snap(vmm, em);
    ghost var balloon := Balloon(consts.balloonId);
    ghost var m1 := Mmio.Register(m, balloon);
    ghost var whole := FrontPlan(p, host, consts, m);
    var ballooned, seg := AttachBalloon(p, host, consts, vmm, em);
    ghost var s1 := Snap(vmm, em);
    assert s1 == Apply(host, seg, s0);
    AdvanceFirst(host, whole, SubscribeFirstPlan(p, balloon, m), ConsolePlan(p, host, m1), seg, ballooned);
    if ballooned.Err? {
      return ballooned, seg;
    }
    RegisterOne(m, balloon);
    assert vmm.mmio == m1 by {
      assert s1.mmio == Mmio.RegisterAll(s0.mmio, Collect(seg, Registered(host)));
    }
    var consoled, cseg := AttachConsole(p, host, vmm, em);
    assert Snap(vmm, em) == Apply(host, cseg, s1);
    AdvanceLast(host, whole, seg, ConsolePlan(p, host, m1), cseg, consoled);
    ApplyAppend(host, seg, cseg, s0);
    t := seg + cseg;
    if consoled.Err? {
      return consoled, t;
    }
    RecordedPair(host, p, seg, cseg, m, balloon, Console);
    r := Ok(());
  }

  /** `attach_unixsock_vsock_device`, when a vsock device is configured. */
  method AttachVsock(p: Platform, host: Host, res: VmResources, vmm: Vmm, em: EventManager)
    returns (r: Result<(), Fault>, t: seq<Event>)
    modifies vmm, em
    ensures t == Run(host, VsockPlan(p, res, old(vmm.mmio))) && Reports(host, t, r)
    ensures Snap(vmm, em) == Apply(host, t, old(Snap(vmm, em)))
    ensures r.Ok? ==> Recorded(host, p, t, old(vmm.mmio), VsockDevices(res))
  {
    if res.vsock.None? {
      ApplyNothing(host, [], Snap(vmm, em));
      return Ok(()), [];
    }
    ghost var m := vmm.mmio;
    r, t := AttachVsockDevice(p, host, vmm, em, res.vsock.value);
    if r.Ok? {
      SubscribeFirstRecorded(host, p, Vsock(res.vsock.value), m);
    }
  }

  /** `attach_fs_devices`, then the vsock device. */
  method AttachBack(p: Platform, host: Host, res: VmResources, vmm: Vmm, em: EventManager)
    returns (r: Result<(), Fault>, t: seq<Event>)
    modifies vmm, em
    ensures t == Run(host, BackPlan(p, res, old(vmm.mmio))) && Reports(host, t, r)
    ensures Snap(vmm, em) == Apply(host, t, old(Snap(vmm, em)))
    ensures r.Ok? ==> Recorded(host, p, t, old(vmm.mmio), FsDevices(res.fs, |res.fs|) + VsockDevices(res))
  {
    ghost var m := vmm.mmio;
    ghost var s0 := Snap(vmm, em);
    ghost var fsDevs := FsDevices(res.fs, |res.fs|);
    ghost var m1 := Mmio.RegisterAll(m, fsDevs);
    ghost var whole := BackPlan(p, res, m);
    var filed, seg := AttachFsDevices(p, host, vmm, em, res.fs);
    ghost var s1 := Snap(vmm, em);
    assert s1 == Apply(host, seg, s0);
    AdvanceFirst(host, whole, FsPlan(p, res.fs, |res.fs|, m), VsockPlan(p, res, m1), seg, filed);
    if filed.Err? {
      return filed, seg;
    }
    assert vmm.mmio == m1 by {
      assert s1.mmio == Mmio.RegisterAll(s0.mmio, Collect(seg, Registered(host)));
    }
    var socked, vseg := AttachVsock(p, host, res, vmm, em);
    assert Snap(vmm, em) == Apply(host, vseg, s1);
    AdvanceLast(host, whole, seg, VsockPlan(p, res, m1), vseg, socked);
    ApplyAppend(host, seg, vseg, s0);
    t := seg + vseg;
    if socked.Err? {
      return socked, t;
    }
    RecordedAppend(host, p, seg, vseg, m, fsDevs, VsockDevices(res));
    r := Ok(());
  }

  /** All attachments of `build_microvm`, in its order. */
  method AttachDevices(p: Platform, host: Host, consts: Consts, res: VmResources, vmm: Vmm, em: EventManager)
    returns (r: Result<(), Fault>, t: seq<Event>)
    modifies vmm, em
    ensures t == Run(host, DevicesPlan(p, host, consts, res, old(vmm.mmio))) && Reports(host, t, r)
    ensures Snap(vmm, em) == Apply(host, t, old(Snap(vmm, em)))
    ensures r.Ok? ==> Recorded(host, p, t, old(vmm.mmio), Attached(consts, res))
  {
    ghost var m := vmm.mmio;
    ghost var s0 := Snap(vmm, em);
    ghost var front := [Balloon(consts.balloonId), Console];
    ghost var m1 := Mmio.RegisterAll(m, front);
    ghost var whole := DevicesPlan(p, host, consts, res, m);
    var fronted, seg := AttachFront(p, host, consts, vmm, em);
    ghost var s1 := Snap(vmm, em);
    assert s1 == Apply(host, seg, s0);
    AdvanceFirst(host, whole, FrontPlan(p, host, consts, m), BackPlan(p, res, m1), seg, fronted);
    if fronted.Err? {
      return fronted, seg;
    }
    assert vmm.mmio == m1 by {
      assert s1.mmio == Mmio.RegisterAll(s0.mmio, Collect(seg, Registered(host)));
    }
    var backed, bseg := AttachBack(p, host, res, vmm, em);
    assert Snap(vmm, em) == Apply(host, bseg, s1);
    AdvanceLast(host, whole, seg, BackPlan(p, res, m1), bseg, backed);
    ApplyAppend(host, seg, bseg, s0);
    t := seg + bseg;
    if backed.Err? {
      return backed, t;
    }
    RecordedAppend(host, p, seg, bseg, m, front, FsDevices(res.fs, |res.fs|) + VsockDevices(res));
    r := Ok(());
  }
}
