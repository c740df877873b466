/** Device attachment: `attach_mmio_device` and the four virtio attachment
    helpers (balloon, console, filesystem devices, vsock). Each helper issues its
    calls in a fixed order, stops at the first failure with the error class of
    its device, and leaves behind exactly what its successful calls added: the
    event manager keeps the subscriptions, the MMIO manager the registrations,
    the command line the device descriptions. Nothing is rolled back. */
module Devices {
  import opened Wrappers
  import opened Errors
  import opened Events
  import opened Machine
  import Mmio
  import opened Records

  // ---------------------------------------------------------------------------
  // Plans

  /** `set_intc` happens only where there is an interrupt controller object to
      hand over, which is on macOS. */
  function IntcPlan(p: Platform, dev: Device): seq<Event>
  {
    if p.IsMacOS() then [SetIntc(dev)] else []
  }

  /** The calls of `attach_mmio_device`: registration, then on x86_64 the
      description of the slot it got on the kernel command line. */
  function MmioPlan(p: Platform, dev: Device, m: Mmio.Manager): seq<Event>
  {
    [RegisterMmio(dev)] + if p.IsX86() then [AddToCmdline(dev, m.nextBase, m.nextIrq)] else []
  }

  /** A virtio device's attachment: device updates `pre`, the subscription,
      calls `post`, then the MMIO attachment `mplan`. */
  function AttachPlan(pre: seq<Event>, dev: Device, post: seq<Event>, mplan: seq<Event>): seq<Event>
  {
    Front(pre, dev, post) + mplan
  }

  function Front(pre: seq<Event>, dev: Device, post: seq<Event>): seq<Event>
  {
    pre + [Subscribe(DeviceSub(dev))] + post
  }

  /** Balloon and vsock: subscribe first, then the interrupt controller, then
      the MMIO manager. */
  function SubscribeFirstPlan(p: Platform, dev: Device, m: Mmio.Manager): seq<Event>
  {
    AttachPlan([], dev, IntcPlan(p, dev), MmioPlan(p, dev, m))
  }

  /** Console: interrupt controller, non-interactive mode when standard input
      cannot be polled, subscription, the SIGWINCH handler (Linux), MMIO. */
  function ConsolePlan(p: Platform, host: Host, m: Mmio.Manager): seq<Event>
  {
    AttachPlan(ConsolePre(p, host), Console, SigwinchPlan(p), MmioPlan(p, Console, m))
  }

  function ConsolePre(p: Platform, host: Host): seq<Event>
  {
    IntcPlan(p, Console) + if host.stdinPollable then [] else [DisableInteractive]
  }

  function SigwinchPlan(p: Platform): seq<Event>
  {
    if p.IsLinux() then [RegisterSigwinch] else []
  }

  /** One filesystem device: interrupt controller (macOS), shared-memory region
      (Linux), subscription, MMIO. */
  function FsItemPlan(p: Platform, dev: Device, m: Mmio.Manager): seq<Event>
  {
    AttachPlan(FsPre(p, dev), dev, [], MmioPlan(p, dev, m))
  }

  function FsPre(p: Platform, dev: Device): seq<Event>
  {
    IntcPlan(p, dev) + if p.IsLinux() then [SetShm(dev)] else []
  }

  /** The filesystem devices `0 .. n-1` of the configured list. */
  function FsDevices(fs: seq<FsConfig>, n: nat): (ds: seq<Device>)
    requires n <= |fs|
    ensures |ds| == n
    ensures forall k :: 0 <= k < n ==> ds[k] == Fs(k, fs[k].id)
  {
    if n == 0 then [] else FsDevices(fs, n - 1) + [Fs(n - 1, fs[n - 1].id)]
  }

  /** The calls for filesystem devices `0 .. n-1`, in list order, each one
      registered after the ones before it. */
  function FsPlan(p: Platform, fs: seq<FsConfig>, n: nat, m: Mmio.Manager): seq<Event>
    requires n <= |fs|
  {
    if n == 0 then [] else FsPlan(p, fs, n - 1, m) + FsItem(p, fs, n - 1, m)
  }

  /** The calls for device `k` of the list, which the MMIO manager sees after
      devices `0 .. k-1` were registered. */
  function FsItem(p: Platform, fs: seq<FsConfig>, k: nat, m: Mmio.Manager): seq<Event>
    requires k < |fs|
  {
    FsItemPlan(p, Fs(k, fs[k].id), Mmio.RegisterAll(m, FsDevices(fs, k)))
  }

  // ---------------------------------------------------------------------------
  // Bookkeeping

  /** What the builder has touched so far: the event manager's subscribers and
      the VMM's fields. */
  datatype Snapshot = Snapshot(
    subscribers: seq<Subscriber>,
    memory: GuestMemory,
    cmdline: seq<CmdlineArg>,
    vm: Vm,
    mmio: Mmio.Manager,
    pio: Option<PioManager>,
    vcpus: seq<Vcpu>)

  function Snap(vmm: Vmm, em: EventManager): Snapshot
    reads vmm, em
  {
    Snapshot(em.subscribers, vmm.memory, vmm.cmdline, vmm.vm, vmm.mmio, vmm.pio, vmm.vcpus)
  }

  /** What a stage leaves behind: the subscriptions, registrations and
      command-line descriptions its successful calls made, appended to what was
      there; nothing else changes. Nothing is ever rolled back. */
  function Apply(host: Host, t: seq<Event>, s: Snapshot): Snapshot
  {
    Snapshot(s.subscribers + Collect(t, Subscribed(host)), s.memory, s.cmdline + Collect(t, Described(host)),
             s.vm, Mmio.RegisterAll(s.mmio, Collect(t, Registered(host))), s.pio, s.vcpus)
  }

  /** A stage that recorded nothing leaves everything as it was. */
  lemma ApplyNothing(host: Host, t: seq<Event>, s: Snapshot)
    requires Collect(t, Subscribed(host)) == [] && Collect(t, Registered(host)) == []
    requires Collect(t, Described(host)) == []
    ensures Apply(host, t, s) == s
  {
  }

  /** A stage whose only record is the subscription of `dev`. */
  lemma ApplySubscription(host: Host, dev: Device, t: seq<Event>, s: Snapshot)
    requires Collect(t, Subscribed(host)) == [DeviceSub(dev)] && Collect(t, Registered(host)) == []
    requires Collect(t, Described(host)) == []
    ensures Apply(host, t, s) == s.(subscribers := s.subscribers + [DeviceSub(dev)])
  {
  }

  /** A stage that subscribed `dev` and then ran the MMIO attachment `mt`. */
  lemma ApplyAttachment(host: Host, dev: Device, t: seq<Event>, mt: seq<Event>, s: Snapshot)
    requires Collect(t, Subscribed(host)) == [DeviceSub(dev)]
    requires Collect(t, Registered(host)) == Collect(mt, Registered(host))
    requires Collect(t, Described(host)) == Collect(mt, Described(host))
    ensures Apply(host, t, s) == s.(subscribers := s.subscribers + [DeviceSub(dev)],
                                     mmio := Mmio.RegisterAll(s.mmio, Collect(mt, Registered(host))),
                                     cmdline := s.cmdline + Collect(mt, Described(host)))
  {
  }

  lemma CollectOne<X>(t: seq<Event>, e: Event, f: Event -> Option<X>)
    ensures Collect(t + [e], f) == Collect(t, f) + if f(e).Some? then [f(e).value] else []
  {
    assert (t + [e])[..|t|] == t;
  }

  lemma {:induction false} CollectNone<X>(t: seq<Event>, f: Event -> Option<X>)
    requires forall i :: 0 <= i < |t| ==> f(t[i]).None?
    ensures Collect(t, f) == []
  {
    if t != [] {
      CollectNone(t[..|t| - 1], f);
    }
  }

  /** Two stages one after the other leave what the stage made of both
      traces leaves. */
  lemma ApplyAppend(host: Host, t1: seq<Event>, t2: seq<Event>, s: Snapshot)
    ensures Apply(host, t1 + t2, s) == Apply(host, t2, Apply(host, t1, s))
  {
    SubscribersAppend(host, t1, t2, s);
    MmioAppend(host, t1, t2, s);
    CmdlineAppend(host, t1, t2, s);
  }

  lemma SubscribersAppend(host: Host, t1: seq<Event>, t2: seq<Event>, s: Snapshot)
    ensures Apply(host, t1 + t2, s).subscribers == Apply(host, t2, Apply(host, t1, s)).subscribers
  {
    CollectAppend(t1, t2, Subscribed(host));
    AppendAssoc(s.subscribers, Collect(t1, Subscribed(host)), Collect(t2, Subscribed(host)));
  }

  lemma MmioAppend(host: Host, t1: seq<Event>, t2: seq<Event>, s: Snapshot)
    ensures Apply(host, t1 + t2, s).mmio == Apply(host, t2, Apply(host, t1, s)).mmio
  {
    CollectAppend(t1, t2, Registered(host));
    Mmio.RegisterAllAppend(s.mmio, Collect(t1, Registered(host)), Collect(t2, Registered(host)));
  }

  lemma CmdlineAppend(host: Host, t1: seq<Event>, t2: seq<Event>, s: Snapshot)
    ensures Apply(host, t1 + t2, s).cmdline == Apply(host, t2, Apply(host, t1, s)).cmdline
  {
    CollectAppend(t1, t2, Described(host));
    AppendAssoc(s.cmdline, Collect(t1, Described(host)), Collect(t2, Described(host)));
  }

  // ---------------------------------------------------------------------------
  // attach_mmio_device

  lemma RegisterOne(m: Mmio.Manager, dev: Device)
    ensures Mmio.RegisterAll(m, [dev]) == Mmio.Register(m, dev)
  {
    assert [dev][..0] == [];
  }

  /** The MMIO manager refused the device: nothing is recorded. */
  lemma MmioRefused(host: Host, p: Platform, dev: Device, m: Mmio.Manager)
    requires !Succeeds(host, RegisterMmio(dev))
    ensures Run(host, MmioPlan(p, dev, m)) == [RegisterMmio(dev)]
    ensures FailsLast(host, [RegisterMmio(dev)])
    ensures FaultOf(host, Last([RegisterMmio(dev)])) == Error(DeviceError(dev, host.fails(RegisterMmio(dev)).value))
    ensures Collect([RegisterMmio(dev)], Registered(host)) == []
    ensures Collect([RegisterMmio(dev)], Described(host)) == []
    ensures Collect([RegisterMmio(dev)], Subscribed(host)) == []
  {
    StopFirst<()>(host, MmioPlan(p, dev, m), RegisterMmio(dev),
                  Error(DeviceError(dev, host.fails(RegisterMmio(dev)).value)));
    CollectOne([], RegisterMmio(dev), Registered(host));
    CollectOne([], RegisterMmio(dev), Described(host));
    CollectOne([], RegisterMmio(dev), Subscribed(host));
  }

  /** The device got its slot: the registration is recorded, and on x86_64 so
      is the description when the command line accepted it. */
  lemma MmioRegistered(host: Host, p: Platform, dev: Device, m: Mmio.Manager)
    requires Succeeds(host, RegisterMmio(dev))
    ensures var e := AddToCmdline(dev, m.nextBase, m.nextIrq);
      && Run(host, MmioPlan(p, dev, m)) == [RegisterMmio(dev)] + (if p.IsX86() then [e] else [])
      && (!p.IsX86() || Succeeds(host, e) ==> Clean(host, Run(host, MmioPlan(p, dev, m))))
      && (p.IsX86() && !Succeeds(host, e) ==>
            FailsLast(host, [RegisterMmio(dev), e])
            && FaultOf(host, Last([RegisterMmio(dev), e])) == Error(DeviceError(dev, host.fails(e).value)))
      && Collect(Run(host, MmioPlan(p, dev, m)), Registered(host)) == [dev]
      && Collect(Run(host, MmioPlan(p, dev, m)), Described(host))
         == (if p.IsX86() && Succeeds(host, e) then [VirtioMmio(m.nextBase, m.nextIrq)] else [])
      && Collect(Run(host, MmioPlan(p, dev, m)), Subscribed(host)) == []
  {
    var e := AddToCmdline(dev, m.nextBase, m.nextIrq);
    CollectOne([], RegisterMmio(dev), Registered(host));
    CollectOne([], RegisterMmio(dev), Described(host));
    CollectOne([], RegisterMmio(dev), Subscribed(host));
    if p.IsX86() {
      CollectOne([RegisterMmio(dev)], e, Registered(host));
      CollectOne([RegisterMmio(dev)], e, Described(host));
      CollectOne([RegisterMmio(dev)], e, Subscribed(host));
      if !Succeeds(host, e) {
        StopWith<()>(host, MmioPlan(p, dev, m), [RegisterMmio(dev)], e, Error(DeviceError(dev, host.fails(e).value)));
        assert [RegisterMmio(dev)] + [e] == [RegisterMmio(dev), e];
      }
    }
  }

  /** `attach_mmio_device`: register the device; on x86_64 describe the slot
      it got on the command line. The error is the manager's own, for the
      caller to classify. */
  method AttachMmioDevice(p: Platform, host: Host, vmm: Vmm, dev: Device)
    returns (r: Result<(), Nested>, t: seq<Event>)
    modifies vmm
    ensures t == Run(host, MmioPlan(p, dev, old(vmm.mmio)))
    ensures r.Ok? <==> Clean(host, t)
    ensures r.Err? ==> FailsLast(host, t) && r.error == host.fails(Last(t)).value
    ensures r.Err? ==> FaultOf(host, Last(t)) == Error(DeviceError(dev, r.error))
    ensures vmm.mmio == Mmio.RegisterAll(old(vmm.mmio), Collect(t, Registered(host)))
    ensures vmm.cmdline == old(vmm.cmdline) + Collect(t, Described(host))
    ensures Collect(t, Subscribed(host)) == []
    ensures Collect(t, Registered(host)) == if Succeeds(host, RegisterMmio(dev)) then [dev] else []
    ensures vmm.memory == old(vmm.memory) && vmm.vm == old(vmm.vm)
    ensures vmm.pio == old(vmm.pio) && vmm.vcpus == old(vmm.vcpus)
  {
    var m := vmm.mmio;
    var registered := host.fails(RegisterMmio(dev));
    if registered.Some? {
      MmioRefused(host, p, dev, m);
      r := Err(registered.value);
      t := [RegisterMmio(dev)];
      return;
    }
    MmioRegistered(host, p, dev, m);
    RegisterOne(m, dev);
    vmm.mmio := Mmio.Register(vmm.mmio, dev);
    t := [RegisterMmio(dev)];
    if p.IsX86() {
      var e := AddToCmdline(dev, m.nextBase, m.nextIrq);
      var described := host.fails(e);
      t := t + [e];
      if described.Some? {
        r := Err(described.value);
        return;
      }
      vmm.cmdline := vmm.cmdline + [VirtioMmio(m.nextBase, m.nextIrq)];
    }
    r := Ok(());
  }

  // ---------------------------------------------------------------------------
  // Composition of a device's calls

  /** Updates of the device object itself: they cannot fail. */
  predicate Infallible(t: seq<Event>)
  {
    forall i :: 0 <= i < |t| ==> !Fallible(t[i])
  }

  /** Calls that neither subscribe, register nor describe anything. */
  predicate Quiet(t: seq<Event>)
  {
    forall i :: 0 <= i < |t| ==> !t[i].Subscribe? && !t[i].RegisterMmio? && !t[i].AddToCmdline?
  }

  /** Device updates succeed and record nothing. */
  lemma DeviceUpdates(host: Host, t: seq<Event>)
    requires Infallible(t)
    ensures Clean(host, t) && Quiet(t)
  {
  }

  lemma QuietRecordsNothing(host: Host, t: seq<Event>)
    requires Quiet(t)
    ensures Collect(t, Subscribed(host)) == []
    ensures Collect(t, Registered(host)) == [] && Collect(t, Described(host)) == []
  {
    CollectNone(t, Subscribed(host));
    CollectNone(t, Registered(host));
    CollectNone(t, Described(host));
  }

  lemma IntcQuiet(host: Host, p: Platform, dev: Device)
    ensures Infallible(IntcPlan(p, dev)) && Clean(host, IntcPlan(p, dev)) && Quiet(IntcPlan(p, dev))
  {
  }

  lemma ConsolePreInfallible(p: Platform, host: Host)
    ensures Infallible(ConsolePre(p, host))
  {
  }

  lemma FsPreInfallible(p: Platform, dev: Device)
    ensures Infallible(FsPre(p, dev))
  {
  }

  lemma SigwinchQuiet(host: Host, p: Platform)
    requires p.IsLinux() ==> Succeeds(host, RegisterSigwinch)
    ensures Clean(host, SigwinchPlan(p)) && Quiet(SigwinchPlan(p))
  {
  }

  /** The subscription after the device updates `pre` was refused: the helper
      stops there, with `RegisterEvent`, and nothing is recorded. */
  lemma SubscriptionRefused(host: Host, pre: seq<Event>, dev: Device, post: seq<Event>, mplan: seq<Event>)
    requires Infallible(pre) && !Succeeds(host, Subscribe(DeviceSub(dev)))
    ensures Run(host, AttachPlan(pre, dev, post, mplan)) == pre + [Subscribe(DeviceSub(dev))]
    ensures Reports(host, pre + [Subscribe(DeviceSub(dev))],
                    Result<(), Fault>.Err(Error(RegisterEvent(host.fails(Subscribe(DeviceSub(dev))).value))))
    ensures Collect(pre + [Subscribe(DeviceSub(dev))], Subscribed(host)) == []
    ensures Collect(pre + [Subscribe(DeviceSub(dev))], Registered(host)) == []
    ensures Collect(pre + [Subscribe(DeviceSub(dev))], Described(host)) == []
  {
    var sub := Subscribe(DeviceSub(dev));
    DeviceUpdates(host, pre);
    QuietRecordsNothing(host, pre);
    assert pre + [sub] <= pre + [sub] + post;
    StopWith<()>(host, AttachPlan(pre, dev, post, mplan), pre, sub, Error(RegisterEvent(host.fails(sub).value)));
    CollectOne(pre, sub, Subscribed(host));
    CollectOne(pre, sub, Registered(host));
    CollectOne(pre, sub, Described(host));
  }

  /** A front part that went through: device updates, a subscription, more
      calls that record nothing. It records only the subscription. */
  lemma SubscribedFront(host: Host, pre: seq<Event>, dev: Device, post: seq<Event>)
    requires Infallible(pre) && Succeeds(host, Subscribe(DeviceSub(dev)))
    requires Clean(host, post) && Quiet(post)
    ensures Clean(host, Front(pre, dev, post))
    ensures Collect(Front(pre, dev, post), Subscribed(host)) == [DeviceSub(dev)]
    ensures Collect(Front(pre, dev, post), Registered(host)) == []
    ensures Collect(Front(pre, dev, post), Described(host)) == []
  {
    var sub := Subscribe(DeviceSub(dev));
    DeviceUpdates(host, pre);
    QuietRecordsNothing(host, pre);
    QuietRecordsNothing(host, post);
    CollectOne(pre, sub, Subscribed(host));
    CollectOne(pre, sub, Registered(host));
    CollectOne(pre, sub, Described(host));
    CollectAppend(pre + [sub], post, Subscribed(host));
    CollectAppend(pre + [sub], post, Registered(host));
    CollectAppend(pre + [sub], post, Described(host));
    CleanAppend(host, pre, [sub]);
    CleanAppend(host, pre + [sub], post);
  }

  /** Running a clean front part and then a second plan runs the whole plan;
      the bookkeeping of the two parts adds up. */
  lemma ThenRun(host: Host, front: seq<Event>, mplan: seq<Event>, mt: seq<Event>)
    requires Clean(host, front) && mt == Run(host, mplan)
    ensures Run(host, front + mplan) == front + mt
    ensures Clean(host, front + mt) <==> Clean(host, mt)
    ensures FailsLast(host, mt) ==> FailsLast(host, front + mt) && Last(front + mt) == Last(mt)
    ensures Collect(front + mt, Subscribed(host)) == Collect(front, Subscribed(host)) + Collect(mt, Subscribed(host))
    ensures Collect(front + mt, Registered(host)) == Collect(front, Registered(host)) + Collect(mt, Registered(host))
    ensures Collect(front + mt, Described(host)) == Collect(front, Described(host)) + Collect(mt, Described(host))
  {
    RunAppend(host, front, mplan);
    CleanAppend(host, front, mt);
    if FailsLast(host, mt) {
      AfterClean(host, front, mt);
    }
    CollectAppend(front, mt, Subscribed(host));
    CollectAppend(front, mt, Registered(host));
    CollectAppend(front, mt, Described(host));
  }

  /** The subscription went through: after the calls `post` comes the MMIO
      attachment, and the subscription is all the front part records. */
  lemma SubscribedThenAttached(host: Host, pre: seq<Event>, dev: Device, post: seq<Event>, mplan: seq<Event>,
                                mt: seq<Event>, attached: Result<(), Nested>)
    requires Infallible(pre) && Succeeds(host, Subscribe(DeviceSub(dev)))
    requires Clean(host, post) && Quiet(post)
    requires mt == Run(host, mplan) && Collect(mt, Subscribed(host)) == []
    requires attached.Ok? <==> Clean(host, mt)
    requires attached.Err? ==> FailsLast(host, mt) && FaultOf(host, Last(mt)) == Error(DeviceError(dev, attached.error))
    ensures Run(host, AttachPlan(pre, dev, post, mplan)) == Front(pre, dev, post) + mt
    ensures Reports(host, Front(pre, dev, post) + mt,
                    if attached.Ok? then Ok(()) else Err(Error(DeviceError(dev, attached.error))))
    ensures Collect(Front(pre, dev, post) + mt, Subscribed(host)) == [DeviceSub(dev)]
    ensures Collect(Front(pre, dev, post) + mt, Registered(host)) == Collect(mt, Registered(host))
    ensures Collect(Front(pre, dev, post) + mt, Described(host)) == Collect(mt, Described(host))
  {
    SubscribedFront(host, pre, dev, post);
    ThenRun(host, Front(pre, dev, post), mplan, mt);
    if attached.Err? {
      assert Last(Front(pre, dev, post) + mt) == Last(mt);
    }
  }

  /** The console's subscription went through but the SIGWINCH handler could
      not be installed: the helper stops there with `RegisterFsSigwinch`, and
      the subscription stays recorded. */
  lemma SigwinchRefused(host: Host, pre: seq<Event>, mplan: seq<Event>)
    requires Infallible(pre) && Succeeds(host, Subscribe(DeviceSub(Console)))
    requires !Succeeds(host, RegisterSigwinch)
    ensures Run(host, AttachPlan(pre, Console, [RegisterSigwinch], mplan)) == Front(pre, Console, [RegisterSigwinch])
    ensures Reports(host, Front(pre, Console, [RegisterSigwinch]),
                    Result<(), Fault>.Err(Error(RegisterFsSigwinch(host.fails(RegisterSigwinch).value))))
    ensures Collect(Front(pre, Console, [RegisterSigwinch]), Subscribed(host)) == [DeviceSub(Console)]
    ensures Collect(Front(pre, Console, [RegisterSigwinch]), Registered(host)) == []
    ensures Collect(Front(pre, Console, [RegisterSigwinch]), Described(host)) == []
  {
    var front := Front(pre, Console, []);
    SubscribedFront(host, pre, Console, []);
    assert Front(pre, Console, [RegisterSigwinch]) == front + [RegisterSigwinch];
    StopWith<()>(host, AttachPlan(pre, Console, [RegisterSigwinch], mplan), front, RegisterSigwinch,
                 Error(RegisterFsSigwinch(host.fails(RegisterSigwinch).value)));
    CollectOne(front, RegisterSigwinch, Subscribed(host));
    CollectOne(front, RegisterSigwinch, Registered(host));
    CollectOne(front, RegisterSigwinch, Described(host));
  }

  /** What follows a subscription that went through: the calls `post`, which
      record nothing, then `attach_mmio_device`. Only the MMIO manager and the
      command line change; the error is the manager's own, which the caller
      classifies (`DeviceError`). */
  method AttachSubscribed(p: Platform, host: Host, vmm: Vmm, pre: seq<Event>, dev: Device, post: seq<Event>)
    returns (attached: Result<(), Nested>, t: seq<Event>)
    requires Infallible(pre) && Succeeds(host, Subscribe(DeviceSub(dev)))
    requires Clean(host, post) && Quiet(post)
    modifies vmm
    ensures t == Run(host, AttachPlan(pre, dev, post, MmioPlan(p, dev, old(vmm.mmio))))
    ensures Reports(host, t, if attached.Ok? then Ok(()) else Err(Error(DeviceError(dev, attached.error))))
    ensures Collect(t, Subscribed(host)) == [DeviceSub(dev)]
    ensures vmm.mmio == Mmio.RegisterAll(old(vmm.mmio), Collect(t, Registered(host)))
    ensures vmm.cmdline == old(vmm.cmdline) + Collect(t, Described(host))
    ensures vmm.memory == old(vmm.memory) && vmm.vm == old(vmm.vm)
    ensures vmm.pio == old(vmm.pio) && vmm.vcpus == old(vmm.vcpus)
  {
    ghost var m := vmm.mmio;
    var mt;
    attached, mt := AttachMmioDevice(p, host, vmm, dev);
    SubscribedThenAttached(host, pre, dev, post, MmioPlan(p, dev, m), mt, attached);
    t := Front(pre, dev, post) + mt;
  }

  // ---------------------------------------------------------------------------
  // The attachment helpers

  /** `attach_balloon_device`: subscribe, set the interrupt controller, attach;
      an MMIO failure is `RegisterBalloonDevice`. */
  method AttachBalloonDevice(p: Platform, host: Host, vmm: Vmm, em: EventManager, id: string)
    returns (r: Result<(), Fault>, t: seq<Event>)
    modifies vmm, em
    ensures t == Run(host, SubscribeFirstPlan(p, Balloon(id), old(vmm.mmio)))
    ensures Reports(host, t, r)
    ensures r.Err? ==> r.error.Error? && (r.error.err.RegisterEvent? || r.error.err.RegisterBalloonDevice?)
    ensures Snap(vmm, em) == Apply(host, t, old(Snap(vmm, em)))
  {
    var dev := Balloon(id);
    ghost var m := vmm.mmio;
    var post := IntcPlan(p, dev);
    var subscribed := em.AddSubscriber(host, DeviceSub(dev));
    if subscribed.Err? {
      SubscriptionRefused(host, [], dev, post, MmioPlan(p, dev, m));
      r := Err(Error(RegisterEvent(subscribed.error)));
      t := [] + [Subscribe(DeviceSub(dev))];
      ApplyNothing(host, t, old(Snap(vmm, em)));
      return;
    }
    IntcQuiet(host, p, dev);
    var attached, aseg := AttachSubscribed(p, host, vmm, [], dev, post);
    t := aseg;
    if attached.Err? {
      // map_err(RegisterBalloonDevice)
      DeviceErrors(dev, attached.error);
      r := Err(Error(RegisterBalloonDevice(attached.error)));
      return;
    }
    r := Ok(());
  }

  /** `attach_unixsock_vsock_device`: subscribe, set the interrupt controller, attach;
      an MMIO failure is `RegisterVsockDevice`. */
  method AttachVsockDevice(p: Platform, host: Host, vmm: Vmm, em: EventManager, id: string)
    returns (r: Result<(), Fault>, t: seq<Event>)
    modifies vmm, em
    ensures t == Run(host, SubscribeFirstPlan(p, Vsock(id), old(vmm.mmio)))
    ensures Reports(host, t, r)
    ensures r.Err? ==> r.error.Error? && (r.error.err.RegisterEvent? || r.error.err.RegisterVsockDevice?)
    ensures Snap(vmm, em) == Apply(host, t, old(Snap(vmm, em)))
  {
    var dev := Vsock(id);
    ghost var m := vmm.mmio;
    var post := IntcPlan(p, dev);
    var subscribed := em.AddSubscriber(host, DeviceSub(dev));
    if subscribed.Err? {
      SubscriptionRefused(host, [], dev, post, MmioPlan(p, dev, m));
      r := Err(Error(RegisterEvent(subscribed.error)));
      t := [] + [Subscribe(DeviceSub(dev))];
      ApplyNothing(host, t, old(Snap(vmm, em)));
      return;
    }
    IntcQuiet(host, p, dev);
    var attached, aseg := AttachSubscribed(p, host, vmm, [], dev, post);
    t := aseg;
    if attached.Err? {
      // map_err(RegisterVsockDevice)
      DeviceErrors(dev, attached.error);
      r := Err(Error(RegisterVsockDevice(attached.error)));
      return;
    }
    r := Ok(());
  }

  /** `attach_console_devices`: set the interrupt controller, leave
      interactive mode when standard input cannot be polled, subscribe,
      install the SIGWINCH handler (Linux), attach as `hvc0`. A refused
      subscription is `RegisterEvent`, a refused handler `RegisterFsSigwinch`,
      and an MMIO failure `RegisterFsDevice`. */
  method AttachConsoleDevices(p: Platform, host: Host, vmm: Vmm, em: EventManager)
    returns (r: Result<(), Fault>, t: seq<Event>)
    modifies vmm, em
    ensures t == Run(host, ConsolePlan(p, host, old(vmm.mmio)))
    ensures Reports(host, t, r)
    ensures r.Err? ==> r.error.Error? && (r.error.err.RegisterEvent? || r.error.err.RegisterFsSigwinch?
                                          || r.error.err.RegisterFsDevice?)
    ensures Snap(vmm, em) == Apply(host, t, old(Snap(vmm, em)))
  {
    ghost var m := vmm.mmio;
    var pre := ConsolePre(p, host);
    var post := SigwinchPlan(p);
    ConsolePreInfallible(p, host);
    var subscribed := em.AddSubscriber(host, DeviceSub(Console));
    if subscribed.Err? {
      SubscriptionRefused(host, pre, Console, post, MmioPlan(p, Console, m));
      r := Err(Error(RegisterEvent(subscribed.error)));
      t := pre + [Subscribe(DeviceSub(Console))];
      ApplyNothing(host, t, old(Snap(vmm, em)));
      return;
    }
    if p.IsLinux() {
      var handler := host.fails(RegisterSigwinch);
      if handler.Some? {
        SigwinchRefused(host, pre, MmioPlan(p, Console, m));
        r := Err(Error(RegisterFsSigwinch(handler.value)));
        t := Front(pre, Console, [RegisterSigwinch]);
        ApplySubscription(host, Console, t, old(Snap(vmm, em)));
        return;
      }
    }
    SigwinchQuiet(host, p);
    var attached, aseg := AttachSubscribed(p, host, vmm, pre, Console, post);
    t := aseg;
    if attached.Err? {
      // map_err(RegisterFsDevice)
      DeviceErrors(Console, attached.error);
      r := Err(Error(RegisterFsDevice(attached.error)));
      return;
    }
    r := Ok(());
  }

  /** One iteration of `attach_fs_devices`: set the interrupt controller
      (macOS), the shared-memory region (Linux), subscribe, attach. A refused
      subscription is `RegisterEvent`, an MMIO failure `RegisterFsDevice`; on
      success the device, and only it, is registered. */
  method AttachFsDevice(p: Platform, host: Host, vmm: Vmm, em: EventManager, pos: nat, id: string)
    returns (r: Result<(), Fault>, t: seq<Event>)
    modifies vmm, em
    ensures t == Run(host, FsItemPlan(p, Fs(pos, id), old(vmm.mmio)))
    ensures Reports(host, t, r)
    ensures r.Err? ==> r.error.Error? && (r.error.err.RegisterEvent? || r.error.err.RegisterFsDevice?)
    ensures Snap(vmm, em) == Apply(host, t, old(Snap(vmm, em)))
  {
    var dev := Fs(pos, id);
    ghost var m := vmm.mmio;
    var pre := FsPre(p, dev);
    FsPreInfallible(p, dev);
    var subscribed := em.AddSubscriber(host, DeviceSub(dev));
    if subscribed.Err? {
      SubscriptionRefused(host, pre, dev, [], MmioPlan(p, dev, m));
      r := Err(Error(RegisterEvent(subscribed.error)));
      t := pre + [Subscribe(DeviceSub(dev))];
      ApplyNothing(host, t, old(Snap(vmm, em)));
      return;
    }
    var attached, aseg := AttachSubscribed(p, host, vmm, pre, dev, []);
    t := aseg;
    if attached.Err? {
      // map_err(RegisterFsDevice)
      DeviceErrors(dev, attached.error);
      r := Err(Error(RegisterFsDevice(attached.error)));
      return;
    }
    r := Ok(());
  }

  lemma {:induction false} FsPlanPrefix(p: Platform, fs: seq<FsConfig>, i: nat, n: nat, m: Mmio.Manager)
    requires i <= n <= |fs|
    ensures FsPlan(p, fs, i, m) <= FsPlan(p, fs, n, m)
  {
    if i < n {
      FsPlanPrefix(p, fs, i, n - 1, m);
      FsPlanGrows(p, fs, n - 1, m);
      PrefixTransitive(FsPlan(p, fs, i, m), FsPlan(p, fs, n - 1, m), FsPlan(p, fs, n, m));
    } else {
      PrefixReflexive(FsPlan(p, fs, n, m));
    }
  }

  /** A device attachment whose calls all went through records exactly the
      device's subscription, its registration and, on x86_64, the description
      of the slot it got. */
  lemma AttachRecords(host: Host, p: Platform, pre: seq<Event>, dev: Device, post: seq<Event>, m: Mmio.Manager)
    requires Infallible(pre) && Quiet(post)
    requires Clean(host, AttachPlan(pre, dev, post, MmioPlan(p, dev, m)))
    ensures Collect(AttachPlan(pre, dev, post, MmioPlan(p, dev, m)), Subscribed(host)) == [DeviceSub(dev)]
    ensures Collect(AttachPlan(pre, dev, post, MmioPlan(p, dev, m)), Registered(host)) == [dev]
    ensures Collect(AttachPlan(pre, dev, post, MmioPlan(p, dev, m)), Described(host))
      == if p.IsX86() then [VirtioMmio(m.nextBase, m.nextIrq)] else []
  {
    var sub := Subscribe(DeviceSub(dev));
    var front := Front(pre, dev, post);
    var mplan := MmioPlan(p, dev, m);
    CleanAppend(host, front, mplan);
    CleanAppend(host, pre + [sub], post);
    assert Succeeds(host, sub) by {
      assert front[|pre|] == sub;
    }
    SubscribedFront(host, pre, dev, post);
    assert Succeeds(host, RegisterMmio(dev)) by {
      assert mplan[0] == RegisterMmio(dev);
    }
    MmioRegistered(host, p, dev, m);
    if p.IsX86() {
      assert Succeeds(host, mplan[1]);
    }
    CollectAppend(front, mplan, Subscribed(host));
    CollectAppend(front, mplan, Registered(host));
    CollectAppend(front, mplan, Described(host));
  }

  /** Filesystem device `k` went through: it is subscribed and registered,
      and on x86_64 described with the slot after devices `0 .. k-1`. */
  lemma FsItemRecords(host: Host, p: Platform, fs: seq<FsConfig>, k: nat, m: Mmio.Manager)
    requires k < |fs| && Clean(host, FsItem(p, fs, k, m))
    ensures Collect(FsItem(p, fs, k, m), Subscribed(host)) == [DeviceSub(Fs(k, fs[k].id))]
    ensures Collect(FsItem(p, fs, k, m), Registered(host)) == [Fs(k, fs[k].id)]
    ensures var mk := Mmio.RegisterAll(m, FsDevices(fs, k));
      Collect(FsItem(p, fs, k, m), Described(host)) == if p.IsX86() then [VirtioMmio(mk.nextBase, mk.nextIrq)] else []
  {
    var dev := Fs(k, fs[k].id);
    FsPreInfallible(p, dev);
    AttachRecords(host, p, FsPre(p, dev), dev, [], Mmio.RegisterAll(m, FsDevices(fs, k)));
  }

  /** A plan that failed after a clean front part, inside a longer plan: the
      longer plan stops at the same call. */
  lemma StopsInside(host: Host, whole: seq<Event>, front: seq<Event>, plan: seq<Event>, seg: seq<Event>)
    requires front + plan <= whole && Clean(host, front)
    requires seg == Run(host, plan) && !Clean(host, seg)
    ensures Run(host, whole) == front + seg
  {
    var rest := whole[|front + plan|..];
    assert whole == (front + plan) + rest;
    AppendAssoc(front, plan, rest);
    assert !Clean(host, plan);
    RunAppend(host, plan, rest);
    RunAppend(host, front, plan + rest);
  }

  /** Device `i` of the list after devices `0 .. i-1` went through: either it
      went through as well, or the whole list stops at its failing call. */
  lemma FsStep(host: Host, p: Platform, fs: seq<FsConfig>, i: nat, m: Mmio.Manager, t: seq<Event>, seg: seq<Event>)
    requires i < |fs|
    requires t == FsPlan(p, fs, i, m) && Clean(host, t)
    requires seg == Run(host, FsItem(p, fs, i, m))
    requires Collect(t, Registered(host)) == FsDevices(fs, i)
    ensures Clean(host, seg) ==> t + seg == FsPlan(p, fs, i + 1, m) && Clean(host, t + seg)
    ensures Clean(host, seg) ==> Collect(t + seg, Registered(host)) == FsDevices(fs, i + 1)
    ensures Clean(host, seg) ==> Collect(seg, Subscribed(host)) == [DeviceSub(Fs(i, fs[i].id))]
    ensures Clean(host, seg) ==> var mi := Mmio.RegisterAll(m, FsDevices(fs, i));
      Collect(seg, Described(host)) == if p.IsX86() then [VirtioMmio(mi.nextBase, mi.nextIrq)] else []
    ensures !Clean(host, seg) ==>
      Run(host, FsPlan(p, fs, |fs|, m)) == t + seg && FailsLast(host, t + seg) && Last(t + seg) == Last(seg)
    ensures Collect(t + seg, Subscribed(host)) == Collect(t, Subscribed(host)) + Collect(seg, Subscribed(host))
    ensures Collect(t + seg, Registered(host)) == Collect(t, Registered(host)) + Collect(seg, Registered(host))
    ensures Collect(t + seg, Described(host)) == Collect(t, Described(host)) + Collect(seg, Described(host))
  {
    var item := FsItem(p, fs, i, m);
    FsPlanNext(p, fs, i, m);
    if Clean(host, seg) {
      FsItemRecords(host, p, fs, i, m);
    }
    ThenRun(host, t, item, seg);
    if !Clean(host, seg) {
      FsPlanPrefix(p, fs, i + 1, |fs|, m);
      StopsInside(host, FsPlan(p, fs, |fs|, m), t, item, seg);
    }
  }

  lemma FsPlanNext(p: Platform, fs: seq<FsConfig>, i: nat, m: Mmio.Manager)
    requires i < |fs|
    ensures FsPlan(p, fs, i + 1, m) == FsPlan(p, fs, i, m) + FsItem(p, fs, i, m)
  {
  }

  lemma FsPlanGrows(p: Platform, fs: seq<FsConfig>, i: nat, m: Mmio.Manager)
    requires i < |fs|
    ensures FsPlan(p, fs, i, m) <= FsPlan(p, fs, i + 1, m)
  {
    FsPlanNext(p, fs, i, m);
    PrefixAppend(FsPlan(p, fs, i, m), FsItem(p, fs, i, m));
  }

  /** One more device of the list: one more subscription and one more slot. */
  lemma FsListed(fs: seq<FsConfig>, i: nat, m: Mmio.Manager)
    requires i < |fs|
    ensures var dev := Fs(i, fs[i].id);
      && FsDevices(fs, i + 1) == FsDevices(fs, i) + [dev]
      && DeviceSubs(FsDevices(fs, i + 1)) == DeviceSubs(FsDevices(fs, i)) + [DeviceSub(dev)]
      && Slots(m, FsDevices(fs, i + 1)) == Slots(m, FsDevices(fs, i))
           + [VirtioMmio(Mmio.RegisterAll(m, FsDevices(fs, i)).nextBase, Mmio.RegisterAll(m, FsDevices(fs, i)).nextIrq)]
  {
    var dev := Fs(i, fs[i].id);
    DeviceSubsAppend(FsDevices(fs, i), [dev]);
    SlotsLast(m, FsDevices(fs, i), dev);
  }

  /** `attach_fs_devices`: the configured filesystem devices in list order,
      each registered after the ones before it; the first failure stops the
      loop and the devices already attached stay attached. */
  method AttachFsDevices(p: Platform, host: Host, vmm: Vmm, em: EventManager, fs: seq<FsConfig>)
    returns (r: Result<(), Fault>, t: seq<Event>)
    modifies vmm, em
    ensures t == Run(host, FsPlan(p, fs, |fs|, old(vmm.mmio)))
    ensures Reports(host, t, r)
    ensures r.Err? ==> r.error.Error? && (r.error.err.RegisterEvent? || r.error.err.RegisterFsDevice?)
    ensures r.Ok? ==> Collect(t, Subscribed(host)) == DeviceSubs(FsDevices(fs, |fs|))
    ensures r.Ok? ==> Collect(t, Registered(host)) == FsDevices(fs, |fs|)
    ensures r.Ok? ==> Collect(t, Described(host)) == if p.IsX86() then Slots(old(vmm.mmio), FsDevices(fs, |fs|)) else []
    ensures Snap(vmm, em) == Apply(host, t, old(Snap(vmm, em)))
  {
    ghost var m := vmm.mmio;
    ghost var s0 := Snap(vmm, em);
    t := [];
    for i := 0 to |fs|
      invariant t == FsPlan(p, fs, i, m) && Clean(host, t)
      invariant Collect(t, Subscribed(host)) == DeviceSubs(FsDevices(fs, i))
      invariant Collect(t, Registered(host)) == FsDevices(fs, i)
      invariant Collect(t, Described(host)) == if p.IsX86() then Slots(m, FsDevices(fs, i)) else []
      invariant Snap(vmm, em) == Apply(host, t, s0)
    {
      var attached, seg := AttachFsDevice(p, host, vmm, em, i, fs[i].id);
      FsStep(host, p, fs, i, m, t, seg);
      ApplyAppend(host, t, seg, s0);
      if attached.Err? {
        t := t + seg;
        r := attached;
        return;
      }
      FsListed(fs, i, m);
      t := t + seg;
    }
    r := Ok(());
  }
}
