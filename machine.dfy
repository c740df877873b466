/** The state the builder assembles: the configuration it reads, the values
    its collaborators hand back, the event manager it registers with and the
    `Vmm` it fills in. */
module Machine {
  import opened Wrappers
  import opened Events
  import opened Errors
  import Mmio

  /** The kernel image already in host memory: where it is, where the guest
      expects it and how long it is. */
  datatype KernelBundle = KernelBundle(hostAddr: nat, guestAddr: nat, size: nat)

  datatype FsConfig = FsConfig(id: string)

  /** What `build_microvm` reads from `VmResources`. */
  datatype VmResources = VmResources(
    kernel: Option<KernelBundle>,
    memSizeMib: Option<nat>,
    vcpuCount: nat,
    prolog: Option<string>,
    epilog: Option<string>,
    fs: seq<FsConfig>,
    vsock: Option<string>)

  /** Values defined outside the builder: `DEFAULT_KERNEL_CMDLINE`, the MMIO
      window start and length, the first device interrupt line, and the
      balloon's identifier. */
  datatype Consts = Consts(
    defaultCmdline: string,
    mmioMemStart: nat,
    mmioLen: nat,
    irqBase: nat,
    balloonId: string)

  /** Guest memory of the requested size with the kernel placed in it. */
  datatype GuestMemory = GuestMemory(sizeBytes: nat, kernelAddr: nat)

  /** A kernel command-line piece: text inserted by the builder, or a virtio
      MMIO device description added for a registered device (x86_64). */
  datatype CmdlineArg = Text(s: string) | VirtioMmio(base: nat, irq: nat)

  /** An eventfd bound to a guest interrupt line. */
  datatype Irqfd = Irqfd(evt: LegacyEvt, line: nat)

  /** The hypervisor VM: whether its interrupt controller exists and which
      event sources are bound to guest interrupt lines. */
  datatype Vm = Vm(irqchip: bool, irqfds: seq<Irqfd>)

  /** The port-I/O device manager (x86_64): whether its legacy devices are on
      the I/O bus. */
  datatype PioManager = PioManager(registered: bool)

  /** A configured vCPU: its index, its entry point, and on macOS the boot
      rendezvous channels it holds (channels are named by the index of the vCPU
      whose iteration created them). */
  datatype Vcpu = Vcpu(index: nat, entry: nat, bootReceiver: Option<nat>, bootSenders: seq<nat>)

  /** The descriptions the successful `add_device_to_cmdline` calls added. */
  function Described(host: Host): Event -> Option<CmdlineArg>
  {
    (e: Event) => if e.AddToCmdline? && Succeeds(host, e) then Some(VirtioMmio(e.base, e.irq)) else None
  }

  /** The event manager: the reactor every device and the VMM subscribe to. */
  class EventManager {
    var subscribers: seq<Subscriber>

    /** `add_subscriber`: the host decides whether the registration succeeds;
        only a successful one is recorded. */
    method AddSubscriber(host: Host, who: Subscriber) returns (r: Result<(), Nested>)
      modifies this
      ensures r.Ok? == Succeeds(host, Subscribe(who))
      ensures r.Err? ==> r.error == host.fails(Subscribe(who)).value
      ensures subscribers == old(subscribers) + if r.Ok? then [who] else []
    {
      var failed := host.fails(Subscribe(who));
      if failed.Some? {
        return Err(failed.value);
      }
      subscribers := subscribers + [who];
      r := Ok(());
    }
  }

  /** The microVM under construction. */
  class Vmm {
    var memory: GuestMemory
    var cmdline: seq<CmdlineArg>
    var vm: Vm
    var mmio: Mmio.Manager
    var pio: Option<PioManager>
    /** The vCPUs handed over to `start_vcpus`. */
    var vcpus: seq<Vcpu>

    /** The `Vmm { .. }` literal: no vCPU is running yet. */
    constructor (memory: GuestMemory, cmdline: seq<CmdlineArg>, vm: Vm, mmio: Mmio.Manager, pio: Option<PioManager>)
      ensures this.memory == memory && this.cmdline == cmdline && this.vm == vm
      ensures this.mmio == mmio && this.pio == pio && this.vcpus == []
    {
      this.memory := memory;
      this.cmdline := cmdline;
      this.vm := vm;
      this.mmio := mmio;
      this.pio := pio;
      this.vcpus := [];
    }
  }
}
