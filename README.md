# A model of libkrun's microVM builder

`build_microvm` (in `src/vmm/src/builder.rs`) turns a set of `VmResources` into a
running microVM. It runs these steps in order:

1. Map the kernel bundle, then create the guest memory.
2. Write the command-line prolog.
3. Open the hypervisor and create the VM.
4. Create the exit event and, on x86_64, the port-I/O device manager.
5. Create the MMIO device manager.
6. Create the interrupt controller, the legacy devices and the vCPUs, in an
   order that depends on the architecture.
7. Attach the virtio devices: balloon, console, each shared filesystem, then
   vsock.
8. Append the command-line epilog and, on x86_64, write the command line into
   guest memory.
9. Configure the system, start the vCPUs and register the VMM with the event
   manager.

Every step can fail. The builder stops at the first failure and reports it as a
`StartMicrovmError`, through a fixed `map_err` table. Nothing done before the
failure is undone.

The model has three platforms: x86_64 Linux, aarch64 Linux and aarch64 macOS.

The hypervisor, the event manager, the MMIO and port-I/O managers and the
command-line writer are outside the builder. Each call into them is an `Event`.

A `Host` value is the environment of one build:
- it says which calls fail, and with which nested error text;
- it says whether standard input can be polled.

`Run(host, plan)` is the part of a plan that a build actually issues: every call
up to and including the first one that fails.

Each step is a Dafny method. It returns its result and its trace, and is proved
against its plan:
- the trace is `Run(host, plan)`;
- on success every call succeeded, except in `setup_serial_device`, which swallows a failed subscription and still returns `Ok`;
- on failure every call but the last succeeded, and the error is the last call's
  consequence in the `map_err` table;
- a `.unwrap()` that fails is a `Panic`.

The objects the builder changes in place are classes whose methods state their
whole new state:
- the event manager, with the subscribers it holds;
- the `Vmm`, with its guest memory, command line, VM, MMIO and port-I/O managers
  and vCPUs.

The changes a trace makes, on success and on failure alike, are a function of
the trace (`Devices.Apply`). This is how the model states that nothing is rolled
back.

On top of the steps, the model proves:
- **Call order.** Every build issues its calls in strictly increasing rank
  (`Order.BuildOrder`). The interrupt controller comes before the vCPUs on
  x86_64 and after them on aarch64. Each device is subscribed before it is
  registered, and registered before it is described. The devices come in their
  fixed order. The epilog comes after every device.
- **The finished microVM** (module `Built`):
  - the MMIO registry holds the legacy devices and then the attached devices,
    in slots that never overlap;
  - on x86_64 the kernel command line describes exactly those slots;
  - the vCPUs are numbered from 0, and on macOS they are joined by the boot
    rendezvous;
  - the event manager gains one entry per device, then the VMM.
- **Error messages.** The quote-stripping in `Display` removes every quote and
  keeps every other character. Every message is its variant's fixed text
  followed by the nested error.

The console's MMIO failure is reported as `RegisterFsDevice`, as the source
writes it (line 881).

## Model

| member | source | states |
|---|---|---|
| Errors.StripQuotes | src/vmm/src/builder.rs:108 | the `replace("\"", "")` result holds no quote, is no longer than its input and keeps every other character with its multiplicity |
| Errors.StripQuotesKeepsQuoteFree | src/vmm/src/builder.rs:108 | text without a quote is left unchanged |
| Errors.StripQuotesAppend | src/vmm/src/builder.rs:108 | stripping the quotes of a concatenation strips each part |
| Errors.StripQuotesIdempotent | src/vmm/src/builder.rs:108 | stripping twice is stripping once |
| Errors.NestedText | src/vmm/src/builder.rs:97-209 | the nested part of a message is the nested error's own Debug or Display rendering, the command-line text for `KernelCmdline`, and empty for the variants that carry nothing |
| Errors.Display | src/vmm/src/builder.rs:97-209 | every message starts with its variant's fixed text, followed by at most as many characters as the nested text has |
| Errors.TailQuote | src/vmm/src/builder.rs:97-209 | a quote of the nested error reaches the message exactly when the variant does not strip quotes and the nested text holds one |
| Errors.StrippedTailKeepsText | src/vmm/src/builder.rs:105-206 | for the variants that strip quotes, the tail has no quote, keeps every other character, and is the nested text itself when that has no quote |
| Errors.FromCmdlineError | src/vmm/src/builder.rs:91-95 | a command-line error always becomes `KernelCmdline` carrying the error's text |
| Errors.FromCmdlineErrorDisplay | src/vmm/src/builder.rs:117 | the converted error displays as "Invalid kernel command line: " followed by the original text, unchanged |
| Events.DeviceError | src/vmm/src/builder.rs:646-940 | a refused MMIO registration keeps its cause; it is `Internal(RegisterMMIODevice)` exactly for the legacy RTC and GIC, and a device-specific variant for the virtio devices |
| Events.Consequence | src/vmm/src/builder.rs:275-940 | the `map_err` and `unwrap` table of the build: a failed call panics exactly when it is the kernel write on macOS, the prolog insert or the epilog insert, and every other failure is an error that carries the call's own cause |
| Events.DeviceErrors | src/vmm/src/builder.rs:839-940 | a refused balloon is `RegisterBalloonDevice`, a refused console or filesystem device `RegisterFsDevice`, a refused vsock device `RegisterVsockDevice` |
| Events.Run | src/vmm/src/builder.rs:264-473 | the calls issued are a prefix of the plan: the whole plan when every call succeeds, otherwise the plan up to its first failing call |
| Events.RunAppend | src/vmm/src/builder.rs:264-473 | of two steps in a row, the second runs only when the first ran clean |
| Events.RunStopsAtFirstFailure | src/vmm/src/builder.rs:264-473 | a clean prefix followed by a failing call is exactly what the plan runs |
| Machine.EventManager.AddSubscriber | src/vmm/src/builder.rs:467-470 | registering succeeds exactly when the host accepts it; on success the subscriber is appended, on failure nothing changes and the host's error is returned |
| Machine.Vmm.constructor | src/vmm/src/builder.rs:427-438 | the `Vmm` holds the given memory, command line, VM and managers, and no vCPU |
| Mmio.New | src/vmm/src/builder.rs:338-341 | a new MMIO manager is empty and starts at the first window and the first interrupt line |
| Mmio.DeviceId | src/vmm/src/builder.rs:876-881 | the console registers as "hvc0"; exactly the RTC and the interrupt controller carry no device id |
| Mmio.Register | src/vmm/src/builder.rs:794-800 | a registration takes the next window and the next interrupt line, then moves both on by one slot |
| Mmio.RegisterAllSlots | src/vmm/src/builder.rs:794-800 | the k-th device registered in a row gets window base + k·len and interrupt line irq + k, after the entries already held |
| Mmio.RegisterAllDevices | src/vmm/src/builder.rs:794-800 | the registry lists the devices in registration order after those it held |
| Mmio.NewValid | src/vmm/src/builder.rs:338-341 | with a non-empty window length, a new manager's registry is valid |
| Mmio.RegisterValid | src/vmm/src/builder.rs:794-800 | registering keeps the registry valid |
| Mmio.RegisterAllValid | src/vmm/src/builder.rs:794-800 | registering any list keeps the registry valid |
| Mmio.SlotsDisjoint | src/vmm/src/builder.rs:794-804 | in a valid registry two entries have different interrupt lines and windows that do not overlap |
| Records.SlotsAppend | src/vmm/src/builder.rs:802-804 | the descriptions of two lists of devices are those of the first, then those of the second from where the first left the manager |
| Records.DescriptionsRegisterAll | src/vmm/src/builder.rs:802-804 | after registering devices, the registry's descriptions are the old ones followed by one per new device, naming its slot |
| Setup.MemSizeBytesBounds | src/vmm/src/builder.rs:483 | `mem_size_mib << 20` on a 64-bit `usize` is a whole number of MiB below 2^64, and equals mib·2^20 exactly when mib < 2^44 |
| Setup.CreateGuestMemory | src/vmm/src/builder.rs:477-519 | the memory of `mem_size_mib << 20` bytes holding the kernel region; a mapping error is `GuestMemoryMmap`; the build panics exactly on macOS when the kernel write fails |
| Setup.SetupVm | src/vmm/src/builder.rs:534-559 | opens the hypervisor (Linux), creates the VM and initialises its memory; any failure is an `Internal` error |
| Setup.SetupInterruptController | src/vmm/src/builder.rs:563-578 | the VM gains its interrupt controller, or the build fails with `Internal(Vm)` |
| Setup.LoadKernelCmdline | src/vmm/src/builder.rs:522-531 | serialises the command line and writes it to guest memory; either failure is `LoadCommandline` |
| Vcpus.VcpusPlanClean | src/vmm/src/builder.rs:690-706 | creating n vCPUs runs clean exactly when no vCPU's calls fail |
| Vcpus.StopAtVcpu | src/vmm/src/builder.rs:690-706 | a failure while creating vCPU i stops the batch there with that failure's error |
| Vcpus.BringUpVcpu | src/vmm/src/builder.rs:692-704 | clones the exit event, creates and configures one vCPU with its index and the kernel entry point; any failure is an `Internal` error |
| Vcpus.KvmVcpusIndices | src/vmm/src/builder.rs:690-706 | the KVM vCPUs are exactly `count`, the k-th with index k, the entry point and no boot channel |
| Vcpus.CreateVcpusKvm | src/vmm/src/builder.rs:681-736 | the loop creates every vCPU in index order, or stops at the first failing one with its error |
| Vcpus.Secondaries | src/vmm/src/builder.rs:749-755 | the boot senders are one per secondary vCPU, in index order 1, 2, … |
| Vcpus.RendezvousPairing | src/vmm/src/builder.rs:749-775 | under the boot rendezvous, vCPU 0's j-th sender pairs with vCPU k's receiver exactly when j = k − 1 |
| Vcpus.BootVcpusRendezvous | src/vmm/src/builder.rs:748-777 | the macOS vCPUs are exactly `count`, numbered from 0 at the entry point, and joined by the boot rendezvous |
| Vcpus.BootStep | src/vmm/src/builder.rs:751-773 | each loop round adds vCPU i, with a receiver exactly when i ≠ 0, and a sender for it |
| Vcpus.HandOverSenders | src/vmm/src/builder.rs:775 | handing the senders to vCPU 0 completes the rendezvous |
| Vcpus.CreateVcpusMacOS | src/vmm/src/builder.rs:739-778 | with no vCPU the build panics before any call; otherwise every vCPU is created in order with its boot channel, or the loop stops at the first failure |
| Legacy.LegacyLinesDistinct | src/vmm/src/builder.rs:624-626 | the three legacy event sources are wired to three different interrupt lines (4, 3, 1) in that order |
| Legacy.BindIrqfd | src/vmm/src/builder.rs:611-621 | an irqfd binding succeeds exactly when the host accepts it, and its failure is `Internal(LegacyIOBus)` |
| Legacy.AttachLegacyDevicesX86 | src/vmm/src/builder.rs:602-628 | registers the port-I/O devices and binds the three irqfds; any failure is `Internal(LegacyIOBus)` |
| Legacy.LegacyFault | src/vmm/src/builder.rs:644-675 | a refused RTC or interrupt controller is `Internal(RegisterMMIODevice)` |
| Legacy.AttachLegacyDevicesArm | src/vmm/src/builder.rs:631-678 | registers the RTC and, on macOS, the interrupt controller, in that order, in the next MMIO slots |
| Legacy.SetupSerialDevice | src/vmm/src/builder.rs:581-599 | succeeds exactly when the interrupt event is created; a failed subscription is swallowed and leaves the event manager unchanged |
| Devices.FsDevices | src/vmm/src/builder.rs:818-819 | the k-th filesystem device is the k-th configured share |
| Devices.ApplyAppend | src/vmm/src/builder.rs:440-451 | the changes of two traces in a row compose: nothing is rolled back |
| Devices.MmioRefused | src/vmm/src/builder.rs:794-800 | a refused registration stops the attachment with the device's error and records nothing |
| Devices.MmioRegistered | src/vmm/src/builder.rs:794-804 | an accepted registration records the device; on x86_64 its description follows, naming the slot it was given |
| Devices.AttachMmioDevice | src/vmm/src/builder.rs:781-807 | registers the device and on x86_64 describes it on the command line; the registry and command line change by what the trace records, nothing else changes |
| Devices.SubscriptionRefused | src/vmm/src/builder.rs:829-831 | a refused subscription stops the attachment with `RegisterEvent` before the device reaches the MMIO manager |
| Devices.SubscribedThenAttached | src/vmm/src/builder.rs:829-839 | a subscribed device stays subscribed whether or not its MMIO attachment succeeds |
| Devices.SigwinchRefused | src/vmm/src/builder.rs:871-873 | a refused SIGWINCH handler fails the console with `RegisterFsSigwinch` after its subscription, before its registration |
| Devices.AttachSubscribed | src/vmm/src/builder.rs:875-881 | after the subscription, the MMIO attachment's error is the device's own error class |
| Devices.AttachBalloonDevice | src/vmm/src/builder.rs:915-943 | subscribes, sets the interrupt controller, attaches; fails only with `RegisterEvent` or `RegisterBalloonDevice` |
| Devices.AttachVsockDevice | src/vmm/src/builder.rs:886-913 | subscribes, sets the interrupt controller, attaches; fails only with `RegisterEvent` or `RegisterVsockDevice` |
| Devices.AttachConsoleDevices | src/vmm/src/builder.rs:845-884 | sets the interrupt controller, leaves interactive mode when stdin cannot be polled, subscribes, installs SIGWINCH (Linux), attaches as "hvc0"; fails only with `RegisterEvent`, `RegisterFsSigwinch` or `RegisterFsDevice` |
| Devices.AttachFsDevice | src/vmm/src/builder.rs:818-840 | sets the interrupt controller and shared-memory region, subscribes, attaches; fails only with `RegisterEvent` or `RegisterFsDevice` |
| Devices.AttachRecords | src/vmm/src/builder.rs:829-839 | a clean attachment records exactly one subscription, one registration and (x86_64) one description at the slot it was given |
| Devices.FsItemRecords | src/vmm/src/builder.rs:818-840 | a clean attachment of share k records device k in the slot after shares 0..k−1 |
| Devices.FsStep | src/vmm/src/builder.rs:818-840 | one loop round either extends the clean prefix by share i or ends the whole loop's run at its failure |
| Devices.AttachFsDevices | src/vmm/src/builder.rs:809-843 | the loop attaches every share in order or stops at the first failure; on success every share is subscribed, registered and (x86_64) described in list order |
| Stages.PrepareMemory | src/vmm/src/builder.rs:279-296 | the memory is created, then the prolog (or the default command line) is written |
| Stages.CreateExitEvents | src/vmm/src/builder.rs:317-332 | creates the exit event and, on x86_64, a clone of it for the new port-I/O manager |
| Stages.Prepare | src/vmm/src/builder.rs:279-332 | memory, prolog, VM, exit event and port-I/O manager, in order, stopping at the first failure |
| Stages.SetupIrqchipX86 | src/vmm/src/builder.rs:353-354 | the interrupt controller, then the legacy port-I/O devices |
| Stages.SetupArchX86 | src/vmm/src/builder.rs:351-366 | on x86_64 the interrupt controller and legacy devices come before the vCPUs |
| Stages.CreateVcpusArm | src/vmm/src/builder.rs:374-404 | the aarch64 vCPUs; on macOS with no vCPU the build panics |
| Stages.SetupIrqchipArm | src/vmm/src/builder.rs:384-413 | the interrupt controller, then the legacy MMIO devices |
| Stages.SetupArchArm | src/vmm/src/builder.rs:372-414 | on aarch64 the vCPUs come before the interrupt controller and the legacy devices |
| Attach.RecordedAppend | src/vmm/src/builder.rs:440-451 | the records of two clean attachments in a row are those of both device lists, in order |
| Attach.SubscribeFirstRecorded | src/vmm/src/builder.rs:915-940 | a clean balloon or vsock attachment records its device |
| Attach.ConsoleRecorded | src/vmm/src/builder.rs:845-881 | a clean console attachment records the console |
| Attach.AttachBalloon | src/vmm/src/builder.rs:440 | the balloon attachment, with the state it leaves on every path |
| Attach.AttachConsole | src/vmm/src/builder.rs:441 | the console attachment, with the state it leaves on every path |
| Attach.AttachFront | src/vmm/src/builder.rs:440-441 | balloon then console; on success both are recorded in that order |
| Attach.AttachVsock | src/vmm/src/builder.rs:449-451 | the vsock device is attached exactly when one is configured |
| Attach.AttachBack | src/vmm/src/builder.rs:442-451 | the filesystem devices, then the vsock device |
| Attach.AttachDevices | src/vmm/src/builder.rs:440-451 | every device in its fixed order, stopping at the first failure; on success all are recorded in that order |
| Tail.AddEpilog | src/vmm/src/builder.rs:453-455 | the epilog is appended when one is configured; a failed write panics; nothing else changes |
| Tail.LoadCommandLine | src/vmm/src/builder.rs:459-460 | on x86_64 the command line is written to guest memory; elsewhere nothing happens |
| Tail.StartSystem | src/vmm/src/builder.rs:462-465 | configures the system and starts the vCPUs; the VMM holds the vCPUs only after both succeed |
| Tail.RegisterMachine | src/vmm/src/builder.rs:467-470 | the VMM is subscribed last, or the build fails with `RegisterEvent` |
| Tail.StartMachine | src/vmm/src/builder.rs:462-470 | start, then subscribe the VMM; on every path the VMM holds the new vCPUs exactly when the subscription was attempted, so a failed `add_subscriber` leaves them handed over |
| Tail.FinishCmdline | src/vmm/src/builder.rs:453-460 | the epilog, then the command-line write; the epilog stays in the command line on every path but the failed insert (a panic), including when `load_cmdline` fails |
| Tail.Finish | src/vmm/src/builder.rs:453-472 | everything after the devices; the command line and the vCPUs are stated on every path, and on success the VMM is the last subscriber |
| Builder.ArchBlock | src/vmm/src/builder.rs:348-414 | the architecture block of each platform, with the VM, MMIO manager, port-I/O manager and vCPUs it yields |
| Builder.PrepareArch | src/vmm/src/builder.rs:279-414 | everything before the `Vmm` is built, with the values it yields |
| Builder.Assemble | src/vmm/src/builder.rs:427-472 | builds the `Vmm` and runs the device attachments and the tail; on success the new `Vmm` holds every device, description, the epilog and the vCPUs |
| Builder.BuildRunning | src/vmm/src/builder.rs:279-472 | with a kernel, a memory size and vCPUs that can be created: stops at the first failure, or delivers the microVM `Built` describes |
| Builder.BuildStalled | src/vmm/src/builder.rs:393-404 | macOS with no vCPU: the preparation runs, then the build panics (or fails earlier) without subscribing anything |
| Builder.BuildMachine | src/vmm/src/builder.rs:279-472 | the build after the configuration checks, on every platform |
| Builder.BuildMicrovm | src/vmm/src/builder.rs:264-473 | no kernel: `MissingKernelConfig` before any call; a clean run fails exactly with the configuration refusal (missing memory size, macOS with no vCPU); otherwise the error is the failing call's; on success the microVM `Built` describes; the event manager keeps every subscription made on every path |
| Builder.BuildConfigured | src/vmm/src/builder.rs:274-287 | the kernel region is mapped before the memory size is checked |
| Builder.BuildSized | src/vmm/src/builder.rs:279-287 | a missing memory size is `MissingMemSizeConfig` before any hypervisor resource exists |
| Built.BuiltRegistry | src/vmm/src/builder.rs:338-451 | the registry holds the legacy MMIO devices, then the attached devices in attachment order |
| Built.BuiltRegistryValid | src/vmm/src/builder.rs:338-451 | the finished registry's slots never overlap |
| Built.BuiltCmdline | src/vmm/src/builder.rs:292-460 | the command line is the prolog, on x86_64 one description per registry entry, then the epilog |
| Built.BuiltDescriptionsDisjoint | src/vmm/src/builder.rs:802-804 | on x86_64 two device descriptions name different interrupt lines and windows that do not overlap |
| Built.BuiltVcpus | src/vmm/src/builder.rs:356-410 | exactly the configured vCPUs, numbered from 0 at the kernel entry point, joined by the boot rendezvous on macOS and without boot channels elsewhere |
| Built.BuiltSubscribers | src/vmm/src/builder.rs:440-470 | the event manager keeps its entries, gains one per device in attachment order, and the VMM last |
| Built.AttachedOrder | src/vmm/src/builder.rs:440-451 | the attached devices are the balloon, the console, one filesystem device per share in order, then vsock when configured |
| Order.PrepareOrderly | src/vmm/src/builder.rs:274-332 | the preparation's calls come in increasing rank: memory, prolog, VM, exit events |
| Order.VcpusOrderly | src/vmm/src/builder.rs:690-706 | the vCPU calls come in index order, each vCPU's clone, creation and configuration in turn |
| Order.ArchOrderly | src/vmm/src/builder.rs:348-414 | the architecture block's calls come in the platform's order |
| Order.SubscribeFirstOrderly | src/vmm/src/builder.rs:915-940 | the balloon or vsock device is subscribed, then registered, then described |
| Order.ConsoleOrderly | src/vmm/src/builder.rs:857-881 | the console's calls come in the order of the function |
| Order.FsItemOrderly | src/vmm/src/builder.rs:818-840 | one share's calls come in the order of the loop body |
| Order.FsOrderly | src/vmm/src/builder.rs:818-840 | the shares are attached in list order |
| Order.DevicesOrderly | src/vmm/src/builder.rs:440-451 | the devices are attached in their fixed order |
| Order.TailOrderly | src/vmm/src/builder.rs:453-470 | epilog, command-line write, configuration, vCPU start, VMM subscription |
| Order.BuildOrderly | src/vmm/src/builder.rs:264-473 | every call a build can make comes in strictly increasing rank |
| Order.BuildOrder | src/vmm/src/builder.rs:264-473 | of two calls a build made, the lower-ranked one came first, whatever failed |
| Order.BuildIncreasing | src/vmm/src/builder.rs:264-473 | whatever fails, the calls a build made come in strictly increasing rank |
| Order.VcpusIrqchipIn | src/vmm/src/builder.rs:348-414 | in any well-ordered trace, the interrupt controller precedes a vCPU's creation exactly on x86_64 |
| Order.AttachmentStepsIn | src/vmm/src/builder.rs:781-940 | in any well-ordered trace, a device's subscription precedes its registration, which precedes its description |
| Order.EpilogAfterDevicesIn | src/vmm/src/builder.rs:440-455 | in any well-ordered trace, every device call precedes the epilog |
| Order.MemoryBeforeVm | src/vmm/src/builder.rs:279-297 | the guest memory is mapped before the VM is created |
| Order.IrqchipAroundVcpus | src/vmm/src/builder.rs:348-414 | the interrupt controller is set up before every vCPU on x86_64 and after every vCPU on aarch64 |
| Order.SubscribedRegisteredDescribed | src/vmm/src/builder.rs:781-940 | every device is subscribed before it is registered with the MMIO manager, and registered before it is described on the command line |
| Order.AttachedRank | src/vmm/src/builder.rs:440-451 | the k-th attached device's registration falls in its device's stage, and a filesystem device's at its list position |
| Order.AttachedRanks | src/vmm/src/builder.rs:440-451 | an earlier attached device's registration ranks below a later one's |
| Order.RegistrationOrder | src/vmm/src/builder.rs:440-451 | the devices reach the MMIO manager in attachment order: balloon, console, the shares in list order, vsock |
| Order.EpilogAfterDevices | src/vmm/src/builder.rs:453-455 | the epilog is written after every call of every device attachment |

## Left out

- Hypervisor internals (KVM, HVF), `mmap`, the guest memory layout (`arch_memory_regions`) and the device models: each call into them is an abstract step that succeeds or fails with a nested error text.
- The MMIO device manager's allocator is not shown in `builder.rs`. `Mmio.Register` assumes it hands out consecutive windows of a fixed length and consecutive interrupt lines, and never refuses for lack of room except as a failing call.
- The length bound and the internals of `Cmdline`: `insert_str` is a step that may fail, and whose failure panics.
- The terminal, `SerialStdin`, the SIGWINCH handler's internals and `is_pollable`: whether stdin can be polled is a field of the host.
- The locking of devices (`Arc<Mutex<…>>`), and the rule that a device's lock must not be held while it is attached. There is no concurrency in the model.
- The `epoll` internals of the event manager: a subscription is a call that succeeds or fails.
- `serial_device` is always `None` (`src/vmm/src/builder.rs:315`). On aarch64 this makes the serial branches of `attach_legacy_devices` dead, and they are not modelled. On x86_64 the same `None` is passed to `PortIODeviceManager::new` (lines 324-325), although the comment at line 322 says it is always `Some`. The model treats that constructor as one opaque call that may fail, and does not model what it does with a missing serial device.
- The `unwrap()` calls of `Balloon::new` (line 922), `Console::new` (line 853), the device locks and `get_host_address` for the shared-memory region (lines 417-423) are assumed to succeed. Their failures depend on code outside `builder.rs`.
- `TimestampUs`, logging and the unit tests.
- Vcpus.CreateVcpusKvm: the vCPU count is an unbounded `nat`, not a `u8`.
- The nested error of an `irqfd` failure is carried as given; the re-wrapping of its `errno` into an `io::Error` is not modelled.
- `configure_system` and `start_vcpus` fail with `Internal` errors whose kind is outside `builder.rs`; the model gives them the kind `Unspecified`.
- Tail.StartSystem: the `Vmm`'s vCPU handles are recorded only when both configuration and start succeed; what `start_vcpus` leaves behind when it fails part-way is outside `builder.rs`.
