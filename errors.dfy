/** The error taxonomy of the microVM builder (`StartMicrovmError`), its
    user-visible rendering (`Display`) and the conversion from command-line
    errors. */
module Errors {
  import opened Wrappers

  /** An error value whose type is defined outside the builder (an `io::Error`,
      a `vm_memory::Error`, an MMIO manager error, ...), seen through the two
      ways the builder renders it: `{}` (Display) and `{:?}` (Debug). */
  datatype Nested = Nested(display: string, debug: string)

  /** The variants of the VMM-level `Error` that the builder wraps in
      `StartMicrovmError::Internal`. `Unspecified` stands for the variant chosen
      inside `Vmm::configure_system` / `Vmm::start_vcpus`. */
  datatype VmmErrorKind =
    | KvmContext | Vm | EventFd | CreateLegacyDevice | LegacyIOBus
    | RegisterMMIODevice | Vcpu | Unspecified

  /** A VMM-level error: its variant and the rendering of the whole value. */
  datatype VmmError = VmmError(kind: VmmErrorKind, rendered: Nested)

  /** The closed set of errors a build can end with. */
  datatype StartMicrovmError =
    | AttachBlockDevice(cause: Nested)
    | CreateRateLimiter(cause: Nested)
    | GuestMemoryMmap(cause: Nested)
    | InitrdLoad
    | InitrdRead(cause: Nested)
    | Internal(vmm: VmmError)
    | KernelCmdline(msg: string)
    | KernelBundle(cause: Nested)
    | LoadCommandline(cause: Nested)
    | MicroVMAlreadyRunning
    | MissingKernelConfig
    | MissingMemSizeConfig
    | NetDeviceNotConfigured
    | OpenBlockDevice(cause: Nested)
    | RegisterBalloonDevice(cause: Nested)
    | RegisterBlockDevice(cause: Nested)
    | RegisterEvent(cause: Nested)
    | RegisterFsDevice(cause: Nested)
    | RegisterFsSigwinch(cause: Nested)
    | RegisterNetDevice(cause: Nested)
    | RegisterVsockDevice(cause: Nested)

  /** `str::replace("\"", "")`: the text with every double quote removed and
      every other character kept, in order. */
  function StripQuotes(s: string): (r: string)
    ensures '"' !in r
    ensures |r| <= |s|
    ensures forall c :: c != '"' ==> multiset(r)[c] == multiset(s)[c]
  {
    if s == [] then []
    else
      assert s == [s[0]] + s[1..];
      if s[0] == '"' then StripQuotes(s[1..]) else [s[0]] + StripQuotes(s[1..])
  }

  /** Text that already has no quote is left exactly as it is. */
  lemma {:induction false} StripQuotesKeepsQuoteFree(s: string)
    requires '"' !in s
    ensures StripQuotes(s) == s
  {
    if s != [] {
      assert s[0] in s;
      assert forall c :: c in s[1..] ==> c in s;
      StripQuotesKeepsQuoteFree(s[1..]);
    }
  }

  /** Stripping distributes over concatenation, so it can be applied piecewise. */
  lemma {:induction false} StripQuotesAppend(a: string, b: string)
    ensures StripQuotes(a + b) == StripQuotes(a) + StripQuotes(b)
  {
    if a == [] {
      assert a + b == b;
    } else {
      assert (a + b)[0] == a[0];
      assert (a + b)[1..] == a[1..] + b;
      StripQuotesAppend(a[1..], b);
    }
  }

  /** Stripping twice is stripping once. */
  lemma StripQuotesIdempotent(s: string)
    ensures StripQuotes(StripQuotes(s)) == StripQuotes(s)
  {
    StripQuotesKeepsQuoteFree(StripQuotes(s));
  }

  /** The variants whose Display removes quotes from the nested error text. */
  predicate StripsNested(e: StartMicrovmError)
  {
    e.GuestMemoryMmap? || e.KernelBundle? || e.LoadCommandline? || e.OpenBlockDevice?
    || e.RegisterBalloonDevice? || e.RegisterBlockDevice? || e.RegisterFsDevice?
    || e.RegisterFsSigwinch? || e.RegisterNetDevice? || e.RegisterVsockDevice?
  }

  /** The nested text a variant's Display shows (before any stripping): the
      Debug rendering for `GuestMemoryMmap`, `OpenBlockDevice`, `Internal` and
      `RegisterEvent`, the Display rendering otherwise; empty when the variant
      carries nothing. */
  function NestedText(e: StartMicrovmError): (text: string)
    ensures e.KernelCmdline? ==> text == e.msg
    ensures Carried(e).Some? ==> text == Carried(e).value.debug || text == Carried(e).value.display
    ensures Carried(e).None? && !e.KernelCmdline? ==> text == ""
  {
    match e
    case GuestMemoryMmap(c) => c.debug
    case OpenBlockDevice(c) => c.debug
    case RegisterEvent(c) => c.debug
    case Internal(v) => v.rendered.debug
    case KernelCmdline(m) => m
    case InitrdLoad => ""
    case MicroVMAlreadyRunning => ""
    case MissingKernelConfig => ""
    case MissingMemSizeConfig => ""
    case NetDeviceNotConfigured => ""
    case _ => e.cause.display
  }

  /** The nested error a variant carries, if any: the wrapped VMM error for
      `Internal`, the `cause` of the others; `KernelCmdline` carries text only. */
  function Carried(e: StartMicrovmError): Option<Nested>
  {
    match e
    case Internal(v) => Some(v.rendered)
    case KernelCmdline(_) => None
    case InitrdLoad => None
    case MicroVMAlreadyRunning => None
    case MissingKernelConfig => None
    case MissingMemSizeConfig => None
    case NetDeviceNotConfigured => None
    case _ => Some(e.cause)
  }

  /** The fixed text that starts each variant's message. */
  function Prefix(e: StartMicrovmError): string
  {
    match e
    case AttachBlockDevice(_) => "Unable to attach block device to Vmm. Error: "
    case CreateRateLimiter(_) => "Cannot create RateLimiter: "
    case GuestMemoryMmap(_) => "Invalid Memory Configuration: "
    case InitrdLoad => "Cannot load initrd due to an invalid memory configuration."
    case InitrdRead(_) => "Cannot load initrd due to an invalid image: "
    case Internal(_) => "Internal error while starting microVM: "
    case KernelCmdline(_) => "Invalid kernel command line: "
    case KernelBundle(_) =>
      "Cannot inject the kernel into the guest memory due to a problem with the bundle. "
    case LoadCommandline(_) => "Cannot load command line string. "
    case MicroVMAlreadyRunning => "Microvm already running."
    case MissingKernelConfig => "Cannot start microvm without kernel configuration."
    case MissingMemSizeConfig => "Cannot start microvm without guest mem_size config."
    case NetDeviceNotConfigured => "The net device configuration is missing the tap device."
    case OpenBlockDevice(_) => "Cannot open the block device backing file. "
    case RegisterBalloonDevice(_) =>
      "Cannot initialize a MMIO Balloon Device or add a device to the MMIO Bus. "
    case RegisterBlockDevice(_) =>
      "Cannot initialize a MMIO Block Device or add a device to the MMIO Bus. "
    case RegisterEvent(_) => "Cannot register EventHandler. "
    case RegisterFsDevice(_) =>
      "Cannot initialize a MMIO Fs Device or add a device to the MMIO Bus. "
    case RegisterFsSigwinch(_) => "Cannot register SIGWINCH file descriptor for Fs Device. "
    case RegisterNetDevice(_) =>
      "Cannot initialize a MMIO Network Device or add a device to the MMIO Bus. "
    case RegisterVsockDevice(_) =>
      "Cannot initialize a MMIO Vsock Device or add a device to the MMIO Bus. "
  }

  /** `impl Display for StartMicrovmError`: every message is its variant's
      fixed text followed by at most the nested error's text. */
  function Display(e: StartMicrovmError): (msg: string)
    ensures |Prefix(e)| <= |msg| <= |Prefix(e)| + |NestedText(e)|
    ensures msg[..|Prefix(e)|] == Prefix(e)
  {
    Prefix(e) + (if StripsNested(e) then StripQuotes(NestedText(e)) else NestedText(e))
  }

  /** The part of a message after its fixed text: where the nested error shows. */
  function Tail(e: StartMicrovmError): string
  {
    Display(e)[|Prefix(e)|..]
  }

  /** A double quote reaches the message from the nested error exactly when the
      variant is one that does not strip and the nested text has one. */
  lemma TailQuote(e: StartMicrovmError)
    ensures '"' in Tail(e) <==> !StripsNested(e) && '"' in NestedText(e)
  {
    assert Tail(e) == if StripsNested(e) then StripQuotes(NestedText(e)) else NestedText(e);
  }

  /** A stripping variant keeps every other character of the nested text, and
      no quote, so its tail is quote-free and otherwise as long as the nested
      text minus its quotes. */
  lemma StrippedTailKeepsText(e: StartMicrovmError)
    requires StripsNested(e)
    ensures '"' !in Tail(e)
    ensures forall c :: c != '"' ==> multiset(Tail(e))[c] == multiset(NestedText(e))[c]
    ensures '"' !in NestedText(e) ==> Tail(e) == NestedText(e)
  {
    assert Tail(e) == StripQuotes(NestedText(e));
    if '"' !in NestedText(e) {
      StripQuotesKeepsQuoteFree(NestedText(e));
    }
  }

  /** `impl From<kernel::cmdline::Error> for StartMicrovmError`: always
      `KernelCmdline`, carrying the error's Display text. */
  function FromCmdlineError(e: Nested): (r: StartMicrovmError)
    ensures r.KernelCmdline? && r.msg == e.display
  {
    KernelCmdline(e.display)
  }

  /** A converted command-line error is shown verbatim (no stripping). */
  lemma FromCmdlineErrorDisplay(e: Nested)
    ensures Display(FromCmdlineError(e)) == "Invalid kernel command line: " + e.display
    ensures '"' in e.display ==> '"' in Display(FromCmdlineError(e))
  {
  }
}
