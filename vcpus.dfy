/** vCPU batch creation: `create_vcpus_x86_64`, `create_vcpus_aarch64` on Linux
    and `create_vcpus_aarch64` on macOS with its boot rendezvous. Each loop
    creates the vCPUs in index order and the first failure drops the whole
    batch. */
module Vcpus {
  import opened Wrappers
  import opened Errors
  import opened Events
  import opened Machine

  /** The calls for vCPU `i`: clone the exit event, create the vCPU, configure it. */
  function VcpuPlan(i: nat): seq<Event>
  {
    [CloneExitEvent(ForVcpu(i)), NewVcpu(i), ConfigureVcpu(i)]
  }

  /** The calls for vCPUs `0 .. n-1`, in index order. */
  function VcpusPlan(n: nat): seq<Event>
  {
    if n == 0 then [] else VcpusPlan(n - 1) + VcpuPlan(n - 1)
  }

  lemma {:induction false} VcpusPlanPrefix(i: nat, n: nat)
    requires i <= n
    ensures VcpusPlan(i) <= VcpusPlan(n)
    ensures |VcpusPlan(n)| == 3 * n
  {
    if i < n {
      VcpusPlanPrefix(i, n - 1);
    } else if n > 0 {
      VcpusPlanPrefix(n - 1, n - 1);
    }
  }

  /** vCPU `i` cannot be brought up: one of its three calls fails. */
  predicate VcpuFails(host: Host, i: nat)
  {
    !Clean(host, VcpuPlan(i))
  }

  /** The batch stops at the lowest failing index. */
  predicate FirstFailing(host: Host, n: nat, i: nat)
  {
    i < n && VcpuFails(host, i) && forall k :: 0 <= k < i ==> !VcpuFails(host, k)
  }

  lemma {:induction false} VcpusPlanClean(host: Host, n: nat)
    ensures Clean(host, VcpusPlan(n)) <==> forall k :: 0 <= k < n ==> !VcpuFails(host, k)
  {
    if n > 0 {
      VcpusPlanClean(host, n - 1);
      CleanAppend(host, VcpusPlan(n - 1), VcpuPlan(n - 1));
      assert (forall k :: 0 <= k < n ==> !VcpuFails(host, k))
        <==> (forall k :: 0 <= k < n - 1 ==> !VcpuFails(host, k)) && !VcpuFails(host, n - 1);
    }
  }

  /** The outcome of a batch of `n` vCPUs: it issued the calls of its plan up
      to the first failure and reports that failure; it succeeds exactly when
      no vCPU fails, and otherwise fails with a VMM error at the lowest
      failing index. */
  ghost predicate BatchReports<T>(host: Host, n: nat, t: seq<Event>, r: Result<T, Fault>)
  {
    && t == Run(host, VcpusPlan(n)) && Reports(host, t, r)
    && (r.Ok? <==> forall k :: 0 <= k < n ==> !VcpuFails(host, k))
    && (r.Err? ==> r.error.Error? && r.error.err.Internal?
                   && exists i :: FirstFailing(host, n, i) && Last(t) in VcpuPlan(i))
  }

  /** vCPU `i` could not be brought up after vCPUs `0 .. i-1` were: the batch
      stops at the failing call of vCPU `i` and reports its failure. */
  lemma StopAtVcpu<T>(host: Host, n: nat, i: nat, seg: seq<Event>, t: seq<Event>, r: Result<T, Fault>)
    requires i < n && Clean(host, VcpusPlan(i))
    requires seg == Run(host, VcpuPlan(i)) && FailsLast(host, seg)
    requires t == VcpusPlan(i) + seg && r == Err(FaultOf(host, Last(seg)))
    requires FaultOf(host, Last(seg)).Error? && FaultOf(host, Last(seg)).err.Internal?
    ensures BatchReports(host, n, t, r)
  {
    VcpusPlanPrefix(i + 1, n);
    assert VcpusPlan(i + 1) == VcpusPlan(i) + VcpuPlan(i);
    assert t <= VcpusPlan(n);
    var step := seg[..|seg| - 1];
    assert t[..|t| - 1] == VcpusPlan(i) + step;
    CleanAppend(host, VcpusPlan(i), step);
    assert Last(t) == Last(seg);
    RunStopsAtFirstFailure(host, VcpusPlan(n), t);
    VcpusPlanClean(host, i);
    assert Last(t) in VcpuPlan(i);
    assert FirstFailing(host, n, i);
  }

  /** The whole batch came up. */
  lemma AllUp<T>(host: Host, n: nat, t: seq<Event>, r: Result<T, Fault>)
    requires t == VcpusPlan(n) && Clean(host, t) && r.Ok?
    ensures BatchReports(host, n, t, r)
  {
    VcpusPlanClean(host, n);
  }

  /** vCPU `i` came up: the batch so far is still clean. */
  lemma VcpuUp(host: Host, i: nat)
    requires Clean(host, VcpusPlan(i)) && Clean(host, VcpuPlan(i))
    ensures Clean(host, VcpusPlan(i + 1))
  {
    CleanAppend(host, VcpusPlan(i), VcpuPlan(i));
  }

  /** One vCPU: `exit_evt.try_clone()` (an `EventFd` error), `Vcpu::new_*` and
      `configure_*` (both `Vcpu` errors). On success the vCPU has its index,
      the entry point and the boot receiver it was given, and no senders. */
  method BringUpVcpu(host: Host, i: nat, entry: nat, bootReceiver: Option<nat>)
    returns (r: Result<Vcpu, Fault>, t: seq<Event>)
    ensures t == Run(host, VcpuPlan(i)) && Reports(host, t, r)
    ensures r.Ok? ==> r.value == Machine.Vcpu(i, entry, bootReceiver, [])
    ensures r.Err? ==> r.error.Error? && r.error.err.Internal?
  {
    var plan := VcpuPlan(i);
    var cloned := host.fails(CloneExitEvent(ForVcpu(i)));
    if cloned.Some? {
      var f := Error(Internal(VmmError(EventFd, cloned.value)));
      StopFirst<Vcpu>(host, plan, CloneExitEvent(ForVcpu(i)), f);
      return Err(f), [CloneExitEvent(ForVcpu(i))];
    }
    t := [CloneExitEvent(ForVcpu(i))];
    var created := host.fails(NewVcpu(i));
    if created.Some? {
      var f := Error(Internal(VmmError(Errors.Vcpu, created.value)));
      StopWith<Vcpu>(host, plan, t, NewVcpu(i), f);
      return Err(f), t + [NewVcpu(i)];
    }
    t := t + [NewVcpu(i)];
    var configured := host.fails(ConfigureVcpu(i));
    if configured.Some? {
      var f := Error(Internal(VmmError(Errors.Vcpu, configured.value)));
      StopWith<Vcpu>(host, plan, t, ConfigureVcpu(i), f);
      return Err(f), t + [ConfigureVcpu(i)];
    }
    t := t + [ConfigureVcpu(i)];
    assert t == VcpuPlan(i);
    r := Ok(Machine.Vcpu(i, entry, bootReceiver, []));
  }

  /** vCPUs `0 .. n-1` as the KVM loops create them: vCPU k has index k and
      the kernel entry point, and takes part in no boot rendezvous. */
  function KvmVcpus(n: nat, entry: nat): seq<Vcpu>
  {
    seq(n, k requires 0 <= k => Machine.Vcpu(k, entry, None, []))
  }

  lemma KvmStep(i: nat, entry: nat)
    ensures KvmVcpus(i + 1, entry) == KvmVcpus(i, entry) + [Machine.Vcpu(i, entry, None, [])]
  {
  }

  /** Exactly `count` vCPUs, the k-th with index k, all starting at the entry
      point, none holding a boot channel. */
  lemma KvmVcpusIndices(count: nat, entry: nat)
    ensures |KvmVcpus(count, entry)| == count
    ensures forall k :: 0 <= k < count ==>
      KvmVcpus(count, entry)[k].index == k && KvmVcpus(count, entry)[k].entry == entry
      && KvmVcpus(count, entry)[k].bootReceiver.None? && KvmVcpus(count, entry)[k].bootSenders == []
  {
  }

  /** The KVM vCPUs (x86_64 and aarch64 on Linux): the whole batch, or the
      error of the lowest failing index and no vCPU at all. */
  method CreateVcpusKvm(host: Host, count: nat, entry: nat)
    returns (r: Result<seq<Vcpu>, Fault>, t: seq<Event>)
    ensures BatchReports(host, count, t, r)
    ensures r.Ok? ==> r.value == KvmVcpus(count, entry)
  {
    var vcpus: seq<Vcpu> := [];
    t := [];
    for i := 0 to count
      invariant vcpus == KvmVcpus(i, entry)
      invariant t == VcpusPlan(i) && Clean(host, t)
    {
      KvmStep(i, entry);
      var vcpu, seg := BringUpVcpu(host, i, entry, None);
      if vcpu.Err? {
        t := t + seg;
        r := Err(vcpu.error);
        StopAtVcpu(host, count, i, seg, t, r);
        return;
      }
      VcpuUp(host, i);
      t := t + seg;
      vcpus := vcpus + [vcpu.value];
    }
    r := Ok(vcpus);
    AllUp(host, count, t, r);
  }

  /** The channels `1 .. n-1`, in order. */
  function Secondaries(n: nat): (s: seq<nat>)
    ensures |s| == if n == 0 then 0 else n - 1
    ensures forall k :: 0 <= k < |s| ==> s[k] == k + 1
  {
    if n <= 1 then [] else Secondaries(n - 1) + [n - 1]
  }

  /** The macOS boot rendezvous: vCPU 0 has no receiver and holds one sender per
      other vCPU, in index order; every other vCPU holds only its own receiver,
      paired with exactly one of those senders. */
  predicate BootRendezvous(vcpus: seq<Vcpu>)
  {
    |vcpus| > 0
    && vcpus[0].bootReceiver.None?
    && |vcpus[0].bootSenders| == |vcpus| - 1
    && (forall k :: 1 <= k < |vcpus| ==>
          vcpus[k].bootReceiver.Some? && vcpus[k].bootSenders == []
          && vcpus[0].bootSenders[k - 1] == vcpus[k].bootReceiver.value)
    && (forall j, k :: 0 <= j < k < |vcpus[0].bootSenders| ==>
          vcpus[0].bootSenders[j] != vcpus[0].bootSenders[k])
  }

  /** Each secondary vCPU can be released by exactly one of vCPU 0's senders,
      and each sender releases exactly one secondary. */
  lemma RendezvousPairing(vcpus: seq<Vcpu>, k: nat, j: nat)
    requires BootRendezvous(vcpus)
    requires 1 <= k < |vcpus| && j < |vcpus[0].bootSenders|
    ensures vcpus[0].bootSenders[j] == vcpus[k].bootReceiver.value <==> j == k - 1
  {
  }

  /** The vCPUs the macOS batch hands over: vCPU k has index k and the kernel
      entry point; every vCPU but 0 holds the receiver of channel k, and vCPU 0
      holds the senders of all channels. */
  function BootVcpus(count: nat, entry: nat): (vs: seq<Vcpu>)
    requires count > 0
  {
    seq(count, k requires 0 <= k => Machine.Vcpu(k, entry, if k == 0 then None else Some(k),
                                 if k == 0 then Secondaries(count) else []))
  }

  /** The batch is joined by the boot rendezvous. */
  lemma BootVcpusRendezvous(count: nat, entry: nat)
    requires count > 0
    ensures |BootVcpus(count, entry)| == count && BootRendezvous(BootVcpus(count, entry))
    ensures forall k :: 0 <= k < count ==>
      BootVcpus(count, entry)[k].index == k && BootVcpus(count, entry)[k].entry == entry
  {
    var vs := BootVcpus(count, entry);
    var senders := vs[0].bootSenders;
    assert senders == Secondaries(count);
    forall j, k | 0 <= j < k < |senders| ensures senders[j] != senders[k] {
      assert senders[j] == j + 1 && senders[k] == k + 1;
    }
  }

  /** vCPUs `0 .. n-1` as the macOS loop creates them, before vCPU 0 is given
      its senders. */
  function Booting(n: nat, entry: nat): seq<Vcpu>
  {
    seq(n, k requires 0 <= k => Machine.Vcpu(k, entry, if k == 0 then None else Some(k), []))
  }

  /** Iteration `i` creates channel `i` (unless `i` is 0) and vCPU `i`. */
  lemma BootStep(i: nat, entry: nat)
    ensures Booting(i + 1, entry)
      == Booting(i, entry) + [Machine.Vcpu(i, entry, if i == 0 then None else Some(i), [])]
    ensures Secondaries(i + 1) == Secondaries(i) + if i == 0 then [] else [i]
  {
  }

  /** vCPU 0 takes the senders once every vCPU exists. */
  lemma HandOverSenders(count: nat, entry: nat)
    requires count > 0
    ensures Booting(count, entry)[0 := Booting(count, entry)[0].(bootSenders := Secondaries(count))]
      == BootVcpus(count, entry)
  {
  }

  /** The macOS vCPUs. A zero count panics (`vcpu_count as usize - 1`
      underflows before any vCPU exists); otherwise the boot vCPUs, or the
      error of the lowest failing index and no vCPU at all. */
  method CreateVcpusMacOS(host: Host, count: nat, entry: nat)
    returns (r: Result<seq<Vcpu>, Fault>, t: seq<Event>)
    ensures count == 0 ==> r == Err(Panic) && t == []
    ensures count > 0 ==> BatchReports(host, count, t, r)
    ensures r.Ok? ==> count > 0 && r.value == BootVcpus(count, entry)
  {
    t := [];
    if count == 0 {
      r := Err(Panic);
      return;
    }
    var vcpus: seq<Vcpu> := [];
    var bootSenders: seq<nat> := [];
    for i := 0 to count
      invariant vcpus == Booting(i, entry) && bootSenders == Secondaries(i)
      invariant t == VcpusPlan(i) && Clean(host, t)
    {
      BootStep(i, entry);
      var bootReceiver: Option<nat> := None;
      if i != 0 {
        // channel(): the sender goes to vCPU 0, the receiver to vCPU i
        bootSenders := bootSenders + [i];
        bootReceiver := Some(i);
      }
      var vcpu, seg := BringUpVcpu(host, i, entry, bootReceiver);
      if vcpu.Err? {
        t := t + seg;
        r := Err(vcpu.error);
        StopAtVcpu(host, count, i, seg, t, r);
        return;
      }
      VcpuUp(host, i);
      t := t + seg;
      vcpus := vcpus + [vcpu.value];
    }
    // vcpus[0].set_boot_senders(boot_senders)
    HandOverSenders(count, entry);
    vcpus := vcpus[0 := vcpus[0].(bootSenders := bootSenders)];
    r := Ok(vcpus);
    AllUp(host, count, t, r);
  }
}
