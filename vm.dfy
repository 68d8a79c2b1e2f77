/** A virtual machine: its fixed vCPU registry, construction, boot gate and
    one iteration of the per-vCPU run loop (crates/axvm/src/vm.rs). */
module Vm {
  import opened Types
  import opened VCpus
  import opened Devices

  /** `AxVMConfig`: the vCPU count and the two entry points. */
  datatype AxVMConfig = AxVMConfig(cpuCount: Usize, bspEntry: Usize, apEntry: Usize)

  /** vCPU 0 (the bootstrap processor) starts at `bsp_entry`, every other
      vCPU at `ap_entry`. */
  function EntryFor(config: AxVMConfig, vcpuId: nat): (entry: Usize)
    ensures vcpuId == 0 ==> entry == config.bspEntry
    ensures vcpuId != 0 ==> entry == config.apEntry
  {
    if vcpuId == 0 then config.bspEntry else config.apEntry
  }

  // ---------------------------------------------------------------------
  // The first failure of a sequence of fallible calls

  /** The error of the first of the calls `k, k+1, ..., n-1` that fails, or
      `None` when all of them succeed. */
  function FirstErrorFrom(k: nat, n: nat, f: nat -> Option<AxError>): (r: Option<AxError>)
    ensures r.None? <==> forall j :: k <= j < n ==> f(j).None?
    ensures r.Some? ==> exists j :: k <= j < n && f(j) == r && forall i :: k <= i < j ==> f(i).None?
    decreases n - k
  {
    if k >= n then None
    else if f(k).Some? then f(k)
    else FirstErrorFrom(k + 1, n, f)
  }

  /** The first error of the calls `0 .. n-1`: `None` exactly when every call
      succeeds, otherwise the error of a call every one of whose
      predecessors succeeded. */
  function FirstError(n: nat, f: nat -> Option<AxError>): (r: Option<AxError>)
    ensures r.None? <==> forall j :: 0 <= j < n ==> f(j).None?
    ensures r.Some? ==> exists j :: 0 <= j < n && f(j) == r && forall i :: 0 <= i < j ==> f(i).None?
  {
    FirstErrorFrom(0, n, f)
  }

  // ---------------------------------------------------------------------
  // The vCPU registry and the effect of one run-loop iteration

  /** The registry invariant: the vCPU at index `i` has id `i`. */
  ghost predicate ValidVcpus(vcpus: seq<VCpu>) {
    forall i :: 0 <= i < |vcpus| ==> vcpus[i].id == i && ValidRegs(vcpus[i].regs)
  }

  /** What `sync_vcpu`'s loop does next. */
  datatype SyncStep = Proceed | KeepWaiting

  /** One pass of the `sync_vcpu` loop: `Ready` returns, `Running` panics,
      and every other state spins. */
  function SyncDecision(state: VCpuState): (r: Exec<SyncStep>)
    ensures r == Done(Proceed) <==> state == Ready
    ensures r == Panicked(VcpuAlreadyRunning) <==> state == Running
    ensures r == Done(KeepWaiting) <==> state != Ready && state != Running
    ensures !r.Failed?
  {
    match state
    case Ready => Done(Proceed)
    case Running => Panicked(VcpuAlreadyRunning)
    case _ => Done(KeepWaiting)
  }

  /** Everything one run-loop iteration can change, and how it ended. */
  datatype StepResult = StepResult(outcome: Exec<()>, vcpus: seq<VCpu>, plicRegs: map<Usize, U32>, claim: seq<U32>, hvip: bv64)

  /** One iteration of the `run_vcpu` loop for vCPU `vcpuId`, given what
      `vcpu.run()` returned. An `RV_START` exit is handled against the target
      vCPU `hartid`, which must then move `Free -> Ready`; every other exit
      is handled against the current vCPU without a state transition. */
  function RunStepEffect(vcpus: seq<VCpu>, vcpuId: nat, regs: map<Usize, U32>, claim: seq<U32>, hvip: bv64,
                         exit: Result<ExitReason>, p: Platform): (e: StepResult)
    requires ValidVcpus(vcpus) && vcpuId < |vcpus| && |claim| == PLIC_CONTEXTS
    ensures ValidVcpus(e.vcpus) && |e.vcpus| == |vcpus| && |e.claim| == PLIC_CONTEXTS
    ensures exit.Err? ==> e == StepResult(Failed(exit.error), vcpus, regs, claim, hvip)
    ensures exit.Ok? && exit.value.RvStart? && exit.value.hartid >= |vcpus| ==>
      e == StepResult(Failed(InvalidInput), vcpus, regs, claim, hvip)
    ensures exit.Ok? && exit.value.RvStart? && exit.value.hartid < |vcpus| ==> (
      var h := exit.value.hartid;
      && (forall i :: 0 <= i < |vcpus| && i != h ==> e.vcpus[i] == vcpus[i])
      && e.vcpus[h].regs == StartRegs(vcpus[h].regs, h, exit.value.startAddr, exit.value.opaqueValue)
      && e.vcpus[h] == vcpus[h].(regs := e.vcpus[h].regs, state := e.vcpus[h].state)
      && (e.outcome == Done(()) <==> vcpus[h].state == Free)
      && (e.outcome.Done? ==> e.vcpus[h].state == Ready)
      && (!e.outcome.Done? ==> e.outcome == Panicked(StartTransitionFailed) && e.vcpus[h].state == vcpus[h].state)
      && e.plicRegs == regs && e.claim == claim && e.hvip == hvip)
    ensures exit.Ok? && !exit.value.RvStart? ==> (
      var x := VmexitEffect(PLIC_BASE, regs, claim, hvip, vcpus[vcpuId].regs, exit.value, p);
      && (forall i :: 0 <= i < |vcpus| && i != vcpuId ==> e.vcpus[i] == vcpus[i])
      && e.vcpus[vcpuId].state == vcpus[vcpuId].state
      && e.vcpus[vcpuId] == vcpus[vcpuId].(regs := x.cpu)
      && e == StepResult(x.outcome, e.vcpus, x.plicRegs, x.claim, x.hvip))
  {
    match exit
    case Err(err) => StepResult(Failed(err), vcpus, regs, claim, hvip)
    case Ok(reason) =>
      if reason.RvStart? then
        if reason.hartid >= |vcpus| then StepResult(Failed(InvalidInput), vcpus, regs, claim, hvip)
        else
          var h := reason.hartid;
          var x := VmexitEffect(PLIC_BASE, regs, claim, hvip, vcpus[h].regs, reason, p);
          var started := vcpus[h].(regs := x.cpu);
          (match TransitionState(started, Free, Ready)
           case Ok(v) => StepResult(Done(()), vcpus[h := v], x.plicRegs, x.claim, x.hvip)
           case Err(_) => StepResult(Panicked(StartTransitionFailed), vcpus[h := started], x.plicRegs, x.claim, x.hvip))
      else
        var x := VmexitEffect(PLIC_BASE, regs, claim, hvip, vcpus[vcpuId].regs, reason, p);
        StepResult(x.outcome, vcpus[vcpuId := vcpus[vcpuId].(regs := x.cpu)], x.plicRegs, x.claim, x.hvip)
  }

  /** Starting a `Free` secondary hart through `RV_START` releases the core
      spinning in `sync_vcpu` for it: the target is now `Ready` and will run
      from `start_addr` with `a0 = hartid` and `a1 = opaque`. */
  lemma StartReleasesWaiter(vcpus: seq<VCpu>, vcpuId: nat, regs: map<Usize, U32>, claim: seq<U32>, hvip: bv64,
                            hartid: Usize, startAddr: Usize, opaqueValue: Usize, p: Platform)
    requires ValidVcpus(vcpus) && vcpuId < |vcpus| && |claim| == PLIC_CONTEXTS
    requires hartid < |vcpus| && vcpus[hartid].state == Free
    ensures var e := RunStepEffect(vcpus, vcpuId, regs, claim, hvip, Ok(RvStart(hartid, startAddr, opaqueValue)), p);
      && e.outcome == Done(())
      && SyncDecision(e.vcpus[hartid].state) == Done(Proceed)
      && e.vcpus[hartid].regs.sepc == startAddr
      && e.vcpus[hartid].regs.gprs[A0] == hartid
      && e.vcpus[hartid].regs.gprs[A1] == opaqueValue
  {
  }

  /** An `RV_START` aimed at a vCPU that is not `Free` (for instance one
      that is `Running`) panics, but only after the handler has already
      written the target's `a0`, `a1` and `sepc`. */
  lemma StartOnBusyTargetPanicsAfterWrite(vcpus: seq<VCpu>, vcpuId: nat, regs: map<Usize, U32>, claim: seq<U32>, hvip: bv64,
                                          hartid: Usize, startAddr: Usize, opaqueValue: Usize, p: Platform)
    requires ValidVcpus(vcpus) && vcpuId < |vcpus| && |claim| == PLIC_CONTEXTS
    requires hartid < |vcpus| && vcpus[hartid].state != Free
    ensures var e := RunStepEffect(vcpus, vcpuId, regs, claim, hvip, Ok(RvStart(hartid, startAddr, opaqueValue)), p);
      && e.outcome == Panicked(StartTransitionFailed)
      && e.vcpus[hartid].state == vcpus[hartid].state
      && e.vcpus[hartid].regs == StartRegs(vcpus[hartid].regs, hartid, startAddr, opaqueValue)
  {
  }

  /** A second `RV_START` for a hart that the first one already made
      `Ready` panics: only a `Free` vCPU can be started. */
  lemma SecondStartPanics(vcpus: seq<VCpu>, vcpuId: nat, regs: map<Usize, U32>, claim: seq<U32>, hvip: bv64,
                          hartid: Usize, startAddr: Usize, opaqueValue: Usize, p: Platform)
    requires ValidVcpus(vcpus) && vcpuId < |vcpus| && |claim| == PLIC_CONTEXTS
    requires hartid < |vcpus| && vcpus[hartid].state == Free
    ensures var start := Ok(RvStart(hartid, startAddr, opaqueValue));
      var e1 := RunStepEffect(vcpus, vcpuId, regs, claim, hvip, start, p);
      var e2 := RunStepEffect(e1.vcpus, vcpuId, e1.plicRegs, e1.claim, e1.hvip, start, p);
      e1.outcome == Done(()) && e2.outcome == Panicked(StartTransitionFailed)
  {
    var start := Ok(RvStart(hartid, startAddr, opaqueValue));
    var e1 := RunStepEffect(vcpus, vcpuId, regs, claim, hvip, start, p);
    assert e1.vcpus[hartid].state == Ready;
  }

  // ---------------------------------------------------------------------
  // The VM

  /** `AxVM`: its id, the nested page-table root shared by all its vCPUs,
      the vCPU registry and the device list. The registry is created once;
      its entries change in place. */
  class AxVM {
    const id: Usize
    const eptRoot: Usize
    var vcpuList: seq<VCpu>
    const devices: DeviceList

    ghost predicate Valid()
      reads this, devices, devices.plic
    {
      devices.Valid() && ValidVcpus(vcpuList)
    }

    constructor (id: Usize, eptRoot: Usize, vcpus: seq<VCpu>)
      requires ValidVcpus(vcpus)
      ensures Valid() && this.id == id && this.eptRoot == eptRoot && vcpuList == vcpus
      ensures fresh(devices) && fresh(devices.plic) && fresh(devices.plic.claimComplete)
      ensures devices.plic.regs == map[] && devices.plic.claimComplete[..] == seq(PLIC_CONTEXTS, _ => 0)
    {
      this.id := id;
      this.eptRoot := eptRoot;
      vcpuList := vcpus;
      devices := new DeviceList();
    }

    /** `AxVM::new`: creates `cpu_count` vCPUs with ids `0 .. cpu_count`
        (`VCpu::new` leaves each `Created`), then sets each one up with its
        entry point and the VM's EPT root (`setup` moves it to `Free`). The
        outcomes of the foreign `VCpu::new` and `setup` calls for vCPU `i`
        are `create(i)` and `setup(i)`; the first failure is returned. */
    static method New(config: AxVMConfig, id: Usize, eptRoot: Usize,
                      create: nat -> Option<AxError>, setup: nat -> Option<AxError>)
      returns (r: Result<AxVM>)
      ensures FirstError(config.cpuCount, create).Some? ==> r == Err(FirstError(config.cpuCount, create).value)
      ensures FirstError(config.cpuCount, create).None? && FirstError(config.cpuCount, setup).Some? ==>
        r == Err(FirstError(config.cpuCount, setup).value)
      ensures r.Ok? <==> FirstError(config.cpuCount, create).None? && FirstError(config.cpuCount, setup).None?
      ensures r.Ok? ==> fresh(r.value) && fresh(r.value.devices) && r.value.Valid()
      ensures r.Ok? ==> r.value.id == id && r.value.eptRoot == eptRoot && |r.value.vcpuList| == config.cpuCount
      ensures r.Ok? ==> forall i :: 0 <= i < config.cpuCount ==>
        r.value.vcpuList[i] == VCpu(i, Free, EntryFor(config, i), eptRoot, ZeroRegs())
      ensures r.Ok? ==> r.value.devices.plic.regs == map[]
      ensures r.Ok? ==> r.value.devices.plic.claimComplete[..] == seq(PLIC_CONTEXTS, _ => 0)
    {
      var n := config.cpuCount;
      var vcpus: seq<VCpu> := [];
      for i := 0 to n
        invariant |vcpus| == i
        invariant forall k :: 0 <= k < i ==> vcpus[k] == VCpu(k, Created, 0, 0, ZeroRegs())
        invariant FirstError(n, create) == FirstErrorFrom(i, n, create)
      {
        var err := create(i);
        if err.Some? {
          return Err(err.value);
        }
        vcpus := vcpus + [VCpu(i, Created, 0, 0, ZeroRegs())];
      }
      var vm := new AxVM(id, eptRoot, vcpus);
      for i := 0 to n
        invariant vm.Valid() && |vm.vcpuList| == n && vm.devices.plic.regs == map[]
        invariant vm.devices.plic.claimComplete[..] == seq(PLIC_CONTEXTS, _ => 0)
        invariant forall k :: 0 <= k < i ==> vm.vcpuList[k] == VCpu(k, Free, EntryFor(config, k), eptRoot, ZeroRegs())
        invariant forall k :: i <= k < n ==> vm.vcpuList[k] == VCpu(k, Created, 0, 0, ZeroRegs())
        invariant FirstError(n, setup) == FirstErrorFrom(i, n, setup)
      {
        var vcpu := vm.vcpuList[i];
        var entry := if vcpu.id == 0 then config.bspEntry else config.apEntry;
        var err := setup(i);
        if err.Some? {
          return Err(err.value);
        }
        vm.vcpuList := vm.vcpuList[i := vcpu.(state := Free, entry := entry, eptRoot := vm.eptRoot)];
      }
      r := Ok(vm);
    }

    /** `vcpu(vcpu_id)`: the vCPU with that id, `None` past the end. */
    function Vcpu(vcpuId: Usize): (r: Option<VCpu>)
      reads this, devices, devices.plic
      requires Valid()
      ensures r.None? <==> vcpuId >= |vcpuList|
      ensures r.Some? ==> r.value.id == vcpuId && r.value == vcpuList[vcpuId]
    {
      if vcpuId < |vcpuList| then Some(vcpuList[vcpuId]) else None
    }

    /** `run_vcpu` up to its loop: the lookup (before anything is bound),
        then the foreign `bind` call, whose outcome `bind` is its error or
        the state it leaves the vCPU in, then the decision step of
        `sync_vcpu` on that state. `Done(Proceed)` means the loop is
        entered. */
    function RunVcpuEntry(vcpuId: Usize, bind: Result<VCpuState>): (r: Exec<SyncStep>)
      reads this, devices, devices.plic
      requires Valid()
      ensures vcpuId >= |vcpuList| ==> r == Failed(InvalidInput)
      ensures vcpuId < |vcpuList| && bind.Err? ==> r == Failed(bind.error)
      ensures vcpuId < |vcpuList| && bind.Ok? ==> r == SyncDecision(bind.value)
      ensures r == Done(Proceed) <==> vcpuId < |vcpuList| && bind == Ok(Ready)
      ensures r.Panicked? ==> r.reason == VcpuAlreadyRunning && bind == Ok(Running)
    {
      match Vcpu(vcpuId)
      case None => Failed(InvalidInput)
      case Some(_) =>
        // `sync_vcpu` repeats the lookup, which succeeds here, so its
        // `unwrap` sees the decision step.
        match bind
        case Err(err) => Failed(err)
        case Ok(state) => SyncDecision(state)
    }

    /** `boot`: refuses without hardware virtualisation support, otherwise
        runs vCPU 0, which enters its loop only if `bind` leaves it `Ready`
        and otherwise spins in `sync_vcpu`. */
    function Boot(hardwareSupport: bool, bind: Result<VCpuState>): (r: Exec<SyncStep>)
      reads this, devices, devices.plic
      requires Valid()
      ensures !hardwareSupport ==> r == Failed(Unsupported)
      ensures hardwareSupport ==> r == RunVcpuEntry(0, bind)
      ensures hardwareSupport && |vcpuList| == 0 ==> r == Failed(InvalidInput)
      ensures hardwareSupport && |vcpuList| > 0 && bind == Ok(Ready) ==> r == Done(Proceed)
      ensures hardwareSupport && |vcpuList| > 0 && bind.Ok? && bind.value != Ready && bind.value != Running ==>
        r == Done(KeepWaiting)
    {
      if !hardwareSupport then Failed(Unsupported) else RunVcpuEntry(0, bind)
    }

    /** One iteration of the `run_vcpu` loop of vCPU `vcpuId`; `exit` is what
        `vcpu.run()` returned and `hvip` the host's `hvip` CSR. */
    method RunVcpuStep(vcpuId: Usize, exit: Result<ExitReason>, p: Platform, hvip: bv64)
      returns (r: Exec<()>, hvip': bv64)
      requires Valid() && vcpuId < |vcpuList|
      modifies this, devices.plic, devices.plic.claimComplete
      ensures Valid()
      ensures StepResult(r, vcpuList, devices.plic.regs, devices.plic.claimComplete[..], hvip')
        == RunStepEffect(old(vcpuList), vcpuId, old(devices.plic.regs), old(devices.plic.claimComplete[..]), hvip, exit, p)
    {
      if exit.Err? {
        return Failed(exit.error), hvip;
      }
      var reason := exit.value;
      if reason.RvStart? {
        var target := Vcpu(reason.hartid);
        if target.None? {
          return Failed(InvalidInput), hvip;
        }
        var v := target.value;
        var handled, cpu';
        handled, cpu', hvip' := devices.VmexitHandler(v.regs, reason, p, hvip);
        v := v.(regs := cpu');
        vcpuList := vcpuList[reason.hartid := v];
        var moved := TransitionState(v, Free, Ready);
        if moved.Err? {
          return Panicked(StartTransitionFailed), hvip';
        }
        vcpuList := vcpuList[reason.hartid := moved.value];
        r := Done(());
      } else {
        var v := vcpuList[vcpuId];
        var cpu';
        r, cpu', hvip' := devices.VmexitHandler(v.regs, reason, p, hvip);
        vcpuList := vcpuList[vcpuId := v.(regs := cpu')];
      }
    }
  }
}
