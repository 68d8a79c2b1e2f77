/** The parts of a virtual CPU the hypervisor core reads and writes: the
    riscv64 guest register file and the `axvcpu` lifecycle state. */
module VCpus {
  import opened Types

  const GPR_COUNT: nat := 32

  /** `GprIndex`: x0 .. x31. */
  type GprIndex = r: nat | r < GPR_COUNT

  /** `GprIndex::A0` (x10) and `GprIndex::A1` (x11). */
  const A0: GprIndex := 10
  const A1: GprIndex := 11

  /** Bit 8 of `hstatus` (SPVP): the privilege the guest trapped from. */
  const HSTATUS_SPVP: nat := 0x100

  /** The guest registers the exit handlers touch. */
  datatype ArchRegs = ArchRegs(gprs: seq<Usize>, sepc: Usize, hstatus: Usize, htinst: Usize)

  ghost predicate ValidRegs(regs: ArchRegs) {
    |regs.gprs| == GPR_COUNT
  }

  /** The register file of a freshly created vCPU. */
  function ZeroRegs(): (regs: ArchRegs)
    ensures ValidRegs(regs)
  {
    ArchRegs(seq(GPR_COUNT, _ => 0), 0, 0, 0)
  }

  /** `get_gpr`. */
  function GetGpr(regs: ArchRegs, index: GprIndex): (v: Usize)
    requires ValidRegs(regs)
    ensures v == regs.gprs[index]
  {
    regs.gprs[index]
  }

  /** `set_gpr`: writes one register and leaves every other one alone. */
  function SetGpr(regs: ArchRegs, index: GprIndex, value: Usize): (r: ArchRegs)
    requires ValidRegs(regs)
    ensures ValidRegs(r) && r.gprs[index] == value
    ensures forall i :: 0 <= i < GPR_COUNT && i != index ==> r.gprs[i] == regs.gprs[i]
    ensures r.sepc == regs.sepc && r.hstatus == regs.hstatus && r.htinst == regs.htinst
  {
    regs.(gprs := regs.gprs[index := value])
  }

  /** `advance_pc(len)`: `sepc += len`, wrapping. */
  function AdvancePc(regs: ArchRegs, len: Usize): (r: ArchRegs)
    ensures r.gprs == regs.gprs && r.hstatus == regs.hstatus && r.htinst == regs.htinst
    ensures r.sepc == (regs.sepc + len) % USIZE_MODULUS
    ensures regs.sepc + len < USIZE_MODULUS ==> r.sepc == regs.sepc + len
  {
    regs.(sepc := WrappingAdd(regs.sepc, len))
  }

  /** `get_gpr` after `set_gpr` reads the written value at the written
      index and the old value everywhere else. */
  lemma ReadOverWrite(regs: ArchRegs, index: GprIndex, value: Usize, other: GprIndex)
    requires ValidRegs(regs)
    ensures GetGpr(SetGpr(regs, index, value), index) == value
    ensures other != index ==> GetGpr(SetGpr(regs, index, value), other) == GetGpr(regs, other)
  {
  }

  datatype PrivilegeLevel = User | Supervisor

  /** `PrivilegeLevel::from_hstatus`: SPVP set means the guest trapped from
      supervisor mode. */
  function PrivilegeFromHstatus(hstatus: Usize): (p: PrivilegeLevel)
    ensures p == Supervisor <==> (hstatus / HSTATUS_SPVP) % 2 == 1
  {
    if (hstatus / HSTATUS_SPVP) % 2 == 1 then Supervisor else User
  }

  /** `axvcpu::VCpuState`. */
  datatype VCpuState = Invalid | Created | Free | Ready | Running | Blocked

  /** One vCPU of the VM: its id, lifecycle state, the entry point and
      nested page-table root it was set up with, and its registers. */
  datatype VCpu = VCpu(id: nat, state: VCpuState, entry: Usize, eptRoot: Usize, regs: ArchRegs)

  /** `transition_state(from, to)`: moves the state only when it is `from`. */
  function TransitionState(v: VCpu, from: VCpuState, to: VCpuState): (r: Result<VCpu>)
    ensures r.Ok? <==> v.state == from
    ensures r.Ok? ==> r.value == v.(state := to)
    ensures r.Err? ==> r.error == BadState
  {
    if v.state == from then Ok(v.(state := to)) else Err(BadState)
  }
}
