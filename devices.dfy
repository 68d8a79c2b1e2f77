/** The device list of a riscv64 VM: the VM-exit handler and the
    trap-and-emulate path of the PLIC (crates/axvm/src/arch/riscv64/device_list.rs).

    Each handler method is proved equal to a function of its inputs and the
    old device state; the properties the handler promises are stated on
    those functions. */
module Devices {
  import opened Types
  import opened VCpus

  /** The guest-physical base of the emulated PLIC. */
  const PLIC_BASE: Usize := 0xC00_0000
  /** Width of the PLIC trap window `[base, base + 0x0400_0000)` (64 MiB). */
  const PLIC_TRAP_WINDOW: Usize := 0x0400_0000
  /** Number of claim/complete latches of the PLIC state. */
  const PLIC_CONTEXTS: nat := 2
  /** The supervisor context whose claim register `handle_irq` reads. */
  const SUPERVISOR_CONTEXT: nat := 1
  /** Offset of context 0's claim/complete register, and the stride between contexts. */
  const CLAIM_COMPLETE_OFFSET: Usize := 0x0020_0004
  const CONTEXT_STRIDE: Usize := 0x1000
  /** `traps::interrupt::VIRTUAL_SUPERVISOR_EXTERNAL`: bit 10 (VSEIP) of `hvip`. */
  const VSEIP: bv64 := 0x400

  /** The shapes `riscv_decode::decode` yields that matter here. */
  datatype Instruction = Sw(rs2: GprIndex) | Lw(rd: GprIndex) | OtherInstruction

  /** The collaborators of the exit handler: `fetch_guest_instruction`,
      `riscv_decode::decode` (`None` when decoding fails) and the host read
      of a PLIC claim register. */
  datatype Platform = Platform(
    fetch: Usize -> Result<U32>,
    decode: U32 -> Option<Instruction>,
    claimRead: Usize -> U32)

  /** `AxArchVCpuExitReason`, reduced to the reasons the handler distinguishes. */
  datatype ExitReason =
    | NestedPageFault(addr: Usize)
    | ExternalInterrupt
    | RvStart(hartid: Usize, startAddr: Usize, opaqueValue: Usize)
    | OtherExit

  // ---------------------------------------------------------------------
  // Instruction selection

  /** `riscv_decode::instruction_length`: the length in bytes of the
      instruction whose lowest 16-bit parcel is `parcel`, by the base
      instruction-length encoding of section 1.5 of the RISC-V Unprivileged
      ISA. */
  function InstructionLength(parcel: U16): (len: nat)
    ensures len == 2 <==> parcel % 4 != 3
    ensures len == 4 <==> parcel % 4 == 3 && (parcel / 4) % 8 != 7
    ensures len % 2 == 0 && 2 <= len <= 24
  {
    if parcel % 4 != 3 then 2
    else if (parcel / 4) % 8 != 7 then 4
    else if parcel % 64 == 31 then 6
    else if parcel % 128 == 63 then 8
    else 10 + 2 * ((parcel / 0x1000) % 8)
  }

  /** The trapped instruction word: `htinst` when it is non-zero, otherwise
      the word fetched from guest memory at the faulting PC. */
  function RawInstruction(htinst: U32, instAddr: Usize, fetch: Usize -> Result<U32>): (r: Result<U32>)
    ensures htinst != 0 ==> r == Ok(htinst)
    ensures htinst == 0 ==> r == fetch(instAddr)
  {
    if htinst == 0 then fetch(instAddr) else Ok(htinst)
  }

  /** The word handed to the decoder: the low 16 bits for a compressed
      instruction, the whole word otherwise. */
  function SelectInstruction(raw: U32, len: nat): (inst: U32)
    ensures len == 2 ==> inst < U16_MODULUS && inst == raw % U16_MODULUS
    ensures len != 2 ==> inst == raw
  {
    if len == 2 then TruncateU16(raw) else raw
  }

  /** The decoded trapped instruction and its length, or why there is none:
      a failed fetch, an `unreachable!()` length, or `InvalidData` when the
      decoder rejects the word. */
  function DecodeTrapped(htinst: U32, instAddr: Usize, p: Platform): (r: Exec<(Instruction, nat)>)
    ensures r.Done? ==> r.value.1 == 2 || r.value.1 == 4
    ensures r.Done? ==>
      && RawInstruction(htinst, instAddr, p.fetch).Ok?
      && r.value.1 == InstructionLength(TruncateU16(RawInstruction(htinst, instAddr, p.fetch).value))
      && p.decode(SelectInstruction(RawInstruction(htinst, instAddr, p.fetch).value, r.value.1)) == Some(r.value.0)
    ensures RawInstruction(htinst, instAddr, p.fetch).Err? ==> r == Failed(RawInstruction(htinst, instAddr, p.fetch).error)
    ensures RawInstruction(htinst, instAddr, p.fetch).Ok? ==>
      var raw := RawInstruction(htinst, instAddr, p.fetch).value;
      var len := InstructionLength(TruncateU16(raw));
      && (len != 2 && len != 4 ==> r == Panicked(UnreachableLength(len)))
      && ((len == 2 || len == 4) && p.decode(SelectInstruction(raw, len)).None? ==> r == Failed(InvalidData))
      && ((len == 2 || len == 4) && p.decode(SelectInstruction(raw, len)).Some? ==>
            r == Done((p.decode(SelectInstruction(raw, len)).value, len)))
    ensures r.Panicked? ==> r.reason.UnreachableLength?
  {
    match RawInstruction(htinst, instAddr, p.fetch)
    case Err(e) => Failed(e)
    case Ok(raw) =>
      var len := InstructionLength(TruncateU16(raw));
      if len != 2 && len != 4 then Panicked(UnreachableLength(len))
      else match p.decode(SelectInstruction(raw, len))
        case None => Failed(InvalidData)
        case Some(inst) => Done((inst, len))
  }

  // ---------------------------------------------------------------------
  // The PLIC register file and the emulation of one access

  /** `read_u32` on the emulated register file: unwritten registers read 0. */
  function RegisterValue(regs: map<Usize, U32>, addr: Usize): U32 {
    if addr in regs then regs[addr] else 0
  }

  /** `[base, base + 0x0400_0000)`, the addresses `handle_page_fault` traps
      to the PLIC emulation. */
  predicate InPlicWindow(base: Usize, addr: Usize)
    ensures base + PLIC_TRAP_WINDOW < USIZE_MODULUS ==>
      (InPlicWindow(base, addr) <==> base <= addr < base + PLIC_TRAP_WINDOW)
    ensures base + PLIC_TRAP_WINDOW >= USIZE_MODULUS ==> !InPlicWindow(base, addr)
  {
    base <= addr && addr < WrappingAdd(base, PLIC_TRAP_WINDOW)
  }

  lemma InPlicWindowBounds(addr: Usize)
    ensures InPlicWindow(PLIC_BASE, addr) <==> 0xC00_0000 <= addr < 0x1000_0000
  {
  }

  /** Guest registers, PLIC registers and result after emulating an access. */
  datatype Emulation = Emulation(outcome: Exec<nat>, plicRegs: map<Usize, U32>, cpu: ArchRegs)

  /** The effect of `handle_plic` given the decoded instruction `d`: a store
      copies the low 32 bits of `rs2` into the register at `faultAddr`; a load
      copies that register, zero-extended, into `rd`; anything else is
      `BadAddress`. */
  function PlicEffect(regs: map<Usize, U32>, cpu: ArchRegs, faultAddr: Usize, d: Exec<(Instruction, nat)>): (e: Emulation)
    requires ValidRegs(cpu)
    ensures ValidRegs(e.cpu)
    ensures e.outcome.Done? <==> d.Done? && !d.value.0.OtherInstruction?
    ensures e.outcome.Done? ==> e.outcome.value == d.value.1
    ensures d.Done? && d.value.0.Sw? ==>
      && RegisterValue(e.plicRegs, faultAddr) == TruncateU32(cpu.gprs[d.value.0.rs2])
      && (forall a :: a != faultAddr ==> RegisterValue(e.plicRegs, a) == RegisterValue(regs, a))
      && e.cpu == cpu
    ensures d.Done? && d.value.0.Lw? ==>
      && e.plicRegs == regs
      && e.cpu.gprs[d.value.0.rd] == RegisterValue(regs, faultAddr)
      && e.cpu == SetGpr(cpu, d.value.0.rd, RegisterValue(regs, faultAddr))
    ensures d.Done? && d.value.0.OtherInstruction? ==> e.outcome == Failed(BadAddress)
    ensures !e.outcome.Done? ==> e.plicRegs == regs && e.cpu == cpu
    ensures d.Failed? ==> e.outcome == Failed(d.error)
    ensures d.Panicked? ==> e.outcome == Panicked(d.reason)
  {
    match d
    case Failed(err) => Emulation(Failed(err), regs, cpu)
    case Panicked(why) => Emulation(Panicked(why), regs, cpu)
    case Done((inst, len)) =>
      match inst
      case Sw(rs2) => Emulation(Done(len), regs[faultAddr := TruncateU32(cpu.gprs[rs2])], cpu)
      case Lw(rd) => Emulation(Done(len), regs, SetGpr(cpu, rd, RegisterValue(regs, faultAddr)))
      case OtherInstruction => Emulation(Failed(BadAddress), regs, cpu)
  }

  /** The effect of `handle_page_fault`: emulation inside the PLIC window,
      `BadAddress` with nothing changed outside it. */
  function PageFaultEffect(base: Usize, regs: map<Usize, U32>, cpu: ArchRegs, instAddr: Usize, htinst: U32,
                           faultAddr: Usize, p: Platform): (e: Emulation)
    requires ValidRegs(cpu)
    ensures ValidRegs(e.cpu) && e.cpu.sepc == cpu.sepc
    ensures !InPlicWindow(base, faultAddr) ==> e == Emulation(Failed(BadAddress), regs, cpu)
    ensures InPlicWindow(base, faultAddr) ==> e == PlicEffect(regs, cpu, faultAddr, DecodeTrapped(htinst, instAddr, p))
    ensures e.outcome.Done? ==> e.outcome.value == 2 || e.outcome.value == 4
  {
    if InPlicWindow(base, faultAddr) then PlicEffect(regs, cpu, faultAddr, DecodeTrapped(htinst, instAddr, p))
    else Emulation(Failed(BadAddress), regs, cpu)
  }

  // ---------------------------------------------------------------------
  // External interrupts

  /** `base + 0x0020_0004 + 0x1000 * context`, the claim/complete register. */
  function ClaimCompleteAddr(base: Usize, context: nat): (addr: Usize)
    requires context < PLIC_CONTEXTS
    ensures addr == (base + CLAIM_COMPLETE_OFFSET + CONTEXT_STRIDE * context) % USIZE_MODULUS
    ensures base + PLIC_TRAP_WINDOW < USIZE_MODULUS ==>
      addr == base + CLAIM_COMPLETE_OFFSET + CONTEXT_STRIDE * context && InPlicWindow(base, addr)
  {
    WrappingAdd(WrappingAdd(base, CLAIM_COMPLETE_OFFSET), CONTEXT_STRIDE * context)
  }

  /** `csr | mask`: sets the bits of `mask` and keeps every other bit. */
  function SetBits(csr: bv64, mask: bv64): (r: bv64)
    ensures r & mask == mask
    ensures r & !mask == csr & !mask
  {
    csr | mask
  }

  datatype IrqResult = IrqResult(outcome: Exec<()>, claim: seq<U32>, hvip: bv64)

  /** The effect of `handle_irq`: the irq claimed from the supervisor
      context must be non-zero; it is latched in `claim_complete[1]` and the
      VSEIP bit of `hvip` is set. */
  function IrqEffect(base: Usize, claim: seq<U32>, hvip: bv64, p: Platform): (e: IrqResult)
    requires |claim| == PLIC_CONTEXTS
    ensures var irq := p.claimRead(ClaimCompleteAddr(base, SUPERVISOR_CONTEXT));
      && (irq == 0 ==> e == IrqResult(Panicked(ZeroClaim), claim, hvip))
      && (irq != 0 ==> e.outcome == Done(()) && e.claim == claim[SUPERVISOR_CONTEXT := irq])
    ensures e.outcome.Done? ==> e.hvip & VSEIP == VSEIP && e.hvip & !VSEIP == hvip & !VSEIP
    ensures |e.claim| == PLIC_CONTEXTS
  {
    var irq := p.claimRead(ClaimCompleteAddr(base, SUPERVISOR_CONTEXT));
    if irq == 0 then IrqResult(Panicked(ZeroClaim), claim, hvip)
    else IrqResult(Done(()), claim[SUPERVISOR_CONTEXT := irq], SetBits(hvip, VSEIP))
  }

  // ---------------------------------------------------------------------
  // The whole exit handler

  /** The registers `RV_START` sets: `a0 = hartid`, `a1 = opaqueValue`,
      `sepc = start_addr`. */
  function StartRegs(cpu: ArchRegs, hartid: Usize, startAddr: Usize, opaqueValue: Usize): (r: ArchRegs)
    requires ValidRegs(cpu)
    ensures ValidRegs(r)
    ensures r.gprs[A0] == hartid && r.gprs[A1] == opaqueValue && r.sepc == startAddr
    ensures forall i :: 0 <= i < GPR_COUNT && i != A0 && i != A1 ==> r.gprs[i] == cpu.gprs[i]
    ensures r.hstatus == cpu.hstatus && r.htinst == cpu.htinst
  {
    SetGpr(SetGpr(cpu, A0, hartid), A1, opaqueValue).(sepc := startAddr)
  }

  /** Everything a VM exit can change, and how the handler ended. */
  datatype AfterExit = AfterExit(outcome: Exec<()>, plicRegs: map<Usize, U32>, claim: seq<U32>, hvip: bv64, cpu: ArchRegs)

  /** The effect of `vmexit_handler`. It never returns an error: it either
      resumes the guest or panics. */
  function VmexitEffect(base: Usize, regs: map<Usize, U32>, claim: seq<U32>, hvip: bv64,
                        cpu: ArchRegs, exit: ExitReason, p: Platform): (e: AfterExit)
    requires ValidRegs(cpu) && |claim| == PLIC_CONTEXTS
    ensures ValidRegs(e.cpu) && |e.claim| == PLIC_CONTEXTS
    ensures !e.outcome.Failed?
    ensures exit.NestedPageFault? ==> e.claim == claim && e.hvip == hvip
    ensures exit.NestedPageFault? && PrivilegeFromHstatus(cpu.hstatus) == User ==>
      e == AfterExit(Panicked(UserPageFault), regs, claim, hvip, cpu)
    ensures exit.NestedPageFault? && PrivilegeFromHstatus(cpu.hstatus) == Supervisor && !InPlicWindow(base, exit.addr) ==>
      e == AfterExit(Panicked(PageFaultError(BadAddress)), regs, claim, hvip, cpu)
    ensures exit.NestedPageFault? && PrivilegeFromHstatus(cpu.hstatus) == Supervisor ==>
      var f := PageFaultEffect(base, regs, cpu, cpu.sepc, TruncateU32(cpu.htinst), exit.addr, p);
      && (f.outcome.Done? ==> e == AfterExit(Done(()), f.plicRegs, claim, hvip, AdvancePc(f.cpu, f.outcome.value)))
      && (f.outcome.Failed? ==> e == AfterExit(Panicked(PageFaultError(f.outcome.error)), regs, claim, hvip, cpu))
      && (f.outcome.Panicked? ==> e == AfterExit(Panicked(f.outcome.reason), regs, claim, hvip, cpu))
    ensures exit.NestedPageFault? && e.outcome.Done? ==>
      e.cpu.sepc == WrappingAdd(cpu.sepc, 2) || e.cpu.sepc == WrappingAdd(cpu.sepc, 4)
    ensures exit.RvStart? ==>
      e == AfterExit(Done(()), regs, claim, hvip, StartRegs(cpu, exit.hartid, exit.startAddr, exit.opaqueValue))
    ensures exit.ExternalInterrupt? ==>
      var i := IrqEffect(base, claim, hvip, p);
      e == AfterExit(i.outcome, regs, i.claim, i.hvip, cpu)
    ensures exit.OtherExit? ==> e == AfterExit(Done(()), regs, claim, hvip, cpu)
  {
    match exit
    case NestedPageFault(addr) =>
      if PrivilegeFromHstatus(cpu.hstatus) == User then AfterExit(Panicked(UserPageFault), regs, claim, hvip, cpu)
      else
        var f := PageFaultEffect(base, regs, cpu, cpu.sepc, TruncateU32(cpu.htinst), addr, p);
        (match f.outcome
         case Done(len) => AfterExit(Done(()), f.plicRegs, claim, hvip, AdvancePc(f.cpu, len))
         case Failed(err) => AfterExit(Panicked(PageFaultError(err)), f.plicRegs, claim, hvip, f.cpu)
         case Panicked(why) => AfterExit(Panicked(why), f.plicRegs, claim, hvip, f.cpu))
    case ExternalInterrupt =>
      var i := IrqEffect(base, claim, hvip, p);
      AfterExit(i.outcome, regs, i.claim, i.hvip, cpu)
    case RvStart(hartid, startAddr, opaqueValue) =>
      AfterExit(Done(()), regs, claim, hvip, StartRegs(cpu, hartid, startAddr, opaqueValue))
    case OtherExit => AfterExit(Done(()), regs, claim, hvip, cpu)
  }

  /** A store emulated at a PLIC address is what a later load there reads:
      the second access sees the low 32 bits of the stored register. */
  lemma StoreThenLoad(base: Usize, regs: map<Usize, U32>, cpu: ArchRegs, faultAddr: Usize, p: Platform, cpu2: ArchRegs)
    requires ValidRegs(cpu) && ValidRegs(cpu2) && InPlicWindow(base, faultAddr)
    requires DecodeTrapped(TruncateU32(cpu.htinst), cpu.sepc, p).Done?
    requires DecodeTrapped(TruncateU32(cpu.htinst), cpu.sepc, p).value.0.Sw?
    requires DecodeTrapped(TruncateU32(cpu2.htinst), cpu2.sepc, p).Done?
    requires DecodeTrapped(TruncateU32(cpu2.htinst), cpu2.sepc, p).value.0.Lw?
    ensures var st := PageFaultEffect(base, regs, cpu, cpu.sepc, TruncateU32(cpu.htinst), faultAddr, p);
      var ld := PageFaultEffect(base, st.plicRegs, cpu2, cpu2.sepc, TruncateU32(cpu2.htinst), faultAddr, p);
      var rs2 := DecodeTrapped(TruncateU32(cpu.htinst), cpu.sepc, p).value.0.rs2;
      var rd := DecodeTrapped(TruncateU32(cpu2.htinst), cpu2.sepc, p).value.0.rd;
      ld.cpu.gprs[rd] == TruncateU32(cpu.gprs[rs2]) && ld.plicRegs == st.plicRegs
  {
  }

  /** A supervisor-mode store fault inside the PLIC window resumes the
      guest with the stored word readable at the fault address and the PC
      advanced by exactly the decoded length. */
  lemma StoreFaultAdvances(base: Usize, regs: map<Usize, U32>, claim: seq<U32>, hvip: bv64,
                           cpu: ArchRegs, addr: Usize, p: Platform)
    requires ValidRegs(cpu) && |claim| == PLIC_CONTEXTS
    requires PrivilegeFromHstatus(cpu.hstatus) == Supervisor && InPlicWindow(base, addr)
    requires DecodeTrapped(TruncateU32(cpu.htinst), cpu.sepc, p).Done?
    requires DecodeTrapped(TruncateU32(cpu.htinst), cpu.sepc, p).value.0.Sw?
    ensures var d := DecodeTrapped(TruncateU32(cpu.htinst), cpu.sepc, p).value;
      var e := VmexitEffect(base, regs, claim, hvip, cpu, NestedPageFault(addr), p);
      && e.outcome == Done(())
      && RegisterValue(e.plicRegs, addr) == TruncateU32(cpu.gprs[d.0.rs2])
      && e.cpu.sepc == WrappingAdd(cpu.sepc, d.1)
      && e.cpu.gprs == cpu.gprs
  {
  }

  /** A supervisor-mode load fault inside the PLIC window resumes the guest
      with the register at the fault address in `rd`, every other register
      kept, the PLIC registers unchanged and the PC advanced by exactly the
      decoded length. */
  lemma LoadFaultAdvances(base: Usize, regs: map<Usize, U32>, claim: seq<U32>, hvip: bv64,
                          cpu: ArchRegs, addr: Usize, p: Platform)
    requires ValidRegs(cpu) && |claim| == PLIC_CONTEXTS
    requires PrivilegeFromHstatus(cpu.hstatus) == Supervisor && InPlicWindow(base, addr)
    requires DecodeTrapped(TruncateU32(cpu.htinst), cpu.sepc, p).Done?
    requires DecodeTrapped(TruncateU32(cpu.htinst), cpu.sepc, p).value.0.Lw?
    ensures var d := DecodeTrapped(TruncateU32(cpu.htinst), cpu.sepc, p).value;
      var e := VmexitEffect(base, regs, claim, hvip, cpu, NestedPageFault(addr), p);
      && e.outcome == Done(())
      && e.plicRegs == regs && e.claim == claim && e.hvip == hvip
      && e.cpu.gprs[d.0.rd] == RegisterValue(regs, addr)
      && (forall i :: 0 <= i < GPR_COUNT && i != d.0.rd ==> e.cpu.gprs[i] == cpu.gprs[i])
      && e.cpu.sepc == WrappingAdd(cpu.sepc, d.1)
  {
  }

  // ---------------------------------------------------------------------
  // The device state and the handler methods

  /** `PlicState`: the emulated register file keyed by address, and the
      claim/complete latches. */
  class PlicState {
    const base: Usize
    var regs: map<Usize, U32>
    const claimComplete: array<U32>

    ghost predicate Valid()
      reads this
    {
      claimComplete.Length == PLIC_CONTEXTS
    }

    constructor (base: Usize)
      ensures Valid() && this.base == base && regs == map[]
      ensures fresh(claimComplete) && claimComplete[..] == seq(PLIC_CONTEXTS, _ => 0)
    {
      this.base := base;
      regs := map[];
      claimComplete := new U32[PLIC_CONTEXTS](_ => 0);
    }

    /** `read_u32`. */
    function ReadU32(addr: Usize): (v: U32)
      reads this
      ensures addr !in regs ==> v == 0
      ensures addr in regs ==> v == regs[addr]
    {
      RegisterValue(regs, addr)
    }

    /** `write_u32`: afterwards `read_u32(addr)` is `value`. */
    method WriteU32(addr: Usize, value: U32)
      modifies this
      ensures regs == old(regs)[addr := value]
      ensures ReadU32(addr) == value
    {
      regs := regs[addr := value];
    }
  }

  /** `DeviceList`: the devices that belong to a VM. */
  class DeviceList {
    const plic: PlicState

    ghost predicate Valid()
      reads this, plic
    {
      plic.Valid() && plic.base == PLIC_BASE
    }

    /** `DeviceList::new`: a PLIC at 0xC00_0000 with nothing written. */
    constructor ()
      ensures Valid() && fresh(plic) && fresh(plic.claimComplete) && plic.regs == map[]
      ensures plic.claimComplete[..] == seq(PLIC_CONTEXTS, _ => 0)
    {
      plic := new PlicState(PLIC_BASE);
    }

    /** `handle_plic`. */
    method HandlePlic(instAddr: Usize, htinst: U32, faultAddr: Usize, cpu: ArchRegs, p: Platform)
      returns (r: Exec<nat>, cpu': ArchRegs)
      requires Valid() && ValidRegs(cpu)
      modifies plic
      ensures Emulation(r, plic.regs, cpu') == PlicEffect(old(plic.regs), cpu, faultAddr, DecodeTrapped(htinst, instAddr, p))
    {
      var inst := htinst;
      if inst == 0 {
        // htinst carries no instruction: read it from guest memory.
        var fetched := p.fetch(instAddr);
        if fetched.Err? {
          return Failed(fetched.error), cpu;
        }
        inst := fetched.value;
      }
      var i1 := TruncateU16(inst);
      var len := InstructionLength(i1);
      if len == 2 {
        inst := i1;
      } else if len != 4 {
        return Panicked(UnreachableLength(len)), cpu;
      }
      var decoded := p.decode(inst);
      if decoded.None? {
        return Failed(InvalidData), cpu;
      }
      match decoded.value {
        case Sw(rs2) =>
          var value := TruncateU32(GetGpr(cpu, rs2));
          plic.WriteU32(faultAddr, value);
          cpu' := cpu;
        case Lw(rd) =>
          var value := plic.ReadU32(faultAddr);
          cpu' := SetGpr(cpu, rd, value);
        case OtherInstruction =>
          return Failed(BadAddress), cpu;
      }
      r := Done(len);
    }

    /** `handle_page_fault`. */
    method HandlePageFault(instAddr: Usize, htinst: U32, faultAddr: Usize, cpu: ArchRegs, p: Platform)
      returns (r: Exec<nat>, cpu': ArchRegs)
      requires Valid() && ValidRegs(cpu)
      modifies plic
      ensures Emulation(r, plic.regs, cpu') == PageFaultEffect(plic.base, old(plic.regs), cpu, instAddr, htinst, faultAddr, p)
    {
      if faultAddr >= plic.base && faultAddr < WrappingAdd(plic.base, PLIC_TRAP_WINDOW) {
        r, cpu' := HandlePlic(instAddr, htinst, faultAddr, cpu, p);
      } else {
        r, cpu' := Failed(BadAddress), cpu;
      }
    }

    /** `handle_irq`, with the host read of the claim register and the
        `hvip` CSR passed in. */
    method HandleIrq(p: Platform, hvip: bv64) returns (r: Exec<()>, hvip': bv64)
      requires Valid()
      modifies plic.claimComplete
      ensures IrqResult(r, plic.claimComplete[..], hvip') == IrqEffect(plic.base, old(plic.claimComplete[..]), hvip, p)
    {
      var contextId := SUPERVISOR_CONTEXT;
      var claimAddr := ClaimCompleteAddr(plic.base, contextId);
      var irq := p.claimRead(claimAddr);
      if irq == 0 {
        return Panicked(ZeroClaim), hvip;
      }
      plic.claimComplete[contextId] := irq;
      hvip' := SetBits(hvip, VSEIP);
      r := Done(());
    }

    /** `vmexit_handler`. */
    method VmexitHandler(cpu: ArchRegs, exit: ExitReason, p: Platform, hvip: bv64)
      returns (r: Exec<()>, cpu': ArchRegs, hvip': bv64)
      requires Valid() && ValidRegs(cpu)
      modifies plic, plic.claimComplete
      ensures Valid()
      ensures AfterExit(r, plic.regs, plic.claimComplete[..], hvip', cpu')
        == VmexitEffect(plic.base, old(plic.regs), old(plic.claimComplete[..]), hvip, cpu, exit, p)
    {
      cpu', hvip' := cpu, hvip;
      match exit
      case NestedPageFault(faultAddr) =>
        var faultPc := cpu.sepc;
        var inst := TruncateU32(cpu.htinst);
        var privLevel := PrivilegeFromHstatus(cpu.hstatus);
        match privLevel {
          case Supervisor =>
            var res;
            res, cpu' := HandlePageFault(faultPc, inst, faultAddr, cpu, p);
            match res {
              case Done(instLen) =>
                cpu' := AdvancePc(cpu', instLen);
                r := Done(());
              case Failed(err) =>
                r := Panicked(PageFaultError(err));
              case Panicked(why) =>
                r := Panicked(why);
            }
          case User =>
            r := Panicked(UserPageFault);
        }
      case ExternalInterrupt =>
        r, hvip' := HandleIrq(p, hvip);
      case RvStart(hartid, startAddr, opaqueValue) =>
        cpu' := SetGpr(cpu', A0, hartid);
        cpu' := SetGpr(cpu', A1, opaqueValue);
        cpu' := cpu'.(sepc := startAddr);
        r := Done(());
      case OtherExit =>
        r := Done(());
    }
  }
}
