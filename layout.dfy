/** How the PLIC mapping installed by `setup_gpm` and the PLIC trap window of
    the exit handler fit together, with both constants as written: a 2 MiB
    identity mapping (arceos-vmm/src/gpm/arch/riscv64/mod.rs) inside a 64 MiB
    trap window (crates/axvm/src/arch/riscv64/device_list.rs). */
module Layout {
  import opened Types
  import opened Gpm
  import opened Devices

  /** For a PLIC discovered at 0xC00_0000: every address of its mapped
      region lies in the trap window, the claim/complete registers lie past
      the mapped region, and they are still in the trap window, so guest
      accesses to them fault and are emulated. */
  lemma PlicMappingInsideTrapWindow(w: DeviceWindow, addr: Usize, context: nat)
    requires w.baseAddress == PLIC_BASE && context < PLIC_CONTEXTS
    ensures var r := WindowRegion(Plic, w);
      && (r.gpa <= addr < r.gpa + r.size ==> InPlicWindow(PLIC_BASE, addr))
      && r.gpa + r.size <= ClaimCompleteAddr(PLIC_BASE, context)
      && InPlicWindow(PLIC_BASE, ClaimCompleteAddr(PLIC_BASE, context))
      && r.size * 32 == PLIC_TRAP_WINDOW
  {
  }

  /** The trap window does not follow the device tree: a PLIC discovered at
      or beyond 0x1000_0000 is mapped at its own base, and none of the
      mapped addresses is trapped by the window at 0xC00_0000. */
  lemma RelocatedPlicOutsideTrapWindow(w: DeviceWindow, addr: Usize)
    requires w.baseAddress >= 0x1000_0000
    ensures var r := WindowRegion(Plic, w);
      && r.gpa == w.baseAddress
      && (r.gpa <= addr < r.gpa + r.size ==> !InPlicWindow(PLIC_BASE, addr))
  {
  }
}
