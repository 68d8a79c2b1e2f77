# A verified model of the arceos-umhv riscv64 hypervisor core

This project models three pieces of the control logic of the arceos-umhv
type-1 hypervisor on riscv64 and proves properties of them in Dafny:

- **Guest-physical memory set** (`Gpm`, `gpm.dfy`). `setup_gpm` turns the
  parsed machine metadata into an ordered list of guest memory regions and
  installs them one by one with `map_region`; the first rejection aborts
  the setup. `gpa_as_mut_ptr` translates a guest-physical address into the
  static buffer that backs guest RAM.
- **VM and vCPU registry** (`Vm`, `vm.dfy`; registers and lifecycle
  states in `VCpus`, `vcpus.dfy`). `AxVM::new` builds the fixed vCPU
  registry and sets every vCPU up. The model also covers the `vcpu` lookup,
  the hardware gate of `boot`, the entry of `run_vcpu` with the decision
  step of `sync_vcpu`, and one iteration of the `run_vcpu` loop. In that
  iteration an `RV_START` exit starts another vCPU (`Free -> Ready`).
- **VM-exit handler and PLIC trap-and-emulate** (`Devices`,
  `devices.dfy`). `DeviceList::vmexit_handler` works as follows:
  - It applies the privilege gate.
  - It checks the 64 MiB PLIC trap window.
  - It picks the trapped instruction from `htinst`, falling back to a
    fetch from guest memory.
  - It picks the length from the RISC-V base instruction-length encoding
    (section 1.5 of the RISC-V Unprivileged ISA).
  - It emulates `sw`/`lw` on the emulated PLIC register file and advances
    the PC.
  - It sets up the registers for `RV_START` and latches the interrupt
    claimed in `handle_irq`.
- `Layout` (`layout.dfy`) relates the 2 MiB PLIC identity mapping of
  `setup_gpm` to the 64 MiB trap window of the exit handler, keeping both
  constants as written.
- `Types` (`types.dfy`) holds the shared types:
  - 64-bit `usize` and `u32`/`u16` truncation, with wrap-around written
    out (release-build semantics);
  - the `axerrno` error kinds;
  - `Option`, `Result`, and `Exec`, which records whether a Rust call
    returned a value, returned an error, or panicked.

State that the source changes in place is held in classes:

- `GuestPhysMemorySet` with its `regions`;
- `PlicState` with its register map and its `claim_complete` array;
- `DeviceList`;
- `AxVM` with its vCPU sequence.

Each method is proved equal to a specification function of its inputs and
the old state, for example:

- `SetupGpm` against `InstallAll` over `PlannedRegions`;
- `VmexitHandler` against `VmexitEffect`;
- `RunVcpuStep` against `RunStepEffect`.

The properties the code promises are lemmas and `ensures` clauses on those
functions.

Calls into code outside this core become parameters:

- The verdict of the nested page table on each `map_region` is a
  `Mapper` function.
- `GuestPhysMemorySet::new`'s root is a `Result`.
- `fetch_guest_instruction`, `riscv_decode::decode` and the host read of
  the PLIC claim register are the fields of a `Platform` value.
- The outcomes of `VCpu::new` and `setup` for vCPU `i` are `create(i)`
  and `setup(i)`.
- The outcome of `bind()` (its error or the state it leaves the vCPU in), the outcome of `vcpu.run()`, the `hvip` CSR and
  `has_hardware_support()` are arguments.

Four behaviours of the modelled code are worth stating up front:

- Besides RAM, a present test finisher is mapped READ | WRITE | EXECUTE |
  USER, so up to two regions are executable (`Gpm.ExecutableRegions`).
- When the device tree puts the PLIC at 0xC00_0000, the base
  `DeviceList::new` hard-codes, the first 2 MiB at the PLIC base are
  identity-mapped, so guest accesses there do not trap. Only accesses past
  them (the claim/complete registers among them) fault into the 64 MiB
  emulation window (`Layout.PlicMappingInsideTrapWindow`). A PLIC placed
  at or beyond 0x1000_0000 is mapped entirely outside the trap window
  (`Layout.RelocatedPlicOutsideTrapWindow`).
- An `RV_START` for a vCPU that is not `Free` writes `a0`, `a1` and `sepc`
  of the target first and then panics in the `unwrap` of
  `transition_state` (`Vm.StartOnBusyTargetPanicsAfterWrite`).
- Nothing in the modelled code makes vCPU 0 `Ready`. Whether `boot`
  enters the run loop or spins in `sync_vcpu` depends on the state that
  `bind` (in `axvcpu`, not part of this model) leaves vCPU 0 in
  (`Vm.AxVM.Boot`).

## Model

| member | source | states |
|---|---|---|
| Gpm.GpaAsMutPtr | arceos-vmm/src/gpm/arch/riscv64/mod.rs:33-38 | every guest address maps to `(gpa + buffer_start - GUEST_PHYS_MEMORY_BASE) mod 2^64`; the guest RAM base maps to the buffer start, and an address at or above the base maps to `buffer_start + (gpa - GUEST_PHYS_MEMORY_BASE)` when that does not wrap |
| Gpm.ImageEntriesInBuffer | arceos-vmm/src/gpm/arch/riscv64/mod.rs:21-24 | the device tree at `DTB_ENTRY` lands at the buffer start and the guest image at `GUEST_ENTRY` 2 MiB into the 64 MiB buffer |
| Gpm.GpaAsMutPtrInjective | arceos-vmm/src/gpm/arch/riscv64/mod.rs:33-38 | distinct guest addresses translate to distinct host addresses (the 64-bit offset arithmetic is a bijection) |
| Gpm.RamWindowInBuffer | arceos-vmm/src/gpm/arch/riscv64/mod.rs:21-38 | every address of the guest RAM window `[0x9000_0000, +0x400_0000)` lands inside the buffer at the same offset |
| Gpm.WindowRegion | arceos-vmm/src/gpm/arch/riscv64/mod.rs:84-165 | a device window becomes an identity mapping (`gpa == hpa == base`) with READ, WRITE and USER, executable exactly for the test finisher |
| Gpm.VirtioRegions | arceos-vmm/src/gpm/arch/riscv64/mod.rs:100-111 | one region per virtio window, the k-th region belonging to the k-th window |
| Gpm.RamRegionLast | arceos-vmm/src/gpm/arch/riscv64/mod.rs:173-183 | the last planned region (built by `RamRegion`) maps `physical_memory_offset` for `physical_memory_size` bytes onto host-physical `ramHpa`, READ, WRITE, EXECUTE and USER |
| Gpm.PlannedRegions | arceos-vmm/src/gpm/arch/riscv64/mod.rs:84-200 | the list handed to `map_region` has one region per present optional window plus one per virtio window plus one, and RAM is last; an absent optional window (`OptionalRegion`) contributes no region, a present one exactly its window region |
| Gpm.TestFinisherRegionFirst | arceos-vmm/src/gpm/arch/riscv64/mod.rs:84-98 | a present test finisher comes first, identity-mapped, size = discovered size + 0x1000 modulo 2^64 (exactly the sum when it does not wrap), READ, WRITE, EXECUTE and USER |
| Gpm.VirtioRegionsInOrder | arceos-vmm/src/gpm/arch/riscv64/mod.rs:100-111 | the i-th virtio window yields, right after the test finisher, an identity region with its discovered size and READ, WRITE and USER |
| Gpm.UartRegionFixedSize | arceos-vmm/src/gpm/arch/riscv64/mod.rs:113-125 | the UART region is identity-mapped with READ, WRITE and USER and is 0x1000 bytes whatever size was discovered |
| Gpm.ClintRegionDiscoveredSize | arceos-vmm/src/gpm/arch/riscv64/mod.rs:127-138 | the CLINT region is identity-mapped with its discovered size and READ, WRITE and USER |
| Gpm.PlicRegionFixedSize | arceos-vmm/src/gpm/arch/riscv64/mod.rs:140-152 | the PLIC region is identity-mapped with READ, WRITE and USER and is 0x20_0000 bytes whatever size was discovered |
| Gpm.PciRegionDiscoveredSize | arceos-vmm/src/gpm/arch/riscv64/mod.rs:154-165 | the PCI region is identity-mapped with its discovered size and READ, WRITE and USER |
| Gpm.DeviceRegionsAreIdentity | arceos-vmm/src/gpm/arch/riscv64/mod.rs:84-165 | every region but the last (RAM) has `gpa == hpa` |
| Gpm.ExecutableRegions | arceos-vmm/src/gpm/arch/riscv64/mod.rs:84-183 | a planned region is executable exactly when it is the RAM region (last) or a present test finisher (first) |
| Gpm.InstallAll | arceos-vmm/src/gpm/arch/riscv64/mod.rs:84-200 | installing one region at a time either fails, which needs at least one region to install, or ends with one more region per region installed |
| Gpm.InstallAllSucceeds | arceos-vmm/src/gpm/arch/riscv64/mod.rs:84-202 | installation succeeds exactly when every region is accepted in turn, and then the set holds the regions it started with followed by all the new ones in order |
| Gpm.InstallAllFirstError | arceos-vmm/src/gpm/arch/riscv64/mod.rs:84-200 | a failed installation reports the error of a rejected region all of whose predecessors were accepted |
| Gpm.GuestPhysMemorySet.constructor | arceos-vmm/src/gpm/arch/riscv64/mod.rs:80 | `GuestPhysMemorySet::new` yields a set with the allocated root and no region installed |
| Gpm.GuestPhysMemorySet.MapRegion | arceos-vmm/src/gpm/arch/riscv64/mod.rs:198-200 | `map_region` appends the region exactly when the page table accepts it and otherwise leaves the set unchanged |
| Gpm.MapOptionalWindow | arceos-vmm/src/gpm/arch/riscv64/mod.rs:113-125 | an absent window maps nothing; otherwise a reported error is the error of the whole remaining plan, and on success the rest of the plan installs from the new set exactly as planned |
| Gpm.MapVirtioWindows | arceos-vmm/src/gpm/arch/riscv64/mod.rs:100-111 | the virtio windows are mapped in discovery order; a reported error is the error of the whole remaining plan, and on success the rest of the plan installs from the new set exactly as planned |
| Gpm.SetupGpm | arceos-vmm/src/gpm/arch/riscv64/mod.rs:71-203 | a failing root allocation is returned; otherwise `setup_gpm` succeeds exactly when every planned region is accepted, returns the first rejection's error, and on success the set holds exactly the planned regions with the allocated root |
| VCpus.SetGpr | crates/axvm/src/arch/riscv64/device_list.rs:59-60 | `set_gpr` writes the one register and leaves every other register, `sepc`, `hstatus` and `htinst` unchanged |
| VCpus.ReadOverWrite | crates/axvm/src/arch/riscv64/device_list.rs:59-60 | `get_gpr` (`GetGpr`, as used at device_list.rs line 121) after `set_gpr` yields the written value at the written index and the old value at every other index |
| VCpus.AdvancePc | crates/axvm/src/arch/riscv64/device_list.rs:41 | `advance_pc` moves `sepc` forward by the length modulo 2^64 and changes nothing else |
| VCpus.PrivilegeFromHstatus | crates/axvm/src/arch/riscv64/device_list.rs:34 | the guest trapped from supervisor mode exactly when SPVP (bit 8 of `hstatus`) is set |
| VCpus.TransitionState | crates/axvm/src/vm.rs:146 | `transition_state(from, to)` succeeds exactly when the state is `from`, then only the state changes; otherwise `BadState` |
| Devices.InstructionLength | crates/axvm/src/arch/riscv64/device_list.rs:107-108 | an instruction is 2 bytes exactly when its low bits are not `11`, and 4 bytes exactly when they are `11` and bits 4..2 are not `111`; every length is even |
| Devices.DecodeTrapped | crates/axvm/src/arch/riscv64/device_list.rs:101-116 | the trapped word is a non-zero `htinst`, else the guest fetch at the faulting PC (`RawInstruction`), whose error is passed on; the decoder sees the low 16 bits of a 2-byte word and the whole of a 4-byte one (`SelectInstruction`); for a fetched word, any length other than 2 or 4 is the `unreachable!()` panic with that length, a word the decoder rejects is `InvalidData`, and otherwise the result is the decoder's instruction on the selected bits with the length of the word |
| Devices.InPlicWindow | crates/axvm/src/arch/riscv64/device_list.rs:80 | when `base + 0x0400_0000` does not wrap, an address is trapped exactly when it lies in `[base, base + 0x0400_0000)`; when it wraps, no address is trapped |
| Devices.InPlicWindowBounds | crates/axvm/src/arch/riscv64/device_list.rs:80 | for the PLIC at 0xC00_0000, the trap window is exactly `[0xC00_0000, 0x1000_0000)` |
| Devices.PlicEffect | crates/axvm/src/arch/riscv64/device_list.rs:116-133 | `sw` stores the low 32 bits of `rs2` at the fault address, leaving all other PLIC registers and the GPRs unchanged; `lw` zero-extends that register into `rd` and leaves the PLIC unchanged; any other instruction is `BadAddress`; decode failures pass through; on failure nothing changes |
| Devices.PageFaultEffect | crates/axvm/src/arch/riscv64/device_list.rs:72-86 | a fault outside the PLIC trap window is `BadAddress` with the PLIC and the registers unchanged; inside it the effect is the PLIC emulation of the decoded trapped instruction; a success reports length 2 or 4; `sepc` is not moved here |
| Devices.ClaimCompleteAddr | crates/axvm/src/arch/riscv64/device_list.rs:137-138 | the claim register of a context is `base + 0x0020_0004 + 0x1000 * context` modulo 2^64, and when the trap window does not wrap it is that exact sum and lies inside the window |
| Devices.SetBits | crates/axvm/src/arch/riscv64/device_list.rs:145-146 | `read_and_set_bits` sets the mask bits and leaves all other bits of the CSR unchanged |
| Devices.IrqEffect | crates/axvm/src/arch/riscv64/device_list.rs:136-147 | a zero claim panics with nothing changed; a non-zero one is latched in `claim_complete[1]` and VSEIP is set in `hvip`, other bits unchanged |
| Devices.StartRegs | crates/axvm/src/arch/riscv64/device_list.rs:57-62 | `RV_START` sets exactly `a0 = hartid`, `a1 = opaque`, `sepc = start_addr` and no other register |
| Devices.VmexitEffect | crates/axvm/src/arch/riscv64/device_list.rs:28-67 | the handler never returns an error; a user-mode fault panics with nothing changed; a supervisor fault outside the window panics with `BadAddress` and nothing changed; a supervisor fault whose emulation succeeds takes the emulated PLIC registers and vCPU registers and advances `sepc` by the emulated length (2 or 4); a failed emulation panics with its error and a panicking one with its reason, both with nothing changed; `RV_START` only sets the start registers; an external interrupt takes its claim latches and `hvip` from the interrupt handling and leaves the PLIC registers and the vCPU alone; other exits change nothing |
| Devices.StoreThenLoad | crates/axvm/src/arch/riscv64/device_list.rs:119-130 | after an emulated `sw` at a PLIC address, an emulated `lw` there reads the stored low 32 bits and leaves the PLIC registers as the store left them |
| Devices.StoreFaultAdvances | crates/axvm/src/arch/riscv64/device_list.rs:37-42 | a supervisor store fault in the window resumes the guest with the word readable at the fault address, the PC advanced by exactly the decoded length and the GPRs unchanged |
| Devices.LoadFaultAdvances | crates/axvm/src/arch/riscv64/device_list.rs:37-42 | a supervisor load fault in the window resumes the guest with the register at the fault address in `rd`, every other GPR, the PLIC registers, the claim latches and `hvip` unchanged, and the PC advanced by exactly the decoded length |
| Devices.PlicState.constructor | crates/axvm/src/arch/riscv64/device_list.rs:23 | `PlicState::new(base)` has that base, no register written and both claim latches 0 |
| Devices.PlicState.ReadU32 | crates/axvm/src/arch/riscv64/device_list.rs:128 | `read_u32` yields the last value written at the address, 0 when none was |
| Devices.PlicState.WriteU32 | crates/axvm/src/arch/riscv64/device_list.rs:123 | `write_u32` updates exactly that register, and `read_u32` there then yields the value |
| Devices.DeviceList.constructor | crates/axvm/src/arch/riscv64/device_list.rs:21-26 | a new device list has its PLIC at 0xC00_0000 with no register written and both claim latches 0 |
| Devices.DeviceList.HandlePlic | crates/axvm/src/arch/riscv64/device_list.rs:89-134 | the in-place `handle_plic`, with its reassignments of `inst`, has exactly the effect `PlicEffect` describes |
| Devices.DeviceList.HandlePageFault | crates/axvm/src/arch/riscv64/device_list.rs:72-86 | the window check then `handle_plic`: exactly the effect `PageFaultEffect` describes |
| Devices.DeviceList.HandleIrq | crates/axvm/src/arch/riscv64/device_list.rs:136-147 | the update of `claim_complete` and `hvip` is exactly the one `IrqEffect` describes |
| Devices.DeviceList.VmexitHandler | crates/axvm/src/arch/riscv64/device_list.rs:28-67 | the in-place exit handler has exactly the effect on the PLIC, the claim latches, `hvip` and the vCPU registers that `VmexitEffect` describes |
| Vm.FirstErrorFrom | crates/axvm/src/vm.rs:42-49 | the first error of the calls `k .. n-1` is `None` exactly when all of them succeed, and otherwise the error of one of them whose predecessors from `k` on all succeeded |
| Vm.FirstError | crates/axvm/src/vm.rs:65-76 | the first error of a run of fallible calls (the `?` on `VCpu::new` and on `setup`) is `None` exactly when all succeed, and otherwise the error of a call whose predecessors all succeeded |
| Vm.SyncDecision | crates/axvm/src/vm.rs:166-181 | `Ready` proceeds, `Running` panics, every other state keeps waiting, and these are the only cases |
| Vm.RunStepEffect | crates/axvm/src/vm.rs:133-153 | a `run` error is returned with nothing changed; `RV_START` for an unknown hart is `InvalidInput` with nothing changed; otherwise it writes only the target's start registers and moves it `Free -> Ready`, panicking with the state unchanged when it was not `Free`; any other exit changes only the current vCPU's registers as the exit handler does, with no state transition; the registry keeps its ids |
| Vm.StartReleasesWaiter | crates/axvm/src/vm.rs:138-148 | starting a `Free` hart succeeds and leaves it `Ready`, so its `sync_vcpu` proceeds, with `sepc = start_addr`, `a0 = hartid`, `a1 = opaque` |
| Vm.StartOnBusyTargetPanicsAfterWrite | crates/axvm/src/vm.rs:138-148 | starting a hart that is not `Free` panics with its state unchanged, after its start registers were written |
| Vm.SecondStartPanics | crates/axvm/src/vm.rs:138-148 | a second `RV_START` for the same hart panics: a vCPU is started only once |
| Vm.AxVM.constructor | crates/axvm/src/vm.rs:51-61 | the VM record holds the given id, EPT root and vCPU sequence, and a fresh device list whose PLIC has no register written and both claim latches 0 |
| Vm.AxVM.New | crates/axvm/src/vm.rs:39-80 | the first `VCpu::new` failure, else the first `setup` failure, is returned and no VM is; otherwise the VM has `cpu_count` vCPUs, the i-th with id i, state `Free`, entry point `bsp_entry` for vCPU 0 and `ap_entry` for every other (`EntryFor`), the VM's EPT root, and its PLIC has no register written and both claim latches 0 |
| Vm.AxVM.Vcpu | crates/axvm/src/vm.rs:88-90 | the lookup is `None` exactly when the id is at least the vCPU count, and otherwise yields the vCPU with that id |
| Vm.AxVM.RunVcpuEntry | crates/axvm/src/vm.rs:113-126 | an unknown id is `InvalidInput` before anything is bound; a bind error is returned; otherwise the decision step of `sync_vcpu` (vm.rs lines 161-181) is taken on the state `bind` left the vCPU in, so the loop is entered exactly when the vCPU is known and bound into `Ready`, and the only panic is on a `Running` vCPU |
| Vm.AxVM.Boot | crates/axvm/src/vm.rs:101-107 | without hardware support `boot` is `Unsupported`, otherwise it is `run_vcpu(0)`: it enters the loop when `bind` leaves vCPU 0 `Ready` and keeps waiting when `bind` leaves it in any state other than `Ready` or `Running` |
| Vm.AxVM.RunVcpuStep | crates/axvm/src/vm.rs:133-153 | one in-place loop iteration has exactly the effect `RunStepEffect` describes on the registry, the PLIC and `hvip` |
| Layout.PlicMappingInsideTrapWindow | arceos-vmm/src/gpm/arch/riscv64/mod.rs:140-152 | for a PLIC at 0xC00_0000, the 2 MiB mapped region lies inside the 64 MiB trap window, which is 32 times larger, and the claim/complete registers lie past the mapping but inside the window |
| Layout.RelocatedPlicOutsideTrapWindow | arceos-vmm/src/gpm/arch/riscv64/mod.rs:140-152 | a PLIC the device tree places at or beyond 0x1000_0000 is identity-mapped at its own base, and no address of that mapping is trapped by the exit handler, whose window stays at 0xC00_0000 |

## Left out

- File I/O: `load_guest_image_from_file_system` and the image loads in `setup_gpm` are not modelled. The guest images are taken as already loaded.
- `MachineMeta::parse`: the device-tree parsing is not part of this model. The metadata record is an input.
- `virt_to_phys` and the static `GUEST_PHYS_MEMORY` buffer are not modelled. The buffer's host address `bufferStart` and `ramHpa`, which stands for `virt_to_phys(gpa_as_mut_ptr(GUEST_PHYS_MEMORY_BASE))`, are inputs.
- Page-table internals behind `map_region` and `GuestPhysMemorySet::new` are not modelled. They are reduced to an accept/reject verdict and a root result.
- `vcpu.run()`, `bind`/`unbind`, `set_ept_root` and `has_hardware_support` are hardware or foreign calls. Their outcomes are arguments. `set_ept_root(..).unwrap()` is taken to succeed.
- Vm.AxVM.RunVcpuEntry: the effect of `bind` on the lifecycle state is an argument (the state `bind` leaves the vCPU in), because `bind` lives in `axvcpu`, which is not part of this model. The new state is not written back into the registry.
- `fetch_guest_instruction` and `riscv_decode::decode` are foreign. They are the functions of `Platform`, and `decode` is reduced to `sw`/`lw`/other.
- The volatile host read of the claim register is foreign. It is `Platform.claimRead`.
- Vm.AxVM.New: the register initialisation done by `VCpu::new` and `setup` (inside `axvcpu` and the arch vCPU) is not modelled. Created vCPUs keep zero registers, and `setup` records the entry point and EPT root.
- Vm.AxVM.New: the states `Created` after `VCpu::new` and `Free` after `setup` are an assumption about `axvcpu`, which is not part of this model; the modelled code itself sets no state.
- VCpus.TransitionState: `transition_state` lives in `axvcpu`, which is not part of this model. That it moves the state only from `from`, and leaves the state unchanged with `BadState` otherwise, is an assumption.
- VCpus.PrivilegeFromHstatus: `PrivilegeLevel::from_hstatus` is not part of this model. Reading the privilege from SPVP (bit 8 of `hstatus`) follows the RISC-V Privileged Architecture's hypervisor extension and is an assumption about that function.
- `PlicState` is defined outside the modelled files, so its behaviour here is an assumption: `read_u32`/`write_u32` are a map from address to `u32` in which unwritten registers read 0, and `claim_complete` has `PLIC_CONTEXTS = 2` latches, the supervisor context being index 1. Any other behaviour of the real `PlicState` is not captured.
- VCpus.SetGpr: the hard-wired zero of `x0` is not modelled, because `set_gpr` is outside this core. A write to x0 is recorded like any other.
- Devices.InstructionLength: the reserved encoding of 192 bits and more has no meaning for this handler. Every length other than 2 and 4 is the `unreachable!()` panic.
- The infinite loops of `run_vcpu` and `sync_vcpu` are modelled as single steps (`RunVcpuStep`, `SyncDecision`), not their repetition. The unreachable `unbind` after the loop is left out.
- Vm.AxVM.RunVcpuStep: the Rust code hands `vmexit_handler` the target's vCPU through a shared reference. The model copies the registers in and writes the result back, so aliasing between the two vCPU references is not modelled.
- `arceos-vmm/src/main.rs` is left out: the per-CPU hardware enable, the `LazyInit` publication of the VM, the `SYNC_VCPUS` spin barrier and the secondary-core entry (concurrency and boot plumbing).
- The `UnsafeCell` aliasing in `get_device_list` and all logging are left out.
- Concurrency is left out: the model is sequential, so the unguarded sharing of the PLIC state between cores is not captured.
- `id()`, `vcpu_list()` and `ept_root()` are the fields `id`, `vcpuList` and `eptRoot` of `AxVM` and have no members of their own.
