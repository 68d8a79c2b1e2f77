/** The guest-physical memory set of the riscv64 hypervisor: the region
    policy of `setup_gpm` and the guest-to-host offset of `gpa_as_mut_ptr`
    (arceos-vmm/src/gpm/arch/riscv64/mod.rs). */
module Gpm {
  import opened Types

  const GUEST_PHYS_MEMORY_BASE: Usize := 0x9000_0000
  const DTB_ENTRY: Usize := 0x9000_0000
  const GUEST_ENTRY: Usize := 0x9020_0000
  const GUEST_PHYS_MEMORY_SIZE: Usize := 0x400_0000

  /** Bytes added to the discovered test-finisher size (covers the goldfish RTC). */
  const TEST_FINISHER_EXTRA: Usize := 0x1000
  /** Fixed size of the serial-console mapping, whatever was discovered. */
  const UART_MAP_SIZE: Usize := 0x1000
  /** Fixed size of the PLIC identity mapping, whatever was discovered. */
  const PLIC_MAP_SIZE: Usize := 0x20_0000

  /** `page_table_entry::MappingFlags`, restricted to the four bits used here. */
  datatype MappingFlags = MappingFlags(read: bool, write: bool, execute: bool, user: bool)

  /** READ | WRITE | USER */
  const RWU: MappingFlags := MappingFlags(true, true, false, true)
  /** READ | WRITE | EXECUTE | USER */
  const RWXU: MappingFlags := MappingFlags(true, true, true, true)

  datatype GuestMemoryRegion = GuestMemoryRegion(gpa: Usize, hpa: Usize, size: Usize, flags: MappingFlags)

  /** One discovered window `{ base_address, size }`. */
  datatype DeviceWindow = DeviceWindow(baseAddress: Usize, size: Usize)

  /** The parsed machine metadata `setup_gpm` consumes. */
  datatype MachineMeta = MachineMeta(
    physicalMemoryOffset: Usize,
    physicalMemorySize: Usize,
    testFinisher: Option<DeviceWindow>,
    virtio: seq<DeviceWindow>,
    uart: Option<DeviceWindow>,
    clint: Option<DeviceWindow>,
    plic: Option<DeviceWindow>,
    pci: Option<DeviceWindow>)

  datatype WindowKind = TestFinisher | Virtio | Uart | Clint | Plic | Pci

  // ---------------------------------------------------------------------
  // gpa_as_mut_ptr

  /** The host address of guest-physical `guestPaddr` inside the static
      buffer starting at host address `bufferStart`. */
  function GpaAsMutPtr(bufferStart: Usize, guestPaddr: Usize): (host: Usize)
    ensures host == (guestPaddr + bufferStart - GUEST_PHYS_MEMORY_BASE) % USIZE_MODULUS
    ensures guestPaddr == GUEST_PHYS_MEMORY_BASE ==> host == bufferStart
    ensures GUEST_PHYS_MEMORY_BASE <= guestPaddr && bufferStart + (guestPaddr - GUEST_PHYS_MEMORY_BASE) < USIZE_MODULUS
      ==> host == bufferStart + (guestPaddr - GUEST_PHYS_MEMORY_BASE)
  {
    WrappingSub(WrappingAdd(guestPaddr, bufferStart), GUEST_PHYS_MEMORY_BASE)
  }

  /** The device tree loaded at `DTB_ENTRY` sits at the start of the buffer
      and the guest image loaded at `GUEST_ENTRY` 2 MiB into it, both well
      inside the 64 MiB buffer. */
  lemma ImageEntriesInBuffer(bufferStart: Usize)
    requires bufferStart + GUEST_PHYS_MEMORY_SIZE <= USIZE_MODULUS
    ensures GpaAsMutPtr(bufferStart, DTB_ENTRY) == bufferStart
    ensures GpaAsMutPtr(bufferStart, GUEST_ENTRY) == bufferStart + 0x20_0000
    ensures GUEST_ENTRY - GUEST_PHYS_MEMORY_BASE < GUEST_PHYS_MEMORY_SIZE
  {
  }

  /** Distinct guest addresses land on distinct host addresses: the
      translation is a bijection of the 64-bit address space. */
  lemma GpaAsMutPtrInjective(bufferStart: Usize, g1: Usize, g2: Usize)
    requires GpaAsMutPtr(bufferStart, g1) == GpaAsMutPtr(bufferStart, g2)
    ensures g1 == g2
  {
    var d := (g1 + bufferStart - GUEST_PHYS_MEMORY_BASE) - (g2 + bufferStart - GUEST_PHYS_MEMORY_BASE);
    assert d == g1 - g2;
    assert (g1 + bufferStart - GUEST_PHYS_MEMORY_BASE) % USIZE_MODULUS == (g2 + bufferStart - GUEST_PHYS_MEMORY_BASE) % USIZE_MODULUS;
  }

  /** The guest RAM window `[GUEST_PHYS_MEMORY_BASE, + GUEST_PHYS_MEMORY_SIZE)`
      lands inside the buffer, at the same offset. */
  lemma RamWindowInBuffer(bufferStart: Usize, guestPaddr: Usize)
    requires bufferStart + GUEST_PHYS_MEMORY_SIZE <= USIZE_MODULUS
    requires GUEST_PHYS_MEMORY_BASE <= guestPaddr < GUEST_PHYS_MEMORY_BASE + GUEST_PHYS_MEMORY_SIZE
    ensures bufferStart <= GpaAsMutPtr(bufferStart, guestPaddr) < bufferStart + GUEST_PHYS_MEMORY_SIZE
    ensures GpaAsMutPtr(bufferStart, guestPaddr) - bufferStart == guestPaddr - GUEST_PHYS_MEMORY_BASE
  {
  }

  // ---------------------------------------------------------------------
  // The region policy of setup_gpm

  /** The region installed for one discovered device window: an identity
      mapping whose size and permissions depend on the kind of window. */
  function WindowRegion(kind: WindowKind, w: DeviceWindow): (r: GuestMemoryRegion)
    ensures r.gpa == r.hpa == w.baseAddress
    ensures r.flags.read && r.flags.write && r.flags.user
    ensures r.flags.execute <==> kind == TestFinisher
  {
    match kind
    case TestFinisher => GuestMemoryRegion(w.baseAddress, w.baseAddress, WrappingAdd(w.size, TEST_FINISHER_EXTRA), RWXU)
    case Virtio => GuestMemoryRegion(w.baseAddress, w.baseAddress, w.size, RWU)
    case Uart => GuestMemoryRegion(w.baseAddress, w.baseAddress, UART_MAP_SIZE, RWU)
    case Clint => GuestMemoryRegion(w.baseAddress, w.baseAddress, w.size, RWU)
    case Plic => GuestMemoryRegion(w.baseAddress, w.baseAddress, PLIC_MAP_SIZE, RWU)
    case Pci => GuestMemoryRegion(w.baseAddress, w.baseAddress, w.size, RWU)
  }

  /** The RAM region, backed by the static buffer at host-physical `ramHpa`. */
  function RamRegion(meta: MachineMeta, ramHpa: Usize): (r: GuestMemoryRegion)
    ensures r.gpa == meta.physicalMemoryOffset && r.size == meta.physicalMemorySize
    ensures r.hpa == ramHpa
    ensures r.flags == RWXU
  {
    GuestMemoryRegion(meta.physicalMemoryOffset, ramHpa, meta.physicalMemorySize, RWXU)
  }

  /** The region of an optional window: nothing when it is absent. */
  function OptionalRegion(kind: WindowKind, w: Option<DeviceWindow>): (r: seq<GuestMemoryRegion>)
    ensures |r| == Present(w)
    ensures w.Some? ==> r == [WindowRegion(kind, w.value)]
  {
    if w.Some? then [WindowRegion(kind, w.value)] else []
  }

  function Present(w: Option<DeviceWindow>): nat {
    if w.Some? then 1 else 0
  }

  /** One region per virtio window, in discovery order. */
  function VirtioRegions(vs: seq<DeviceWindow>): (r: seq<GuestMemoryRegion>)
    ensures |r| == |vs|
    ensures forall k :: 0 <= k < |vs| ==> r[k] == WindowRegion(Virtio, vs[k])
  {
    if vs == [] then [] else [WindowRegion(Virtio, vs[0])] + VirtioRegions(vs[1..])
  }

  /** The number of optional windows the metadata has. */
  function PresentWindows(meta: MachineMeta): nat {
    Present(meta.testFinisher) + Present(meta.uart) + Present(meta.clint) + Present(meta.plic) + Present(meta.pci)
  }

  // The planned list is built back to front, one stage per `map_region`
  // call site of `setup_gpm`: each stage is the regions still to be mapped
  // when that call site is reached.

  /** The PCI window (if any), then RAM. */
  function FromPci(meta: MachineMeta, ramHpa: Usize): (r: seq<GuestMemoryRegion>)
    ensures |r| == Present(meta.pci) + 1 && r[|r| - 1] == RamRegion(meta, ramHpa)
  {
    OptionalRegion(Pci, meta.pci) + [RamRegion(meta, ramHpa)]
  }

  /** The PLIC window (if any), then the rest. */
  function FromPlic(meta: MachineMeta, ramHpa: Usize): (r: seq<GuestMemoryRegion>)
    ensures |r| == Present(meta.plic) + Present(meta.pci) + 1 && r[|r| - 1] == RamRegion(meta, ramHpa)
  {
    OptionalRegion(Plic, meta.plic) + FromPci(meta, ramHpa)
  }

  /** The CLINT window (if any), then the rest. */
  function FromClint(meta: MachineMeta, ramHpa: Usize): (r: seq<GuestMemoryRegion>)
    ensures |r| == Present(meta.clint) + Present(meta.plic) + Present(meta.pci) + 1
    ensures r[|r| - 1] == RamRegion(meta, ramHpa)
  {
    OptionalRegion(Clint, meta.clint) + FromPlic(meta, ramHpa)
  }

  /** The UART window (if any), then the rest. */
  function FromUart(meta: MachineMeta, ramHpa: Usize): (r: seq<GuestMemoryRegion>)
    ensures |r| == Present(meta.uart) + Present(meta.clint) + Present(meta.plic) + Present(meta.pci) + 1
    ensures r[|r| - 1] == RamRegion(meta, ramHpa)
  {
    OptionalRegion(Uart, meta.uart) + FromClint(meta, ramHpa)
  }

  /** The virtio windows, then the rest. */
  function FromVirtio(meta: MachineMeta, ramHpa: Usize): (r: seq<GuestMemoryRegion>)
    ensures |r| == |meta.virtio| + Present(meta.uart) + Present(meta.clint) + Present(meta.plic) + Present(meta.pci) + 1
    ensures r[|r| - 1] == RamRegion(meta, ramHpa)
  {
    VirtioRegions(meta.virtio) + FromUart(meta, ramHpa)
  }

  /** The regions `setup_gpm` hands to `map_region`, in the order it does:
      one per present window, one per virtio window, and RAM last. */
  function PlannedRegions(meta: MachineMeta, ramHpa: Usize): (r: seq<GuestMemoryRegion>)
    ensures |r| == PresentWindows(meta) + |meta.virtio| + 1
    ensures r[|r| - 1] == RamRegion(meta, ramHpa)
  {
    OptionalRegion(TestFinisher, meta.testFinisher) + FromVirtio(meta, ramHpa)
  }

  /** RAM is mapped last: guest-physical `physical_memory_offset` for
      `physical_memory_size` bytes onto the buffer at host-physical `ramHpa`,
      READ | WRITE | EXECUTE | USER. */
  lemma RamRegionLast(meta: MachineMeta, ramHpa: Usize)
    ensures var r := PlannedRegions(meta, ramHpa);
      r[|r| - 1] == GuestMemoryRegion(meta.physicalMemoryOffset, ramHpa, meta.physicalMemorySize, RWXU)
  {
  }

  /** A present test finisher comes first, identity-mapped with 0x1000
      extra bytes and READ | WRITE | EXECUTE | USER. */
  lemma TestFinisherRegionFirst(meta: MachineMeta, ramHpa: Usize)
    requires meta.testFinisher.Some?
    ensures var t := meta.testFinisher.value; var r := PlannedRegions(meta, ramHpa)[0];
      && r.gpa == t.baseAddress && r.hpa == t.baseAddress && r.flags == RWXU
      && r.size == WrappingAdd(t.size, TEST_FINISHER_EXTRA)
      && (t.size + TEST_FINISHER_EXTRA < USIZE_MODULUS ==> r.size == t.size + 0x1000)
  {
  }

  /** Every virtio window yields one identity region with its discovered
      size and READ | WRITE | USER, in discovery order, right after the
      test finisher. */
  lemma VirtioRegionsInOrder(meta: MachineMeta, ramHpa: Usize, i: nat)
    requires i < |meta.virtio|
    ensures var r := PlannedRegions(meta, ramHpa)[Present(meta.testFinisher) + i];
      r == GuestMemoryRegion(meta.virtio[i].baseAddress, meta.virtio[i].baseAddress, meta.virtio[i].size, RWU)
  {
    assert FromVirtio(meta, ramHpa)[i] == VirtioRegions(meta.virtio)[i];
  }

  /** The position right after the test finisher and the virtio windows. */
  function FixedOffset(meta: MachineMeta): nat {
    Present(meta.testFinisher) + |meta.virtio|
  }

  lemma PlannedSuffixes(meta: MachineMeta, ramHpa: Usize, j: nat)
    ensures var r := PlannedRegions(meta, ramHpa); var t := Present(meta.testFinisher);
      && (j < |FromVirtio(meta, ramHpa)| ==> r[t + j] == FromVirtio(meta, ramHpa)[j])
      && (j < |FromUart(meta, ramHpa)| ==> FromVirtio(meta, ramHpa)[|meta.virtio| + j] == FromUart(meta, ramHpa)[j])
      && (j < |FromClint(meta, ramHpa)| ==> FromUart(meta, ramHpa)[Present(meta.uart) + j] == FromClint(meta, ramHpa)[j])
      && (j < |FromPlic(meta, ramHpa)| ==> FromClint(meta, ramHpa)[Present(meta.clint) + j] == FromPlic(meta, ramHpa)[j])
      && (j < |FromPci(meta, ramHpa)| ==> FromPlic(meta, ramHpa)[Present(meta.plic) + j] == FromPci(meta, ramHpa)[j])
  {
  }

  /** The UART window follows the virtio windows, identity-mapped with
      READ | WRITE | USER and always 0x1000 bytes. */
  lemma UartRegionFixedSize(meta: MachineMeta, ramHpa: Usize)
    requires meta.uart.Some?
    ensures var u := meta.uart.value;
      PlannedRegions(meta, ramHpa)[FixedOffset(meta)] == GuestMemoryRegion(u.baseAddress, u.baseAddress, 0x1000, RWU)
  {
    PlannedSuffixes(meta, ramHpa, |meta.virtio|);
    PlannedSuffixes(meta, ramHpa, 0);
  }

  /** The CLINT window follows the UART, identity-mapped with its
      discovered size and READ | WRITE | USER. */
  lemma ClintRegionDiscoveredSize(meta: MachineMeta, ramHpa: Usize)
    requires meta.clint.Some?
    ensures var c := meta.clint.value;
      PlannedRegions(meta, ramHpa)[FixedOffset(meta) + Present(meta.uart)]
        == GuestMemoryRegion(c.baseAddress, c.baseAddress, c.size, RWU)
  {
    var u := Present(meta.uart);
    PlannedSuffixes(meta, ramHpa, |meta.virtio| + u);
    PlannedSuffixes(meta, ramHpa, u);
    PlannedSuffixes(meta, ramHpa, 0);
  }

  /** The PLIC window follows the CLINT, identity-mapped with
      READ | WRITE | USER and always 0x20_0000 bytes. */
  lemma PlicRegionFixedSize(meta: MachineMeta, ramHpa: Usize)
    requires meta.plic.Some?
    ensures var p := meta.plic.value;
      PlannedRegions(meta, ramHpa)[FixedOffset(meta) + Present(meta.uart) + Present(meta.clint)]
        == GuestMemoryRegion(p.baseAddress, p.baseAddress, 0x20_0000, RWU)
  {
    var u := Present(meta.uart);
    var c := Present(meta.clint);
    PlannedSuffixes(meta, ramHpa, |meta.virtio| + u + c);
    PlannedSuffixes(meta, ramHpa, u + c);
    PlannedSuffixes(meta, ramHpa, c);
    PlannedSuffixes(meta, ramHpa, 0);
  }

  /** The PCI window follows the PLIC, identity-mapped with its discovered
      size and READ | WRITE | USER; RAM comes after it. */
  lemma PciRegionDiscoveredSize(meta: MachineMeta, ramHpa: Usize)
    requires meta.pci.Some?
    ensures var p := meta.pci.value;
      PlannedRegions(meta, ramHpa)[FixedOffset(meta) + Present(meta.uart) + Present(meta.clint) + Present(meta.plic)]
        == GuestMemoryRegion(p.baseAddress, p.baseAddress, p.size, RWU)
  {
    var u := Present(meta.uart);
    var c := Present(meta.clint);
    var l := Present(meta.plic);
    PlannedSuffixes(meta, ramHpa, |meta.virtio| + u + c + l);
    PlannedSuffixes(meta, ramHpa, u + c + l);
    PlannedSuffixes(meta, ramHpa, c + l);
    PlannedSuffixes(meta, ramHpa, l);
    PlannedSuffixes(meta, ramHpa, 0);
  }

  /** All but the last region are identity mappings without EXECUTE. */
  ghost predicate PassThroughBeforeLast(s: seq<GuestMemoryRegion>) {
    forall k :: 0 <= k < |s| - 1 ==> s[k].gpa == s[k].hpa && !s[k].flags.execute
  }

  lemma PassThroughPrepend(a: seq<GuestMemoryRegion>, b: seq<GuestMemoryRegion>)
    requires forall k :: 0 <= k < |a| ==> a[k].gpa == a[k].hpa && !a[k].flags.execute
    requires |b| > 0 && PassThroughBeforeLast(b)
    ensures PassThroughBeforeLast(a + b)
  {
    forall k | 0 <= k < |a + b| - 1
      ensures (a + b)[k].gpa == (a + b)[k].hpa && !(a + b)[k].flags.execute
    {
      if k >= |a| {
        assert (a + b)[k] == b[k - |a|];
      }
    }
  }

  /** After the test finisher, every region but RAM is a pass-through
      device window: identity-mapped and not executable. */
  lemma FromVirtioPassThrough(meta: MachineMeta, ramHpa: Usize)
    ensures PassThroughBeforeLast(FromVirtio(meta, ramHpa))
  {
    PassThroughPrepend(OptionalRegion(Pci, meta.pci), [RamRegion(meta, ramHpa)]);
    PassThroughPrepend(OptionalRegion(Plic, meta.plic), FromPci(meta, ramHpa));
    PassThroughPrepend(OptionalRegion(Clint, meta.clint), FromPlic(meta, ramHpa));
    PassThroughPrepend(OptionalRegion(Uart, meta.uart), FromClint(meta, ramHpa));
    PassThroughPrepend(VirtioRegions(meta.virtio), FromUart(meta, ramHpa));
  }

  /** Every region except the last (RAM) is an identity mapping. */
  lemma DeviceRegionsAreIdentity(meta: MachineMeta, ramHpa: Usize, k: nat)
    requires k < |PlannedRegions(meta, ramHpa)| - 1
    ensures PlannedRegions(meta, ramHpa)[k].gpa == PlannedRegions(meta, ramHpa)[k].hpa
  {
    var t := OptionalRegion(TestFinisher, meta.testFinisher);
    if k >= |t| {
      FromVirtioPassThrough(meta, ramHpa);
      assert PlannedRegions(meta, ramHpa)[k] == FromVirtio(meta, ramHpa)[k - |t|];
    }
  }

  /** Only two regions are executable: the RAM region (last) and a present
      test finisher (first). */
  lemma ExecutableRegions(meta: MachineMeta, ramHpa: Usize, k: nat)
    requires k < |PlannedRegions(meta, ramHpa)|
    ensures PlannedRegions(meta, ramHpa)[k].flags.execute
      <==> k == |PlannedRegions(meta, ramHpa)| - 1 || (k == 0 && meta.testFinisher.Some?)
  {
    var t := OptionalRegion(TestFinisher, meta.testFinisher);
    if |t| <= k < |PlannedRegions(meta, ramHpa)| - 1 {
      FromVirtioPassThrough(meta, ramHpa);
      assert PlannedRegions(meta, ramHpa)[k] == FromVirtio(meta, ramHpa)[k - |t|];
    }
  }

  // ---------------------------------------------------------------------
  // Installing the regions

  /** The verdict of the nested page table on `map_region(region)` given
      the regions already installed: `None` accepts, `Some(e)` rejects. */
  type Mapper = (seq<GuestMemoryRegion>, GuestMemoryRegion) -> Option<AxError>

  /** The result of installing `todo` one region at a time on top of
      `installed`, stopping at the first rejection. */
  function InstallAll(installed: seq<GuestMemoryRegion>, todo: seq<GuestMemoryRegion>, mapper: Mapper): (r: Result<seq<GuestMemoryRegion>>)
    ensures r.Ok? ==> |r.value| == |installed| + |todo|
    ensures r.Err? ==> todo != []
    decreases |todo|
  {
    if todo == [] then Ok(installed)
    else match mapper(installed, todo[0])
      case Some(e) => Err(e)
      case None => InstallAll(installed + [todo[0]], todo[1..], mapper)
  }

  /** Every region of `todo` is accepted when its turn comes. */
  ghost predicate AllAccepted(installed: seq<GuestMemoryRegion>, todo: seq<GuestMemoryRegion>, mapper: Mapper) {
    forall k :: 0 <= k < |todo| ==> mapper(installed + todo[..k], todo[k]).None?
  }

  lemma AllAcceptedStep(installed: seq<GuestMemoryRegion>, todo: seq<GuestMemoryRegion>, mapper: Mapper)
    requires todo != []
    ensures AllAccepted(installed, todo, mapper)
      <==> mapper(installed, todo[0]).None? && AllAccepted(installed + [todo[0]], todo[1..], mapper)
  {
    forall k | 0 <= k < |todo| - 1
      ensures installed + todo[..k + 1] == installed + [todo[0]] + todo[1..][..k]
    {
      assert todo[..k + 1] == [todo[0]] + todo[1..][..k];
    }
    assert installed + todo[..0] == installed;
  }

  /** Installation succeeds exactly when every region is accepted, and then
      the set holds the installed regions followed by all of `todo`. */
  lemma {:induction false} InstallAllSucceeds(installed: seq<GuestMemoryRegion>, todo: seq<GuestMemoryRegion>, mapper: Mapper)
    ensures InstallAll(installed, todo, mapper).Ok? <==> AllAccepted(installed, todo, mapper)
    ensures InstallAll(installed, todo, mapper).Ok? ==> InstallAll(installed, todo, mapper).value == installed + todo
    decreases |todo|
  {
    if todo != [] {
      AllAcceptedStep(installed, todo, mapper);
      InstallAllSucceeds(installed + [todo[0]], todo[1..], mapper);
      assert installed + [todo[0]] + todo[1..] == installed + todo;
    }
  }

  /** A first rejection found after an accepted region `x` is a first
      rejection of the list that starts with `x`. */
  lemma FirstRejectionCons(installed: seq<GuestMemoryRegion>, x: GuestMemoryRegion, rest: seq<GuestMemoryRegion>,
                           k: nat, mapper: Mapper, e: AxError)
    requires mapper(installed, x).None? && k < |rest|
    requires AllAccepted(installed + [x], rest[..k], mapper)
    requires mapper(installed + [x] + rest[..k], rest[k]) == Some(e)
    ensures AllAccepted(installed, ([x] + rest)[..k + 1], mapper)
    ensures mapper(installed + ([x] + rest)[..k + 1], ([x] + rest)[k + 1]) == Some(e)
  {
    var prefix := ([x] + rest)[..k + 1];
    assert prefix == [x] + rest[..k];
    assert prefix[0] == x && prefix[1..] == rest[..k];
    AllAcceptedStep(installed, prefix, mapper);
    assert installed + prefix == installed + [x] + rest[..k];
  }

  /** A failed installation reports the error of the first rejected region:
      all regions before it were accepted. */
  lemma {:induction false} InstallAllFirstError(installed: seq<GuestMemoryRegion>, todo: seq<GuestMemoryRegion>, mapper: Mapper)
    requires InstallAll(installed, todo, mapper).Err?
    ensures exists k :: (0 <= k < |todo|
      && AllAccepted(installed, todo[..k], mapper)
      && mapper(installed + todo[..k], todo[k]) == Some(InstallAll(installed, todo, mapper).error))
    decreases |todo|
  {
    var e := InstallAll(installed, todo, mapper).error;
    if mapper(installed, todo[0]).Some? {
      assert todo[..0] == [] && installed + todo[..0] == installed;
      assert AllAccepted(installed, todo[..0], mapper);
    } else {
      var x, rest := todo[0], todo[1..];
      assert todo == [x] + rest;
      InstallAllFirstError(installed + [x], rest, mapper);
      var k :| 0 <= k < |rest|
        && AllAccepted(installed + [x], rest[..k], mapper)
        && mapper(installed + [x] + rest[..k], rest[k]) == Some(e);
      FirstRejectionCons(installed, x, rest, k, mapper, e);
    }
  }

  lemma InstallStep(installed: seq<GuestMemoryRegion>, x: GuestMemoryRegion, rest: seq<GuestMemoryRegion>, mapper: Mapper)
    ensures InstallAll(installed, [x] + rest, mapper)
      == match mapper(installed, x)
         case Some(e) => Err(e)
         case None => InstallAll(installed + [x], rest, mapper)
  {
    assert ([x] + rest)[0] == x;
    assert ([x] + rest)[1..] == rest;
  }

  /** `GuestPhysMemorySet`: the nested page-table root and the regions
      installed into it, append-only. */
  class GuestPhysMemorySet {
    const root: Usize
    var regions: seq<GuestMemoryRegion>

    constructor (root: Usize)
      ensures this.root == root && regions == []
    {
      this.root := root;
      regions := [];
    }

    /** `map_region`: the page table's verdict decides; on success the
        region is appended. */
    method MapRegion(region: GuestMemoryRegion, mapper: Mapper) returns (err: Option<AxError>)
      modifies this
      ensures err == mapper(old(regions), region)
      ensures regions == if err.None? then old(regions) + [region] else old(regions)
    {
      err := mapper(regions, region);
      if err.None? {
        regions := regions + [region];
      }
    }
  }

  lemma VirtioUnfold(vs: seq<DeviceWindow>, i: nat, tail: seq<GuestMemoryRegion>)
    requires i < |vs|
    ensures VirtioRegions(vs[i..]) + tail == [WindowRegion(Virtio, vs[i])] + (VirtioRegions(vs[i + 1..]) + tail)
  {
    assert vs[i..][0] == vs[i] && vs[i..][1..] == vs[i + 1..];
    assert VirtioRegions(vs[i..]) == [WindowRegion(Virtio, vs[i])] + VirtioRegions(vs[i + 1..]);
  }

  /** One `if let Some(w) = meta.<window> { gpm.map_region(..)?; }` step of
      `setup_gpm`: maps the window's region when it is present. */
  method MapOptionalWindow(gpm: GuestPhysMemorySet, kind: WindowKind, w: Option<DeviceWindow>,
                           ghost next: seq<GuestMemoryRegion>, mapper: Mapper, ghost spec: Result<seq<GuestMemoryRegion>>)
    returns (err: Option<AxError>)
    requires spec == InstallAll(gpm.regions, OptionalRegion(kind, w) + next, mapper)
    modifies gpm
    ensures err.Some? ==> spec == Err(err.value)
    ensures err.None? ==> spec == InstallAll(gpm.regions, next, mapper)
    ensures w.None? ==> err.None? && gpm.regions == old(gpm.regions)
  {
    err := None;
    if w.Some? {
      var region := WindowRegion(kind, w.value);
      InstallStep(gpm.regions, region, next, mapper);
      err := gpm.MapRegion(region, mapper);
    } else {
      assert OptionalRegion(kind, w) + next == next;
    }
  }

  /** The `for virtio in meta.virtio.iter()` loop of `setup_gpm`: maps the
      virtio windows in discovery order and stops at the first rejection. */
  method MapVirtioWindows(gpm: GuestPhysMemorySet, vs: seq<DeviceWindow>, ghost next: seq<GuestMemoryRegion>,
                          mapper: Mapper, ghost spec: Result<seq<GuestMemoryRegion>>)
    returns (err: Option<AxError>)
    requires spec == InstallAll(gpm.regions, VirtioRegions(vs) + next, mapper)
    modifies gpm
    ensures err.Some? ==> spec == Err(err.value)
    ensures err.None? ==> spec == InstallAll(gpm.regions, next, mapper)
  {
    err := None;
    assert vs[0..] == vs;
    for i := 0 to |vs|
      invariant spec == InstallAll(gpm.regions, VirtioRegions(vs[i..]) + next, mapper)
      invariant err.None?
    {
      var region := WindowRegion(Virtio, vs[i]);
      VirtioUnfold(vs, i, next);
      InstallStep(gpm.regions, region, VirtioRegions(vs[i + 1..]) + next, mapper);
      err := gpm.MapRegion(region, mapper);
      if err.Some? {
        assert spec == Err(err.value);
        return;
      }
    }
    assert vs[|vs|..] == [];
    assert VirtioRegions(vs[|vs|..]) + next == next;
  }

  /** `setup_gpm` after the guest images are loaded and the metadata parsed:
      `root` is the outcome of `GuestPhysMemorySet::new()`; `ramHpa` stands
      for `virt_to_phys(gpa_as_mut_ptr(GUEST_PHYS_MEMORY_BASE))`, which is
      `virt_to_phys` of the buffer start since `GpaAsMutPtr` maps the RAM
      base to it (`RamWindowInBuffer`). The address translation itself is
      not modelled. */
  method SetupGpm(meta: MachineMeta, ramHpa: Usize, root: Result<Usize>, mapper: Mapper)
    returns (r: Result<GuestPhysMemorySet>)
    ensures root.Err? ==> r == Err(root.error)
    ensures root.Ok? ==> (r.Ok? <==> InstallAll([], PlannedRegions(meta, ramHpa), mapper).Ok?)
    ensures root.Ok? && r.Err? ==> r.error == InstallAll([], PlannedRegions(meta, ramHpa), mapper).error
    ensures r.Ok? ==> fresh(r.value) && r.value.root == root.value
    ensures r.Ok? ==> r.value.regions == PlannedRegions(meta, ramHpa)
  {
    if root.Err? {
      return Err(root.error);
    }
    var gpm := new GuestPhysMemorySet(root.value);
    ghost var spec := InstallAll([], PlannedRegions(meta, ramHpa), mapper);
    InstallAllSucceeds([], PlannedRegions(meta, ramHpa), mapper);

    var err := MapOptionalWindow(gpm, TestFinisher, meta.testFinisher, FromVirtio(meta, ramHpa), mapper, spec);
    if err.Some? {
      return Err(err.value);
    }

    err := MapVirtioWindows(gpm, meta.virtio, FromUart(meta, ramHpa), mapper, spec);
    if err.Some? {
      return Err(err.value);
    }
    assert FromUart(meta, ramHpa) == OptionalRegion(Uart, meta.uart) + FromClint(meta, ramHpa);

    err := MapOptionalWindow(gpm, Uart, meta.uart, FromClint(meta, ramHpa), mapper, spec);
    if err.Some? {
      return Err(err.value);
    }
    err := MapOptionalWindow(gpm, Clint, meta.clint, FromPlic(meta, ramHpa), mapper, spec);
    if err.Some? {
      return Err(err.value);
    }
    err := MapOptionalWindow(gpm, Plic, meta.plic, FromPci(meta, ramHpa), mapper, spec);
    if err.Some? {
      return Err(err.value);
    }
    err := MapOptionalWindow(gpm, Pci, meta.pci, [RamRegion(meta, ramHpa)], mapper, spec);
    if err.Some? {
      return Err(err.value);
    }

    var ram := GuestMemoryRegion(meta.physicalMemoryOffset, ramHpa, meta.physicalMemorySize, RWXU);
    assert ram == RamRegion(meta, ramHpa);
    InstallStep(gpm.regions, ram, [], mapper);
    err := gpm.MapRegion(ram, mapper);
    if err.Some? {
      assert spec == Err(err.value);
      return Err(err.value);
    }
    assert spec == Ok(gpm.regions);
    r := Ok(gpm);
  }
}
