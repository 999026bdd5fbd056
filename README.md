# NOVA microhypervisor core, modelled in Dafny

This project models parts of the NOVA microhypervisor kernel and proves
properties about them:

- **Arm stage-2 descriptor codec.** This is `Npt`, the descriptor codec of the
  Arm VMSAv8-64 stage-2 translation tables, with FEAT_XNX split execute-never.
- **Translation-root tracker.** This is `Nptp`. Each processor caches its VTTBR_EL2 value, so the register
  is only reloaded when the guest changes.
- **VT-d remapping-unit driver.** This is the x86 "SMMU" driver for Intel VT-d
  remapping units. It covers:
  - queued-invalidation descriptors (section 6.5.2 of the VT-d specification);
  - the circular invalidation queue;
  - the Global Command read-modify-write that masks the one-shot bits;
  - register-based and queued invalidation;
  - context and interrupt-remapping entries;
  - capability decoding;
  - unit lookup.
- **Guest address space on x86.** This is `Space_gst`: allocation with its
  failure paths, and the set of processors whose guest TLB is stale.
- **Kernel semaphore.** This is `Sm`: a 64-bit counter plus a first-in,
  first-out queue of blocked execution contexts.
- **Console registry.** This is `Console`: a singly linked list that every
  character goes through. It includes the single-activation guard of the
  I/O-port UART console (`Console_uart_pio::pmap`).
- **x86 processor enumeration.** This covers:
  - vendor search;
  - CPUID signature, topology and cache-allocation decoding;
  - both clock enumerations;
  - the performance-state MSR values.
- **AArch64 processor enumeration.** This covers:
  - the CTR_EL0 line sizes;
  - the CPTR_EL2/MDCR_EL2/HCR_EL2 reserved-control computation;
  - MIDR_EL1 decoding and core names;
  - the ID register state;
  - the boot hazards;
  - the register packing for the virtual machine monitor.

Register reads (`cpuid`, `mrs`, `Msr::read`, memory-mapped I/O) become
inputs. Register writes and barriers become recorded events or new field
values.

**Modules.** Each module has its own file:

| module | contents |
|---|---|
| `Common` | shared status codes, 64-bit bounds and powers of two |
| `Npt` | codec and translation root |
| `SmmuRegs` | VT-d encodings |
| `Smmu` | one unit and the entry tables |
| `SmmuUnits` | the list of units |
| `SpaceGst` | guest address space on x86 |
| `Sm` | semaphore |
| `Consoles` | console registry |
| `ConsoleUartPio` | I/O-port UART console |
| `CpuX86` | x86 processor |
| `CpuAarch64` | AArch64 processor |

**Execute-never encoding.** With `xnx` on, the (nX1, nX0) pair follows the
formula at inc/aarch64/ptab_npt.hpp:60-61:

| execute rights | (nX1, nX0) |
|---|---|
| supervisor and user | (0, 0) |
| supervisor only | (1, 1) |
| user only | (0, 1) |
| neither | (1, 0) |

`Npt.ExecuteNeverBits` states this table.

## Model

| member | source | states |
|---|---|---|
| Npt.PtabAttr | inc/aarch64/ptab_npt.hpp:43-50 | a table-referring entry counts as a table at every level above 0, is never large there, and carries no output-address bit |
| Npt.PageAttr | inc/aarch64/ptab_npt.hpp:53-65 | without read, write or execute permission the entry is 0; otherwise it is present and accessed, has nL exactly at level 0, and leaves the output-address bits 47..12 free |
| Npt.PagePm | inc/aarch64/ptab_npt.hpp:67-75 | decoding yields only K, XS, XU, W and R, and a zero entry grants nothing |
| Npt.PageCa | inc/aarch64/ptab_npt.hpp:77 | the decoded cacheability is one of the 8 values 0..7 |
| Npt.PageAttrKind | inc/aarch64/ptab_npt.hpp:43-64 | a leaf entry below the root level is large and not a table above level 0, and neither at level 0 |
| Npt.RoundTripXnx | inc/aarch64/ptab_npt.hpp:55-74 | with FEAT_XNX, decoding an encoded entry gives back exactly the K, XS, XU, W and R flags requested |
| Npt.ExecuteCollapsesWithoutXnx | inc/aarch64/ptab_npt.hpp:60-72 | without FEAT_XNX, XS and XU both decode as "XS or XU requested"; K, W and R round-trip |
| Npt.ExecuteNeverBits | inc/aarch64/ptab_npt.hpp:60-61 | the (nX1, nX0) pair for each of the four combinations of supervisor and user execute rights |
| Npt.AttributesRoundTrip | inc/aarch64/ptab_npt.hpp:64-79 | shareability round-trips exactly; cacheability decodes to what the 4-bit MemAttr value encodes |
| Npt.VttbrFields | inc/aarch64/ptab_npt.hpp:99 | the VMID and a root inside ADDR_MASK can both be read back from the VTTBR value |
| Npt.VttbrInjective | inc/aarch64/ptab_npt.hpp:99-101 | equal VTTBR values mean the same VMID and root, so the cache comparison identifies the guest |
| Npt.CpuSlot.constructor | inc/aarch64/ptab_npt.hpp:89 | a processor slot starts with an empty cache |
| Npt.Nptp.constructor | inc/aarch64/ptab_npt.hpp:94 | the root address is the one given |
| Npt.Nptp.MakeCurrent | inc/aarch64/ptab_npt.hpp:97-103 | afterwards current is vmid<<48 \| root; VTTBR_EL2 is written (then isb) exactly when the cached value differed, and nothing is issued otherwise |
| Npt.Nptp.Invalidate | inc/aarch64/ptab_npt.hpp:106-115 | make_current's operations, then dsb ishst, tlbi vmalls12e1is, dsb ish, isb in this order |
| Npt.Nptp.Init | inc/aarch64/ptab_npt.hpp:118 | the cache is zeroed; the register and the issued operations are untouched |
| Npt.MakeCurrentTwice | inc/aarch64/ptab_npt.hpp:97-103 | two consecutive loads of the same guest reload the register at most once |
| SmmuRegs.DescriptorFields | inc/x86_64/smmu.hpp:57-93 | context, IOTLB and interrupt-entry-cache descriptors carry their type and global granularity and nothing else: low words 0x11, 0x12 and 0x04, high word 0 |
| SmmuRegs.OneShotBits | inc/x86_64/smmu.hpp:238 | the mask removed from GSTS is exactly RTP, FL, WBF and IRTP |
| SmmuRegs.GcmdValueBits | inc/x86_64/smmu.hpp:237-241 | the GCMD value sets the commanded bit and keeps every non-one-shot status bit; no other one-shot bit is re-asserted |
| SmmuRegs.CommandObserved | inc/x86_64/smmu.hpp:243-245 | every command is a single nonzero bit, which the status shows once the command takes effect |
| SmmuRegs.RegisterCommandFields | inc/x86_64/smmu.hpp:270-273 | CCMD and IOTLB commands set the busy bit 63 and the global granularity in CIRG/IIRG, and no other bit |
| SmmuRegs.Nfr | inc/x86_64/smmu.hpp:214 | the number of fault-recording registers is the CAP field plus one, so 1..256 |
| SmmuRegs.OffsetFields | inc/x86_64/smmu.hpp:215-216 | FRO and IRO are 16 times a 10-bit field, so they are 16-byte aligned and below 16384 |
| SmmuRegs.FaultRecordInPage | inc/x86_64/smmu.hpp:227-231 | every fault record CAP reports starts 16·frr bytes after FRO, so the 32-bit product frr·16 does not wrap, and ends within 4 KiB after FRO |
| SmmuRegs.NextIdx | inc/x86_64/smmu.hpp:252 | the queue index after a submission stays below cnt |
| SmmuRegs.AdvanceIsModular | inc/x86_64/smmu.hpp:249-254 | after n submissions the tail index is (start + n) mod 256 |
| SmmuRegs.AdvanceWraps | inc/x86_64/smmu.hpp:164-165 | any multiple of cnt = 256 submissions brings the index back to where it started |
| SmmuRegs.Addr | inc/x86_64/smmu.hpp:105 | the address has the page-offset bits clear; adding the offset bits back gives the entry's low half |
| SmmuRegs.IrteFields | inc/x86_64/smmu.hpp:325 | the interrupt-remap entry decodes back to its source id, validation type, present bit, trigger mode, vector and the low 24 bits of the destination; all other bits are zero |
| Smmu.EntryTable.constructor | inc/x86_64/smmu.hpp:110-121 | a fresh table page is zero-filled |
| Smmu.EntryTable.Set | inc/x86_64/smmu.hpp:108 | only entry i changes; the high half is stored before the low half (which carries the present bit), then the line is cleaned |
| Smmu.Unit.WriteReg32 | inc/x86_64/smmu.hpp:222 | a 32-bit register write changes only that register and is logged |
| Smmu.Unit.WriteReg64 | inc/x86_64/smmu.hpp:223 | a 64-bit register write changes only that register and is logged |
| Smmu.Unit.ReadFault | inc/x86_64/smmu.hpp:227-232 | returns the record's two halves and clears it by writing BIT64(63) to FRO+16·frr+8, the only write |
| Smmu.Unit.Command | inc/x86_64/smmu.hpp:235-246 | writes GCMD from the masked status, then polls until GSTS shows the bit |
| Smmu.Unit.QiSubmit | inc/x86_64/smmu.hpp:249-254 | only slot invq_idx of the queue changes; the index advances modulo cnt and IQT is written with index<<4 |
| Smmu.Unit.QiWait | inc/x86_64/smmu.hpp:257-260 | waits until IQH equals the IQT value read on entry |
| Smmu.Unit.InvalidateCtx | inc/x86_64/smmu.hpp:263-277 | with queued invalidation: a context descriptor, then an IOTLB descriptor, then a wait for IQH == IQT; without it: CCMD, then a poll for busy to clear, then IOTLB, then a poll for busy to clear |
| Smmu.Unit.RegisterInvalidate | inc/x86_64/smmu.hpp:270-275 | writes the command register and polls until its busy bit 63 is clear |
| Smmu.Unit.InvalidateIec | inc/x86_64/smmu.hpp:280-286 | queues one interrupt-entry-cache descriptor and waits for the queue to drain |
| SmmuUnits.IndexOfBase | inc/x86_64/smmu.hpp:331-338 | the position of the first unit with the given register base, with no match before it |
| SmmuUnits.Units.constructor | inc/x86_64/smmu.hpp:160-162 | no units, and fresh context and remapping tables of 256 entries |
| SmmuUnits.Units.Lookup | inc/x86_64/smmu.hpp:331-338 | returns the first listed unit whose base is p, or null exactly when none has it |
| SmmuUnits.Units.SetIrt | inc/x86_64/smmu.hpp:320-329 | does nothing when remapping is off; otherwise writes entry i (hi = BIT(18)\|rid, lo = aid<<40\|vec<<16\|trg<<4\|1) and invalidates every unit's interrupt entry cache |
| SmmuUnits.Units.InvalidateIecAll | inc/x86_64/smmu.hpp:327-328 | every listed unit has queued and completed exactly one interrupt-entry-cache invalidation |
| SpaceGst.NumIsTableFanOut | inc/x86_64/space_gst.hpp:39 | num = 2^(lev·bpl) is the fan-out 2^bpl of each table raised to the number of levels |
| SpaceGst.NumFits | inc/x86_64/space_gst.hpp:39 | num is positive and fits in 64 bits |
| SpaceGst.AllCpus | inc/x86_64/space_gst.hpp:62 | the set holds exactly processors 0..n-1 |
| SpaceGst.SpaceGst.constructor | inc/x86_64/space_gst.hpp:34 | a new space has no stale processor and has issued nothing |
| SpaceGst.SpaceGst.Create | inc/x86_64/space_gst.hpp:41-56 | null with INS_MEM and nothing left allocated when the slab or the root allocation fails; otherwise one object more, status untouched, root initialised without fill |
| SpaceGst.SpaceGst.Destroy | inc/x86_64/space_gst.hpp:58 | the object goes back to the cache |
| SpaceGst.SpaceGst.Update | inc/x86_64/space_gst.hpp:60 | passes the request to the page table and returns its answer |
| SpaceGst.SpaceGst.Sync | inc/x86_64/space_gst.hpp:62 | marks every processor stale, then requests a shootdown of that set |
| SpaceGst.SpaceGst.Invalidate | inc/x86_64/space_gst.hpp:64 | passes one invalidation to the page table; the root is unchanged |
| SpaceGst.SpaceGst.GetPhys | inc/x86_64/space_gst.hpp:66 | returns the root address and changes nothing |
| Sm.DnStep | inc/sm.hpp:55-68 | with units available: no enqueue, and the counter drops by one, or to 0 under zero; otherwise the caller is appended at the tail. The invariant (counter within 64 bits, no EC queued twice, counter > 0 ⇒ queue empty) is preserved |
| Sm.UpStep | inc/sm.hpp:82-104 | wakes the queue head exactly when someone waits; with nobody waiting, adds a unit unless the counter is 2^64-1 (then it fails and changes nothing); preserves the invariant |
| Sm.TimeoutStep | inc/sm.hpp:108-119 | a non-blocked EC changes nothing; for a blocked one the counter is kept and the queue becomes the old queue without that EC, the others in their order; preserves the invariant |
| Sm.TimeoutSplices | inc/sm.hpp:108-119 | the EC at position k is cut out of the queue: the waiters before and after it stay in place |
| Sm.UpWakesInQueueOrder | inc/sm.hpp:88-99 | as many ups as there are waiters wake every waiter in queue order |
| Sm.DnQueuesInArrivalOrder | inc/sm.hpp:64-67 | with no units, callers of dn queue up in arrival order |
| Sm.WokenInArrivalOrder | inc/sm.hpp:55-105 | ECs that block on an empty semaphore are woken in the order they arrived |
| Sm.Sm.constructor | inc/sm.hpp:36 | a semaphore starts with its count and an empty queue |
| Sm.Sm.Create | inc/sm.hpp:39-47 | a failed allocation returns null and sets INS_MEM; success leaves the status alone |
| Sm.Sm.Dn | inc/sm.hpp:55-68 | the state follows DnStep, and the caller is blocked exactly when no unit was available |
| Sm.Sm.Up | inc/sm.hpp:82-104 | the state follows UpStep; the woken head is unblocked with SUCCESS and every other waiter stays blocked |
| Sm.Sm.Timeout | inc/sm.hpp:108-122 | the state follows TimeoutStep; an EC that was blocked resumes with TIMEOUT |
| Consoles.OutcAll | inc/console.hpp:54-58 | one output call per console, in list order |
| Consoles.FiniAll | inc/console.hpp:94-99 | one fini call per console, in list order |
| Consoles.KeptMembers | inc/console.hpp:94-99 | exactly the consoles whose fini answers false are kept |
| Consoles.LinkedNoRepeat | inc/console.hpp:47-49 | a null-terminated chain never visits a console twice |
| Consoles.Registry.ValidDistinct | inc/console.hpp:47-49 | the registered consoles are distinct |
| Consoles.Registry.constructor | inc/console.hpp:49 | the list starts empty |
| Consoles.Registry.Putc | inc/console.hpp:54-58 | outc(c) is called once per listed console, in list order; the list is unchanged |
| Consoles.Registry.Seek | inc/console.hpp:81-82 | the cursor stops at the first cell that is empty or holds the target, and skips no earlier match |
| Consoles.Registry.Enable | inc/console.hpp:71-76 | the console is appended at the tail and the earlier order is kept |
| Consoles.Registry.Disable | inc/console.hpp:79-85 | the console is removed and the others keep their order; an unlisted console leaves the list as it is |
| Consoles.Registry.Unlink | inc/console.hpp:83-84 | splicing the cell removes exactly the k-th console |
| Consoles.Registry.FiniOne | inc/console.hpp:97-98 | fini is called on the console, which is unlinked exactly when fini answers true |
| Consoles.Registry.Flush | inc/console.hpp:94-99 | fini is called once on every console listed at the start, in order, and exactly those answering true are removed |
| ConsoleUartPio.UartPio.constructor | inc/x86_64/console_uart_pio.hpp:26-28 | no port is mapped at first |
| ConsoleUartPio.UartPio.Pmap | inc/x86_64/console_uart_pio.hpp:30-40 | nothing happens under nouart, with a port already mapped, or with p == 0; otherwise the port is set, the UART initialised once and the console appended to the registry |
| CpuX86.FindVendor | src/x86_64/cpu.cpp:147-154 | the vendor is the last table entry whose string leaf 0 reports; it is 0 exactly when no entry from index 1 upward matches |
| CpuX86.GenuineIntelWords | src/x86_64/cpu.cpp:149-151 | comparing the words in EBX, EDX, ECX order recognises "GenuineIntel" |
| CpuX86.LeavesWithinMax | src/x86_64/cpu.cpp:161-202 | the fall-through switch reads a leaf only when it is reported, except when the highest leaf is 0 |
| CpuX86.SignatureFields | src/x86_64/cpu.cpp:204-206 | stepping < 16, model < 256 and family ≤ 0xf + 0xff; the model's two nibbles are the model and extended model fields |
| CpuX86.SignatureRoundTrip | src/x86_64/cpu.cpp:204-206 | decoding an assembled signature gives the stepping, the model extended by the extended model, and the family plus the extended family |
| CpuX86.ThreadsPerPackage | src/x86_64/cpu.cpp:208 | the logical processor count is an 8-bit field |
| CpuX86.InitialApicId | src/x86_64/cpu.cpp:207 | the APIC identifier is an 8-bit field |
| CpuX86.FlushLineSize | src/x86_64/cpu.cpp:209 | the line size is a multiple of 8 below 2048 |
| CpuX86.CoresPerPackage | src/x86_64/cpu.cpp:200 | cores per package lie in 1..64 |
| CpuX86.CapacityBits | src/x86_64/cpu.cpp:170 | the capacity bitmask length field is below 32 |
| CpuX86.CosL3 | src/x86_64/cpu.cpp:171 | L3 classes of service lie in 1..128, as the inline comment says |
| CpuX86.Cos64 | src/x86_64/cpu.cpp:177 | L2 and bandwidth classes of service lie in 1..64, as the inline comments say |
| CpuX86.MbaDelay | src/x86_64/cpu.cpp:182 | the bandwidth throttling maximum lies in 1..4096 |
| CpuX86.CosLimits | src/x86_64/cpu.cpp:166-184 | each reported technology gets limits in range; unreported ones keep theirs; CDP is recorded exactly for levels reported with it |
| CpuX86.Cos.Read | src/x86_64/cpu.cpp:168-184 | the class-of-service statics become CosAfter of the old ones |
| CpuX86.FpuState.Read | src/x86_64/cpu.cpp:187-190 | XCR0 and XSS are the desired components that leaf 0xd subleaves 0 and 1 report |
| CpuX86.GuardedDiv | src/x86_64/cpu.cpp:164 | the quotient is 0 for a zero divisor and is the floor quotient otherwise |
| CpuX86.Bsr | src/x86_64/cpu.cpp:239 | the index of the highest set bit, and -1 for zero |
| CpuX86.IndexWidthIsLeast | src/x86_64/cpu.cpp:239-240 | for n ≥ 1, bsr(n-1)+1 is the least width that numbers n items |
| CpuX86.IndexWidthOfZero | src/x86_64/cpu.cpp:239 | for n = 0 the unsigned n-1 wraps and the width is 32 |
| CpuX86.DecomposeRecomposes | src/x86_64/cpu.cpp:242-244 | thread < 2^t, core < 2^c, and package<<(t+c) \| core<<t \| thread equals the identifier |
| CpuX86.TopologyAsWrittenUndefined | src/x86_64/cpu.cpp:238-244 | tpp = 0 and cpp = 1 give a 32-bit shift, which is undefined |
| CpuX86.TopologyAsWrittenDividesByZero | src/x86_64/cpu.cpp:235-238 | the legacy core-count flag with tpp = 0 divides by zero |
| CpuX86.ThreadsPerCore | src/x86_64/cpu.cpp:238 | the corrected threads per core are at least 1 and equal tpp/cpp whenever that is at least 1 |
| CpuX86.TopologyAgrees | src/x86_64/cpu.cpp:238-244 | wherever the source's split is defined the corrected one gives the same fields |
| CpuX86.TopologyRecomposes | src/x86_64/cpu.cpp:238-244 | the corrected split recomposes to the identifier, and its widths hold the reported counts |
| CpuX86.PlatformRatio | src/x86_64/cpu.cpp:58 | the ratio is an 8-bit field |
| CpuX86.BusClockRounds | src/x86_64/cpu.cpp:57 | the bus clock is 100 MHz·m/d rounded down, and 0 for d = 0 |
| CpuX86.EnumerateClocks | src/x86_64/cpu.cpp:61-137 | the values change only on Intel family 6 with clk or rat unknown and a listed model; rat is either kept or read from PLATFORM_INFO |
| CpuX86.ClocksKept | src/x86_64/cpu.cpp:64-68 | nothing changes when both values are known, on another vendor or family, or on an unlisted model |
| CpuX86.ClocksBySource | src/x86_64/cpu.cpp:71-136 | crystal models set clk and keep rat; the other models take both values from the bus table entry and the platform MSR |
| CpuX86.ModelSources | src/x86_64/cpu.cpp:71-135 | the model cases: SKL-class 24 MHz, 0x5f 25 MHz, 0x5c 19.2 MHz, 100/133 MHz bus entries, FSB-selected entries, and the unlisted Atoms |
| CpuX86.HwpRequestFields | src/x86_64/cpu.cpp:298 | des<<16 \| max<<8 \| min decodes back to its three ratios and sets nothing above bit 23 |
| CpuX86.PerfCtlFields | src/x86_64/cpu.cpp:314 | the PERF_CTL write keeps every bit outside 32 and 15..8, sets the ratio, and sets bit 32 exactly when asked to disengage |
| CpuX86.SetupPstate | src/x86_64/cpu.cpp:281-317 | nothing happens unless the vendor is Intel with HWP or EIST; HWP is chosen exactly on Intel with HWP |
| CpuX86.SetupPstateHwp | src/x86_64/cpu.cpp:286-298 | the HWP request carries the desired ratio (nominal under noturbo, else highest), the highest and the lowest |
| CpuX86.SetupPstateEist | src/x86_64/cpu.cpp:302-314 | EIST sets MISC_ENABLE bit 16, and PERF_CTL keeps the read value outside the rewritten fields |
| CpuX86.SetupPstateEistRatio | src/x86_64/cpu.cpp:307-314 | the PERF_CTL ratio is the desired one, and turbo is disengaged exactly when it exists and noturbo is set |
| CpuX86.Cpu.constructor | src/x86_64/cpu.cpp:41-53 | the statics start zero with eight feature words |
| CpuX86.Cpu.ReadSignature | src/x86_64/cpu.cpp:203-209 | family, model, stepping and topology are leaf 1's; also returns tpp and the flush line size |
| CpuX86.Cpu.ReadLeaves | src/x86_64/cpu.cpp:161-203 | the feature words, class-of-service limits, FPU state and cores per package are those of the leaves the highest leaf reaches |
| CpuX86.Cpu.EnumerateFeatures | src/x86_64/cpu.cpp:139-252 | vendor, signature, feature words, limits, corrected topology split and clocks as the specification functions give them |
| CpuAarch64.DminLine | src/aarch64/cpu.cpp:46 | the data line field is 4 bits |
| CpuAarch64.IminLine | src/aarch64/cpu.cpp:46 | the instruction line field is 4 bits |
| CpuAarch64.LineBytesRange | src/aarch64/cpu.cpp:46 | 4 << field is a power of two from 4 bytes to 128 KiB |
| CpuAarch64.ConstrainRespectsReserved | src/aarch64/cpu.cpp:112-113 | the constrained value has no RES0 bit and every RES1 bit not also RES0; beyond those it has exactly the bits set by hyp1 and not cleared by hyp0 |
| CpuAarch64.TrapsRespectReserved | src/aarch64/cpu.cpp:89-113 | CPTR_EL2 and MDCR_EL2 have no RES0 control and every RES1 control that is not RES0 |
| CpuAarch64.CptrGates | src/aarch64/cpu.cpp:89-96 | TSM is RES1 iff SME < 1, TFP iff FP and AdvSIMD are both 15, TZ iff SVE < 1, TAM is RES0 iff AMU < 1 (or the fixed constants say so) |
| CpuAarch64.HcrE2hGate | src/aarch64/cpu.cpp:132 | HCR E2H is RES0 exactly when VH < 1 |
| CpuAarch64.HcrApiGate | src/aarch64/cpu.cpp:127-130 | API and APK are RES0 exactly when none of APA, API, GPA, GPI is implemented |
| CpuAarch64.HcrNvGate | src/aarch64/cpu.cpp:125-126 | NV2 is RES0 below NV level 2, NV below level 1 |
| CpuAarch64.MdcrGates | src/aarch64/cpu.cpp:104-105 | HPMN is RES0 iff PMUVer < 1, and HPMD iff PMUVer < 4 (or the fixed constant says so) |
| CpuAarch64.Implementer | src/aarch64/cpu.cpp:156 | the implementer is bits 31..24 |
| CpuAarch64.PartNum | src/aarch64/cpu.cpp:160 | the part number is bits 15..4 |
| CpuAarch64.Variant | src/aarch64/cpu.cpp:220 | the variant is bits 23..20 |
| CpuAarch64.Revision | src/aarch64/cpu.cpp:220 | the revision is bits 3..0 |
| CpuAarch64.MidrRoundTrip | src/aarch64/cpu.cpp:154-220 | each field decodes back from a MIDR assembled from it |
| CpuAarch64.UnknownNames | src/aarch64/cpu.cpp:154-216 | only Arm, NVIDIA and Qualcomm are named; other implementers' parts are "Unknown"; Arm, NVIDIA and Qualcomm parts are unknown exactly when unlisted |
| CpuAarch64.PackRoundTrip | src/aarch64/cpu.cpp:254-264 | both 32-bit halves of a packed slot are recovered |
| CpuAarch64.OnesBelow | src/aarch64/cpu.cpp:270 | BIT(n) - 1 has exactly the bits below n |
| CpuAarch64.ElrsrLowBits | src/aarch64/cpu.cpp:270 | the 32-bit ELRSR has exactly the bits of the implemented list registers |
| CpuAarch64.ReadIds | src/aarch64/cpu.cpp:48-84 | the ID register state keeps its register counts |
| CpuAarch64.ReadIdsKeeps | src/aarch64/cpu.cpp:48-84 | AArch32 registers are replaced exactly when EL1 supports AArch32; ID_PFR2, SME and SVE are never read; everything else always is |
| CpuAarch64.Cpu.ReadAarch64 | src/aarch64/cpu.cpp:43-57 | MIDR, MPIDR and the AArch64 ID registers take the values read |
| CpuAarch64.Cpu.ReadAarch32 | src/aarch64/cpu.cpp:61-84 | the AArch32 registers are read only for an AArch32-capable EL1; MVFR0..2 always |
| CpuAarch64.Cpu.ConstrainTraps | src/aarch64/cpu.cpp:89-134 | the trap configuration becomes TrapsOf(features, constants) |
| CpuAarch64.Cpu.EnumerateFeatures | src/aarch64/cpu.cpp:40-134 | ID state as ReadIds, the CTR_EL0 line sizes, xnx cleared exactly without FEAT_XNX and never set, and the trap configuration |
| CpuAarch64.Cpu.Init | src/aarch64/cpu.cpp:137-220 | on resume hazard is 0 and nothing is enumerated; otherwise hazard is BOOT_GST\|BOOT_HST, id and bsp are set and features enumerated; the names come from the MIDR |
| CpuAarch64.Cpu.SetVmmRegs | src/aarch64/cpu.cpp:246-271 | x becomes VmmSlots of its old content; VPIDR and VMPIDR are MIDR and MPIDR; ELRSR is BIT(num_lr) - 1 in 32 bits |
| CpuAarch64.Cpu.VmmSlots | src/aarch64/cpu.cpp:248-265 | the slot array keeps its 31 entries |
| CpuAarch64.Cpu.VmmSlotsRecover | src/aarch64/cpu.cpp:254-265 | every AArch32 ID register is recovered from its half of its slot; slots 12-15 and 25-28 keep their values |

## Left out

- Inline assembly (`mrs`, `msr`, `cpuid`, `Msr::read/write`):
  - Register values read are inputs.
  - Register writes and barriers (`dsb`, `tlbi`, `isb`) are recorded operations or new field values.
  - Their effect on the hardware is not modelled.
- Volatile MMIO of the VT-d unit:
  - The registers are maps from offset to value, with a log of writes and polls.
  - Each busy-wait loop is one poll event followed by the register value that ends it.
  - Hardware progress is assumed, so the loops have no termination proof.
- `Spinlock`/`Lock_guard` and concurrency in general. These are concurrency, not sequential state. Only the state changed under each lock is modelled.
- Scheduler and EC calls:
  - The semaphore keeps only whether an EC is blocked and the status it resumes with.
  - `Ec::block_sc/unblock_sc`, `set_timeout` and `Scheduler::schedule` are left out. They run after the lock is dropped, in the scheduler.
  - This includes dn's timeout argument.
- `Tlb::shootdown` is recorded as an event; what it does is outside this code.
- Allocation:
  - `Buddy::alloc` and `Slab_cache` are a success flag given as input, plus a count of live objects.
  - `Cache::data_clean` is a recorded clean of the entry.
- `Memattr::s2_attr` is not part of this model. `Npt.PageAttr` takes the 4-bit MemAttr value instead, so cacheability round-trips only through that value.
- `Paging::Permissions` is not part of this model. It is a set of flags, and the access permissions (API) are taken to be R, W, XU and XS.
- The page-table walker and `Eptp` (ptab_ept.hpp) are not part of this model. The guest space records the requests it passes on and returns the walker's answer.
- `Smmu` constructor, `init`, `init_all`, `fault_handler`, `configure` and `interrupt` are not part of this model. `invalidate_all` is an empty stub.
- Console internals: `vprintf`, `print`, `panic`, `print_num` and `print_str` are formatting. The drivers' `outc`, `init` and `fini` are virtual calls; the registry sees each call, and what `fini` answers.
- Consoles.Registry.Enable: it requires that the console is not listed and that its own link `next` is null.
  - Enabling a console a second time (when it is the tail, the walk links it to itself) is not modelled. It would make the list cyclic, and every later walk would never end.
  - Re-enabling a console after `disable` is not modelled either. `disable` (inc/console.hpp:79-85) never clears the console's `next`, so the console would rejoin the tail still pointing at its old successor. That gives a cycle or a console listed twice. The only caller shown, `pmap` (inc/x86_64/console_uart_pio.hpp:39), enables a console at most once.
- Command-line switches (`nouart`, `noturbo`) are parameters. The `nodl`/`nopcid` defeaturing (src/x86_64/cpu.cpp:246-250) is left out, because `defeature` is not part of this model.
- x86 `enumerate_features` reads that are only stored:
  - the BIOS_SIGN_ID and PLATFORM_ID MSRs, the patch level;
  - the extended leaves 0x80000000 and up (brand string, SVM version, feature words 6 and 7).
  - The CMP_LEGACY flag is an input. `Cache::init` receives the returned flush line size.
- The vendor enumeration is taken to be the index into the vendor string table, with 0 unknown and 1 Intel. cpu.hpp is not part of this model.
- `bit_scan_reverse(0)` is taken to be -1. bits.hpp is not part of this model.
- CpuX86.BusClock: only the quotient is truncated to 32 bits. The width of the bus table's fields is not part of this model, so the model cannot tell whether `100'000'000 * m` overflows before the division.
- AArch64 feature fields are an input function from feature to value, because their positions in the ID registers (cpu.hpp) are not part of this model. The fixed RES1/RES0 constants and the hypervisor's hyp1/hyp0 values are inputs too.
- AArch64 `constrain_hcr` and the `hcr` output of `set_vmm_regs` are not part of this model; only the reserved HCR_EL2 controls are computed.
- AArch64 `init` steps left out:
  - the constructor loop;
  - `Hptp::current().root_addr()`;
  - the GIC, timer, `Nptp::init`, `Vmcb::init` and boot-lock calls;
  - the trace line.
  - The translation-root reset is modelled by `Npt.Nptp.Init`.
- Cpu `fini` (AArch64), `setup_msr` and `init` (x86) are left out. They are sequences of calls into other parts of the kernel.

## Findings

| source | as written | input that shows it | evidently intended | confidence | as-written member | corrected member |
|---|---|---|---|---|---|---|
| src/x86_64/cpu.cpp:238-244 | `tpc = tpp / cpp`, then `t_bits = bsr(tpc - 1) + 1` and `1u << t_bits` | leaf 1 reports fewer logical processors than leaf 4 reports cores (tpp = 0, cpp = 1): tpc = 0, tpc - 1 wraps, t_bits = 32, and the 32-bit shift is undefined | at least one thread per core, giving a zero-width thread field | not executed | CpuX86.TopologyAsWrittenUndefined | CpuX86.TopologyRecomposes |
| src/x86_64/cpu.cpp:235-238 | under CMP_LEGACY, `cpp = tpp`, then `tpp / cpp` | CMP_LEGACY set with tpp = 0: division by zero | at least one core per package | not executed | CpuX86.TopologyAsWrittenDividesByZero | CpuX86.TopologyAgrees |
