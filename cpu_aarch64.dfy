/** Feature enumeration and trap configuration of an AArch64 processor:
    which EL2 trap controls are reserved on this processor, the identity
    registers a virtual machine monitor sees, and the name of the core. ID
    register contents are inputs; the field positions of individual
    features within them are given as the feature values themselves. */
module CpuAarch64 {
  import opened Common

  // ---------------------------------------------------------------------
  // Cache line sizes

  /** CTR_EL0: log2 of the smallest data cache line in words (bits 19..16)
      and of the smallest instruction cache line (bits 3..0). */
  function DminLine(ctr: u64): (n: nat)
    ensures n < 16
  {
    (ctr as int / 0x1_0000) % 0x10
  }

  function IminLine(ctr: u64): (n: nat)
    ensures n < 16
  {
    ctr as int % 0x10
  }

  /** A line of 2^field words, in bytes: 4 << field. */
  function LineBytes(field: nat): nat
  {
    4 * Pow2(field)
  }

  /** Every line size the CTR_EL0 fields can encode is a power of two from
      one word (4 bytes) to 2^15 words. */
  lemma {:induction false} LineBytesRange(field: nat)
    requires field < 16
    ensures LineBytes(field) == Pow2(field + 2)
    ensures 4 <= LineBytes(field) <= 0x2_0000
  {
    Pow2Add(2, field);
    Pow2Monotone(field + 1, 16);
    Pow2Sixteen();
  }

  // ---------------------------------------------------------------------
  // Reserved trap controls

  /** The ID register features the trap set-up consults. */
  datatype Feature =
    | El1 | Sme | Fp | AdvSimd | Sve | Amu | Mte | Csv2 | Rme | Ras          // processor
    | PmsVer | PmuVer | Mtpmu | TraceBuffer | TraceFilt                     // debug
    | Fgt | Twed | Evt | Fwb | Nv | Lo | Vh | Xnx                           // memory model
    | Apa | Api | Gpa | Gpi | Tlb | Dpb                                     // instruction set

  /** The control bits and fields of CPTR_EL2, MDCR_EL2 and HCR_EL2 that
      depend on a feature; any other bit of a register is named by its
      position. A register value is the set of its bits that are one. */
  datatype Ctl =
    | CptrTsm | CptrTfp | CptrTz | CptrTam
    | MdcrHpmfzs | MdcrTpms | MdcrE2pb | MdcrHpmfzo | MdcrHlp | MdcrHccd | MdcrHpmd
    | MdcrHpme | MdcrTpm | MdcrTpmcr | MdcrHpmn | MdcrMtpme | MdcrTdcc | MdcrE2tb | MdcrTtrf
    | HcrTwedel | HcrTwedEn | HcrTid5 | HcrDct | HcrAta | HcrTtlbos | HcrTtlbis | HcrTocu
    | HcrTicab | HcrTid4 | HcrEnScxt | HcrAmvoffEn | HcrGpf | HcrFien | HcrTea | HcrTerr
    | HcrFwb | HcrNv2 | HcrAt | HcrNv1 | HcrNv | HcrApi | HcrApk | HcrTlor | HcrE2h
    | HcrTtlb | HcrTpcp
    | Fixed(pos: nat)

  /** Whether the processor implements what a control needs; a control
      whose feature is missing is reserved. */
  predicate Supported(f: Feature -> nat, c: Ctl)
  {
    match c
    case CptrTsm => f(Sme) >= 1
    case CptrTfp => f(Fp) != 15 || f(AdvSimd) != 15     // 15: not implemented
    case CptrTz => f(Sve) >= 1
    case CptrTam => f(Amu) >= 1
    case MdcrHpmfzs => f(PmsVer) >= 3
    case MdcrTpms | MdcrE2pb => f(PmsVer) >= 2
    case MdcrHpmfzo => f(PmuVer) >= 7
    case MdcrHlp | MdcrHccd => f(PmuVer) >= 6
    case MdcrHpmd => f(PmuVer) >= 4
    case MdcrHpme | MdcrTpm | MdcrTpmcr | MdcrHpmn => f(PmuVer) >= 1
    case MdcrMtpme => f(Mtpmu) >= 1
    case MdcrTdcc => f(Fgt) >= 1
    case MdcrE2tb => f(TraceBuffer) >= 1
    case MdcrTtrf => f(TraceFilt) >= 1
    case HcrTwedel | HcrTwedEn => f(Twed) >= 1
    case HcrTid5 | HcrDct | HcrAta => f(Mte) >= 2
    case HcrTtlbos | HcrTtlbis => f(Evt) >= 2
    case HcrTocu | HcrTicab | HcrTid4 => f(Evt) >= 1
    case HcrEnScxt => f(Csv2) >= 2
    case HcrAmvoffEn => f(Amu) >= 2
    case HcrGpf => f(Rme) >= 1
    case HcrFien => f(Ras) >= 2
    case HcrTea | HcrTerr => f(Ras) >= 1
    case HcrFwb => f(Fwb) >= 1
    case HcrNv2 => f(Nv) >= 2
    case HcrAt | HcrNv1 | HcrNv => f(Nv) >= 1
    case HcrApi | HcrApk => f(Apa) >= 1 || f(Api) >= 1 || f(Gpa) >= 1 || f(Gpi) >= 1
    case HcrTlor => f(Lo) >= 1
    case HcrE2h => f(Vh) >= 1
    case HcrTtlb => f(Tlb) >= 1
    case HcrTpcp => f(Dpb) >= 1
    case Fixed(_) => true
  }

  /** The controls of each register that are gated on a feature: the
      CPTR_EL2 traps that become RES1 and RES0, and the MDCR_EL2 and
      HCR_EL2 controls that become RES0, without it. */
  const CPTR_RES1_GATED: set<Ctl> := {CptrTsm, CptrTfp, CptrTz}
  const CPTR_RES0_GATED: set<Ctl> := {CptrTam}
  const MDCR_RES0_GATED: set<Ctl> :=
    {MdcrHpmfzs, MdcrTpms, MdcrE2pb, MdcrHpmfzo, MdcrHlp, MdcrHccd, MdcrHpmd,
     MdcrHpme, MdcrTpm, MdcrTpmcr, MdcrHpmn, MdcrMtpme, MdcrTdcc, MdcrE2tb, MdcrTtrf}
  const HCR_RES0_GATED: set<Ctl> :=
    {HcrTwedel, HcrTwedEn, HcrTid5, HcrDct, HcrAta, HcrTtlbos, HcrTtlbis, HcrTocu,
     HcrTicab, HcrTid4, HcrEnScxt, HcrAmvoffEn, HcrGpf, HcrFien, HcrTea, HcrTerr,
     HcrFwb, HcrNv2, HcrAt, HcrNv1, HcrNv, HcrApi, HcrApk, HcrTlor, HcrE2h,
     HcrTtlb, HcrTpcp}

  /** The gated controls among `gated` the processor does not support. */
  function Unsupported(f: Feature -> nat, gated: set<Ctl>): set<Ctl>
  {
    set c | c in gated && !Supported(f, c)
  }

  /** The register constants: the controls the hypervisor wants set
      (hyp1) and clear (hyp0), and the architecturally fixed RES1 and RES0
      bits of CPTR_EL2 and MDCR_EL2. */
  datatype Constants = Constants(hyp1Cptr: set<Ctl>, hyp0Cptr: set<Ctl>, cptrRes1: set<Ctl>, cptrRes0: set<Ctl>,
                                 hyp1Mdcr: set<Ctl>, hyp0Mdcr: set<Ctl>, mdcrRes1: set<Ctl>, mdcrRes0: set<Ctl>)

  /** ((hyp1 & ~hyp0) | res1) & ~res0 */
  function Constrain(hyp1: set<Ctl>, hyp0: set<Ctl>, res1: set<Ctl>, res0: set<Ctl>): set<Ctl>
  {
    ((hyp1 - hyp0) + res1) - res0
  }

  /** A constrained value has no RES0 bit, every RES1 bit that is not also
      RES0, and otherwise exactly the bits the hypervisor sets and does not
      clear. */
  lemma ConstrainRespectsReserved(hyp1: set<Ctl>, hyp0: set<Ctl>, res1: set<Ctl>, res0: set<Ctl>)
    ensures var r := Constrain(hyp1, hyp0, res1, res0);
      && r * res0 == {}
      && res1 - res0 <= r
      && r - res1 == hyp1 - hyp0 - res1 - res0
  {
  }

  /** The CPTR_EL2 controls that are RES1 on this processor: the gated
      traps it lacks the feature for, and the fixed RES1 bits. */
  function Res1Cptr(f: Feature -> nat, k: Constants): set<Ctl>
  {
    Unsupported(f, CPTR_RES1_GATED) + k.cptrRes1
  }

  /** The CPTR_EL2 controls that are RES0 on this processor. */
  function Res0Cptr(f: Feature -> nat, k: Constants): set<Ctl>
  {
    Unsupported(f, CPTR_RES0_GATED) + k.cptrRes0
  }

  /** The MDCR_EL2 controls that are RES0 on this processor. */
  function Res0Mdcr(f: Feature -> nat, k: Constants): set<Ctl>
  {
    Unsupported(f, MDCR_RES0_GATED) + k.mdcrRes0
  }

  /** The HCR_EL2 controls that are RES0 on this processor. */
  function Res0Hcr(f: Feature -> nat): set<Ctl>
  {
    Unsupported(f, HCR_RES0_GATED)
  }

  /** The CPTR_EL2 the processor runs guests with. */
  function Cptr(f: Feature -> nat, k: Constants): set<Ctl>
  {
    Constrain(k.hyp1Cptr, k.hyp0Cptr, Res1Cptr(f, k), Res0Cptr(f, k))
  }

  /** The MDCR_EL2 the processor runs guests with. */
  function Mdcr(f: Feature -> nat, k: Constants): set<Ctl>
  {
    Constrain(k.hyp1Mdcr, k.hyp0Mdcr, k.mdcrRes1, Res0Mdcr(f, k))
  }

  /** The trap configuration enumerate_features works out: CPTR_EL2,
      MDCR_EL2 and the HCR_EL2 controls reserved as zero. */
  datatype Traps = Traps(cptr: set<Ctl>, mdcr: set<Ctl>, res0Hcr: set<Ctl>)

  function TrapsOf(f: Feature -> nat, k: Constants): Traps
  {
    Traps(Cptr(f, k), Mdcr(f, k), Res0Hcr(f))
  }

  /** CPTR_EL2 and MDCR_EL2 never carry a control that is reserved as zero
      on this processor, and carry every control reserved as one that is
      not also reserved as zero. */
  lemma TrapsRespectReserved(f: Feature -> nat, k: Constants)
    ensures Cptr(f, k) * Res0Cptr(f, k) == {} && Res1Cptr(f, k) - Res0Cptr(f, k) <= Cptr(f, k)
    ensures Mdcr(f, k) * Res0Mdcr(f, k) == {} && k.mdcrRes1 - Res0Mdcr(f, k) <= Mdcr(f, k)
  {
    ConstrainRespectsReserved(k.hyp1Cptr, k.hyp0Cptr, Res1Cptr(f, k), Res0Cptr(f, k));
    ConstrainRespectsReserved(k.hyp1Mdcr, k.hyp0Mdcr, k.mdcrRes1, Res0Mdcr(f, k));
  }

  /** Each gated control is reserved exactly below its feature level (or
      when the fixed constant reserves it anyway): SME traps are RES1
      without SME, FP traps without full FP and SIMD, activity monitor
      traps RES0 without activity monitors, and so on. */
  lemma CptrGates(f: Feature -> nat, k: Constants)
    ensures CptrTsm in Res1Cptr(f, k) <==> f(Sme) < 1 || CptrTsm in k.cptrRes1
    ensures CptrTfp in Res1Cptr(f, k) <==> (f(Fp) == 15 && f(AdvSimd) == 15) || CptrTfp in k.cptrRes1
    ensures CptrTz in Res1Cptr(f, k) <==> f(Sve) < 1 || CptrTz in k.cptrRes1
    ensures CptrTam in Res0Cptr(f, k) <==> f(Amu) < 1 || CptrTam in k.cptrRes0
  {
  }

  /** E2H is RES0 in HCR_EL2 exactly without the virtualization host
      extensions. */
  lemma HcrE2hGate(f: Feature -> nat)
    ensures HcrE2h in Res0Hcr(f) <==> f(Vh) < 1
  {
  }

  /** The address authentication (PAuth) traps are RES0 exactly when none of the
      four authentication algorithms is implemented. */
  lemma HcrApiGate(f: Feature -> nat)
    ensures HcrApi in Res0Hcr(f) <==> f(Apa) < 1 && f(Api) < 1 && f(Gpa) < 1 && f(Gpi) < 1
    ensures HcrApk in Res0Hcr(f) <==> HcrApi in Res0Hcr(f)
  {
  }

  /** NV2 is RES0 below nested virtualization level 2, the other nested
      virtualization controls below level 1. */
  lemma HcrNvGate(f: Feature -> nat)
    ensures HcrNv2 in Res0Hcr(f) <==> f(Nv) < 2
    ensures HcrNv in Res0Hcr(f) <==> f(Nv) < 1
  {
  }

  /** The MDCR_EL2 performance monitor controls are RES0 exactly without a
      performance monitor, HPMD below version 4. */
  lemma MdcrGates(f: Feature -> nat, k: Constants)
    ensures MdcrHpmn in Res0Mdcr(f, k) <==> f(PmuVer) < 1 || MdcrHpmn in k.mdcrRes0
    ensures MdcrHpmd in Res0Mdcr(f, k) <==> f(PmuVer) < 4 || MdcrHpmd in k.mdcrRes0
  {
  }

  // ---------------------------------------------------------------------
  // Main ID register

  /** MIDR_EL1 fields: implementer (31..24), variant (23..20), architecture
      (19..16), part number (15..4), revision (3..0). */
  function Implementer(midr: u64): (n: nat)
    ensures n < 0x100
  {
    (midr as int / 0x100_0000) % 0x100
  }

  function Variant(midr: u64): (n: nat)
    ensures n < 0x10
  {
    (midr as int / 0x10_0000) % 0x10
  }

  function PartNum(midr: u64): (n: nat)
    ensures n < 0x1000
  {
    (midr as int / 0x10) % 0x1000
  }

  function Revision(midr: u64): (n: nat)
    ensures n < 0x10
  {
    midr as int % 0x10
  }

  /** The MIDR_EL1 value with the given fields. */
  function Midr(implementer: nat, variant: nat, arch: nat, part: nat, revision: nat): int
  {
    revision + 0x10 * part + 0x1_0000 * arch + 0x10_0000 * variant + 0x100_0000 * implementer
  }

  /** Each field decodes back from a MIDR_EL1 assembled from it. */
  lemma {:induction false} MidrRoundTrip(implementer: nat, variant: nat, arch: nat, part: nat, revision: nat)
    requires implementer < 0x100 && variant < 0x10 && arch < 0x10 && part < 0x1000 && revision < 0x10
    ensures var m := Midr(implementer, variant, arch, part, revision);
      && 0 <= m < 0x1_0000_0000
      && Implementer(m as u64) == implementer && Variant(m as u64) == variant
      && PartNum(m as u64) == part && Revision(m as u64) == revision
  {
    var m := Midr(implementer, variant, arch, part, revision);
    DivLow(revision, 0x10, part + 0x1000 * arch + 0x1_0000 * variant + 0x10_0000 * implementer);
    DivLow(part, 0x1000, arch + 0x10 * variant + 0x100 * implementer);
    DivLow(revision + 0x10 * part + 0x1_0000 * arch, 0x10_0000, variant + 0x10 * implementer);
    DivLow(variant, 0x10, implementer);
    DivLow(revision + 0x10 * part + 0x1_0000 * arch + 0x10_0000 * variant, 0x100_0000, implementer);
    assert (implementer + 0x100 * 0) % 0x100 == implementer;
  }

  /** The implementer's name. */
  function ImplementerName(implementer: nat): string
  {
    match implementer
    case 0x41 => "ARM Limited"
    case 0x4e => "NVIDIA Corporation"
    case 0x51 => "Qualcomm Inc."
    case _ => "Unknown"
  }

  function ArmPart(part: nat): string
  {
    match part
    case 0xd02 => "Cortex-A34 (Metis)"
    case 0xd03 => "Cortex-A53 (Apollo)"
    case 0xd04 => "Cortex-A35 (Mercury)"
    case 0xd05 => "Cortex-A55 (Ananke)"
    case 0xd06 => "Cortex-A65 (Helios)"
    case 0xd07 => "Cortex-A57 (Atlas)"
    case 0xd08 => "Cortex-A72 (Maia)"
    case 0xd09 => "Cortex-A73 (Artemis)"
    case 0xd0a => "Cortex-A75 (Prometheus)"
    case 0xd0b => "Cortex-A76 (Enyo)"
    case 0xd0c => "Neoverse N1 (Ares)"
    case 0xd0d => "Cortex-A77 (Deimos)"
    case 0xd0e => "Cortex-A76AE (Enyo-AE)"
    case 0xd40 => "Neoverse V1 (Zeus)"
    case 0xd41 => "Cortex-A78 (Hercules)"
    case 0xd42 => "Cortex-A78AE (Hercules-AE)"
    case 0xd43 => "Cortex-A65AE (Helios-AE)"
    case 0xd44 => "Cortex-X1 (Hera)"
    case 0xd46 => "Cortex-A510 (Klein)"
    case 0xd47 => "Cortex-A710 (Matterhorn)"
    case 0xd48 => "Cortex-X2 (Matterhorn ELP)"
    case 0xd49 => "Neoverse N2 (Perseus)"
    case 0xd4a => "Neoverse E1 (Helios)"
    case 0xd4b => "Cortex-A78C (Hercules-C)"
    case 0xd4c => "Cortex-X1C (Hera-C)"
    case 0xd4d => "Cortex-A715 (Makalu)"
    case 0xd4e => "Cortex-X3 (Makalu ELP)"
    case 0xd4f => "Neoverse (Demeter)"
    case 0xd80 => "Cortex (Hayes)"
    case 0xd81 => "Cortex (Hunter)"
    case 0xd83 => "Neoverse (Poseidon)"
    case _ => "Unknown"
  }

  function NvidiaPart(part: nat): string
  {
    match part
    case 0x003 => "Denver"
    case 0x004 => "Carmel"
    case _ => "Unknown"
  }

  function QualcommPart(part: nat): string
  {
    match part
    case 0x800 => "Kryo 2xx Gold"
    case 0x801 => "Kryo 2xx Silver"
    case 0x802 => "Kryo 3xx Gold"
    case 0x803 => "Kryo 3xx Silver"
    case 0x804 => "Kryo 4xx Gold"
    case 0x805 => "Kryo 4xx Silver"
    case 0xc00 => "Falkor"
    case 0xc01 => "Saphira"
    case _ => "Unknown"
  }

  /** The part's name, looked up in the implementer's own list. */
  function PartName(implementer: nat, part: nat): string
  {
    match implementer
    case 0x41 => ArmPart(part)
    case 0x4e => NvidiaPart(part)
    case 0x51 => QualcommPart(part)
    case _ => "Unknown"
  }

  /** Only the three listed implementers have a name, a part of another
      implementer is always unknown, and within the lists a part is unknown
      exactly when it is not listed. */
  lemma UnknownNames(implementer: nat, part: nat)
    ensures ImplementerName(implementer) == "Unknown" <==> implementer !in {0x41, 0x4e, 0x51}
    ensures ImplementerName(implementer) == "Unknown" ==> PartName(implementer, part) == "Unknown"
    ensures implementer == 0x41 ==>
      (PartName(implementer, part) == "Unknown" <==>
         part !in {0xd02, 0xd03, 0xd04, 0xd05, 0xd06, 0xd07, 0xd08, 0xd09, 0xd0a, 0xd0b, 0xd0c, 0xd0d, 0xd0e,
                   0xd40, 0xd41, 0xd42, 0xd43, 0xd44, 0xd46, 0xd47, 0xd48, 0xd49, 0xd4a, 0xd4b, 0xd4c, 0xd4d,
                   0xd4e, 0xd4f, 0xd80, 0xd81, 0xd83})
    ensures implementer == 0x4e ==> (PartName(implementer, part) == "Unknown" <==> part !in {0x003, 0x004})
    ensures implementer == 0x51 ==>
      (PartName(implementer, part) == "Unknown" <==> part !in {0x800, 0x801, 0x802, 0x803, 0x804, 0x805, 0xc00, 0xc01})
  {
  }

  // ---------------------------------------------------------------------
  // Virtual machine monitor registers

  /** Two 32-bit registers in one 64-bit slot: hi << 32 | lo. */
  function Pack(hi: u32, lo: u32): u64
  {
    (hi as int * 0x1_0000_0000 + lo as int) as u64
  }

  function High(v: u64): u32
  {
    (v as int / 0x1_0000_0000) as u32
  }

  function Low(v: u64): u32
  {
    (v as int % 0x1_0000_0000) as u32
  }

  /** Both halves of a packed slot are recovered. */
  lemma PackRoundTrip(hi: u32, lo: u32)
    ensures High(Pack(hi, lo)) == hi && Low(Pack(hi, lo)) == lo
  {
    DivLow(lo as nat, 0x1_0000_0000, hi as nat);
  }

  /** Bit i of x. */
  predicate LowBit(x: nat, i: nat)
  {
    if i == 0 then x % 2 == 1 else LowBit(x / 2, i - 1)
  }

  /** 2^n - 1 has exactly the bits below n. */
  lemma {:induction false} OnesBelow(n: nat, i: nat)
    ensures LowBit(Pow2(n) - 1, i) <==> i < n
  {
    if i > 0 {
      if n > 0 {
        assert (Pow2(n) - 1) / 2 == Pow2(n - 1) - 1;
        OnesBelow(n - 1, i - 1);
      } else {
        OnesBelow(0, i - 1);
      }
    }
  }

  /** The list registers that hold nothing: BIT (num_lr) - 1, in 32 bits. */
  function Elrsr(numLr: nat): nat
  {
    (Pow2(numLr) - 1) % 0x1_0000_0000
  }

  /** ELRSR has exactly the bits of the implemented list registers. */
  lemma {:induction false} ElrsrLowBits(numLr: nat, i: nat)
    requires i < 32
    ensures LowBit(Elrsr(numLr), i) <==> i < numLr
  {
    Pow2ThirtyTwo();
    if numLr <= 32 {
      Pow2Monotone(numLr, 32);
      OnesBelow(numLr, i);
    } else {
      Pow2Add(32, numLr - 32);
      var hi := Pow2(numLr - 32) - 1;
      assert Pow2(numLr) - 1 == (Pow2(32) - 1) + 0x1_0000_0000 * hi;
      assert Elrsr(numLr) == Pow2(32) - 1;
      OnesBelow(32, i);
    }
  }

  // ---------------------------------------------------------------------
  // The processor statics

  /** The ID registers enumerate_features reads: CTR_EL0, MIDR_EL1,
      MPIDR_EL1, the AArch64 feature registers (processor, debug,
      instruction set and memory model), the AArch32 ones (ID_PFR0/1,
      ID_DFR0/1, ID_ISAR0..6, ID_MMFR0..5) and MVFR0..2. */
  datatype IdRegs = IdRegs(ctr: u64, midr: u64, mpidr: u64,
                           cpu64: seq<u64>, dbg64: seq<u64>, isa64: seq<u64>, mem64: seq<u64>,
                           cpu32: seq<u32>, dbg32: seq<u32>, isa32: seq<u32>, mem32: seq<u32>, mfp32: seq<u32>)
  {
    predicate WellFormed()
    {
      && |cpu64| == 2 && |dbg64| == 2 && |isa64| == 3 && |mem64| == 3
      && |cpu32| == 2 && |dbg32| == 2 && |isa32| == 7 && |mem32| == 6 && |mfp32| == 3
    }
  }

  /** The ID register statics enumerate_features fills. */
  datatype IdState = IdState(midr: u64, mpidr: u64,
                             cpu64: seq<u64>, dbg64: seq<u64>, isa64: seq<u64>, mem64: seq<u64>,
                             sme64: seq<u64>, sve64: seq<u64>,
                             cpu32: seq<u32>, dbg32: seq<u32>, isa32: seq<u32>, mem32: seq<u32>, mfp32: seq<u32>)
  {
    predicate WellFormed()
    {
      && |cpu64| == 2 && |dbg64| == 2 && |isa64| == 3 && |mem64| == 3 && |sme64| == 1 && |sve64| == 1
      && |cpu32| == 3 && |dbg32| == 2 && |isa32| == 7 && |mem32| == 6 && |mfp32| == 3
    }
  }

  /** The ID register statics after enumerate_features: the AArch64
      registers always (SME and SVE are not read), the AArch32 ones (but
      ID_PFR2) only when EL1 supports AArch32, the media and FP registers
      always. */
  function ReadIds(s: IdState, r: IdRegs, aa32: bool): (e: IdState)
    requires s.WellFormed() && r.WellFormed()
    ensures e.WellFormed()
  {
    IdState(r.midr, r.mpidr, r.cpu64, r.dbg64, r.isa64, r.mem64, s.sme64, s.sve64,
            if aa32 then r.cpu32 + [s.cpu32[2]] else s.cpu32,
            if aa32 then r.dbg32 else s.dbg32,
            if aa32 then r.isa32 else s.isa32,
            if aa32 then r.mem32 else s.mem32,
            r.mfp32)
  }

  /** The AArch32 registers are replaced exactly when EL1 supports AArch32,
      ID_PFR2 and the SME and SVE registers never, everything else always. */
  lemma ReadIdsKeeps(s: IdState, r: IdRegs, aa32: bool)
    requires s.WellFormed() && r.WellFormed()
    ensures var e := ReadIds(s, r, aa32);
      && e.cpu32[2] == s.cpu32[2] && e.sme64 == s.sme64 && e.sve64 == s.sve64
      && (aa32 ==> e.cpu32[..2] == r.cpu32 && e.dbg32 == r.dbg32 && e.isa32 == r.isa32 && e.mem32 == r.mem32)
      && (!aa32 ==> e.cpu32 == s.cpu32 && e.dbg32 == s.dbg32 && e.isa32 == s.isa32 && e.mem32 == s.mem32)
      && e.midr == r.midr && e.mpidr == r.mpidr && e.mfp32 == r.mfp32
      && e.cpu64 == r.cpu64 && e.dbg64 == r.dbg64 && e.isa64 == r.isa64 && e.mem64 == r.mem64
  {
  }

  /** The boot hazards init raises. */
  datatype Hazard = BootGst | BootHst

  /** The Cpu statics. */
  class Cpu {
    var id: nat
    var bsp: bool
    var hazard: set<Hazard>
    var midr: u64
    var mpidr: u64
    var cpu64: seq<u64>
    var dbg64: seq<u64>
    var isa64: seq<u64>
    var mem64: seq<u64>
    var sme64: seq<u64>
    var sve64: seq<u64>
    var cpu32: seq<u32>
    var dbg32: seq<u32>
    var isa32: seq<u32>
    var mem32: seq<u32>
    var mfp32: seq<u32>
    var traps: Traps

    /** The ID register statics. */
    function Ids(): IdState
      reads this`midr, this`mpidr, this`cpu64, this`dbg64, this`isa64, this`mem64, this`sme64, this`sve64
      reads this`cpu32, this`dbg32, this`isa32, this`mem32, this`mfp32
    {
      IdState(midr, mpidr, cpu64, dbg64, isa64, mem64, sme64, sve64, cpu32, dbg32, isa32, mem32, mfp32)
    }

    ghost predicate Valid()
      reads this`midr, this`mpidr, this`cpu64, this`dbg64, this`isa64, this`mem64, this`sme64, this`sve64
      reads this`cpu32, this`dbg32, this`isa32, this`mem32, this`mfp32
    {
      Ids().WellFormed()
    }

    /** The statics start out zero. */
    constructor ()
      ensures Valid() && hazard == {} && id == 0 && !bsp
      ensures Ids() == IdState(0, 0, [0, 0], [0, 0], [0, 0, 0], [0, 0, 0], [0], [0],
                               [0, 0, 0], [0, 0], [0, 0, 0, 0, 0, 0, 0], [0, 0, 0, 0, 0, 0], [0, 0, 0])
      ensures traps == Traps({}, {}, {})
    {
      id, bsp, hazard := 0, false, {};
      midr, mpidr := 0, 0;
      cpu64, dbg64, isa64, mem64, sme64, sve64 := [0, 0], [0, 0], [0, 0, 0], [0, 0, 0], [0], [0];
      cpu32, dbg32, isa32, mem32, mfp32 := [0, 0, 0], [0, 0], [0, 0, 0, 0, 0, 0, 0], [0, 0, 0, 0, 0, 0], [0, 0, 0];
      traps := Traps({}, {}, {});
    }

    /** The AArch64 ID register reads of enumerate_features. */
    method ReadAarch64(r: IdRegs)
      modifies this`midr, this`mpidr, this`cpu64, this`dbg64, this`isa64, this`mem64
      ensures midr == r.midr && mpidr == r.mpidr
      ensures cpu64 == r.cpu64 && dbg64 == r.dbg64 && isa64 == r.isa64 && mem64 == r.mem64
    {
      midr, mpidr := r.midr, r.mpidr;
      cpu64, dbg64, isa64, mem64 := r.cpu64, r.dbg64, r.isa64, r.mem64;
    }

    /** The AArch32 ID register reads of enumerate_features, made only when
        EL1 supports AArch32 (ID_PFR2 stays as it was), and the media and
        FP feature registers, always read. */
    method ReadAarch32(r: IdRegs, aa32: bool)
      requires |cpu32| == 3
      modifies this`cpu32, this`dbg32, this`isa32, this`mem32, this`mfp32
      ensures cpu32 == (if aa32 then r.cpu32 + [old(cpu32)[2]] else old(cpu32))
      ensures dbg32 == (if aa32 then r.dbg32 else old(dbg32))
      ensures isa32 == (if aa32 then r.isa32 else old(isa32))
      ensures mem32 == (if aa32 then r.mem32 else old(mem32))
      ensures mfp32 == r.mfp32
    {
      if aa32 {
        cpu32 := r.cpu32 + [cpu32[2]];
        dbg32, isa32, mem32 := r.dbg32, r.isa32, r.mem32;
      }
      mfp32 := r.mfp32;
    }

    /** The trap controls of enumerate_features. */
    method ConstrainTraps(f: Feature -> nat, k: Constants)
      modifies this`traps
      ensures traps == TrapsOf(f, k)
    {
      traps := Traps(Cptr(f, k), Mdcr(f, k), Res0Hcr(f));
    }

    /** enumerate_features: read the ID registers, pass the cache line
        sizes on (returned here as `dline` and `iline`), clear the
        split execute-never switch of the stage-2 tables (`xnx`, returned
        as its new value) when the processor lacks it, and work out the
        trap controls. */
    method EnumerateFeatures(r: IdRegs, f: Feature -> nat, k: Constants, xnx: bool)
      returns (dline: nat, iline: nat, xnx': bool)
      requires Valid() && r.WellFormed()
      modifies this`midr, this`mpidr, this`cpu64, this`dbg64, this`isa64, this`mem64
      modifies this`cpu32, this`dbg32, this`isa32, this`mem32, this`mfp32, this`traps
      ensures Valid() && Ids() == ReadIds(old(Ids()), r, f(El1) == 2)
      ensures traps == TrapsOf(f, k)
      ensures dline == LineBytes(DminLine(r.ctr)) && iline == LineBytes(IminLine(r.ctr))
      ensures xnx' == (xnx && f(Xnx) != 0)
    {
      ghost var ids := Ids();
      dline, iline := LineBytes(DminLine(r.ctr)), LineBytes(IminLine(r.ctr));
      ReadAarch64(r);
      ReadAarch32(r, f(El1) == 2);
      assert Valid() && Ids() == ReadIds(ids, r, f(El1) == 2);
      xnx' := xnx;
      if f(Xnx) == 0 {
        xnx' := false;
      }
      ConstrainTraps(f, k);
    }

    /** init, the part that sets the boot hazards and names the core: on
        resume the hazards are cleared and nothing is enumerated again;
        otherwise the processor records its number and whether it is the
        boot processor, raises both boot hazards and enumerates its
        features. The implementer and part names come from the MIDR either
        way. */
    method Init(resume: bool, cpu: nat, bootCpu: nat, r: IdRegs, f: Feature -> nat, k: Constants, xnx: bool)
      returns (impl: string, part: string, xnx': bool)
      requires Valid() && r.WellFormed()
      modifies this
      ensures Valid()
      ensures resume ==> && hazard == {} && id == old(id) && bsp == old(bsp) && xnx' == xnx
                         && Ids() == old(Ids()) && traps == old(traps)
      ensures !resume ==> && hazard == {BootGst, BootHst} && id == cpu && bsp == (cpu == bootCpu)
                          && Ids() == ReadIds(old(Ids()), r, f(El1) == 2) && xnx' == (xnx && f(Xnx) != 0)
                          && traps == TrapsOf(f, k)
      ensures impl == ImplementerName(Implementer(midr)) && part == PartName(Implementer(midr), PartNum(midr))
    {
      xnx' := xnx;
      if resume {
        hazard := {};
      } else {
        hazard := {BootGst, BootHst};
        id := cpu;
        bsp := cpu == bootCpu;
        var dline, iline;
        dline, iline, xnx' := EnumerateFeatures(r, f, k, xnx);
      }
      impl := ImplementerName(Implementer(midr));
      part := PartName(Implementer(midr), PartNum(midr));
    }

    /** set_vmm_regs: the ID register values a virtual machine monitor
        reads, 64-bit ones in slots 0..11, pairs of 32-bit ones in slots
        16..24 and 29, MVFR2 alone in slot 30; VPIDR and VMPIDR are the
        MIDR and MPIDR; ELRSR marks every implemented list register empty. */
    method SetVmmRegs(x: array<u64>, numLr: nat) returns (vpidr: u64, vmpidr: u64, elrsr: nat)
      requires Valid() && x.Length == 31
      modifies x
      ensures x[..] == VmmSlots(old(x[..]))
      ensures vpidr == midr && vmpidr == mpidr && elrsr == Elrsr(numLr)
    {
      x[0], x[1] := cpu64[0], cpu64[1];
      x[2], x[3] := dbg64[0], dbg64[1];
      x[4], x[5], x[6] := isa64[0], isa64[1], isa64[2];
      x[7], x[8], x[9] := mem64[0], mem64[1], mem64[2];
      x[10], x[11] := sme64[0], sve64[0];
      x[16] := Pack(cpu32[1], cpu32[0]);
      x[17] := Pack(dbg32[0], cpu32[2]);
      x[18] := Pack(isa32[0], dbg32[1]);
      x[19] := Pack(isa32[2], isa32[1]);
      x[20] := Pack(isa32[4], isa32[3]);
      x[21] := Pack(isa32[6], isa32[5]);
      x[22] := Pack(mem32[1], mem32[0]);
      x[23] := Pack(mem32[3], mem32[2]);
      x[24] := Pack(mem32[5], mem32[4]);
      x[29] := Pack(mfp32[1], mfp32[0]);
      x[30] := mfp32[2] as int as u64;
      vpidr, vmpidr := midr, mpidr;
      elrsr := Elrsr(numLr);
    }

    /** The slots set_vmm_regs fills, the others as they were. */
    function VmmSlots(s: seq<u64>): (r: seq<u64>)
      requires Valid() && |s| == 31
      reads this
      ensures |r| == 31
    {
      s[0 := cpu64[0]][1 := cpu64[1]][2 := dbg64[0]][3 := dbg64[1]]
       [4 := isa64[0]][5 := isa64[1]][6 := isa64[2]][7 := mem64[0]][8 := mem64[1]][9 := mem64[2]]
       [10 := sme64[0]][11 := sve64[0]]
       [16 := Pack(cpu32[1], cpu32[0])][17 := Pack(dbg32[0], cpu32[2])][18 := Pack(isa32[0], dbg32[1])]
       [19 := Pack(isa32[2], isa32[1])][20 := Pack(isa32[4], isa32[3])][21 := Pack(isa32[6], isa32[5])]
       [22 := Pack(mem32[1], mem32[0])][23 := Pack(mem32[3], mem32[2])][24 := Pack(mem32[5], mem32[4])]
       [29 := Pack(mfp32[1], mfp32[0])][30 := mfp32[2] as int as u64]
    }

    /** Every AArch32 register can be read back from its slot, and the
        slots set_vmm_regs does not fill keep their values. */
    lemma VmmSlotsRecover(s: seq<u64>)
      requires Valid() && |s| == 31
      ensures var r := VmmSlots(s);
        && Low(r[16]) == cpu32[0] && High(r[16]) == cpu32[1] && Low(r[17]) == cpu32[2]
        && High(r[17]) == dbg32[0] && Low(r[18]) == dbg32[1]
        && High(r[18]) == isa32[0] && Low(r[19]) == isa32[1] && High(r[19]) == isa32[2]
        && Low(r[20]) == isa32[3] && High(r[20]) == isa32[4] && Low(r[21]) == isa32[5] && High(r[21]) == isa32[6]
        && Low(r[22]) == mem32[0] && High(r[22]) == mem32[1] && Low(r[23]) == mem32[2]
        && High(r[23]) == mem32[3] && Low(r[24]) == mem32[4] && High(r[24]) == mem32[5]
        && Low(r[29]) == mfp32[0] && High(r[29]) == mfp32[1] && r[30] as int == mfp32[2] as int
        && forall i :: (12 <= i < 16 || 25 <= i < 29) ==> r[i] == s[i]
    {
      PackRoundTrip(cpu32[1], cpu32[0]);
      PackRoundTrip(dbg32[0], cpu32[2]);
      PackRoundTrip(isa32[0], dbg32[1]);
      PackRoundTrip(isa32[2], isa32[1]);
      PackRoundTrip(isa32[4], isa32[3]);
      PackRoundTrip(isa32[6], isa32[5]);
      PackRoundTrip(mem32[1], mem32[0]);
      PackRoundTrip(mem32[3], mem32[2]);
      PackRoundTrip(mem32[5], mem32[4]);
      PackRoundTrip(mfp32[1], mfp32[0]);
    }
  }
}
