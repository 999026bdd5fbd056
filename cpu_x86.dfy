/** Feature, topology and clock enumeration of an x86 processor, and the
    performance-state set-up that follows it. CPUID answers and model-specific
    register (MSR) contents are inputs; the decoding arithmetic on them is
    what is modelled. */
module CpuX86 {
  import opened Common

  /** The four registers a CPUID leaf answers with. */
  datatype Regs = Regs(eax: u32, ebx: u32, ecx: u32, edx: u32)

  // ---------------------------------------------------------------------
  // Vendor identification

  /** The vendor enumeration is the index into the table of vendor strings;
      index 0 stands for an unknown vendor, index 1 for Intel. */
  const UNKNOWN: nat := 0
  const INTEL: nat := 1

  /** The 32-bit little-endian word stored at s[off..off + 4]. */
  function Word(s: seq<u8>, off: nat): int
    requires off + 4 <= |s|
  {
    s[off] as int + 0x100 * s[off + 1] as int + 0x1_0000 * s[off + 2] as int + 0x100_0000 * s[off + 3] as int
  }

  /** CPUID leaf 0 spells the 12-character vendor string in EBX, EDX, ECX. */
  predicate Matches(name: seq<u8>, r: Regs)
    requires |name| >= 12
  {
    Word(name, 0) == r.ebx as int && Word(name, 4) == r.edx as int && Word(name, 8) == r.ecx as int
  }

  predicate WellFormedTable(table: seq<seq<u8>>)
  {
    |table| >= 1 && forall i :: 0 <= i < |table| ==> |table[i]| >= 12
  }

  /** Search the vendor table from its last entry down to entry 1; entry 0
      (unknown) is what remains when nothing matches. */
  method FindVendor(table: seq<seq<u8>>, r: Regs) returns (v: nat)
    requires WellFormedTable(table)
    ensures v < |table|
    ensures v > 0 ==> Matches(table[v], r)
    ensures forall i :: v < i < |table| ==> !Matches(table[i], r)
    ensures v == UNKNOWN <==> forall i :: 1 <= i < |table| ==> !Matches(table[i], r)
  {
    v := |table| - 1;
    while v != 0 && !Matches(table[v], r)
      invariant v < |table|
      invariant forall i :: v < i < |table| ==> !Matches(table[i], r)
      decreases v
    {
      v := v - 1;
    }
  }

  /** "GenuineIntel" as it is stored in memory. */
  const GENUINE_INTEL: seq<u8> := [0x47, 0x65, 0x6e, 0x75, 0x69, 0x6e, 0x65, 0x49, 0x6e, 0x74, 0x65, 0x6c]

  /** The byte order of the comparison is the one the Intel SDM documents for
      leaf 0 of a genuine Intel processor. */
  lemma GenuineIntelWords()
    ensures Matches(GENUINE_INTEL, Regs(0, 0x756e_6547, 0x6c65_746e, 0x4965_6e69))
  {
    assert Word(GENUINE_INTEL, 0) == 0x756e_6547;
    assert Word(GENUINE_INTEL, 4) == 0x4965_6e69;
    assert Word(GENUINE_INTEL, 8) == 0x6c65_746e;
  }

  // ---------------------------------------------------------------------
  // Which CPUID leaves are read

  /** The highest standard leaf is taken modulo 256; the case for leaves
      lo and up runs when that value is at least lo, and the default case
      (0, or 0x15 and above) runs every case. */
  predicate Runs(maxLeaf: nat, lo: nat)
  {
    var m := maxLeaf % 0x100;
    m == 0 || m >= lo
  }

  /** A leaf is only read when the processor reports it, unless it reports
      no standard leaf at all; for a highest leaf below 256 exactly the
      reported leaves are read. */
  lemma LeavesWithinMax(maxLeaf: nat, lo: nat)
    requires 1 <= lo <= 0xFF
    ensures maxLeaf != 0 && Runs(maxLeaf, lo) ==> lo <= maxLeaf
    ensures 1 <= maxLeaf <= 0xFF ==> (Runs(maxLeaf, lo) <==> lo <= maxLeaf)
    ensures maxLeaf == 0 ==> Runs(maxLeaf, lo)
  {
  }

  // ---------------------------------------------------------------------
  // Leaf 1: processor signature, topology identifier and cache line

  /** Family: base family (bits 11..8) plus extended family (bits 27..20). */
  function Family(eax: u32): nat
  {
    (eax as int / 0x100) % 0x10 + (eax as int / 0x10_0000) % 0x100
  }

  /** Model: model number (bits 7..4) below extended model (bits 19..16);
      a shift by 12 masked with 0xf0 moves bits 19..16 to 7..4. */
  function Model(eax: u32): nat
  {
    (eax as int / 0x10) % 0x10 + 0x10 * ((eax as int / 0x1_0000) % 0x10)
  }

  /** Stepping: bits 3..0. */
  function Stepping(eax: u32): nat
  {
    eax as int % 0x10
  }

  /** The signature word of the given fields. */
  function Signature(stepping: nat, model: nat, family: nat, extModel: nat, extFamily: nat): int
  {
    stepping + 0x10 * model + 0x100 * family + 0x1_0000 * extModel + 0x10_0000 * extFamily
  }

  /** The decoded values stay in their ranges (stepping below 16, model
      below 256, family at most 0xf + 0xff); the two halves of the model
      never overlap, so each model field can be read back from it. */
  lemma {:induction false} SignatureFields(eax: u32)
    ensures Stepping(eax) < 16 && Model(eax) < 256 && Family(eax) <= 270
    ensures Model(eax) % 0x10 == (eax as int / 0x10) % 0x10 && Model(eax) / 0x10 == (eax as int / 0x1_0000) % 0x10
  {
    NibbleSplit((eax as int / 0x10) % 0x10, (eax as int / 0x1_0000) % 0x10);
  }

  /** Decoding a signature assembled from its fields gives back the
      stepping, the model extended by the extended model and the family
      plus the extended family. */
  lemma {:induction false} SignatureRoundTrip(stepping: nat, model: nat, family: nat, extModel: nat, extFamily: nat)
    requires stepping < 0x10 && model < 0x10 && family < 0x10 && extModel < 0x10 && extFamily < 0x100
    ensures var eax := Signature(stepping, model, family, extModel, extFamily);
      && 0 <= eax < 0x1000_0000
      && Stepping(eax as u32) == stepping
      && Model(eax as u32) == model + 0x10 * extModel
      && Family(eax as u32) == family + extFamily
  {
    var eax := Signature(stepping, model, family, extModel, extFamily);
    NibbleSplit(stepping, model + 0x10 * family + 0x1000 * extModel + 0x1_0000 * extFamily);
    NibbleSplit(model, family + 0x100 * extModel + 0x1000 * extFamily);
    DivLow(stepping + 0x10 * model, 0x100, family + 0x100 * extModel + 0x1000 * extFamily);
    NibbleSplit(family, 0x10 * extModel + 0x100 * extFamily);
    DivLow(stepping + 0x10 * model + 0x100 * family, 0x1_0000, extModel + 0x10 * extFamily);
    NibbleSplit(extModel, extFamily);
    DivLow(stepping + 0x10 * model + 0x100 * family + 0x1_0000 * extModel, 0x10_0000, extFamily);
  }

  /** A number below 16 plus 16 times another splits back into the two. */
  lemma NibbleSplit(lo: nat, hi: nat)
    requires lo < 0x10
    ensures (lo + 0x10 * hi) % 0x10 == lo && (lo + 0x10 * hi) / 0x10 == hi
  {
  }

  /** Leaf 1: logical processors per package (bits 23..16 of EBX) and the
      initial APIC identifier (bits 31..24). */
  function ThreadsPerPackage(ebx: u32): (n: nat)
    ensures n < 0x100
  {
    (ebx as int / 0x1_0000) % 0x100
  }

  function InitialApicId(ebx: u32): (n: nat)
    ensures n < 0x100
  {
    ebx as int / 0x100_0000
  }

  /** Leaf 1: the CLFLUSH line size, reported in units of 8 bytes. */
  function FlushLineSize(ebx: u32): (n: nat)
    ensures n % 8 == 0 && n < 8 * 0x100
  {
    8 * ((ebx as int / 0x100) % 0x100)
  }

  // ---------------------------------------------------------------------
  // Leaf 4: cores per package

  /** Bits 31..26 of EAX hold the number of cores minus one. */
  function CoresPerPackage(eax: u32): (n: nat)
    ensures 1 <= n <= 64
  {
    (eax as int / 0x400_0000) % 0x40 + 1
  }

  // ---------------------------------------------------------------------
  // Leaf 0x10: cache allocation and memory bandwidth allocation

  /** The technologies with code and data prioritisation. */
  datatype CdpLevel = CdpL3 | CdpL2

  /** The bit of weight w of a register, as `x & w` reads it. */
  predicate Bit(x: u32, w: nat)
    requires w > 0
  {
    (x as int / w) % 2 == 1
  }

  /** Capacity bitmask length minus one (bits 4..0 of EAX of subleaf 1 or 2). */
  function CapacityBits(eax: u32): (n: nat)
    ensures n < 32
  {
    eax as int % 0x20
  }

  /** Classes of service for L3 allocation: bits 6..0 of EDX plus one. */
  function CosL3(edx: u32): (n: nat)
    ensures 1 <= n <= 128
  {
    edx as int % 0x80 + 1
  }

  /** Classes of service for L2 allocation and for bandwidth allocation:
      bits 5..0 of EDX plus one. */
  function Cos64(edx: u32): (n: nat)
    ensures 1 <= n <= 64
  {
    edx as int % 0x40 + 1
  }

  /** Maximum bandwidth throttling value: bits 11..0 of EAX plus one. */
  function MbaDelay(eax: u32): (n: nat)
    ensures 1 <= n <= 0x1000
  {
    eax as int % 0x1000 + 1
  }

  /** Whether a subleaf reports code and data prioritisation (ECX bit 2). */
  predicate HasCdp(ecx: u32)
  {
    Bit(ecx, 4)
  }

  // ---------------------------------------------------------------------
  // Guarded divisions

  /** n / d, or 0 when d is zero: the source guards both the crystal ratio
      (leaf 0x15) and the bus clock (bus frequency tables) this way. */
  function GuardedDiv(n: nat, d: nat): (q: nat)
    ensures d == 0 ==> q == 0
    ensures d != 0 ==> q * d <= n < (q + 1) * d
    ensures q <= n
  {
    if d != 0 then n / d else 0
  }

  // ---------------------------------------------------------------------
  // Topology: splitting the initial APIC identifier

  /** bit_scan_reverse: the index of the highest set bit, and -1 for zero. */
  function Bsr(x: nat): (r: int)
    ensures r >= -1 && (x == 0 <==> r == -1)
    ensures x > 0 ==> 0 <= r && Pow2(r) <= x < Pow2(r + 1)
  {
    if x <= 1 then x - 1 else Bsr(x / 2) + 1
  }

  /** The width of an index field for n items as the source computes it,
      bsr(n - 1) + 1 in unsigned 32-bit arithmetic: n - 1 wraps to
      2^32 - 1 when n is zero. */
  function IndexWidth(n: nat): nat
    requires n < 0x1_0000_0000
  {
    Bsr(if n == 0 then 0xFFFF_FFFF else n - 1) + 1
  }

  /** For n >= 1 the width is the least number of bits that numbers n items. */
  lemma IndexWidthIsLeast(n: nat)
    requires 1 <= n < 0x1_0000_0000
    ensures n <= Pow2(IndexWidth(n))
    ensures IndexWidth(n) > 0 ==> Pow2(IndexWidth(n) - 1) < n
  {
  }

  /** When n is zero the wrapped subtraction makes the width 32. */
  lemma IndexWidthOfZero()
    ensures IndexWidth(0) == 32
  {
    var r := Bsr(0xFFFF_FFFF);
    Pow2ThirtyTwo();
    assert Pow2(32) == 2 * Pow2(31);
    if r >= 32 {
      Pow2Monotone(32, r);
    } else if r < 31 {
      Pow2Monotone(r + 1, 31);
    }
  }

  /** The split of the identifier: thread in the low t bits, core in the
      next c bits, package above. */
  datatype Split = Split(package: nat, core: nat, thread: nat)

  function Decompose(topology: nat, t: nat, c: nat): Split
  {
    Fields(topology, Pow2(t), Pow2(c))
  }

  /** The split with the field sizes pt = 2^t and pc = 2^c: a shift right by
      t is a division by pt, a mask of t bits a remainder. */
  function Fields(topology: nat, pt: nat, pc: nat): Split
    requires pt > 0 && pc > 0
  {
    Split(topology / (pt * pc), topology / pt % pc, topology % pt)
  }

  /** Splitting loses nothing: the three fields fit their widths and put
      back together give the identifier. */
  lemma DecomposeRecomposes(topology: nat, t: nat, c: nat)
    ensures Decompose(topology, t, c).thread < Pow2(t) && Decompose(topology, t, c).core < Pow2(c)
    ensures var s := Decompose(topology, t, c);
      s.package * Pow2(t + c) + s.core * Pow2(t) + s.thread == topology
  {
    FieldsRecompose(topology, Pow2(t), Pow2(c));
    Pow2Add(t, c);
  }

  lemma FieldsRecompose(x: nat, pt: nat, pc: nat)
    requires pt > 0 && pc > 0
    ensures Fields(x, pt, pc).thread < pt && Fields(x, pt, pc).core < pc
    ensures var s := Fields(x, pt, pc);
      s.package * (pt * pc) + s.core * pt + s.thread == x
  {
    var s := Fields(x, pt, pc);
    var h := x / pt;
    assert x == h * pt + s.thread;
    DivDiv(x, pt, pc);
    assert h == s.package * pc + s.core;
    MulAssoc(s.package, pc, pt, s.core, s.thread);
  }

  /** The split as written: the threads per core are tpp / cpp, and each
      width comes from IndexWidth. It is undefined (None) when cpp is zero,
      a division by zero, or when a shift count reaches 32. */
  function TopologyAsWritten(tpp: nat, cpp: nat, topology: nat): Option<Split>
    requires tpp < 0x100 && cpp < 0x100
  {
    if cpp == 0 then None
    else
      var t := IndexWidth(DivBelow(tpp, cpp));
      var c := IndexWidth(cpp);
      if t + c >= 32 then None
      else Some(Decompose(topology, t, c))
  }

  /** With fewer logical processors than cores reported (tpp < cpp, here no
      threads at all and one core), the thread width becomes 32 and the
      shifts are undefined. */
  lemma TopologyAsWrittenUndefined(topology: nat)
    ensures TopologyAsWritten(0, 1, topology) == None
  {
    IndexWidthOfZero();
  }

  /** With the legacy core-count flag and tpp zero, cpp becomes zero and the
      division is undefined. */
  lemma TopologyAsWrittenDividesByZero(topology: nat)
    ensures TopologyAsWritten(0, 0, topology) == None
  {
  }

  /** The corrected counts: at least one core per package and at least one
      thread per core. */
  function Cores(cpp: nat): (n: nat)
    requires cpp < 0x100
    ensures 1 <= n < 0x100
  {
    if cpp == 0 then 1 else cpp
  }

  function ThreadsPerCore(tpp: nat, cpp: nat): (n: nat)
    requires tpp < 0x100 && cpp < 0x100
    ensures 1 <= n < 0x100
    ensures cpp >= 1 && tpp / cpp >= 1 ==> n == tpp / cpp
  {
    var q := DivBelow(tpp, Cores(cpp));
    if q == 0 then 1 else q
  }

  /** The corrected split. */
  function Topology(tpp: nat, cpp: nat, topology: nat): Split
    requires tpp < 0x100 && cpp < 0x100
  {
    Decompose(topology, IndexWidth(ThreadsPerCore(tpp, cpp)), IndexWidth(Cores(cpp)))
  }

  /** Wherever the source's split is defined the corrected one agrees with
      it; the correction only changes the undefined cases. */
  lemma TopologyAgrees(tpp: nat, cpp: nat, topology: nat)
    requires tpp < 0x100 && cpp < 0x100
    ensures TopologyAsWritten(tpp, cpp, topology).Some? ==>
      TopologyAsWritten(tpp, cpp, topology).value == Topology(tpp, cpp, topology)
  {
    if cpp >= 1 && tpp / cpp == 0 {
      IndexWidthOfZero();
    }
  }

  /** The corrected split recomposes to the identifier, and its thread and
      core fields are wide enough for the reported counts. */
  lemma TopologyRecomposes(tpp: nat, cpp: nat, topology: nat)
    requires tpp < 0x100 && cpp < 0x100
    ensures var s := Topology(tpp, cpp, topology);
      var t, c := IndexWidth(ThreadsPerCore(tpp, cpp)), IndexWidth(Cores(cpp));
      s.thread < Pow2(t) && s.core < Pow2(c) && s.package * Pow2(t + c) + s.core * Pow2(t) + s.thread == topology
    ensures ThreadsPerCore(tpp, cpp) <= Pow2(IndexWidth(ThreadsPerCore(tpp, cpp)))
    ensures Cores(cpp) <= Pow2(IndexWidth(Cores(cpp)))
  {
    DecomposeRecomposes(topology, IndexWidth(ThreadsPerCore(tpp, cpp)), IndexWidth(Cores(cpp)));
    IndexWidthIsLeast(ThreadsPerCore(tpp, cpp));
    IndexWidthIsLeast(Cores(cpp));
  }

  /** Division by a positive number does not grow the dividend. */
  function DivBelow(a: nat, b: nat): (q: nat)
    requires b >= 1
    ensures q == a / b && q <= a
  {
    DivBound(a, b);
    a / b
  }

  lemma DivBound(a: nat, b: nat)
    requires b >= 1
    ensures a / b <= a
  {
    var q := a / b;
    MulLe(1, b, q);
  }

  // ---------------------------------------------------------------------
  // Clock enumeration

  /** A bus frequency as a fraction m / d of 100 MHz (one entry of the core
      or Atom frequency table). */
  datatype Bus = Bus(m: nat, d: nat)

  /** The time-stamp reference clock in Hz and the ratio of the time-stamp
      counter to it; zero means unknown. */
  datatype Clocks = Clocks(clk: nat, rat: nat)

  const U32_LIMIT: nat := 0x1_0000_0000

  /** The bus clock of a table entry, truncated to the 32-bit result. */
  function BusClock(b: Bus): nat
  {
    GuardedDiv(100_000_000 * b.m, b.d) % U32_LIMIT
  }

  /** The maximum non-turbo ratio, bits 15..8 of MSR_PLATFORM_INFO. */
  function PlatformRatio(platformInfo: bv64): (r: nat)
    ensures r < 0x100
  {
    ((platformInfo >> 8) & 0xFF) as nat
  }

  /** The first overload: clock from a bus table entry, ratio from the
      platform information MSR. */
  function FromBus(b: Bus, platformInfo: bv64): Clocks
  {
    Clocks(BusClock(b), PlatformRatio(platformInfo))
  }

  /** Where the clock of an Intel family 6 model comes from. */
  datatype ClockSource =
    | Crystal(hz: nat)          // a fixed crystal frequency; the ratio stays
    | CoreBus(index: nat)       // a fixed entry of the core bus table
    | CoreFsb                   // the core table entry MSR_FSB_FREQ[2:0] selects
    | AtomFsb(entries: nat)     // the Atom table entry the low bits of MSR_FSB_FREQ select
    | Unlisted                  // nothing known: leave both values alone

  function SourceOf(model: nat): ClockSource
  {
    match model
    case 0xa6 | 0xa5 | 0x9e | 0x8e | 0x5e | 0x4e => Crystal(24_000_000)
    case 0x56 | 0x4f | 0x3f | 0x3e | 0x2d | 0x47 | 0x3d | 0x46 | 0x45 | 0x3c | 0x3a | 0x2a => CoreBus(5)
    case 0x2f | 0x2c | 0x25 | 0x2e | 0x1a | 0x1f | 0x1e => CoreBus(1)
    case 0x1d | 0x17 | 0x0f => CoreFsb
    case 0x5f => Crystal(25_000_000)
    case 0x5c => Crystal(19_200_000)
    case 0x4c => AtomFsb(16)
    case 0x5d | 0x5a | 0x4a | 0x37 => AtomFsb(8)
    case _ => Unlisted
  }

  /** The second overload: fill in what leaf 0x15 left unknown from
      model-specific knowledge. `fsbFreq` is MSR_FSB_FREQ; `core` and `atom`
      are the bus frequency tables, indexed by its low 3 or 4 bits. */
  function EnumerateClocks(vendor: nat, family: nat, model: nat, c: Clocks, platformInfo: bv64, fsbFreq: bv64,
                           core: seq<Bus>, atom: seq<Bus>): (r: Clocks)
    requires |core| >= 8 && |atom| >= 16
    ensures r != c ==> vendor == INTEL && family == 6 && (c.clk == 0 || c.rat == 0) && SourceOf(model) != Unlisted
    ensures r.rat == c.rat || r.rat == PlatformRatio(platformInfo)
  {
    if c.clk != 0 && c.rat != 0 then c
    else if vendor != INTEL || family != 6 then c
    else
      match SourceOf(model)
      case Crystal(hz) => c.(clk := hz)
      case CoreBus(i) => FromBus(core[i], platformInfo)
      case CoreFsb => FromBus(core[fsbFreq as nat % 8], platformInfo)
      case AtomFsb(n) => FromBus(atom[fsbFreq as nat % n], platformInfo)
      case Unlisted => c
  }

  /** Nothing changes when leaf 0x15 gave both values, on other vendors or
      families, and on models without a known clock. */
  lemma ClocksKept(vendor: nat, family: nat, model: nat, c: Clocks, platformInfo: bv64, fsbFreq: bv64, core: seq<Bus>, atom: seq<Bus>)
    requires |core| >= 8 && |atom| >= 16
    requires (c.clk != 0 && c.rat != 0) || vendor != INTEL || family != 6 || SourceOf(model) == Unlisted
    ensures EnumerateClocks(vendor, family, model, c, platformInfo, fsbFreq, core, atom) == c
  {
  }

  /** A model with a known crystal gets its frequency and keeps the ratio
      leaf 0x15 reported; the others take both values from the bus table
      and the platform MSR. */
  lemma ClocksBySource(model: nat, c: Clocks, platformInfo: bv64, fsbFreq: bv64, core: seq<Bus>, atom: seq<Bus>)
    requires |core| >= 8 && |atom| >= 16 && (c.clk == 0 || c.rat == 0)
    ensures var r := EnumerateClocks(INTEL, 6, model, c, platformInfo, fsbFreq, core, atom);
      && (SourceOf(model).Crystal? ==> r == Clocks(SourceOf(model).hz, c.rat))
      && (SourceOf(model).CoreBus? ==> r == FromBus(core[SourceOf(model).index], platformInfo))
      && (SourceOf(model).CoreFsb? ==> r == FromBus(core[fsbFreq as nat % 8], platformInfo))
      && (SourceOf(model).AtomFsb? ==> r == FromBus(atom[fsbFreq as nat % SourceOf(model).entries], platformInfo))
  {
  }

  /** The families of models: Skylake and later P-cores have a 24 MHz
      crystal, Goldmont a 25 or 19.2 MHz one; Sandy Bridge to Broadwell run
      a 100 MHz bus (entry 5), Nehalem and Westmere 133 MHz (entry 1); Core 2
      and Silvermont select the entry by MSR_FSB_FREQ[2:0], Airmont by
      MSR_FSB_FREQ[3:0]. */
  lemma ModelSources()
    ensures forall m :: m in {0xa6, 0xa5, 0x9e, 0x8e, 0x5e, 0x4e} ==> SourceOf(m) == Crystal(24_000_000)
    ensures SourceOf(0x5f) == Crystal(25_000_000) && SourceOf(0x5c) == Crystal(19_200_000)
    ensures forall m :: m in {0x56, 0x4f, 0x3f, 0x3e, 0x2d, 0x47, 0x3d, 0x46, 0x45, 0x3c, 0x3a, 0x2a} ==> SourceOf(m) == CoreBus(5)
    ensures forall m :: m in {0x2f, 0x2c, 0x25, 0x2e, 0x1a, 0x1f, 0x1e} ==> SourceOf(m) == CoreBus(1)
    ensures forall m :: m in {0x1d, 0x17, 0x0f} ==> SourceOf(m) == CoreFsb
    ensures forall m :: m in {0x5d, 0x5a, 0x4a, 0x37} ==> SourceOf(m) == AtomFsb(8)
    ensures SourceOf(0x4c) == AtomFsb(16)
    ensures forall m :: m in {0x75, 0x6e, 0x65, 0x4d} ==> SourceOf(m) == Unlisted
  {
  }

  /** The bus clock is 100 MHz times m / d rounded down, when that fits in
      32 bits, and zero for an empty entry. */
  lemma BusClockRounds(b: Bus)
    ensures b.d == 0 ==> BusClock(b) == 0
    ensures b.d != 0 && 100_000_000 * b.m < U32_LIMIT ==>
      BusClock(b) * b.d <= 100_000_000 * b.m < (BusClock(b) + 1) * b.d
  {
    var q := GuardedDiv(100_000_000 * b.m, b.d);
    if b.d != 0 && 100_000_000 * b.m < U32_LIMIT {
      assert q < U32_LIMIT;
    }
  }

  // ---------------------------------------------------------------------
  // Performance states

  /** The MSR writes of setup_pstate. Hwp: IA32_PM_ENABLE := 1 (enable
      hardware-controlled performance states), then IA32_HWP_REQUEST :=
      request. Eist: IA32_MISC_ENABLE := miscEnable, then IA32_PERF_CTL :=
      perfCtl. */
  datatype Pstate = NoPstate | Hwp(request: bv64) | Eist(miscEnable: bv64, perfCtl: bv64)

  /** The lowest, guaranteed (nominal) and highest performance ratio. */
  datatype Ratios = Ratios(min: bv8, nom: bv8, max: bv8)

  /** The desired ratio: the nominal one when turbo is disabled on the
      command line, the highest otherwise. */
  function Desired(r: Ratios, noturbo: bool): bv8
  {
    if noturbo then r.nom else r.max
  }

  /** IA32_HWP_CAPABILITIES: highest in bits 7..0, guaranteed in 15..8,
      lowest in 31..24. */
  function HwpRatios(cap: bv64): Ratios
  {
    Ratios(Byte(cap >> 24), Byte(cap >> 8), Byte(cap))
  }

  /** The low 8 bits, as a cast to uint8 keeps them. */
  function Byte(x: bv64): bv8
  {
    (x & 0xFF) as bv8
  }

  /** MSR_PLATFORM_INFO: minimum operating ratio in bits 55..48, maximum
      non-turbo ratio in 15..8; the highest ratio is the single-core turbo
      limit (bits 7..0 of MSR_TURBO_RATIO_LIMIT) when turbo boost exists. */
  function EistRatios(platformInfo: bv64, turbo: bool, turboRatioLimit: bv64): Ratios
  {
    var nom := Byte(platformInfo >> 8);
    Ratios(Byte(platformInfo >> 48), nom, if turbo then Byte(turboRatioLimit) else nom)
  }

  /** IA32_HWP_REQUEST: minimum in bits 7..0, maximum in 15..8, desired in
      23..16. */
  function HwpRequestValue(des: bv8, max: bv8, min: bv8): bv64
  {
    ((des as bv64) << 16) | ((max as bv64) << 8) | (min as bv64)
  }

  lemma HwpRequestFields(des: bv8, max: bv8, min: bv8)
    ensures var v := HwpRequestValue(des, max, min);
      && Byte(v >> 16) == des && Byte(v >> 8) == max && Byte(v) == min
      && v >> 24 == 0
  {
  }

  /** The IA32_PERF_CTL bits the source rewrites: the turbo disengage bit 32
      and the target ratio in 15..8. */
  const PERF_CTL_MASK: bv64 := 0x1_0000_FF00

  function PerfCtlValue(current: bv64, des: bv8, disengage: bool): bv64
  {
    (current & !PERF_CTL_MASK) | (if disengage then 0x1_0000_0000 else 0) | ((des as bv64) << 8)
  }

  lemma PerfCtlFields(current: bv64, des: bv8, disengage: bool)
    ensures var v := PerfCtlValue(current, des, disengage);
      && v & !PERF_CTL_MASK == current & !PERF_CTL_MASK
      && Byte(v >> 8) == des
      && ((v >> 32) & 1 == 1 <==> disengage)
  {
  }

  /** setup_pstate: on Intel, hardware-controlled performance states when
      available, enhanced SpeedStep (IA32_MISC_ENABLE bit 16) otherwise;
      nothing on other vendors or without either. The MSR contents it reads
      are parameters, PERF_CTL as read after the MISC_ENABLE write. */
  function SetupPstate(vendor: nat, hwp: bool, eist: bool, turbo: bool, noturbo: bool, hwpCap: bv64, miscEnable: bv64,
                       platformInfo: bv64, turboRatioLimit: bv64, perfCtl: bv64): (p: Pstate)
    ensures p == NoPstate <==> vendor != INTEL || (!hwp && !eist)
    ensures p.Hwp? <==> vendor == INTEL && hwp
  {
    if vendor != INTEL then NoPstate
    else if hwp then
      var r := HwpRatios(hwpCap);
      Hwp(HwpRequestValue(Desired(r, noturbo), r.max, r.min))
    else if eist then
      var r := EistRatios(platformInfo, turbo, turboRatioLimit);
      Eist(miscEnable | 0x1_0000, PerfCtlValue(perfCtl, Desired(r, noturbo), turbo && noturbo))
    else NoPstate
  }

  /** With hardware-controlled performance states the request carries the
      desired ratio (the guaranteed one under `noturbo`, the highest
      otherwise) between the lowest and the highest ratio. */
  lemma SetupPstateHwp(hwp: bool, eist: bool, turbo: bool, noturbo: bool, hwpCap: bv64, miscEnable: bv64,
                       platformInfo: bv64, turboRatioLimit: bv64, perfCtl: bv64)
    requires hwp
    ensures var p := SetupPstate(INTEL, hwp, eist, turbo, noturbo, hwpCap, miscEnable, platformInfo, turboRatioLimit, perfCtl);
      var r := HwpRatios(hwpCap);
      && p.Hwp? && Byte(p.request >> 16) == Desired(r, noturbo) && Byte(p.request >> 8) == r.max
      && Byte(p.request) == r.min && p.request >> 24 == 0
  {
    var r := HwpRatios(hwpCap);
    HwpRequestFields(Desired(r, noturbo), r.max, r.min);
  }

  /** With enhanced SpeedStep, MISC_ENABLE gets bit 16 set and the
      PERF_CTL write keeps every bit of the value read outside the ratio
      field and the turbo disengage bit. */
  lemma SetupPstateEist(turbo: bool, noturbo: bool, hwpCap: bv64, miscEnable: bv64,
                        platformInfo: bv64, turboRatioLimit: bv64, perfCtl: bv64)
    ensures var p := SetupPstate(INTEL, false, true, turbo, noturbo, hwpCap, miscEnable, platformInfo, turboRatioLimit, perfCtl);
      && p.Eist? && p.miscEnable == miscEnable | 0x1_0000
      && p.perfCtl & !PERF_CTL_MASK == perfCtl & !PERF_CTL_MASK
  {
    var r := EistRatios(platformInfo, turbo, turboRatioLimit);
    PerfCtlFields(perfCtl, Desired(r, noturbo), turbo && noturbo);
  }

  /** The same write sets the desired ratio and disengages turbo exactly
      when turbo exists but is disabled. */
  lemma SetupPstateEistRatio(turbo: bool, noturbo: bool, hwpCap: bv64, miscEnable: bv64,
                             platformInfo: bv64, turboRatioLimit: bv64, perfCtl: bv64)
    ensures var p := SetupPstate(INTEL, false, true, turbo, noturbo, hwpCap, miscEnable, platformInfo, turboRatioLimit, perfCtl);
      && p.Eist? && Byte(p.perfCtl >> 8) == Desired(EistRatios(platformInfo, turbo, turboRatioLimit), noturbo)
      && ((p.perfCtl >> 32) & 1 == 1 <==> turbo && noturbo)
  {
    var r := EistRatios(platformInfo, turbo, turboRatioLimit);
    PerfCtlFields(perfCtl, Desired(r, noturbo), turbo && noturbo);
  }

  // ---------------------------------------------------------------------
  // Enumeration

  /** The answers of the CPUID leaves enumerate_features reads: leaf 0,
      1, 4 (subleaf 0), 6, 7 (subleaf 0), 0xd (subleaves 0 and 1), 0x10
      (subleaves 0 to 3) and 0x15. */
  datatype Cpuid = Cpuid(leaf0: Regs, leaf1: Regs, leaf4: Regs, leaf6: Regs, leaf7: Regs,
                         xsave0: Regs, xsave1: Regs, rdt0: Regs, rdt1: Regs, rdt2: Regs, rdt3: Regs,
                         leaf15: Regs)
  {
    /** The highest standard leaf. */
    function MaxLeaf(): nat
    {
      leaf0.eax as nat
    }
  }

  /** The class-of-service limits (the Cos statics): capacity bitmask
      length minus one and number of classes for L3 and L2 allocation,
      bandwidth throttling maximum and number of classes, and the levels
      with code and data prioritisation. */
  datatype CosState = CosState(hcbL3: nat, cosL3: nat, hcbL2: nat, cosL2: nat, delMb: nat, cosMb: nat,
                               supcfg: set<CdpLevel>)

  /** The limits after reading leaf 0x10: EBX of subleaf 0 (rti) says which
      of L3 allocation (bit 1), L2 allocation (bit 2) and bandwidth
      allocation (bit 3) exist; the limits of each come from its own
      subleaf, and a technology that is absent leaves its limits alone. */
  function CosAfter(s: CosState, q: Cpuid): CosState
  {
    var rti := q.rdt0.ebx;
    var l3 := if !Bit(rti, 2) then s
              else s.(hcbL3 := CapacityBits(q.rdt1.eax), cosL3 := CosL3(q.rdt1.edx),
                      supcfg := s.supcfg + if HasCdp(q.rdt1.ecx) then {CdpL3} else {});
    var l2 := if !Bit(rti, 4) then l3
              else l3.(hcbL2 := CapacityBits(q.rdt2.eax), cosL2 := Cos64(q.rdt2.edx),
                       supcfg := l3.supcfg + if HasCdp(q.rdt2.ecx) then {CdpL2} else {});
    if !Bit(rti, 8) then l2 else l2.(delMb := MbaDelay(q.rdt3.eax), cosMb := Cos64(q.rdt3.edx))
  }

  /** Each technology reported gets at least one and at most 128 (L3) or 64
      (L2, bandwidth) classes of service and a bitmask of at most 32 bits;
      code and data prioritisation is recorded for exactly the levels that
      are reported with it; what is not reported keeps its value. */
  lemma CosLimits(s: CosState, q: Cpuid)
    ensures var r := CosAfter(s, q);
      && (Bit(q.rdt0.ebx, 2) ==> 1 <= r.cosL3 <= 128 && r.hcbL3 < 32)
      && (!Bit(q.rdt0.ebx, 2) ==> r.cosL3 == s.cosL3 && r.hcbL3 == s.hcbL3)
      && (Bit(q.rdt0.ebx, 4) ==> 1 <= r.cosL2 <= 64 && r.hcbL2 < 32)
      && (!Bit(q.rdt0.ebx, 4) ==> r.cosL2 == s.cosL2 && r.hcbL2 == s.hcbL2)
      && (Bit(q.rdt0.ebx, 8) ==> 1 <= r.cosMb <= 64 && 1 <= r.delMb <= 0x1000)
      && (!Bit(q.rdt0.ebx, 8) ==> r.cosMb == s.cosMb && r.delMb == s.delMb)
      && (CdpL3 in r.supcfg <==> CdpL3 in s.supcfg || (Bit(q.rdt0.ebx, 2) && HasCdp(q.rdt1.ecx)))
      && (CdpL2 in r.supcfg <==> CdpL2 in s.supcfg || (Bit(q.rdt0.ebx, 4) && HasCdp(q.rdt2.ecx)))
  {
  }

  class Cos {
    var hcbL3: nat
    var cosL3: nat
    var hcbL2: nat
    var cosL2: nat
    var delMb: nat
    var cosMb: nat
    var supcfg: set<CdpLevel>

    function State(): CosState
      reads this
    {
      CosState(hcbL3, cosL3, hcbL2, cosL2, delMb, cosMb, supcfg)
    }

    constructor ()
      ensures State() == CosState(0, 0, 0, 0, 0, 0, {})
    {
      hcbL3, cosL3, hcbL2, cosL2, delMb, cosMb, supcfg := 0, 0, 0, 0, 0, 0, {};
    }

    method Read(q: Cpuid)
      modifies this
      ensures State() == CosAfter(old(State()), q)
    {
      var rti := q.rdt0.ebx;
      if Bit(rti, 2) {
        hcbL3, cosL3 := CapacityBits(q.rdt1.eax), CosL3(q.rdt1.edx);
        supcfg := supcfg + if HasCdp(q.rdt1.ecx) then {CdpL3} else {};
      }
      if Bit(rti, 4) {
        hcbL2, cosL2 := CapacityBits(q.rdt2.eax), Cos64(q.rdt2.edx);
        supcfg := supcfg + if HasCdp(q.rdt2.ecx) then {CdpL2} else {};
      }
      if Bit(rti, 8) {
        delMb, cosMb := MbaDelay(q.rdt3.eax), Cos64(q.rdt3.edx);
      }
    }
  }

  /** The 64-bit mask EDX:low of a leaf 0xd subleaf. */
  function Xstate(edx: u32, low: u32): bv64
  {
    (edx as int * 0x1_0000_0000 + low as int) as bv64
  }

  /** The host FPU state components to enable: user (XCR0) and supervisor
      (XSS). */
  class FpuState {
    var xcr: bv64
    var xss: bv64

    constructor ()
      ensures xcr == 0 && xss == 0
    {
      xcr, xss := 0, 0;
    }

    /** Leaf 0xd: enable the components the kernel wants that the processor
        supports, user ones from subleaf 0 (EDX:EAX), supervisor ones from
        subleaf 1 (EDX:ECX). */
    method Read(q: Cpuid, desired: bv64)
      modifies this
      ensures xcr == desired & Xstate(q.xsave0.edx, q.xsave0.eax)
      ensures xss == desired & Xstate(q.xsave1.edx, q.xsave1.ecx)
    {
      xcr := desired & Xstate(q.xsave0.edx, q.xsave0.eax);
      xss := desired & Xstate(q.xsave1.edx, q.xsave1.ecx);
    }
  }

  /** The processor identification statics. */
  class Cpu {
    var vendor: nat
    var family: nat
    var model: nat
    var stepping: nat
    var topology: nat
    const features: array<u32>

    ghost predicate Valid()
      reads this
    {
      features.Length == 8
    }

    constructor ()
      ensures Valid() && fresh(features)
      ensures vendor == UNKNOWN && family == 0 && model == 0 && stepping == 0 && topology == 0
      ensures forall i :: 0 <= i < 8 ==> features[i] == 0
    {
      vendor, family, model, stepping, topology := UNKNOWN, 0, 0, 0, 0;
      features := new u32[8](_ => 0);
    }

    /** The vendor is the last entry of the table, other than the unknown
        entry 0, whose string leaf 0 reports, or 0 when none is. */
    ghost predicate Identified(table: seq<seq<u8>>, r: Regs)
      requires WellFormedTable(table)
      reads this
    {
      && vendor < |table| && (vendor > 0 ==> Matches(table[vendor], r))
      && forall i :: vendor < i < |table| ==> !Matches(table[i], r)
    }

    /** The signature fields leaf 1 reports. */
    ghost predicate SignatureOf(l: Regs)
      reads this
    {
      && family == Family(l.eax) && model == Model(l.eax) && stepping == Stepping(l.eax)
      && topology == InitialApicId(l.ebx)
    }

    /** Leaf 1: signature and initial APIC identifier; returns the logical
        processors per package and the flush line size. */
    method ReadSignature(l: Regs) returns (tpp: nat, flushLine: nat)
      modifies this
      ensures vendor == old(vendor) && SignatureOf(l)
      ensures tpp == ThreadsPerPackage(l.ebx) && flushLine == FlushLineSize(l.ebx)
    {
      family, model, stepping := Family(l.eax), Model(l.eax), Stepping(l.eax);
      topology := InitialApicId(l.ebx);
      tpp := ThreadsPerPackage(l.ebx);
      flushLine := FlushLineSize(l.ebx);
    }

    /** The leaves from 0x10 down to 1 other than the signature, falling
        through from the highest leaf; returns the cores per package of
        leaf 4, one where it is not reached. */
    method ReadLeaves(cos: Cos, fpu: FpuState, q: Cpuid, desired: bv64) returns (cpp: nat)
      requires Valid()
      modifies features, cos, fpu
      ensures features[..] == FeatureWords(old(features[..]), q)
      ensures cos.State() == (if Runs(q.MaxLeaf(), 0x10) then CosAfter(old(cos.State()), q) else old(cos.State()))
      ensures fpu.xcr == (if Runs(q.MaxLeaf(), 0xd) then desired & Xstate(q.xsave0.edx, q.xsave0.eax) else old(fpu.xcr))
      ensures fpu.xss == (if Runs(q.MaxLeaf(), 0xd) then desired & Xstate(q.xsave1.edx, q.xsave1.ecx) else old(fpu.xss))
      ensures cpp == (if Runs(q.MaxLeaf(), 4) then CoresPerPackage(q.leaf4.eax) else 1)
    {
      var m := q.MaxLeaf();
      if Runs(m, 0x10) {
        cos.Read(q);
      }
      if Runs(m, 0xd) {
        fpu.Read(q, desired);
      }
      if Runs(m, 7) {
        features[3], features[4], features[5] := q.leaf7.ebx, q.leaf7.ecx, q.leaf7.edx;
      }
      if Runs(m, 6) {
        features[2] := q.leaf6.eax;
      }
      cpp := 1;
      if Runs(m, 4) {
        cpp := CoresPerPackage(q.leaf4.eax);
      }
      // every value of the highest leaf reaches the leaf 1 case
      features[1], features[0] := q.leaf1.ecx, q.leaf1.edx;
    }

    /** enumerate_features, the part that decodes the standard CPUID leaves
        (the switch on the highest leaf falls through from the reported leaf
        down to leaf 1). `table` is the vendor string table; `desired` the
        FPU state the kernel wants; `cmpLegacy` the legacy core-count flag of
        extended leaf 0x80000001, whose enumeration is not part of this
        model. clk and rat come in as the caller's values and go out through
        both clock enumerations. The split of the APIC identifier uses the
        corrected Topology; `flushLine` is the line size handed to the cache
        module. */
    method EnumerateFeatures(cos: Cos, fpu: FpuState, q: Cpuid, table: seq<seq<u8>>, desired: bv64,
                             cmpLegacy: bool, clk: nat, rat: nat, platformInfo: bv64, fsbFreq: bv64,
                             core: seq<Bus>, atom: seq<Bus>)
      returns (clocks: Clocks, split: Split, flushLine: nat)
      requires Valid() && WellFormedTable(table) && |core| >= 8 && |atom| >= 16
      modifies this, features, cos, fpu
      ensures Valid()
      ensures Identified(table, q.leaf0) && SignatureOf(q.leaf1) && flushLine == FlushLineSize(q.leaf1.ebx)
      ensures features[..] == FeatureWords(old(features[..]), q)
      ensures cos.State() == (if Runs(q.MaxLeaf(), 0x10) then CosAfter(old(cos.State()), q) else old(cos.State()))
      ensures fpu.xcr == (if Runs(q.MaxLeaf(), 0xd) then desired & Xstate(q.xsave0.edx, q.xsave0.eax) else old(fpu.xcr))
      ensures fpu.xss == (if Runs(q.MaxLeaf(), 0xd) then desired & Xstate(q.xsave1.edx, q.xsave1.ecx) else old(fpu.xss))
      ensures split == Topology(ThreadsPerPackage(q.leaf1.ebx), CoresOf(q, cmpLegacy), InitialApicId(q.leaf1.ebx))
      ensures clocks == EnumerateClocks(vendor, family, model, CrystalClocks(q, clk, rat),
                                        platformInfo, fsbFreq, core, atom)
    {
      var v := FindVendor(table, q.leaf0);
      var c := Clocks(clk, rat);
      if Runs(q.MaxLeaf(), 0x15) {
        c := Clocks(q.leaf15.ecx as nat, GuardedDiv(q.leaf15.ebx as nat, q.leaf15.eax as nat));
      }
      var cpp := ReadLeaves(cos, fpu, q, desired);
      var tpp;
      tpp, flushLine := ReadSignature(q.leaf1);
      vendor := v;
      if cmpLegacy {
        cpp := tpp;
      }
      split := Topology(tpp, cpp, InitialApicId(q.leaf1.ebx));
      clocks := EnumerateClocks(vendor, family, model, c, platformInfo, fsbFreq, core, atom);
    }
  }

  /** The feature words after the leaves: 2 to 5 from leaves 6 and 7 where
      the highest leaf reaches them, 0 and 1 from leaf 1 always. */
  function FeatureWords(f: seq<u32>, q: Cpuid): (r: seq<u32>)
    requires |f| == 8
    ensures |r| == 8
  {
    var f7 := if Runs(q.MaxLeaf(), 7) then f[3 := q.leaf7.ebx][4 := q.leaf7.ecx][5 := q.leaf7.edx] else f;
    var f6 := if Runs(q.MaxLeaf(), 6) then f7[2 := q.leaf6.eax] else f7;
    f6[1 := q.leaf1.ecx][0 := q.leaf1.edx]
  }

  /** Cores per package: one unless leaf 4 is reached, the threads per
      package under the legacy core-count flag. */
  function CoresOf(q: Cpuid, cmpLegacy: bool): (n: nat)
    ensures n < 0x100
  {
    if cmpLegacy then ThreadsPerPackage(q.leaf1.ebx)
    else if Runs(q.MaxLeaf(), 4) then CoresPerPackage(q.leaf4.eax)
    else 1
  }

  /** The clocks after leaf 0x15, where the highest leaf reaches it: the
      crystal clock from ECX and the ratio EBX / EAX, zero when EAX is. */
  function CrystalClocks(q: Cpuid, clk: nat, rat: nat): Clocks
  {
    if Runs(q.MaxLeaf(), 0x15) then Clocks(q.leaf15.ecx as nat, GuardedDiv(q.leaf15.ebx as nat, q.leaf15.eax as nat))
    else Clocks(clk, rat)
  }
}
