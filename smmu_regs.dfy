/** Register layout and encodings of the Intel VT-d remapping unit as the
    kernel's x86 "SMMU" driver uses them: queued-invalidation descriptors
    (section 6.5.2 of the VT-d specification), register offsets, the Global
    Command bits, capability fields and the context and interrupt-remapping
    entry formats. */
module SmmuRegs {

  // ---------------------------------------------------------------------
  // Invalidation descriptors

  /** Descriptor types (descriptor bits 3..0). */
  const TYPE_CTX: bv64 := 1
  const TYPE_TLB: bv64 := 2
  const TYPE_DEV: bv64 := 3
  const TYPE_IEC: bv64 := 4
  const TYPE_INV: bv64 := 5

  /** Granularities (descriptor bits 5..4). */
  const CTX_GLOBAL: bv64 := 1
  const CTX_DOMAIN: bv64 := 2
  const CTX_DEVICE: bv64 := 3
  const TLB_GLOBAL: bv64 := 1
  const TLB_DOMAIN: bv64 := 2
  const TLB_PAGE:   bv64 := 3
  const IEC_GLOBAL: bv64 := 0
  const IEC_INDEX:  bv64 := 1

  /** A 128-bit queued-invalidation descriptor. */
  datatype QiDesc = QiDesc(lo: bv64, hi: bv64)

  function DescType(d: QiDesc): bv64
  {
    d.lo & 0xF
  }

  function DescGran(d: QiDesc): bv64
  {
    (d.lo >> 4) & 0x3
  }

  /** Global context-cache invalidation. */
  function QiCtx(): QiDesc
  {
    QiDesc((CTX_GLOBAL << 4) | TYPE_CTX, 0)
  }

  /** Global IOTLB invalidation. */
  function QiTlb(): QiDesc
  {
    QiDesc((TLB_GLOBAL << 4) | TYPE_TLB, 0)
  }

  /** Global interrupt-entry-cache invalidation. */
  function QiIec(): QiDesc
  {
    QiDesc((IEC_GLOBAL << 4) | TYPE_IEC, 0)
  }

  /** Each descriptor the driver issues carries its type and global
      granularity and no other field, so the three are told apart by type. */
  lemma DescriptorFields()
    ensures DescType(QiCtx()) == TYPE_CTX && DescGran(QiCtx()) == CTX_GLOBAL
    ensures DescType(QiTlb()) == TYPE_TLB && DescGran(QiTlb()) == TLB_GLOBAL
    ensures DescType(QiIec()) == TYPE_IEC && DescGran(QiIec()) == IEC_GLOBAL
    ensures QiCtx().lo >> 6 == 0 && QiTlb().lo >> 6 == 0 && QiIec().lo >> 6 == 0
    ensures QiCtx().hi == 0 && QiTlb().hi == 0 && QiIec().hi == 0
    ensures QiCtx().lo == 0x11 && QiTlb().lo == 0x12 && QiIec().lo == 0x04
  {
  }

  // ---------------------------------------------------------------------
  // Registers

  // 32-bit registers
  const VER:    nat  := 0x000
  const GCMD:   nat  := 0x018
  const GSTS:   nat  := 0x01c
  const FSTS:   nat  := 0x034
  const FECTL:  nat  := 0x038
  const FEDATA: nat  := 0x03c
  const FEADDR: nat  := 0x040
  // 64-bit registers
  const CAP:    nat  := 0x008
  const ECAP:   nat  := 0x010
  const RTADDR: nat  := 0x020
  const CCMD:   nat  := 0x028
  const IQH:    nat  := 0x080
  const IQT:    nat  := 0x088
  const IQA:    nat  := 0x090
  const IRTA:   nat  := 0x0b8
  // IOTLB registers, relative to the IOTLB register offset
  const IVA:    nat  := 0x000
  const IOTLB:  nat  := 0x008

  const BIT63: bv64 := 0x8000_0000_0000_0000

  /** Global command bits (GCMD, mirrored in GSTS). */
  datatype Cmd = CFI | IRTP | IRE | QIE | WBF | AFL | FL | RTP | TE

  function CmdBit(c: Cmd): bv32
  {
    match c
    case CFI  => 0x0080_0000
    case IRTP => 0x0100_0000
    case IRE  => 0x0200_0000
    case QIE  => 0x0400_0000
    case WBF  => 0x0800_0000
    case AFL  => 0x1000_0000
    case FL   => 0x2000_0000
    case RTP  => 0x4000_0000
    case TE   => 0x8000_0000
  }

  /** The one-shot bits: set root table address, fault log, write-buffer
      flush, set interrupt remapping table address. */
  const ONE_SHOT: bv32 := 0x6900_0000

  lemma OneShotBits()
    ensures ONE_SHOT == CmdBit(RTP) | CmdBit(FL) | CmdBit(WBF) | CmdBit(IRTP)
  {
  }

  /** The GCMD value that issues command c when the status register reads
      gsts (section 10.4.4 of the VT-d specification). */
  function GcmdValue(gsts: bv32, c: Cmd): bv32
  {
    (gsts & !ONE_SHOT) | CmdBit(c)
  }

  /** The written value asserts c's bit, writes every other status bit back
      unchanged and asserts no one-shot bit besides c's own; once the poll
      after the write ends, the status register shows c's bit. */
  lemma GcmdValueBits(gsts: bv32, c: Cmd)
    ensures GcmdValue(gsts, c) & CmdBit(c) == CmdBit(c)
    ensures GcmdValue(gsts, c) & !(ONE_SHOT | CmdBit(c)) == gsts & !(ONE_SHOT | CmdBit(c))
    ensures GcmdValue(gsts, c) & ONE_SHOT & !CmdBit(c) == 0
  {
    MaskedWrite(gsts, CmdBit(c));
  }

  lemma MaskedWrite(gsts: bv32, b: bv32)
    ensures ((gsts & !ONE_SHOT) | b) & b == b
    ensures ((gsts & !ONE_SHOT) | b) & !(ONE_SHOT | b) == gsts & !(ONE_SHOT | b)
    ensures ((gsts & !ONE_SHOT) | b) & ONE_SHOT & !b == 0
  {
  }

  /** Each command is a single non-zero bit, so once the poll after the
      write ends the status register shows it. */
  lemma CommandObserved(gsts: bv32, c: Cmd)
    ensures CmdBit(c) != 0
    ensures StatusWith(gsts, c) & CmdBit(c) != 0
  {
    match c
    case CFI =>
    case IRTP =>
    case IRE =>
    case QIE =>
    case WBF =>
    case AFL =>
    case FL =>
    case RTP =>
    case TE =>
  }

  /** The status the hardware shows once command c has taken effect. */
  function StatusWith(gsts: bv32, c: Cmd): bv32
  {
    gsts | CmdBit(c)
  }

  /** A 64-bit command register once the hardware has cleared its busy bit. */
  function ClearBusy(v: bv64): bv64
  {
    v & !BIT63
  }

  /** Context-command value: invalidate the context cache (ICC, bit 63). */
  function CcmdGlobal(): bv64
  {
    BIT63 | (CTX_GLOBAL << 61)
  }

  /** IOTLB-invalidate value: invalidate the IOTLB (IVT, bit 63). */
  function IotlbGlobal(): bv64
  {
    BIT63 | (TLB_GLOBAL << 60)
  }

  /** Both register commands set their busy bit and global granularity
      (CIRG, bits 62..61 of CCMD; IIRG, bits 61..60 of IOTLB) and nothing
      else. */
  lemma RegisterCommandFields()
    ensures CcmdGlobal() >> 63 == 1 && (CcmdGlobal() >> 61) & 3 == CTX_GLOBAL
    ensures CcmdGlobal() & 0x1FFF_FFFF_FFFF_FFFF == 0
    ensures IotlbGlobal() >> 63 == 1 && (IotlbGlobal() >> 60) & 3 == TLB_GLOBAL
    ensures IotlbGlobal() & 0x4FFF_FFFF_FFFF_FFFF == 0
  {
  }

  // ---------------------------------------------------------------------
  // Capability decoding

  function HasCo(ecap: bv64): bool { ecap & 1 != 0 }
  function HasQi(ecap: bv64): bool { ecap & 2 != 0 }
  function HasDt(ecap: bv64): bool { ecap & 4 != 0 }
  function HasIr(ecap: bv64): bool { ecap & 8 != 0 }

  /** Index of the last fault-recording register: CAP bits 47..40. */
  function LastFrr(cap: bv64): (m: bv32)
    ensures m <= 0xFF
  {
    ((cap >> 40) & 0xFF) as bv32
  }

  /** Number of fault-recording registers. */
  function Nfr(cap: bv64): (n: nat)
    ensures 1 <= n <= 256 && n == LastFrr(cap) as nat + 1
  {
    (((cap >> 40) & 0xFF) as bv32) as nat + 1
  }

  /** Fault-recording register offset. */
  function Fro(cap: bv64): bv32
  {
    ((cap >> 20) & 0x3FF0) as bv32
  }

  /** IOTLB register offset. */
  function Iro(ecap: bv64): bv32
  {
    ((ecap >> 4) & 0x3FF0) as bv32
  }

  /** Register offset of the IOTLB invalidate register. */
  function IotlbReg(ecap: bv64): nat
  {
    Iro(ecap) as nat + IOTLB
  }

  /** Both offsets are 16 times a 10-bit field (CAP bits 33..24 and ECAP
      bits 17..8), so they are 16-byte aligned and below 16 KiB. */
  lemma OffsetFields(cap: bv64, ecap: bv64)
    ensures Fro(cap) == (((cap >> 24) & 0x3FF) as bv32) << 4
    ensures Fro(cap) & 0xF == 0 && Fro(cap) < 0x4000
    ensures Iro(ecap) == (((ecap >> 8) & 0x3FF) as bv32) << 4
    ensures Iro(ecap) & 0xF == 0 && Iro(ecap) < 0x4000
  {
  }

  /** Register offset of byte k of fault record frr. Only frr * 16 is
      unsigned 32-bit arithmetic; FRO and k are added to the 64-bit MMIO
      base, so that sum does not wrap. */
  function FaultRecord(cap: bv64, frr: bv32, k: nat): nat
  {
    Fro(cap) as nat + (frr * 16) as nat + k
  }

  /** The records that CAP reports lie 16 bytes apart from FRO on (the
      32-bit product frr * 16 does not wrap for them), and none reaches past
      FRO + 4096. */
  lemma FaultRecordInPage(cap: bv64, frr: bv32)
    requires frr <= LastFrr(cap)
    ensures FaultRecord(cap, frr, 0) == Fro(cap) as nat + 16 * frr as nat
    ensures FaultRecord(cap, frr, 16) <= Fro(cap) as nat + 0x1000
  {
    assert frr <= 0xFF;
    assert (frr * 16) as nat == 16 * frr as nat;
  }

  // ---------------------------------------------------------------------
  // Queue geometry

  /** Descriptors in the one-page queue: 4096 / 16. */
  const CNT: nat := 256

  function NextIdx(i: nat): (j: nat)
    ensures j < CNT
  {
    (i + 1) % CNT
  }

  /** The tail index after n submissions starting at i. */
  function Advance(i: nat, n: nat): nat
  {
    if n == 0 then i else NextIdx(Advance(i, n - 1))
  }

  lemma {:induction false} AdvanceIsModular(i: nat, n: nat)
    requires i < CNT
    ensures Advance(i, n) == (i + n) % CNT
  {
    if n > 0 {
      AdvanceIsModular(i, n - 1);
    }
  }

  /** Any multiple of CNT submissions brings the tail back to where it
      started. */
  lemma AdvanceWraps(i: nat, n: nat)
    requires i < CNT && n % CNT == 0
    ensures Advance(i, n) == i
  {
    AdvanceIsModular(i, n);
    assert (i + n) % CNT == i % CNT;
  }

  // ---------------------------------------------------------------------
  // Context and interrupt-remapping entries

  /** Page offset bits. */
  const OFFS_MASK: bv64 := 0xFFF

  /** An entry is present when bit 0 of its low half is set. */
  function Present(lo: bv64): bool
  {
    lo & 1 != 0
  }

  /** The page address held in a low half: the offset bits are cleared and
      putting them back gives the low half again. */
  function Addr(lo: bv64): (a: bv64)
    ensures a & OFFS_MASK == 0
    ensures a | (lo & OFFS_MASK) == lo
  {
    lo & !OFFS_MASK
  }

  /** High half of an interrupt-remapping entry. */
  function IrteHi(rid: bv16): bv64
  {
    0x4_0000 | (rid as bv64)
  }

  /** Low half of an interrupt-remapping entry. */
  function IrteLo(aid: bv32, vec: bv8, trg: bool): bv64
  {
    ((aid as bv64) << 40) | ((vec as bv64) << 16) | (if trg then 0x10 else 0) | 1
  }

  /** Decoding an interrupt-remapping entry gives back its fields: in the
      high half the source id (bits 15..0) with source validation type 01,
      verify the full requester id (bits 19..18); in the low half the present
      bit, the trigger mode (bit 4), the vector (bits 23..16) and the
      destination id (bits 63..40, which keep only the low 24 bits of aid).
      Every other bit is zero. */
  lemma IrteFields(rid: bv16, aid: bv32, vec: bv8, trg: bool)
    ensures (IrteHi(rid) & 0xFFFF) as bv16 == rid
    ensures (IrteHi(rid) >> 18) & 3 == 1
    ensures IrteHi(rid) >> 20 == 0 && (IrteHi(rid) >> 16) & 3 == 0
    ensures Present(IrteLo(aid, vec, trg))
    ensures IrteLo(aid, vec, trg) >> 40 == (aid as bv64) & 0xFF_FFFF
    ensures ((IrteLo(aid, vec, trg) >> 16) & 0xFF) as bv8 == vec
    ensures ((IrteLo(aid, vec, trg) >> 4) & 1 == 1) == trg
    ensures IrteLo(aid, vec, trg) & 0x0000_00FF_FF00_FFEE == 0
  {
  }
}
