/** Stage-2 (nested) page-table entries of the Arm VMSAv8-64 translation regime
    and the per-processor tracking of the loaded translation root (VTTBR_EL2).

    An entry is a 64-bit descriptor. The codec maps an abstract leaf mapping
    (level, permissions, memory attributes, shareability) to a descriptor and
    decodes descriptors back; FEAT_XNX splits execute-never into two bits. */
module Npt {
  import opened Common

  type Entry = bv64

  // Descriptor bits
  const ATTR_P:   bv64 := 0x0000_0000_0000_0001  // bit 0: present (valid)
  const ATTR_nL:  bv64 := 0x0000_0000_0000_0002  // bit 1: not large (table or page)
  const ATTR_R:   bv64 := 0x0000_0000_0000_0040  // bit 6: readable (S2AP[0])
  const ATTR_W:   bv64 := 0x0000_0000_0000_0080  // bit 7: writable (S2AP[1])
  const ATTR_A:   bv64 := 0x0000_0000_0000_0400  // bit 10: accessed flag
  const ATTR_nX0: bv64 := 0x0020_0000_0000_0000  // bit 53: execute-never, low bit of XN[1:0]
  const ATTR_nX1: bv64 := 0x0040_0000_0000_0000  // bit 54: execute-never, high bit of XN[1:0]
  const ATTR_K:   bv64 := 0x0080_0000_0000_0000  // bit 55: kernel memory (software bit)

  /** Output address bits 47..12. */
  const ADDR_MASK: bv64 := 0x0000_FFFF_FFFF_F000

  /** The permission flags a mapping request can carry. */
  datatype Perm = R | W | XU | XS | U | K | G

  /** The access permissions proper: read, write, user and supervisor execute. */
  const API: set<Perm> := {R, W, XU, XS}

  /** The permissions a stage-2 descriptor can record. */
  const DECODED: set<Perm> := {K, XS, XU, W, R}

  /** The value of `mask * b` for a boolean b. */
  function Flag(b: bool, mask: bv64): bv64
  {
    if b then mask else 0
  }

  /** A block (large) descriptor: present, not a table, above the last level. */
  predicate IsLarge(e: Entry, l: nat)
  {
    l != 0 && e & (ATTR_nL | ATTR_P) == ATTR_P
  }

  /** A table descriptor; the root level `lev` always holds a table. */
  predicate IsTable(e: Entry, l: nat, lev: nat)
  {
    l == lev || (l != 0 && e & (ATTR_nL | ATTR_P) == (ATTR_nL | ATTR_P))
  }

  /** Attributes of an entry that refers to a next-level table. */
  function PtabAttr(): (e: Entry)
    ensures e & ADDR_MASK == 0
    ensures forall l: nat, lev: nat {:trigger IsTable(e, l, lev)} :: l > 0 ==> IsTable(e, l, lev) && !IsLarge(e, l)
  {
    ATTR_nL | ATTR_P
  }

  /** Attributes of an entry that maps a page or block at level l. `s2` is the
      4-bit stage-2 MemAttr value chosen for the cacheability, `xnx` tells
      whether the processor implements FEAT_XNX. */
  function PageAttr(l: nat, pm: set<Perm>, s2: bv4, sh: bv2, xnx: bool): (e: Entry)
    ensures pm * API == {} ==> e == 0
    ensures pm * API != {} ==> e & ATTR_P != 0 && e & ATTR_A != 0 && (e & ATTR_nL != 0 <==> l == 0)
    ensures e & ADDR_MASK == 0
  {
    var nxs := XS !in pm;
    var nxu := XU !in pm;
    if pm * API == {} then 0
    else
      Flag(K in pm, ATTR_K)
      | Flag((nxs && nxu) || (xnx && nxu), ATTR_nX1)
      | Flag(nxs != nxu && xnx, ATTR_nX0)
      | Flag(W in pm, ATTR_W)
      | Flag(R in pm, ATTR_R)
      | ((sh as bv64) << 8)
      | ((s2 as bv64) << 2)
      | Flag(l == 0, ATTR_nL)
      | ATTR_A
      | ATTR_P
  }

  /** The permissions recorded in an entry; a zero entry grants nothing. */
  function PagePm(e: Entry): (pm: set<Perm>)
    ensures pm <= DECODED
    ensures e == 0 ==> pm == {}
  {
    if e == 0 then {}
    else
      (if e & ATTR_K != 0 then {K} else {})
      + (if (e & ATTR_nX1 == 0) == (e & ATTR_nX0 == 0) then {XS} else {})
      + (if e & ATTR_nX1 == 0 then {XU} else {})
      + (if e & ATTR_W != 0 then {W} else {})
      + (if e & ATTR_R != 0 then {R} else {})
  }

  /** The cacheability recorded in an entry: MemAttr[1:0], plus 4 when
      MemAttr[3:2] (descriptor bits 5..4) is non-zero. */
  function PageCa(e: Entry): (ca: nat)
    ensures ca < 8
  {
    (if e & 0x30 != 0 then 4 else 0) + (((e >> 2) & 3) as nat)
  }

  /** The shareability field, descriptor bits 9..8. */
  function PageSh(e: Entry): (sh: bv2)
  {
    ((e >> 8) & 3) as bv2
  }

  /** What PageCa reads back from a 4-bit MemAttr value. */
  function CaOfMemAttr(s2: bv4): nat
  {
    (if s2 & 0xC != 0 then 4 else 0) + ((s2 & 3) as nat)
  }

  // ---------------------------------------------------------------------
  // Properties of the codec

  /** A page or block entry below the root level is large exactly above the
      last level, and never a table; at the last level it is neither. */
  lemma PageAttrKind(l: nat, lev: nat, pm: set<Perm>, s2: bv4, sh: bv2, xnx: bool)
    requires pm * API != {}
    requires l < lev
    ensures l > 0 ==> IsLarge(PageAttr(l, pm, s2, sh, xnx), l) && !IsTable(PageAttr(l, pm, s2, sh, xnx), l, lev)
    ensures l == 0 ==> !IsLarge(PageAttr(l, pm, s2, sh, xnx), l) && !IsTable(PageAttr(l, pm, s2, sh, xnx), l, lev)
  {
  }

  /** With FEAT_XNX, decoding recovers exactly the K, XS, XU, W and R flags. */
  lemma RoundTripXnx(l: nat, pm: set<Perm>, s2: bv4, sh: bv2)
    requires pm * API != {}
    ensures PagePm(PageAttr(l, pm, s2, sh, true)) == pm * DECODED
  {
    var e := PageAttr(l, pm, s2, sh, true);
    assert e != 0;
    assert (e & ATTR_K != 0) == (K in pm);
    assert (e & ATTR_W != 0) == (W in pm);
    assert (e & ATTR_R != 0) == (R in pm);
    assert (e & ATTR_nX1 != 0) == (XU !in pm);
    assert (e & ATTR_nX0 != 0) == ((XS in pm) != (XU in pm));
  }

  /** Without FEAT_XNX the two execute rights are merged: both decode as
      "user or supervisor execute was requested". */
  lemma ExecuteCollapsesWithoutXnx(l: nat, pm: set<Perm>, s2: bv4, sh: bv2)
    requires pm * API != {}
    ensures var d := PagePm(PageAttr(l, pm, s2, sh, false));
      && (XS in d <==> XS in pm || XU in pm)
      && (XU in d <==> XS in pm || XU in pm)
      && d * {K, W, R} == pm * {K, W, R}
  {
    var e := PageAttr(l, pm, s2, sh, false);
    assert e != 0;
    assert e & ATTR_nX0 == 0;
    assert (e & ATTR_nX1 != 0) == (XS !in pm && XU !in pm);
    assert (e & ATTR_K != 0) == (K in pm);
    assert (e & ATTR_W != 0) == (W in pm);
    assert (e & ATTR_R != 0) == (R in pm);
  }

  /** The (nX1, nX0) pair written for each combination of execute rights. */
  lemma ExecuteNeverBits(l: nat, pm: set<Perm>, s2: bv4, sh: bv2)
    requires pm * API != {}
    ensures var e := PageAttr(l, pm, s2, sh, true);
      var nX1 := e & ATTR_nX1 != 0;
      var nX0 := e & ATTR_nX0 != 0;
      && (XS in pm && XU in pm ==> !nX1 && !nX0)
      && (XS in pm && XU !in pm ==> nX1 && nX0)
      && (XS !in pm && XU in pm ==> !nX1 && nX0)
      && (XS !in pm && XU !in pm ==> nX1 && !nX0)
  {
  }

  /** Shareability and memory type survive the encoding. */
  lemma AttributesRoundTrip(l: nat, pm: set<Perm>, s2: bv4, sh: bv2, xnx: bool)
    requires pm * API != {}
    ensures PageSh(PageAttr(l, pm, s2, sh, xnx)) == sh
    ensures PageCa(PageAttr(l, pm, s2, sh, xnx)) == CaOfMemAttr(s2)
  {
    var e := PageAttr(l, pm, s2, sh, xnx);
    assert (e >> 8) & 3 == sh as bv64;
    assert (e >> 2) & 3 == (s2 & 3) as bv64;
    assert (e & 0x30 != 0) == (s2 & 0xC != 0);
  }

  // ---------------------------------------------------------------------
  // Translation root

  /** The VTTBR_EL2 value: VMID in bits 63..48, root table address below. */
  function Vttbr(vmid: bv16, root: bv64): bv64
  {
    ((vmid as bv64) << 48) | root
  }

  /** The VMID and the root address can be read back from a VTTBR value. */
  lemma VttbrFields(vmid: bv16, root: bv64)
    requires root & !ADDR_MASK == 0
    ensures Vttbr(vmid, root) >> 48 == vmid as bv64
    ensures Vttbr(vmid, root) & ADDR_MASK == root
  {
  }

  /** For a root address within ADDR_MASK, the VTTBR value determines both the
      VMID and the root, so an equal cached value means the same guest. */
  lemma VttbrInjective(v1: bv16, r1: bv64, v2: bv16, r2: bv64)
    requires r1 & !ADDR_MASK == 0 && r2 & !ADDR_MASK == 0
    ensures Vttbr(v1, r1) == Vttbr(v2, r2) ==> v1 == v2 && r1 == r2
  {
    VttbrFields(v1, r1);
    VttbrFields(v2, r2);
  }

  /** Hardware operations a processor performs for the translation root. */
  datatype HwOp = WriteVttbr(value: bv64) | Isb | DsbIshst | TlbiVmalls12e1is | DsbIsh

  /** The per-processor slot: the cached "currently loaded" value and the
      VTTBR_EL2 register itself, with the operations issued so far. */
  class CpuSlot {
    var current: bv64
    var vttbr: bv64
    ghost var ops: seq<HwOp>

    /** The cache is either reset or agrees with the register. */
    ghost predicate Valid()
      reads this
    {
      current == 0 || current == vttbr
    }

    constructor (reg: bv64)
      ensures Valid() && current == 0 && vttbr == reg && ops == []
    {
      current, vttbr, ops := 0, reg, [];
    }
  }

  class Nptp {
    /** Physical address of the root table. */
    const rootAddr: bv64

    constructor (root: bv64)
      ensures rootAddr == root
    {
      rootAddr := root;
    }

    /** Load this root with the given VMID unless the processor already has it. */
    method MakeCurrent(cpu: CpuSlot, vmid: bv16)
      requires cpu.Valid()
      modifies cpu
      ensures cpu.Valid()
      ensures cpu.current == Vttbr(vmid, rootAddr)
      ensures Vttbr(vmid, rootAddr) != 0 ==> cpu.vttbr == Vttbr(vmid, rootAddr)
      ensures old(cpu.current) == Vttbr(vmid, rootAddr) ==> cpu.vttbr == old(cpu.vttbr) && cpu.ops == old(cpu.ops)
      ensures old(cpu.current) != Vttbr(vmid, rootAddr) ==>
        cpu.vttbr == Vttbr(vmid, rootAddr) && cpu.ops == old(cpu.ops) + [WriteVttbr(Vttbr(vmid, rootAddr)), Isb]
    {
      var v := Vttbr(vmid, rootAddr);
      if cpu.current != v {
        cpu.current := v;
        cpu.vttbr := v;
        cpu.ops := cpu.ops + [WriteVttbr(v), Isb];
      }
    }

    /** Make the root current, then invalidate the guest's TLB entries: stores
        complete, invalidate by VMID, invalidation complete, resynchronise. */
    method Invalidate(cpu: CpuSlot, vmid: bv16)
      requires cpu.Valid()
      modifies cpu
      ensures cpu.Valid()
      ensures cpu.current == Vttbr(vmid, rootAddr)
      ensures Vttbr(vmid, rootAddr) != 0 ==> cpu.vttbr == Vttbr(vmid, rootAddr)
      ensures cpu.ops == old(cpu.ops)
        + (if old(cpu.current) == Vttbr(vmid, rootAddr) then [] else [WriteVttbr(Vttbr(vmid, rootAddr)), Isb])
        + [DsbIshst, TlbiVmalls12e1is, DsbIsh, Isb]
    {
      MakeCurrent(cpu, vmid);
      cpu.ops := cpu.ops + [DsbIshst, TlbiVmalls12e1is, DsbIsh, Isb];
    }

    /** Forget the loaded root (the register is not preserved across resume). */
    static method Init(cpu: CpuSlot)
      modifies cpu
      ensures cpu.Valid()
      ensures cpu.current == 0 && cpu.vttbr == old(cpu.vttbr) && cpu.ops == old(cpu.ops)
    {
      cpu.current := 0;
    }
  }

  /** Two consecutive loads of the same guest reload the register once. */
  method MakeCurrentTwice(p: Nptp, cpu: CpuSlot, vmid: bv16)
    requires cpu.Valid()
    modifies cpu
    ensures |cpu.ops| <= |old(cpu.ops)| + 2
  {
    p.MakeCurrent(cpu, vmid);
    ghost var mid := cpu.ops;
    p.MakeCurrent(cpu, vmid);
    assert cpu.ops == mid;
  }
}
