/** A VT-d remapping unit of the kernel's x86 "SMMU" driver. Its
    memory-mapped registers are modelled as maps from register offset to
    value plus the ordered list of writes and polls the driver performs; the
    invalidation queue is an array of 128-bit descriptors in memory that the
    unit consumes. Context entries and interrupt-remapping entries live in
    tables in plain memory. */
module Smmu {
  import opened SmmuRegs

  datatype Store = StoreHi(index: nat, value: bv64) | StoreLo(index: nat, value: bv64) | Clean(index: nat)

  /** A table of 128-bit entries (the context table or the interrupt
      remapping table). Stores are recorded in the order memory sees them,
      followed by the cache-line clean, since the unit may not snoop caches. */
  class EntryTable {
    const lo: array<bv64>
    const hi: array<bv64>
    ghost var stores: seq<Store>

    ghost predicate Valid()
      reads this
    {
      lo != hi && lo.Length == hi.Length
    }

    /** A zero-filled page of entries. */
    constructor (n: nat)
      ensures Valid() && fresh(lo) && fresh(hi) && lo.Length == n && stores == []
      ensures forall k :: 0 <= k < n ==> lo[k] == 0 && hi[k] == 0
    {
      lo := new bv64[n](_ => 0);
      hi := new bv64[n](_ => 0);
      stores := [];
    }

    /** Write entry i: high half first, then the low half carrying the
      present bit, then clean the line. */
    method Set(i: nat, h: bv64, l: bv64)
      requires Valid() && i < lo.Length
      modifies this, lo, hi
      ensures Valid()
      ensures lo[..] == old(lo[..])[i := l] && hi[..] == old(hi[..])[i := h]
      ensures stores == old(stores) + [StoreHi(i, h), StoreLo(i, l), Clean(i)]
    {
      hi[i] := h;
      stores := stores + [StoreHi(i, h)];
      lo[i] := l;
      stores := stores + [StoreLo(i, l)];
      stores := stores + [Clean(i)];
    }
  }

  // ---------------------------------------------------------------------
  // A remapping unit

  /** Register accesses in program order. A poll spins until its condition
      holds; the hardware is assumed to get there. */
  datatype Access =
    | Write32(off: nat, val32: bv32)
    | Write64(off: nat, val64: bv64)
    | PollSet32(off: nat, mask32: bv32)    // until (reg & mask) != 0
    | PollClear64(off: nat, mask64: bv64)  // until (reg & mask) == 0
    | PollEqual64(off: nat, other: nat)   // until reg(off) == reg(other)

  /** The queue tail register value for tail index i. */
  function TailReg(i: nat): bv64
    requires i < CNT
  {
    (i as bv64) << 4
  }

  class Unit {
    const physBase: bv64
    var cap: bv64
    var ecap: bv64
    var invqIdx: nat
    const invq: array<QiDesc>
    var regs32: map<nat, bv32>
    var regs64: map<nat, bv64>
    ghost var log: seq<Access>

    ghost predicate Valid()
      reads this
    {
      invq.Length == CNT && invqIdx < CNT
    }

    function Reg32(off: nat): bv32
      reads this
    {
      if off in regs32 then regs32[off] else 0
    }

    function Reg64(off: nat): bv64
      reads this
    {
      if off in regs64 then regs64[off] else 0
    }

    constructor (phys: bv64, c: bv64, e: bv64)
      ensures Valid() && fresh(invq)
      ensures physBase == phys && cap == c && ecap == e
      ensures invqIdx == 0 && regs32 == map[] && regs64 == map[] && log == []
    {
      physBase, cap, ecap := phys, c, e;
      invqIdx := 0;
      invq := new QiDesc[CNT](_ => QiDesc(0, 0));
      regs32, regs64, log := map[], map[], [];
    }

    method WriteReg32(off: nat, v: bv32)
      modifies this
      ensures regs32 == old(regs32)[off := v] && regs64 == old(regs64)
      ensures log == old(log) + [Write32(off, v)]
      ensures invqIdx == old(invqIdx) && cap == old(cap) && ecap == old(ecap)
    {
      regs32 := regs32[off := v];
      log := log + [Write32(off, v)];
    }

    method WriteReg64(off: nat, v: bv64)
      modifies this
      ensures regs64 == old(regs64)[off := v] && regs32 == old(regs32)
      ensures log == old(log) + [Write64(off, v)]
      ensures invqIdx == old(invqIdx) && cap == old(cap) && ecap == old(ecap)
    {
      regs64 := regs64[off := v];
      log := log + [Write64(off, v)];
    }

    /** Read fault record frr and clear its fault bit (bit 127 of the
        record) by writing it back. */
    method ReadFault(frr: bv32) returns (hi: bv64, lo: bv64)
      modifies this
      ensures lo == old(Reg64(FaultRecord(cap, frr, 0)))
      ensures hi == old(Reg64(FaultRecord(cap, frr, 8)))
      ensures regs64 == old(regs64)[FaultRecord(cap, frr, 8) := BIT63] && regs32 == old(regs32)
      ensures log == old(log) + [Write64(FaultRecord(cap, frr, 8), BIT63)]
      ensures invqIdx == old(invqIdx) && cap == old(cap) && ecap == old(ecap)
    {
      lo := Reg64(FaultRecord(cap, frr, 0));
      hi := Reg64(FaultRecord(cap, frr, 8));
      WriteReg64(FaultRecord(cap, frr, 8), BIT63);
    }

    /** Issue one global command and wait until the status register shows it. */
    method Command(c: Cmd)
      modifies this
      ensures log == old(log) + [Write32(GCMD, GcmdValue(old(Reg32(GSTS)), c)), PollSet32(GSTS, CmdBit(c))]
      ensures regs32 == old(regs32)[GCMD := GcmdValue(old(Reg32(GSTS)), c)][GSTS := StatusWith(old(Reg32(GSTS)), c)]
      ensures regs64 == old(regs64)
      ensures invqIdx == old(invqIdx) && cap == old(cap) && ecap == old(ecap)
    {
      var gsts := Reg32(GSTS);
      var v := GcmdValue(gsts, c);
      // write GCMD, then spin until the hardware sets the status bit
      regs32 := regs32[GCMD := v][GSTS := StatusWith(gsts, c)];
      log := log + [Write32(GCMD, v), PollSet32(GSTS, CmdBit(c))];
    }

    /** Put a descriptor at the tail, advance the tail and tell the unit. */
    method QiSubmit(q: QiDesc)
      requires Valid()
      modifies this, invq
      ensures Valid()
      ensures invq[..] == old(invq[..])[old(invqIdx) := q]
      ensures invqIdx == NextIdx(old(invqIdx))
      ensures regs64 == old(regs64)[IQT := TailReg(invqIdx)] && regs32 == old(regs32)
      ensures log == old(log) + [Write64(IQT, TailReg(invqIdx))]
      ensures cap == old(cap) && ecap == old(ecap)
    {
      invq[invqIdx] := q;
      invqIdx := (invqIdx + 1) % CNT;
      WriteReg64(IQT, TailReg(invqIdx));
    }

    /** Wait until the unit has consumed every submitted descriptor: the head
        catches up with the tail read on entry. */
    method QiWait()
      modifies this
      ensures Reg64(IQH) == old(Reg64(IQT)) && Reg64(IQT) == old(Reg64(IQT))
      ensures regs64 == old(regs64)[IQH := old(Reg64(IQT))] && regs32 == old(regs32)
      ensures log == old(log) + [PollEqual64(IQH, IQT)]
      ensures invqIdx == old(invqIdx) && cap == old(cap) && ecap == old(ecap)
    {
      var v := Reg64(IQT);
      log := log + [PollEqual64(IQH, IQT)];
      regs64 := regs64[IQH := v];
    }

    /** Invalidate the context cache and then the IOTLB, through the queue
        when the unit supports it and through the command registers otherwise. */
    method InvalidateCtx()
      requires Valid()
      modifies this, invq
      ensures Valid() && cap == old(cap) && ecap == old(ecap)
      ensures HasQi(ecap) ==>
        && invq[..] == old(invq[..])[old(invqIdx) := QiCtx()][NextIdx(old(invqIdx)) := QiTlb()]
        && invqIdx == NextIdx(NextIdx(old(invqIdx)))
        && Reg64(IQH) == TailReg(invqIdx) && Reg64(IQT) == Reg64(IQH)
        && log == old(log) + [Write64(IQT, TailReg(NextIdx(old(invqIdx)))),
                              Write64(IQT, TailReg(invqIdx)),
                              PollEqual64(IQH, IQT)]
      ensures !HasQi(ecap) ==>
        && invq[..] == old(invq[..]) && invqIdx == old(invqIdx)
        && log == old(log) + [Write64(CCMD, CcmdGlobal()), PollClear64(CCMD, BIT63),
                              Write64(IotlbReg(ecap), IotlbGlobal()),
                              PollClear64(IotlbReg(ecap), BIT63)]
    {
      if HasQi(ecap) {
        QiSubmit(QiCtx());
        QiSubmit(QiTlb());
        QiWait();
      } else {
        RegisterInvalidate(CCMD, CcmdGlobal());
        RegisterInvalidate(IotlbReg(ecap), IotlbGlobal());
      }
    }

    /** Write an invalidation command to a 64-bit register and spin until the
        hardware clears its busy bit (bit 63); the model clears it. */
    method RegisterInvalidate(off: nat, v: bv64)
      modifies this
      ensures regs64 == old(regs64)[off := ClearBusy(v)] && regs32 == old(regs32)
      ensures log == old(log) + [Write64(off, v), PollClear64(off, BIT63)]
      ensures invqIdx == old(invqIdx) && cap == old(cap) && ecap == old(ecap)
    {
      regs64 := regs64[off := v];
      log := log + [Write64(off, v)];
      regs64 := regs64[off := ClearBusy(v)];
      log := log + [PollClear64(off, BIT63)];
    }

    /** Invalidate the interrupt entry cache through the queue. Interrupt
        remapping is only turned on for units that support queued
        invalidation, which is what the precondition states. */
    method InvalidateIec()
      requires Valid() && HasQi(ecap)
      modifies this, invq
      ensures Valid() && cap == old(cap) && ecap == old(ecap)
      ensures invq[..] == old(invq[..])[old(invqIdx) := QiIec()]
      ensures invqIdx == NextIdx(old(invqIdx))
      ensures Reg64(IQH) == TailReg(invqIdx) && Reg64(IQT) == Reg64(IQH)
      ensures log == old(log) + [Write64(IQT, TailReg(invqIdx)), PollEqual64(IQH, IQT)]
    {
      QiSubmit(QiIec());
      QiWait();
    }
  }
}
