/** The state the x86 "SMMU" driver keeps across all remapping units. */
module SmmuUnits {
  import opened SmmuRegs
  import opened Smmu

  // ---------------------------------------------------------------------
  // All units

  /** Position of the first unit with the given register base, |list| if none. */
  function IndexOfBase(list: seq<Unit>, p: bv64): (k: nat)
    ensures k <= |list|
    ensures forall j :: 0 <= j < k ==> list[j].physBase != p
    ensures k < |list| ==> list[k].physBase == p
  {
    if list == [] then 0
    else if list[0].physBase == p then 0
    else 1 + IndexOfBase(list[1..], p)
  }

  /** The state the driver shares between units: the units in discovery
      order, whether interrupt remapping is on, and the two tables. */
  class Units {
    var list: seq<Unit>
    var ir: bool
    const ctx: EntryTable
    const irt: EntryTable

    ghost predicate Valid()
      reads this, list, irt
    {
      && irt.Valid()
      && (forall i :: 0 <= i < |list| ==> list[i].Valid())
      && (forall i :: 0 <= i < |list| ==> list[i].invq as object != irt.lo && list[i].invq as object != irt.hi)
      && (forall i, j :: 0 <= i < |list| && 0 <= j < |list| && i != j ==> list[i] != list[j] && list[i].invq != list[j].invq)
    }

    constructor ()
      ensures Valid() && list == [] && !ir
      ensures fresh(ctx) && fresh(irt) && irt.lo.Length == 256 && ctx.lo.Length == 256
    {
      list, ir := [], false;
      ctx := new EntryTable(256);
      irt := new EntryTable(256);
    }

    /** The first unit whose register base is p, or null. */
    method Lookup(p: bv64) returns (r: Unit?)
      ensures r == null <==> forall j :: 0 <= j < |list| ==> list[j].physBase != p
      ensures r != null ==> r == list[IndexOfBase(list, p)] && r.physBase == p
    {
      var k := 0;
      while k < |list|
        invariant k <= |list|
        invariant forall j :: 0 <= j < k ==> list[j].physBase != p
      {
        if list[k].physBase == p {
          return list[k];
        }
        k := k + 1;
      }
      return null;
    }

    /** Program interrupt-remapping entry i, then invalidate the interrupt
        entry cache of every unit. Nothing happens without remapping. */
    method SetIrt(i: nat, rid: bv16, aid: bv32, vec: bv8, trg: bool)
      requires Valid() && i < irt.lo.Length
      requires ir ==> forall u :: u in list ==> HasQi(u.ecap)
      modifies irt, irt.lo, irt.hi, list, set u | u in list :: u.invq
      ensures Valid()
      ensures !ir ==> unchanged(irt, irt.lo, irt.hi)
      ensures !ir ==> forall u :: u in list ==> unchanged(u) && unchanged(u.invq)
      ensures ir ==> irt.lo[..] == old(irt.lo[..])[i := IrteLo(aid, vec, trg)]
      ensures ir ==> irt.hi[..] == old(irt.hi[..])[i := IrteHi(rid)]
      ensures ir ==> irt.stores == old(irt.stores) + [StoreHi(i, IrteHi(rid)), StoreLo(i, IrteLo(aid, vec, trg)), Clean(i)]
      ensures ir ==> forall u :: u in list ==> IecInvalidated(u)
    {
      if !ir {
        return;
      }
      irt.Set(i, IrteHi(rid), IrteLo(aid, vec, trg));
      InvalidateIecAll();
    }

    /** Invalidate the interrupt entry cache of every unit, in list order. */
    method InvalidateIecAll()
      requires Valid()
      requires forall u :: u in list ==> HasQi(u.ecap)
      modifies list, set u | u in list :: u.invq
      ensures Valid()
      ensures forall u :: u in list ==> IecInvalidated(u)
    {
      var k := 0;
      while k < |list|
        invariant k <= |list|
        invariant Valid()
        invariant forall j :: 0 <= j < k ==> IecInvalidated(list[j])
        invariant forall j :: k <= j < |list| ==> unchanged(list[j]) && unchanged(list[j].invq)
      {
        list[k].InvalidateIec();
        k := k + 1;
      }
    }
  }

  /** Unit u has had exactly one global interrupt-entry-cache invalidation
      queued and completed since the previous state. */
  twostate predicate IecInvalidated(u: Unit)
    reads u, u.invq
  {
    && old(u.invqIdx) < CNT && u.invq.Length == CNT
    && u.invqIdx == NextIdx(old(u.invqIdx))
    && u.invq[..] == old(u.invq[..])[old(u.invqIdx) := QiIec()]
    && u.log == old(u.log) + [Write64(IQT, TailReg(u.invqIdx)), PollEqual64(IQH, IQT)]
    && u.Reg64(IQH) == u.Reg64(IQT)
    && u.ecap == old(u.ecap) && u.cap == old(u.cap)
  }
}
