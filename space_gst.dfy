/** The guest-physical address space of a virtual machine on x86: an extended
    page table (EPT) plus the set of processors whose guest TLB entries may be
    stale. The page-table walker itself is a collaborator whose requests and
    answers are recorded, not interpreted. */
module SpaceGst {
  import opened Common
  import Npt

  /** Powers of a natural number. */
  function Power(b: nat, n: nat): nat
  {
    if n == 0 then 1 else b * Power(b, n - 1)
  }

  /** Number of guest pages the tree spans, BIT64(lev * bpl), for a tree of
      lev levels that each resolve bpl address bits. */
  function Num(lev: nat, bpl: nat): nat
    requires lev * bpl < 64
  {
    Pow2(lev * bpl)
  }

  /** Each level multiplies the reach by the 2^bpl entries of a table. */
  lemma {:induction false} NumIsTableFanOut(lev: nat, bpl: nat)
    requires lev * bpl < 64
    ensures Num(lev, bpl) == Power(Pow2(bpl), lev)
  {
    if lev > 0 {
      NumIsTableFanOut(lev - 1, bpl);
      assert lev * bpl == bpl + (lev - 1) * bpl;
      Pow2Add(bpl, (lev - 1) * bpl);
    }
  }

  /** The page count fits in the 64-bit constant. */
  lemma NumFits(lev: nat, bpl: nat)
    requires lev * bpl < 64
    ensures 1 <= Num(lev, bpl) <= U64_MAX
  {
    Pow2Monotone(lev * bpl, 63);
    Pow2SixtyThree();
  }

  /** A request the address space passes to its page-table walker. */
  datatype EptRequest =
    | EptRootInit(fill: bool)
    | EptUpdate(v: nat, p: nat, o: nat, pm: set<Npt.Perm>, ca: nat, sh: bv2)
    | EptInvalidate

  /** The EPT root (ptab_ept.hpp is not part of this model): the root
      address and the requests it has received. */
  class Eptp {
    var root: nat
    ghost var requests: seq<EptRequest>

    constructor ()
      ensures root == 0 && requests == []
    {
      root, requests := 0, [];
    }
  }

  /** A slab cache, counting the objects it has handed out. */
  class SlabCache {
    var live: nat

    constructor ()
      ensures live == 0
    {
      live := 0;
    }
  }

  /** The processor set with every one of the n processors in it. */
  function AllCpus(n: nat): (cpus: set<nat>)
    ensures forall c: nat :: c in cpus <==> c < n
  {
    if n == 0 then {} else AllCpus(n - 1) + {n - 1}
  }

  /** What the address space asks of other parts of the kernel. */
  datatype Event = Shootdown(cpus: set<nat>)

  class SpaceGst {
    const eptp: Eptp
    var gtlb: set<nat>
    ghost var events: seq<Event>

    constructor (e: Eptp)
      ensures eptp == e && gtlb == {} && events == []
    {
      eptp, gtlb, events := e, {}, [];
    }

    /** Allocate an address space from the cache and give it a root table.
        `slabOk` and `rootOk` are the answers of the slab allocator and of
        the walker's root allocation. On failure nothing stays allocated and
        the status is INS_MEM; on success the status is left as it was. */
    static method Create(s: Status, cache: SlabCache, slabOk: bool, rootOk: bool, rootAddr: nat)
      returns (gst: SpaceGst?, s': Status)
      modifies cache
      ensures gst != null <==> slabOk && rootOk
      ensures gst == null ==> s' == INS_MEM && cache.live == old(cache.live)
      ensures gst != null ==> s' == s && cache.live == old(cache.live) + 1
      ensures gst != null ==> fresh(gst) && fresh(gst.eptp) && gst.gtlb == {} && gst.events == []
      ensures gst != null ==> gst.eptp.root == rootAddr && gst.eptp.requests == [EptRootInit(false)]
    {
      s' := s;
      if slabOk {
        cache.live := cache.live + 1;
        var e := new Eptp();
        gst := new SpaceGst(e);
        e.requests := e.requests + [EptRootInit(false)];
        if rootOk {
          e.root := rootAddr;
          return gst, s';
        }
        cache.live := cache.live - 1;
      }
      s' := INS_MEM;
      gst := null;
    }

    /** Free the address space back to its cache. */
    method Destroy(cache: SlabCache)
      requires cache.live > 0
      modifies cache
      ensures cache.live == old(cache.live) - 1
    {
      cache.live := cache.live - 1;
    }

    /** Ask the walker to map p at guest address v with order o and the given
        attributes; the walker's answer is the result. */
    method Update<E>(v: nat, p: nat, o: nat, pm: set<Npt.Perm>, ca: nat, sh: bv2, answer: E) returns (r: E)
      modifies eptp
      ensures r == answer
      ensures eptp.requests == old(eptp.requests) + [EptUpdate(v, p, o, pm, ca, sh)]
      ensures eptp.root == old(eptp.root)
    {
      eptp.requests := eptp.requests + [EptUpdate(v, p, o, pm, ca, sh)];
      r := answer;
    }

    /** Mark the guest TLB of every processor stale, then shoot them down. */
    method Sync(numCpus: nat)
      modifies this
      ensures gtlb == AllCpus(numCpus)
      ensures events == old(events) + [Shootdown(gtlb)]
    {
      gtlb := AllCpus(numCpus);
      events := events + [Shootdown(gtlb)];
    }

    /** Invalidate the EPT translations cached by this processor. */
    method Invalidate()
      modifies eptp
      ensures eptp.requests == old(eptp.requests) + [EptInvalidate]
      ensures eptp.root == old(eptp.root)
    {
      eptp.requests := eptp.requests + [EptInvalidate];
    }

    /** The physical address of the root table. */
    method GetPhys() returns (r: nat)
      ensures r == eptp.root
    {
      r := eptp.root;
    }
  }
}
