/** The kernel semaphore: a 64-bit counter and a first-in first-out queue of
    the execution contexts (ECs) blocked on it. Only the state changed under
    the semaphore's lock is modelled; blocking the scheduling context,
    arming the timeout and rescheduling happen after the lock is dropped and
    belong to the scheduler. */
module Sm {
  import opened Common

  /** An execution context as far as a semaphore sees it: whether it is
      blocked, and the status it will return to user mode with once it is
      unblocked. */
  class Ec {
    var blocked: bool
    var resume: Option<Status>

    constructor ()
      ensures !blocked && resume == None
    {
      blocked, resume := false, None;
    }
  }

  /** The state the lock protects. */
  datatype Waits = Waits(counter: nat, queue: seq<Ec>)

  /** The counter fits in 64 bits, no EC waits twice, and nobody waits while
      units are available. */
  ghost predicate Inv(w: Waits)
  {
    w.counter <= U64_MAX && Distinct(w.queue) && (w.counter > 0 ==> w.queue == [])
  }

  /** The semaphore's value in the classic sense: available units minus
      waiters. */
  function Value(w: Waits): int
  {
    w.counter - |w.queue|
  }

  /** dn by `self`: take one unit (all of them when `zero` is set), or, when
      none is available, join the tail of the queue. */
  function DnStep(w: Waits, self: Ec, zero: bool): (r: Waits)
    ensures Inv(w) && self !in w.queue ==> Inv(r)
    ensures w.counter > 0 ==> r.queue == w.queue && r.counter < w.counter
    ensures w.counter > 0 && zero ==> r == Waits(0, w.queue)
    ensures !zero || w.counter == 0 ==> Value(r) == Value(w) - 1
    ensures w.counter == 0 ==> r.counter == 0 && r.queue[..|w.queue|] == w.queue && r.queue[|w.queue|] == self
  {
    if w.counter > 0 then Waits(if zero then 0 else w.counter - 1, w.queue)
    else Waits(w.counter, w.queue + [self])
  }

  /** What up does: whether it succeeded, whom it woke, and the new state. */
  datatype UpResult = UpResult(ok: bool, woken: Option<Ec>, next: Waits)

  /** up: wake the EC at the head of the queue, or, with nobody waiting,
      add a unit unless the counter is already at its 64-bit maximum. */
  function UpStep(w: Waits): (r: UpResult)
    ensures Inv(w) ==> Inv(r.next)
    ensures r.woken.Some? <==> w.queue != []
    ensures r.woken.Some? ==> r.ok && w.queue[0] == r.woken.value && w.queue == [r.woken.value] + r.next.queue
    ensures r.ok ==> Value(r.next) == Value(w) + 1
    ensures !r.ok ==> r.next == w && w.queue == [] && w.counter >= U64_MAX
    ensures r.next.counter >= w.counter
  {
    if w.queue == [] then
      if w.counter == U64_MAX then UpResult(false, None, w)
      else UpResult(true, None, Waits(w.counter + 1, w.queue))
    else UpResult(true, Some(w.queue[0]), Waits(w.counter, w.queue[1..]))
  }

  /** timeout of `ec`, which is blocked exactly when `blocked` holds: a
      blocked EC leaves the queue, the others keep their order. */
  function TimeoutStep(w: Waits, ec: Ec, blocked: bool): (r: Waits)
    ensures !blocked ==> r == w
    ensures Inv(w) ==> Inv(r)
    ensures blocked ==> ec !in r.queue && r.counter == w.counter
    ensures blocked ==> r.queue == Without(w.queue, ec)
    ensures blocked && ec in w.queue && Distinct(w.queue) ==> Value(r) == Value(w) + 1
  {
    if !blocked then w
    else
      WithoutDistinct(w.queue, ec);
      Waits(w.counter, Without(w.queue, ec))
  }

  /** A timeout cuts the EC out at its place in the queue: the waiters
      before it and after it stay, in their order. */
  lemma TimeoutSplices(w: Waits, ec: Ec, k: nat)
    requires Inv(w) && k < |w.queue| && w.queue[k] == ec
    ensures TimeoutStep(w, ec, true) == Waits(w.counter, w.queue[..k] + w.queue[k + 1..])
  {
    WithoutSplices(w.queue, ec, k);
  }

  /** The ECs woken by n successive ups, in the order they are woken. */
  function Woken(w: Waits, n: nat): seq<Ec>
    decreases n
  {
    if n == 0 then []
    else
      var u := UpStep(w);
      (if u.woken.Some? then [u.woken.value] else []) + Woken(u.next, n - 1)
  }

  /** The queue is first in, first out: as many ups as there are waiters
      wake every waiter, in queue order. */
  lemma {:induction false} UpWakesInQueueOrder(w: Waits)
    ensures Woken(w, |w.queue|) == w.queue
    decreases |w.queue|
  {
    if w.queue != [] {
      var u := UpStep(w);
      UpWakesInQueueOrder(u.next);
    }
  }

  /** The state after each EC of `es`, in order, calls dn without `zero`. */
  function DnAll(w: Waits, es: seq<Ec>): Waits
    decreases |es|
  {
    if es == [] then w else DnAll(DnStep(w, es[0], false), es[1..])
  }

  /** With no unit available, the ECs calling dn queue up in arrival order. */
  lemma {:induction false} DnQueuesInArrivalOrder(w: Waits, es: seq<Ec>)
    requires w.counter == 0
    ensures DnAll(w, es) == Waits(0, w.queue + es)
    decreases |es|
  {
    if es != [] {
      DnQueuesInArrivalOrder(DnStep(w, es[0], false), es[1..]);
      assert w.queue + [es[0]] + es[1..] == w.queue + es;
    }
  }

  /** Hence the ECs that block on an empty semaphore are woken in the order
      they arrived. */
  lemma {:induction false} WokenInArrivalOrder(es: seq<Ec>)
    ensures Woken(DnAll(Waits(0, []), es), |es|) == es
  {
    DnQueuesInArrivalOrder(Waits(0, []), es);
    assert [] + es == es;
    UpWakesInQueueOrder(Waits(0, es));
  }

  class Sm {
    var counter: nat
    var queue: seq<Ec>
    const id: nat

    function State(): Waits
      reads this
    {
      Waits(counter, queue)
    }

    /** The lock-protected invariant, and every queued EC is blocked. */
    ghost predicate Valid()
      reads this, queue
    {
      Inv(State()) && forall e :: e in queue ==> e.blocked
    }

    constructor (c: nat, i: nat)
      requires c <= U64_MAX
      ensures Valid() && counter == c && queue == [] && id == i
    {
      counter, queue, id := c, [], i;
    }

    /** Allocate a semaphore with initial count c; `allocOk` is the answer
        of the slab allocator. A failed allocation reports INS_MEM. */
    static method Create(s: Status, c: nat, i: nat, allocOk: bool) returns (sm: Sm?, s': Status)
      requires c <= U64_MAX
      ensures sm != null <==> allocOk
      ensures sm != null ==> fresh(sm) && sm.Valid() && sm.counter == c && sm.queue == [] && sm.id == i && s' == s
      ensures sm == null ==> s' == INS_MEM
    {
      s' := s;
      if allocOk {
        sm := new Sm(c, i);
      } else {
        sm := null;
        s' := INS_MEM;
      }
    }

    /** dn by the running EC `self`, which is therefore not blocked. */
    method Dn(self: Ec, zero: bool)
      requires Valid() && !self.blocked
      modifies this, self
      ensures Valid()
      ensures State() == DnStep(old(State()), self, zero)
      ensures self.blocked <==> old(counter) == 0
      ensures self.resume == old(self.resume)
    {
      if counter > 0 {
        counter := if zero then 0 else counter - 1;
        return;
      }
      self.blocked := true;
      queue := queue + [self];
    }

    /** up: the woken EC resumes with SUCCESS. */
    method Up() returns (ok: bool)
      requires Valid()
      modifies this, queue
      ensures Valid()
      ensures ok == UpStep(old(State())).ok && State() == UpStep(old(State())).next
      ensures old(queue) != [] ==> !old(queue)[0].blocked && old(queue)[0].resume == Some(SUCCESS)
      ensures forall e :: e in old(queue) && e != old(queue)[0] ==> e.blocked && e.resume == old(e.resume)
    {
      if queue == [] {
        if counter == U64_MAX {
          return false;
        }
        counter := counter + 1;
        return true;
      }
      var ec := queue[0];
      queue := queue[1..];
      ec.blocked := false;
      ec.resume := Some(SUCCESS);
      ok := true;
    }

    /** The timeout armed by ec's dn on this semaphore expired. The timeout
        belongs to this semaphore, so a blocked ec waits in this queue. An EC
        that was woken in the meantime is left alone; otherwise it leaves the
        queue and resumes with TIMEOUT. */
    method Timeout(ec: Ec)
      requires Valid() && (ec.blocked ==> ec in queue)
      modifies this, ec
      ensures Valid()
      ensures State() == TimeoutStep(old(State()), ec, old(ec.blocked))
      ensures !ec.blocked
      ensures ec.resume == if old(ec.blocked) then Some(TIMEOUT) else old(ec.resume)
    {
      if !ec.blocked {
        return;
      }
      WithoutDistinct(queue, ec);
      queue := Without(queue, ec);
      ec.blocked := false;
      ec.resume := Some(TIMEOUT);
    }
  }
}
