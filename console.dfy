/** The console registry: every console driver that is enabled sits on one
    singly linked list, and each character printed goes to every listed
    console in list order. A console's output routine and its fini routine
    are the driver's own (virtual) code; the registry sees only the calls it
    makes to them and what fini answers. */
module Consoles {
  import opened Common

  /** A console driver as the registry sees it: its link in the list and
      whether its fini routine reports that it is done (and must leave the
      list). */
  class Console {
    var next: Console?
    const finiAnswer: bool

    constructor (fini: bool)
      ensures next == null && finiAnswer == fini
    {
      next, finiAnswer := null, fini;
    }
  }

  /** A call the registry makes into a driver. */
  datatype Call = Outc(con: Console, ch: char) | Fini(con: Console)

  /** One output call per console of s, in the order of s. */
  function OutcAll(s: seq<Console>, ch: char): (r: seq<Call>)
    ensures |r| == |s|
    ensures forall i :: 0 <= i < |s| ==> r[i] == Outc(s[i], ch)
  {
    if s == [] then [] else OutcAll(s[..|s| - 1], ch) + [Outc(s[|s| - 1], ch)]
  }

  /** One fini call per console of s, in the order of s. */
  function FiniAll(s: seq<Console>): (r: seq<Call>)
    ensures |r| == |s|
    ensures forall i :: 0 <= i < |s| ==> r[i] == Fini(s[i])
  {
    if s == [] then [] else FiniAll(s[..|s| - 1]) + [Fini(s[|s| - 1])]
  }

  /** The consoles of s whose fini does not report them done, in order. */
  function Kept(s: seq<Console>): seq<Console>
  {
    if s == [] then [] else Kept(s[..|s| - 1]) + (if s[|s| - 1].finiAnswer then [] else [s[|s| - 1]])
  }

  /** Keeping one more console. */
  lemma KeptSnoc(s: seq<Console>, x: Console)
    ensures Kept(s + [x]) == Kept(s) + if x.finiAnswer then [] else [x]
  {
    assert (s + [x])[..|s|] == s;
  }

  /** Calling fini on one more console, after the calls in c. */
  lemma FiniAllSnoc(c: seq<Call>, s: seq<Console>, x: Console)
    ensures c + FiniAll(s + [x]) == c + FiniAll(s) + [Fini(x)]
  {
    assert (s + [x])[..|s|] == s;
  }

  /** Exactly the consoles of s whose fini does not report them done are kept. */
  lemma {:induction false} KeptMembers(s: seq<Console>)
    ensures forall i :: 0 <= i < |Kept(s)| ==> Kept(s)[i] in s && !Kept(s)[i].finiAnswer
    ensures forall i :: 0 <= i < |s| && !s[i].finiAnswer ==> s[i] in Kept(s)
  {
    if s != [] {
      KeptMembers(s[..|s| - 1]);
      assert s == s[..|s| - 1] + [s[|s| - 1]];
    }
  }

  /** Cutting the first element of rest out of kept + rest. */
  lemma SpliceAt(kept: seq<Console>, rest: seq<Console>)
    requires rest != []
    ensures (kept + rest)[..|kept|] + (kept + rest)[|kept| + 1..] == kept + rest[1..]
    ensures kept + [rest[0]] + rest[1..] == kept + rest
  {
    assert rest == [rest[0]] + rest[1..];
  }

  /** n is linked through `next` in order and ends in null. */
  ghost predicate Linked(n: seq<Console>)
    reads n
  {
    && (n != [] ==> n[|n| - 1].next == null)
    && (forall i {:trigger n[i].next} :: 0 <= i < |n| - 1 ==> n[i].next == n[i + 1])
  }

  /** Following the links from two equal consoles leads to the same
      console at every step, so the earlier one would never reach null. */
  lemma {:induction false} LinkedNoRepeat(n: seq<Console>, i: nat, j: nat)
    requires Linked(n) && i < j < |n|
    ensures n[i] != n[j]
    decreases |n| - j
  {
    if j < |n| - 1 {
      LinkedNoRepeat(n, i + 1, j + 1);
      assert n[i].next == n[i + 1] && n[j].next == n[j + 1];
    } else {
      assert n[i].next == n[i + 1];
    }
  }

  /** Moving the first console of rest over to done, in the terms flush
      keeps track of. */
  lemma FlushStep(c: seq<Call>, done: seq<Console>, rest: seq<Console>)
    requires rest != []
    ensures done + rest == (done + [rest[0]]) + rest[1..]
    ensures Kept(done + [rest[0]]) == Kept(done) + if rest[0].finiAnswer then [] else [rest[0]]
    ensures c + FiniAll(done) + [Fini(rest[0])] == c + FiniAll(done + [rest[0]])
  {
    SpliceAt(done, rest);
    KeptSnoc(done, rest[0]);
    FiniAllSnoc(c, done, rest[0]);
  }

  /** Keeping only drops consoles. */
  lemma KeptWithin(done: seq<Console>, rest: seq<Console>)
    ensures forall j :: 0 <= j < |Kept(done) + rest| ==> (Kept(done) + rest)[j] in done + rest
  {
    KeptMembers(done);
  }

  /** A link cell: the list head or the link field of a console. */
  datatype Link = Head | NextOf(con: Console)

  /** The cell that holds s[k] when s is the list. */
  function CellAt(s: seq<Console>, k: nat): (cell: Link)
    requires k <= |s|
    ensures cell.NextOf? <==> k > 0
  {
    if k == 0 then Head else NextOf(s[k - 1])
  }

  /** The static list head and the calls made into drivers. The ghost
      sequence `nodes` is the list, in link order. */
  class Registry {
    var list: Console?
    ghost var nodes: seq<Console>
    ghost var calls: seq<Call>

    ghost predicate Valid()
      reads this, nodes
    {
      && (nodes == [] ==> list == null)
      && (nodes != [] ==> list == nodes[0])
      && Linked(nodes)
    }

    /** A null-terminated list never meets the same console twice. */
    lemma ValidDistinct()
      requires Valid()
      ensures Distinct(nodes)
    {
      forall i, j | 0 <= i < j < |nodes|
        ensures nodes[i] != nodes[j]
      {
        LinkedNoRepeat(nodes, i, j);
      }
    }

    constructor ()
      ensures Valid() && nodes == [] && calls == []
    {
      list, nodes, calls := null, [], [];
    }

    /** Print one character: every listed console outputs it, in list order. */
    method Putc(ch: char)
      requires Valid()
      modifies `calls
      ensures Valid() && list == old(list) && nodes == old(nodes)
      ensures calls == old(calls) + OutcAll(nodes, ch)
    {
      var l := list;
      ghost var k := 0;
      while l != null
        invariant 0 <= k <= |nodes|
        invariant l == if k < |nodes| then nodes[k] else null
        invariant calls == old(calls) + OutcAll(nodes[..k], ch)
        decreases |nodes| - k
      {
        calls := calls + [Outc(l, ch)];
        assert nodes[..k + 1] == nodes[..k] + [l];
        l := l.next;
        k := k + 1;
      }
      assert nodes[..k] == nodes;
    }

    /** A link cell the cursor can point at: the list head, or the `next`
        field of a console. */
    function Read(cell: Link): Console?
      reads this, if cell.NextOf? then {cell.con} else {}
    {
      match cell
      case Head => list
      case NextOf(p) => p.next
    }

    /** The cursor walk shared by enable and disable: starting at the list
        head, follow the links until the cell read is empty or holds
        `target`. The walk stops at the k-th cell, which holds nodes[k]. */
    method Seek(target: Console?) returns (cell: Link, ghost k: nat)
      requires Valid()
      ensures k <= |nodes| && cell == CellAt(nodes, k)
      ensures Read(cell) == if k < |nodes| then nodes[k] else null
      ensures k < |nodes| ==> nodes[k] == target
      ensures forall j :: 0 <= j < k ==> nodes[j] != target
    {
      cell, k := Head, 0;
      while Read(cell) != null && Read(cell) != target
        invariant k <= |nodes| && cell == CellAt(nodes, k)
        invariant Read(cell) == if k < |nodes| then nodes[k] else null
        invariant forall j :: 0 <= j < k ==> nodes[j] != target
        decreases |nodes| - k
      {
        cell := NextOf(Read(cell));
        k := k + 1;
      }
    }

    /** Store v in a link cell. */
    method Write(cell: Link, v: Console?)
      modifies this, if cell.NextOf? then {cell.con} else {}
      ensures Read(cell) == v
      ensures cell.Head? ==> nodes == old(nodes) && calls == old(calls)
      ensures cell.NextOf? ==> list == old(list) && nodes == old(nodes) && calls == old(calls)
    {
      match cell
      case Head => list := v;
      case NextOf(p) => p.next := v;
    }

    /** Append c at the tail: the cursor walks to the empty link and stores
        c there. A console already on the list must not be enabled again,
        and a console that was never enabled has no successor. */
    method Enable(c: Console)
      requires Valid() && c !in nodes && c.next == null
      modifies this, nodes
      ensures Valid() && nodes == old(nodes) + [c] && calls == old(calls)
    {
      var cell, k := Seek(null);
      ValidDistinct();
      assert forall i :: 0 <= i < |nodes| - 1 ==> nodes[i] != c;
      Write(cell, c);
      nodes := nodes + [c];
    }

    /** Unlink c, keeping the other consoles in order; a console that is not
        listed leaves the list as it is. c's own link is not touched. */
    method Disable(c: Console)
      requires Valid()
      modifies this, nodes
      ensures Valid() && nodes == Without(old(nodes), c) && calls == old(calls)
      ensures c.next == old(c.next)
    {
      var cell, k := Seek(c);
      if Read(cell) != null {
        ValidDistinct();
        WithoutSplices(nodes, c, k);
        Unlink(cell, k);
      } else {
        assert c !in nodes;
      }
    }

    /** Store the successor of nodes[k] in the cell that holds it. */
    method Unlink(cell: Link, ghost k: nat)
      requires Valid() && k < |nodes| && cell == CellAt(nodes, k)
      modifies this, if cell.NextOf? then {cell.con} else {}
      ensures Valid() && nodes == old(nodes[..k] + nodes[k + 1..]) && calls == old(calls)
      ensures old(nodes[k]).next == old(nodes[k].next)
    {
      ghost var n := nodes;
      ValidDistinct();
      var c := Read(cell);
      ghost var succ := c.next;
      assert k > 0 ==> forall j :: 0 <= j < |n| && j != k - 1 ==> n[j] != n[k - 1];
      Write(cell, c.next);
      nodes := n[..k] + n[k + 1..];
      forall i | 0 <= i < |nodes| - 1
        ensures nodes[i].next == nodes[i + 1]
      {
        if i + 1 < k {
          assert nodes[i] == n[i] && nodes[i + 1] == n[i + 1];
          assert old(n[i].next) == n[i + 1];
        } else if i + 1 == k {
          assert nodes[i] == n[k - 1] && nodes[i + 1] == n[k + 1] == succ;
        } else {
          assert nodes[i] == n[i + 1] && nodes[i + 1] == n[i + 2];
          assert old(n[i + 1].next) == n[i + 2];
        }
      }
    }

    /** One round of flush: `kept` are the consoles that stayed so far and
        `rest` the ones not yet visited, starting with l. Call fini on l and
        unlink l when fini reports it done. */
    method FiniOne(l: Console, ghost kept: seq<Console>, ghost rest: seq<Console>)
      returns (ghost kept': seq<Console>)
      requires Valid() && rest != [] && nodes == kept + rest && l == rest[0]
      modifies this, nodes
      ensures Valid() && nodes == kept' + rest[1..]
      ensures kept' == kept + if l.finiAnswer then [] else [l]
      ensures calls == old(calls) + [Fini(l)]
      ensures l.next == if |rest| > 1 then rest[1] else null
    {
      calls := calls + [Fini(l)];
      ghost var i := |kept|;
      assert nodes[i] == l;
      assert l.next == if i + 1 < |nodes| then nodes[i + 1] else null;
      SpliceAt(kept, rest);
      if l.finiAnswer {
        ValidDistinct();
        WithoutSplices(nodes, l, i);
        Disable(l);
        kept' := kept;
      } else {
        kept' := kept + [l];
      }
    }

    /** Call fini once on every console listed at the start, in list order,
        and unlink exactly those whose fini reports them done. */
    method Flush()
      requires Valid()
      modifies this, nodes
      ensures Valid()
      ensures nodes == Kept(old(nodes))
      ensures calls == old(calls) + FiniAll(old(nodes))
    {
      ghost var orig := nodes;
      ghost var done: seq<Console> := [];
      ghost var rest := nodes;
      var l := list;
      while l != null
        invariant Valid()
        invariant orig == done + rest && nodes == Kept(done) + rest
        invariant l == if rest != [] then rest[0] else null
        invariant calls == old(calls) + FiniAll(done)
        decreases |rest|
      {
        KeptWithin(done, rest);
        ghost var kept := FiniOne(l, Kept(done), rest);
        FlushStep(old(calls), done, rest);
        done, rest := done + [l], rest[1..];
        l := l.next;
      }
      assert done + [] == done;
    }
  }
}
