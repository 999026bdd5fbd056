/** Types shared by several kernel objects: the status codes that system calls
    report, an optional value, and powers of two. */
module Common {

  /** The status codes used by the modelled objects (the full list of the
      kernel's status codes is larger; only these are produced here). */
  datatype Status = SUCCESS | TIMEOUT | INS_MEM

  datatype Option<T> = None | Some(value: T)

  /** Bytes and 32- and 64-bit words as the kernel stores them. Register
      fields are extracted with shifts and masks, which on these unsigned
      values are division and remainder by powers of two. */
  newtype u8 = x: int | 0 <= x < 0x100
  newtype u32 = x: int | 0 <= x < 0x1_0000_0000
  newtype u64 = x: int | 0 <= x < 0x1_0000_0000_0000_0000

  /** The largest value of a 64-bit unsigned counter. */
  const U64_MAX: nat := 0xFFFF_FFFF_FFFF_FFFF

  function Pow2(n: nat): (p: nat)
    ensures p >= 1
  {
    if n == 0 then 1 else 2 * Pow2(n - 1)
  }

  lemma {:induction false} Pow2Add(a: nat, b: nat)
    ensures Pow2(a + b) == Pow2(a) * Pow2(b)
  {
    if a > 0 {
      Pow2Add(a - 1, b);
    }
  }

  /** Pow2 grows with its exponent. */
  lemma {:induction false} Pow2Monotone(a: nat, b: nat)
    requires a <= b
    ensures Pow2(a) <= Pow2(b)
  {
    if a < b {
      Pow2Monotone(a, b - 1);
    }
  }

  /** 2^16, 2^32 and 2^63 spelled out, one doubling of the exponent at a time. */
  lemma Pow2Sixteen()
    ensures Pow2(16) == 0x1_0000
  {
    Pow2Add(8, 8);
  }

  lemma Pow2ThirtyTwo()
    ensures Pow2(32) == 0x1_0000_0000
  {
    Pow2Sixteen();
    Pow2Add(16, 16);
  }

  lemma Pow2SixtyThree()
    ensures Pow2(63) == 0x8000_0000_0000_0000
  {
    Pow2ThirtyTwo();
    Pow2Sixteen();
    Pow2Add(15, 16);
    Pow2Add(31, 32);
  }

  /** No element occurs twice. Intrusive lists and queues link each object
      at most once. */
  ghost predicate Distinct<T>(s: seq<T>)
  {
    forall i, j :: 0 <= i < j < |s| ==> s[i] != s[j]
  }

  /** s with every occurrence of x unlinked, the others kept in order. */
  function Without<T(==)>(s: seq<T>, x: T): (r: seq<T>)
    ensures forall i :: 0 <= i < |r| ==> r[i] in s && r[i] != x
    ensures forall i :: 0 <= i < |s| && s[i] != x ==> s[i] in r
    ensures x !in s ==> r == s
  {
    if s == [] then []
    else
      var rest := Without(s[1..], x);
      assert s == [s[0]] + s[1..];
      if s[0] == x then rest else [s[0]] + rest
  }

  /** In a list without duplicates, unlinking x at position k leaves the
      elements before and after it, in order. */
  lemma {:induction false} WithoutSplices<T>(s: seq<T>, x: T, k: nat)
    requires Distinct(s) && k < |s| && s[k] == x
    ensures Without(s, x) == s[..k] + s[k + 1..]
  {
    DistinctTail(s);
    SpliceCons(s, k);
    if k == 0 {
      HeadNotInTail(s);
    } else {
      WithoutSplices(s[1..], x, k - 1);
      WithoutCons(s, x);
    }
  }

  /** Cutting position k out of a list, said through its tail: with k
      at 0 only the tail is left, and otherwise the head stays in front
      of the tail with position k - 1 cut out. */
  lemma SpliceCons<T>(s: seq<T>, k: nat)
    requires k < |s|
    ensures k == 0 ==> s[..k] + s[k + 1..] == s[1..]
    ensures k > 0 ==> s[..k] + s[k + 1..] == [s[0]] + (s[1..][..k - 1] + s[1..][k..])
  {
    if k == 0 {
      assert s[..0] + s[1..] == s[1..];
    } else {
      assert [s[0]] + s[1..][..k - 1] == s[..k];
      assert s[1..][k..] == s[k + 1..];
    }
  }

  /** The head of a list without duplicates is not in its tail. */
  lemma HeadNotInTail<T>(s: seq<T>)
    requires Distinct(s) && s != []
    ensures s[0] !in s[1..]
  {
    forall j | 0 <= j < |s| - 1
      ensures s[1..][j] != s[0]
    {
      assert s[1..][j] == s[j + 1];
    }
  }

  /** Unlinking x from a list that starts with another element keeps that
      element in front. */
  lemma WithoutCons<T>(s: seq<T>, x: T)
    requires s != [] && s[0] != x
    ensures Without(s, x) == [s[0]] + Without(s[1..], x)
  {
  }

  /** The tail of a list without duplicates has none either. */
  lemma DistinctTail<T>(s: seq<T>)
    requires Distinct(s) && s != []
    ensures Distinct(s[1..])
  {
    forall i, j | 0 <= i < j < |s| - 1
      ensures s[1..][i] != s[1..][j]
    {
      assert s[1..][i] == s[i + 1] && s[1..][j] == s[j + 1];
    }
  }

  /** Position i of a list with position k cut out. */
  lemma SpliceIndex<T>(s: seq<T>, k: nat, i: nat)
    requires k < |s| && i < |s| - 1
    ensures (s[..k] + s[k + 1..])[i] == s[if i < k then i else i + 1]
  {
  }

  /** Unlinking keeps a list free of duplicates and, when x is listed,
      shortens it by exactly one. */
  lemma {:induction false} WithoutDistinct<T>(s: seq<T>, x: T)
    ensures Distinct(s) ==> Distinct(Without(s, x))
    ensures Distinct(s) && x in s ==> |Without(s, x)| == |s| - 1
  {
    if x in s && Distinct(s) {
      var k :| 0 <= k < |s| && s[k] == x;
      WithoutSplices(s, x, k);
      var r := s[..k] + s[k + 1..];
      forall i, j | 0 <= i < j < |r|
        ensures r[i] != r[j]
      {
        SpliceIndex(s, k, i);
        SpliceIndex(s, k, j);
      }
    }
  }

  // Arithmetic helpers

  lemma DivDiv(a: nat, b: nat, c: nat)
    requires b > 0 && c > 0
    ensures a / b / c == a / (b * c)
  {
    var q, r := a / (b * c), a % (b * c);
    var rb := DivLess(r, b, c);
    assert a == q * c * b + r by {
      MulComm3(q, b, c);
    }
    DivAddMul(q * c, b, r);
    DivAddMul(q, c, rb);
    DivSmall(rb, c);
  }

  lemma DivSmall(x: nat, c: nat)
    requires x < c
    ensures x / c == 0
  {
  }

  lemma MulComm3(q: nat, b: nat, c: nat)
    ensures q * (b * c) == q * c * b
  {
  }

  /** r / b < c when r < b * c. */
  lemma DivLess(r: nat, b: nat, c: nat) returns (rb: nat)
    requires b > 0 && r < b * c
    ensures rb == r / b < c
  {
    rb := r / b;
    if r / b >= c {
      MulLe(c, r / b, b);
    }
  }

  lemma DivAddMul(k: nat, b: nat, r: nat)
    requires b > 0
    ensures (k * b + r) / b == k + r / b
  {
    assert (k + r / b) * b + r % b == k * b + r;
    DivUnique(k * b + r, b, k + r / b, r % b);
  }

  lemma MulLe(x: nat, y: nat, b: nat)
    requires x <= y
    ensures x * b <= y * b
  {
  }

  lemma DivUnique(a: nat, d: nat, q: nat, r: nat)
    requires d > 0 && r < d && a == q * d + r
    ensures a / d == q
  {
    var q', r' := a / d, a % d;
    assert q' * d + r' == q * d + r;
    if q' < q {
      MulLe(q' + 1, q, d);
    } else if q < q' {
      MulLe(q + 1, q', d);
    }
  }

  lemma MulAssoc(q: nat, c: nat, b: nat, r: nat, s: nat)
    ensures (q * c + r) * b + s == q * (b * c) + (r * b + s)
  {
  }

  /** lo + d * hi divided by d is hi when lo < d. */
  lemma DivLow(lo: nat, d: nat, hi: nat)
    requires lo < d
    ensures (lo + d * hi) / d == hi
  {
    assert lo + d * hi == hi * d + lo;
    DivAddMul(hi, d, lo);
    DivSmall(lo, d);
  }
}
