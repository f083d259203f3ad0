// The memory-bound work function (wfey.c, memwork): an unrolled, strided sum.
module MemWork {
  import opened Words

  const WORK_COUNT: nat := 10_000
  const STRIDE: nat := 11

  /** The index of the t-th element of a walk by STRIDE. */
  function At(t: nat): nat {
    STRIDE * t
  }

  /** Sum of the first `terms` elements of the walk. */
  function StridedSum(a: seq<nat>, terms: nat): nat
    requires terms == 0 || At(terms - 1) < |a|
  {
    if terms == 0 then 0 else StridedSum(a, terms - 1) + a[At(terms - 1)]
  }

  /** How many of j = 0, 4 * STRIDE, 8 * STRIDE, ... lie below elem - 4 * STRIDE. */
  function Rounds(elem: nat): nat
    requires elem >= 4 * STRIDE
  {
    (elem - 4 * STRIDE + (4 * STRIDE - 1)) / (4 * STRIDE)
  }

  lemma RoundsFit(elem: nat)
    requires elem >= 4 * STRIDE
    ensures Rounds(elem) == 0 || At(4 * Rounds(elem) - 1) < elem
    ensures forall k: nat :: At(4 * k) < elem - 4 * STRIDE <==> k < Rounds(elem)
  {
  }

  /** One unrolled round reads four consecutive elements of the walk. */
  lemma FourTerms(a: seq<nat>, k: nat, j: nat)
    requires j == At(4 * k) && j + 3 * STRIDE < |a|
    ensures At(4 * k + 3) < |a| && StridedSum(a, 4 * k + 4)
         == StridedSum(a, 4 * k) + a[j] + a[j + STRIDE] + a[j + 2 * STRIDE] + a[j + 3 * STRIDE]
  {
    assert StridedSum(a, 4 * k + 1) == StridedSum(a, 4 * k) + a[At(4 * k)];
    assert StridedSum(a, 4 * k + 2) == StridedSum(a, 4 * k + 1) + a[At(4 * k + 1)];
    assert StridedSum(a, 4 * k + 3) == StridedSum(a, 4 * k + 2) + a[At(4 * k + 2)];
    assert StridedSum(a, 4 * k + 4) == StridedSum(a, 4 * k + 3) + a[At(4 * k + 3)];
  }

  /** Wrapping the four accumulators separately loses nothing of their wrapped total. */
  lemma RoundWraps(total: int, w: int, x: int, y: int, z: int, p: int, q: int, r: int, s: int)
    requires Wrap64(w + x + y + z) == Wrap64(total)
    ensures Wrap64(Wrap64(w + p) + Wrap64(x + q) + Wrap64(y + r) + Wrap64(z + s)) == Wrap64(total + p + q + r + s)
  {
    WrapFour(w + p, x + q, y + r, z + s);
    WrapShift(w + x + y + z, total, p + q + r + s);
  }

  lemma WrapFour(w: int, x: int, y: int, z: int)
    ensures Wrap64(Wrap64(w) + Wrap64(x) + Wrap64(y) + Wrap64(z)) == Wrap64(w + x + y + z)
  {
    WrapTail(Wrap64(w) + Wrap64(x) + Wrap64(y), z);
    WrapTail(Wrap64(w) + Wrap64(x) + z, y);
    WrapTail(Wrap64(w) + z + y, x);
    WrapTail(z + y + x, w);
  }

  lemma WrapTail(u: int, v: int)
    ensures Wrap64(u + Wrap64(v)) == Wrap64(u + v)
  {
    WrapAdd(v, u);
  }

  lemma WrapShift(u: int, v: int, d: int)
    requires Wrap64(u) == Wrap64(v)
    ensures Wrap64(u + d) == Wrap64(v + d)
  {
    WrapAdd(u, d);
    WrapAdd(v, d);
  }

  function Times(n: nat, s: nat): nat {
    if n == 0 then 0 else Times(n - 1, s) + s
  }

  lemma {:induction false} TimesIs(n: nat, s: nat)
    ensures Times(n, s) == n * s
  {
    if n > 0 {
      TimesIs(n - 1, s);
      assert n * s == (n - 1) * s + s;
    }
  }

  /** One pass over the array, all accesses in bounds, adds the strided sum to the total. */
  method Pass(memarr: array<nat>, a0: nat, a1: nat, a2: nat, a3: nat, ghost before: nat)
    returns (acc0: nat, acc1: nat, acc2: nat, acc3: nat)
    requires memarr.Length >= 4 * STRIDE && Wrap64(a0 + a1 + a2 + a3) == Wrap64(before)
    ensures Rounds(memarr.Length) == 0 || At(4 * Rounds(memarr.Length) - 1) < memarr.Length
    ensures Wrap64(acc0 + acc1 + acc2 + acc3) == Wrap64(before + StridedSum(memarr[..], 4 * Rounds(memarr.Length)))
  {
    var limit := memarr.Length - 4 * STRIDE;
    acc0, acc1, acc2, acc3 := a0, a1, a2, a3;
    ghost var a := memarr[..];
    ghost var k: nat, rounds := 0, Rounds(memarr.Length);
    RoundsFit(memarr.Length);
    var j := 0;
    while j < limit
      invariant j == At(4 * k) && k <= rounds
      invariant Wrap64(acc0 + acc1 + acc2 + acc3) == Wrap64(before + StridedSum(a, 4 * k))
    {
      FourTerms(a, k, j);
      var w, x, y, z := memarr[j], memarr[j + STRIDE], memarr[j + 2 * STRIDE], memarr[j + 3 * STRIDE];
      RoundWraps(before + StridedSum(a, 4 * k), acc0, acc1, acc2, acc3, w, x, y, z);
      acc0, acc1, acc2, acc3 := Wrap64(acc0 + w), Wrap64(acc1 + x), Wrap64(acc2 + y), Wrap64(acc3 + z);
      j := j + 4 * STRIDE;
      k := k + 1;
    }
  }

  /** WORK_COUNT passes total WORK_COUNT times the strided sum, modulo 2^64. */
  method Run(memarr: array<nat>) returns (total: nat)
    requires memarr.Length >= 4 * STRIDE
    ensures Rounds(memarr.Length) == 0 || At(4 * Rounds(memarr.Length) - 1) < memarr.Length
    ensures total == Wrap64(WORK_COUNT * StridedSum(memarr[..], 4 * Rounds(memarr.Length)))
  {
    var acc0, acc1, acc2, acc3 := 0, 0, 0, 0;
    RoundsFit(memarr.Length);
    ghost var s := StridedSum(memarr[..], 4 * Rounds(memarr.Length));
    var i := 0;
    while i < WORK_COUNT
      invariant 0 <= i <= WORK_COUNT
      invariant Wrap64(acc0 + acc1 + acc2 + acc3) == Wrap64(Times(i, s))
    {
      acc0, acc1, acc2, acc3 := Pass(memarr, acc0, acc1, acc2, acc3, Times(i, s));
      i := i + 1;
    }
    TimesIs(WORK_COUNT, s);
    total := Wrap64(acc0 + acc1 + acc2 + acc3);
  }
}
