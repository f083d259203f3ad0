// Fixed-width unsigned arithmetic.
module Words {

  const TWO_63: int := 0x8000_0000_0000_0000
  const TWO_64: int := 0x1_0000_0000_0000_0000

  /** The value a uint64_t holds after arithmetic whose true result is `x`. */
  function Wrap64(x: int): (r: nat)
    ensures r < TWO_64
    ensures 0 <= x < TWO_64 ==> r == x
    ensures -TWO_64 <= x < 0 ==> r == x + TWO_64
  {
    x % 0x1_0000_0000_0000_0000
  }

  lemma WrapAdd(x: int, y: int)
    ensures Wrap64(Wrap64(x) + Wrap64(y)) == Wrap64(Wrap64(x) + y) == Wrap64(x + y)
  {
  }

  /** The value a u32 holds after arithmetic whose true result is `x`. */
  function Wrap32(x: int): (r: nat)
    ensures r < 0x1_0000_0000
    ensures 0 <= x < 0x1_0000_0000 ==> r == x
    ensures 0x1_0000_0000 <= x < 0x2_0000_0000 ==> r == x - 0x1_0000_0000
  {
    x % 0x1_0000_0000
  }

  // ----- Taking apart numbers put together from parts -----

  lemma Split8(hi: nat, lo: nat)
    requires lo < 256
    ensures (lo + 256 * hi) % 256 == lo && (lo + 256 * hi) / 256 == hi
  {
  }

  lemma Split16(hi: nat, lo: nat)
    requires lo < 65536
    ensures (lo + 65536 * hi) % 65536 == lo && (lo + 65536 * hi) / 65536 == hi
  {
  }

  lemma Split24(hi: nat, lo: nat)
    requires lo < 16777216
    ensures (lo + 16777216 * hi) / 16777216 == hi
  {
  }

  lemma Split32(hi: nat, lo: nat)
    requires lo < 0x1_0000_0000
    ensures (lo + 0x1_0000_0000 * hi) % 0x1_0000_0000 == lo && (lo + 0x1_0000_0000 * hi) / 0x1_0000_0000 == hi
  {
  }

  lemma Join8(v: nat)
    ensures v % 256 + 256 * (v / 256) == v && v % 256 < 256
  {
  }

  lemma Join32(v: nat)
    ensures v % 0x1_0000_0000 + 0x1_0000_0000 * (v / 0x1_0000_0000) == v && v % 0x1_0000_0000 < 0x1_0000_0000
  {
  }
}
