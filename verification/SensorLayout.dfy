// Where the parsed sensors lie: inside the image, aligned, in increasing order and disjoint.
module SensorLayout {
  import opened SensorTable
  import opened Words

  /** All items of all metrics, in table order. */
  function AllItems(ms: seq<Metric>): seq<Item> {
    if ms == [] then [] else ms[0].items + AllItems(ms[1..])
  }

  /** Each item's bytes end before the next item's begin, all within [lo, hi). */
  predicate Chain(items: seq<Item>, lo: nat, hi: nat) {
    if items == [] then lo <= hi
    else lo <= items[0].reg && Chain(items[1..], items[0].reg + Width(items[0].size), hi)
  }

  lemma {:induction false} ChainWeaken(items: seq<Item>, lo: nat, hi: nat, lo': nat, hi': nat)
    requires Chain(items, lo, hi) && lo' <= lo && hi <= hi'
    ensures Chain(items, lo', hi') && lo <= hi
  {
    if items != [] {
      var next := items[0].reg + Width(items[0].size);
      ChainWeaken(items[1..], next, hi, next, hi');
    }
  }

  lemma {:induction false} ChainConcat(a: seq<Item>, b: seq<Item>, lo: nat, mid: nat, hi: nat)
    requires Chain(a, lo, mid) && Chain(b, mid, hi)
    ensures Chain(a + b, lo, hi)
  {
    if a == [] {
      assert a + b == b;
      ChainWeaken(b, mid, hi, lo, hi);
    } else {
      assert (a + b)[1..] == a[1..] + b;
      ChainConcat(a[1..], b, a[0].reg + Width(a[0].size), mid, hi);
    }
  }

  lemma {:induction false} ChainEach(items: seq<Item>, lo: nat, hi: nat, k: nat)
    requires Chain(items, lo, hi) && k < |items|
    ensures lo <= items[k].reg && items[k].reg + Width(items[k].size) <= hi
  {
    var next := items[0].reg + Width(items[0].size);
    if k > 0 {
      ChainEach(items[1..], next, hi, k - 1);
    } else {
      ChainWeaken(items[1..], next, hi, next, hi);
    }
  }

  /** The byte ranges of a chain are pairwise disjoint and in increasing order. */
  lemma {:induction false} ChainDisjoint(items: seq<Item>, lo: nat, hi: nat, j: nat, k: nat)
    requires Chain(items, lo, hi) && j < k < |items|
    ensures items[j].reg + Width(items[j].size) <= items[k].reg
  {
    var next := items[0].reg + Width(items[0].size);
    if j == 0 {
      ChainEach(items[1..], next, hi, k - 1);
    } else {
      ChainDisjoint(items[1..], next, hi, j - 1, k - 1);
    }
  }

  lemma {:induction false} ItemsChain(img: seq<Byte>, name: seq<Byte>, unit: nat, size: nat, reg: nat,
                                      left: nat, rank: nat)
    requires left == 0 || Width(size) <= size
    ensures Chain(ItemsFrom(img, name, unit, size, reg, left, rank), reg, reg + Span(size, left))
    decreases left
  {
    if left > 0 {
      if SensorValid(img, reg) {
        var rest := ItemsFrom(img, name, unit, size, reg + size, left - 1, rank + 1);
        ItemsChain(img, name, unit, size, reg + size, left - 1, rank + 1);
        ChainWeaken(rest, reg + size, reg + Span(size, left), reg + Width(size), reg + Span(size, left));
        assert ItemsFrom(img, name, unit, size, reg, left, rank)[1..] == rest;
      } else {
        ItemsChain(img, name, unit, size, reg + size, left - 1, rank);
        var rest := ItemsFrom(img, name, unit, size, reg + size, left - 1, rank);
        ChainWeaken(rest, reg + size, reg + Span(size, left), reg, reg + Span(size, left));
      }
    }
  }

  /** The slots of an accepted metric's sensors hold what is read of them. */
  predicate BlockRoomy(img: seq<Byte>, reg: nat) {
    var info := InfoAt(img, reg);
    MetricAt(img, reg).Some? ==> info.count == 0 || Width(info.size) <= info.size
  }

  predicate TableRoomy(img: seq<Byte>, reg: nat, left: nat)
    decreases left
  {
    left == 0 || !InRange(img, reg)
    || (BlockRoomy(img, reg) && TableRoomy(img, Align8(BlockEnd(img, reg)), left - 1))
  }

  lemma MetricChain(img: seq<Byte>, reg: nat)
    requires MetricAt(img, reg).Some? && BlockRoomy(img, reg)
    ensures Chain(MetricAt(img, reg).value.items, reg, BlockEnd(img, reg))
  {
    var info := InfoAt(img, reg);
    var items := MetricAt(img, reg).value.items;
    ItemsChain(img, NameAt(img, reg), info.unit, info.size, reg + 24, info.count, 0);
    ChainWeaken(items, reg + 24, BlockEnd(img, reg), reg, BlockEnd(img, reg));
  }

  lemma AlignUp(x: nat)
    ensures x <= Align8(x) < x + 8 && Align8(x) % 8 == 0
  {
  }

  /** Bounds and disjointness over the whole walk. */
  lemma {:induction false} ParseChain(img: seq<Byte>, reg: nat, left: nat)
    requires TableRoomy(img, reg, left)
    ensures reg <= |img| ==> Chain(AllItems(Parse(img, reg, left)), reg, |img|)
    ensures reg > |img| ==> Parse(img, reg, left) == []
    decreases left
  {
    if left > 0 && InRange(img, reg) {
      var end := BlockEnd(img, reg);
      var rest := Parse(img, Align8(end), left - 1);
      AlignUp(end);
      ParseChain(img, Align8(end), left - 1);
      RestChain(img, rest, end);
      if MetricAt(img, reg).Some? { MetricChain(img, reg); }
      AcceptChain(MetricAt(img, reg), rest, reg, end, |img|);
    }
  }

  lemma AcceptChain(m: Option<Metric>, rest: seq<Metric>, lo: nat, mid: nat, hi: nat)
    requires lo <= mid && Chain(AllItems(rest), mid, hi) && (m.Some? ==> Chain(m.value.items, lo, mid))
    ensures Chain(AllItems(Accept(m, rest)), lo, hi)
  {
    if m.Some? {
      ChainConcat(m.value.items, AllItems(rest), lo, mid, hi);
      assert ([m.value] + rest)[1..] == rest;
    } else {
      ChainWeaken(AllItems(rest), mid, hi, lo, hi);
    }
  }

  lemma RestChain(img: seq<Byte>, rest: seq<Metric>, end: nat)
    requires end <= |img|
    requires Align8(end) <= |img| ==> Chain(AllItems(rest), Align8(end), |img|)
    requires Align8(end) > |img| ==> rest == []
    ensures Chain(AllItems(rest), end, |img|)
  {
    AlignUp(end);
    if Align8(end) <= |img| {
      ChainWeaken(AllItems(rest), Align8(end), |img|, end, |img|);
    }
  }

  // ----- One type's list is a chain too -----

  lemma {:induction false} ChainSplit(a: seq<Item>, b: seq<Item>, lo: nat, hi: nat) returns (mid: nat)
    requires Chain(a + b, lo, hi)
    ensures Chain(a, lo, mid) && Chain(b, mid, hi)
  {
    if a == [] {
      mid := lo;
      assert a + b == b;
    } else {
      assert (a + b)[1..] == a[1..] + b;
      mid := ChainSplit(a[1..], b, a[0].reg + Width(a[0].size), hi);
    }
  }

  lemma {:induction false} TypeChain(ms: seq<Metric>, t: SensorType, lo: nat, hi: nat)
    requires Chain(AllItems(ms), lo, hi)
    ensures Chain(ItemsOf(ms, t), lo, hi)
  {
    if ms != [] {
      var mid := ChainSplit(ms[0].items, AllItems(ms[1..]), lo, hi);
      TypeChain(ms[1..], t, mid, hi);
      if ms[0].kind == t {
        ChainConcat(ms[0].items, ItemsOf(ms[1..], t), lo, mid, hi);
      } else {
        ChainWeaken(ms[0].items, lo, mid, lo, mid);
        ChainWeaken(ItemsOf(ms[1..], t), mid, hi, lo, hi);
        assert [] + ItemsOf(ms[1..], t) == ItemsOf(ms[1..], t);
      }
    }
  }

  // ----- Alignment -----

  /** 4- and 8-byte data lie at a multiple of their size. */
  predicate OnGrid(size: nat, reg: nat) {
    (size == 4 ==> reg % 4 == 0) && (size == 8 ==> reg % 8 == 0)
  }

  predicate Aligned(items: seq<Item>) {
    forall k :: 0 <= k < |items| ==> OnGrid(items[k].size, items[k].reg)
  }

  lemma GridStep(size: nat, reg: nat)
    requires OnGrid(size, reg)
    ensures OnGrid(size, reg + size)
  {
  }

  lemma GridStart(size: nat, reg: nat)
    requires reg % 8 == 0
    ensures OnGrid(size, reg + 24)
  {
    assert reg + 24 == 8 * (reg / 8 + 3) == 4 * (2 * (reg / 8) + 6);
  }

  lemma {:induction false} ItemsAligned(img: seq<Byte>, name: seq<Byte>, unit: nat, size: nat, reg: nat,
                                        left: nat, rank: nat)
    requires OnGrid(size, reg)
    ensures Aligned(ItemsFrom(img, name, unit, size, reg, left, rank))
    decreases left
  {
    if left > 0 {
      GridStep(size, reg);
      ItemsAligned(img, name, unit, size, reg + size, left - 1, rank + 1);
      ItemsAligned(img, name, unit, size, reg + size, left - 1, rank);
    }
  }

  lemma MetricAligned(img: seq<Byte>, reg: nat)
    requires reg % 8 == 0 && MetricAt(img, reg).Some?
    ensures Aligned(MetricAt(img, reg).value.items)
  {
    var info := InfoAt(img, reg);
    GridStart(info.size, reg);
    ItemsAligned(img, NameAt(img, reg), info.unit, info.size, reg + 24, info.count, 0);
  }

  lemma AcceptAligned(m: Option<Metric>, rest: seq<Metric>)
    requires Aligned(AllItems(rest)) && (m.Some? ==> Aligned(m.value.items))
    ensures Aligned(AllItems(Accept(m, rest)))
  {
    if m.Some? {
      assert ([m.value] + rest)[1..] == rest;
    }
  }

  /** Every 4- or 8-byte sensor of the table lies at a multiple of its size. */
  lemma {:induction false} ParseAligned(img: seq<Byte>, reg: nat, left: nat)
    requires reg % 8 == 0
    ensures Aligned(AllItems(Parse(img, reg, left)))
    decreases left
  {
    if left > 0 && InRange(img, reg) {
      var next := Align8(BlockEnd(img, reg));
      AlignUp(BlockEnd(img, reg));
      ParseAligned(img, next, left - 1);
      if MetricAt(img, reg).Some? { MetricAligned(img, reg); }
      AcceptAligned(MetricAt(img, reg), Parse(img, next, left - 1));
    }
  }

  // ----- Reads inside the image -----

  predicate AllInside(img: seq<Byte>, items: seq<Item>) {
    forall k :: 0 <= k < |items| ==> items[k].reg + Width(items[k].size) <= |img|
  }

  lemma {:induction false} ItemsInside(img: seq<Byte>, name: seq<Byte>, unit: nat, size: nat, reg: nat,
                                       left: nat, rank: nat)
    requires ReadsInside(img, reg, size, left)
    ensures AllInside(img, ItemsFrom(img, name, unit, size, reg, left, rank))
    decreases left
  {
    if left > 0 {
      InsideNext(img, reg, size, left);
      ItemsInside(img, name, unit, size, reg + size, left - 1, rank + 1);
      ItemsInside(img, name, unit, size, reg + size, left - 1, rank);
    }
  }

  /** The first of n reads is inside, and so are the rest. */
  lemma InsideNext(img: seq<Byte>, reg: nat, size: nat, n: nat)
    requires n > 0 && ReadsInside(img, reg, size, n)
    ensures reg + Width(size) <= |img| && ReadsInside(img, reg + size, size, n - 1)
  {
    if n > 1 { assert Span(size, n - 1) == size + Span(size, n - 2); }
  }

  /** Every sensor that the walk saves can be read inside the image. */
  lemma {:induction false} ParseInside(img: seq<Byte>, reg: nat, left: nat, t: SensorType)
    requires TableReadable(img, reg, left)
    ensures AllInside(img, ItemsOf(Parse(img, reg, left), t))
    decreases left
  {
    if left > 0 && InRange(img, reg) {
      var m := MetricAt(img, reg);
      var rest := Parse(img, Align8(BlockEnd(img, reg)), left - 1);
      ParseInside(img, Align8(BlockEnd(img, reg)), left - 1, t);
      if m.Some? { MetricInside(img, reg); }
      AcceptItems(m, rest, t);
    }
  }

  lemma MetricInside(img: seq<Byte>, reg: nat)
    requires MetricAt(img, reg).Some? && BlockReadable(img, reg)
    ensures AllInside(img, MetricAt(img, reg).value.items)
  {
    var info := InfoAt(img, reg);
    ItemsInside(img, NameAt(img, reg), info.unit, info.size, reg + 24, info.count, 0);
  }

  lemma AcceptItems(m: Option<Metric>, rest: seq<Metric>, t: SensorType)
    ensures ItemsOf(Accept(m, rest), t)
         == if m.Some? && m.value.kind == t then m.value.items + ItemsOf(rest, t) else ItemsOf(rest, t)
  {
    if m.Some? {
      assert ([m.value] + rest)[1..] == rest;
    }
  }

  /** Sensors whose slots hold what is read of them are read inside the image. */
  lemma RoomyIsInside(img: seq<Byte>, reg: nat)
    requires InRange(img, reg) && BlockRoomy(img, reg) && MetricAt(img, reg).Some?
    ensures ReadsInside(img, reg + 24, InfoAt(img, reg).size, InfoAt(img, reg).count)
  {
    var info := InfoAt(img, reg);
    if info.count > 0 { assert Span(info.size, info.count) == info.size + Span(info.size, info.count - 1); }
  }

  /** The labels of accepted metrics end within their 16 bytes. */
  predicate TableLabelled(img: seq<Byte>, reg: nat, left: nat)
    decreases left
  {
    left == 0 || !InRange(img, reg)
    || ((MetricAt(img, reg).Some? ==> 0 in img[reg..reg + 16])
        && TableLabelled(img, Align8(BlockEnd(img, reg)), left - 1))
  }

  /** From the data sizes alone: if every accepted metric's slots hold what is read of its sensors,
      the range checks keep every sensor read of the walk inside the image. */
  lemma {:induction false} RoomyIsReadable(img: seq<Byte>, reg: nat, left: nat)
    requires TableRoomy(img, reg, left) && TableLabelled(img, reg, left)
    ensures TableReadable(img, reg, left)
    decreases left
  {
    if left > 0 && InRange(img, reg) {
      if MetricAt(img, reg).Some? { RoomyIsInside(img, reg); }
      RoomyIsReadable(img, Align8(BlockEnd(img, reg)), left - 1);
    }
  }

  /** No more sensors are listed than the metric announces. */
  lemma {:induction false} ItemsBounded(img: seq<Byte>, name: seq<Byte>, unit: nat, size: nat, reg: nat,
                                        left: nat, rank: nat)
    ensures |ItemsFrom(img, name, unit, size, reg, left, rank)| <= left
    decreases left
  {
    if left > 0 {
      ItemsBounded(img, name, unit, size, reg + size, left - 1, rank + 1);
      ItemsBounded(img, name, unit, size, reg + size, left - 1, rank);
    }
  }

  // ----- Main results -----

  /** Across the whole parse, of all types, the bytes of the saved sensors are inside the image,
      pairwise disjoint and in increasing order; so they are within each type's list. */
  lemma {:induction false} SensorsDisjoint(img: seq<Byte>, t: SensorType)
    requires TableAccepted(img) && TableRoomy(img, 8, CountAt(img))
    ensures Chain(AllItems(Metrics(img)), 8, |img|) && Chain(ItemsOf(Metrics(img), t), 8, |img|)
    ensures forall j, k :: 0 <= j < k < |AllItems(Metrics(img))| ==>
              AllItems(Metrics(img))[j].reg + Width(AllItems(Metrics(img))[j].size) <= AllItems(Metrics(img))[k].reg
    ensures forall k :: 0 <= k < |ItemsOf(Metrics(img), t)| ==>
              ItemsOf(Metrics(img), t)[k].reg + Width(ItemsOf(Metrics(img), t)[k].size) <= |img|
  {
    var ms := Metrics(img);
    ParseChain(img, 8, CountAt(img));
    TypeChain(ms, t, 8, |img|);
    forall j, k | 0 <= j < k < |AllItems(ms)|
      ensures AllItems(ms)[j].reg + Width(AllItems(ms)[j].size) <= AllItems(ms)[k].reg
    {
      ChainDisjoint(AllItems(ms), 8, |img|, j, k);
    }
    forall k | 0 <= k < |ItemsOf(ms, t)|
      ensures ItemsOf(ms, t)[k].reg + Width(ItemsOf(ms, t)[k].size) <= |img|
    {
      ChainEach(ItemsOf(ms, t), 8, |img|, k);
    }
  }

  /** The reads of a metric's sensors stay inside its block exactly for empty metrics, for
      4-byte data and for data of 8 bytes or more: any other size is read past its end. */
  lemma ReadsInsideExactly(size: nat, n: nat)
    ensures (forall k :: 0 <= k < n ==> Span(size, k) + Width(size) <= Span(size, n))
       <==> (n == 0 || Width(size) <= size)
  {
    if n > 0 && Width(size) <= size {
      forall k | 0 <= k < n ensures Span(size, k) + Width(size) <= Span(size, n) {
        SpanGrows(size, k, n);
      }
    } else if n > 0 {
      assert Span(size, n - 1) + Width(size) > Span(size, n);
    }
  }

  /** The reads of a metric's sensors are aligned to their width exactly for at most one sensor,
      for 4-byte data and for data of a multiple of 8 bytes. */
  lemma ReadsAlignedExactly(size: nat, n: nat, data: nat)
    requires data % 8 == 0
    ensures (forall k :: 0 <= k < n ==> (data + Span(size, k)) % Width(size) == 0)
       <==> (n <= 1 || size == 4 || size % 8 == 0)
  {
    if n <= 1 || size == 4 || size % 8 == 0 {
      forall k | 0 <= k < n ensures (data + Span(size, k)) % Width(size) == 0 {
        SlotAligned(size, k, data);
      }
    } else {
      assert Span(size, 1) == size;
      OddSlot(size, data);
    }
  }

  lemma {:induction false} SlotAligned(size: nat, k: nat, data: nat)
    requires data % 8 == 0 && (k == 0 || size == 4 || size % 8 == 0)
    ensures (data + Span(size, k)) % Width(size) == 0
  {
    if k > 0 {
      SlotAligned(size, k - 1, data);
      NextSlot(size, data + Span(size, k - 1));
    }
  }

  lemma NextSlot(size: nat, reg: nat)
    requires reg % Width(size) == 0 && (size == 4 || size % 8 == 0)
    ensures (reg + size) % Width(size) == 0
  {
  }

  lemma OddSlot(size: nat, data: nat)
    requires data % 8 == 0 && size != 4 && size % 8 != 0
    ensures (data + size) % Width(size) != 0
  {
  }

  lemma {:induction false} SpanGrows(size: nat, k: nat, n: nat)
    requires k < n
    ensures Span(size, k) + size <= Span(size, n)
    decreases n
  {
    if k < n - 1 { SpanGrows(size, k, n - 1); }
  }

  /** The two range checks of the walk as the u32 arithmetic computes them. */
  predicate RangeCheck32(base: nat, reg: nat, size: nat, n: nat) {
    Wrap32(reg + 24) <= base && Wrap32(reg + 24 + Span(size, n)) <= base
  }

  /** They admit the block at `reg` only if it lies inside the image. */
  predicate Checked(img: seq<Byte>, reg: nat) {
    RangeCheck32(|img|, reg, InfoAt(img, reg).size, InfoAt(img, reg).count) ==> InRange(img, reg)
  }

  /** So they do at every block that the walk reaches. */
  predicate TableChecked(img: seq<Byte>, reg: nat, left: nat)
    decreases left
  {
    left == 0
    || (Checked(img, reg) && (InRange(img, reg) ==> TableChecked(img, Align8(BlockEnd(img, reg)), left - 1)))
  }

  lemma {:induction false} UnwrappedIsChecked(img: seq<Byte>, reg: nat, left: nat)
    requires TableUnwrapped(img, reg, left)
    ensures TableChecked(img, reg, left)
    decreases left
  {
    if left > 0 && InRange(img, reg) {
      UnwrappedIsChecked(img, Align8(BlockEnd(img, reg)), left - 1);
    }
  }

  /** In images below this size no u32 offset of the walk wraps. */
  lemma SmallImageUnwrapped(img: seq<Byte>, reg: nat)
    requires |img| < 0x1_0000_0000 - 16711424 && reg % 8 == 0 && reg <= |img| + 7
    ensures Unwrapped(img, reg)
  {
    var info := InfoAt(img, reg);
    SpanIs(info.size, info.count);
    BlockSmall(info.size, info.count);
    NoWrap(|img|, reg, Span(info.size, info.count));
  }

  lemma {:induction false} SmallImagesUnwrapped(img: seq<Byte>, reg: nat, left: nat)
    requires |img| < 0x1_0000_0000 - 16711424 && reg % 8 == 0 && reg <= |img| + 7
    ensures TableUnwrapped(img, reg, left)
    decreases left
  {
    if left > 0 {
      SmallImageUnwrapped(img, reg);
      if InRange(img, reg) {
        AlignUp(BlockEnd(img, reg));
        SmallImagesUnwrapped(img, Align8(BlockEnd(img, reg)), left - 1);
      }
    }
  }

  lemma BlockSmall(size: nat, n: nat)
    requires size < 256 && n < 65536
    ensures size * n <= 16711425
  {
    assert size * n <= 255 * n;
  }

  lemma NoWrap(base: nat, reg: nat, bytes: nat)
    requires base < 0x1_0000_0000 - 16711424 && reg % 8 == 0 && reg <= base + 7 && bytes <= 16711425
    ensures reg + 24 < 0x1_0000_0000 && Wrap32(reg + 24) == reg + 24
    ensures reg + 24 <= base ==> reg + 24 + bytes < 0x1_0000_0000 && Wrap32(reg + 24 + bytes) == reg + 24 + bytes
  {
  }
}
