// Tables at the limits of the driver's arithmetic: where the range checks of the walk stop being
// right, and where a negative channel passes the bounds check.
module Extremes {
  import opened Words
  import opened SensorTable
  import opened SensorLayout
  import opened AltraHwmon
  import opened TableWriter

  // ----- Blocks that fill any number of 8-byte words from three on -----

  /** A block of n + 3 words whose unit the driver does not know. */
  function Filler(n: nat): Block {
    Block([], 0, 8, seq(n, _ => 0))
  }

  function Chunk(words: nat): nat {
    if words <= 65538 then words else if words >= 65541 then 65538 else 65535
  }

  function Fillers(words: nat): seq<Block>
    requires words == 0 || words >= 3
    decreases words
  {
    if words == 0 then [] else [Filler(Chunk(words) - 3)] + Fillers(words - Chunk(words))
  }

  lemma FillerSize(n: nat)
    requires n < 65536
    ensures Writable(Filler(n)) && Size(Filler(n)) == 8 * (n + 3)
  {
    SpanIs(8, n);
    WholeWords(n);
  }

  lemma WholeWords(n: nat)
    ensures Align8(8 * n) == 8 * n
  {
  }

  /** The bytes that blocks take. */
  function Total(bs: seq<Block>): nat {
    if bs == [] then 0 else Size(bs[0]) + Total(bs[1..])
  }

  lemma {:induction false} FillersFill(words: nat)
    requires words == 0 || words >= 3
    ensures AllWritable(Fillers(words)) && Total(Fillers(words)) == 8 * words
    ensures 65535 * |Fillers(words)| <= words + 65535
    decreases words
  {
    if words > 0 {
      var rest := Fillers(words - Chunk(words));
      FillerSize(Chunk(words) - 3);
      FillersFill(words - Chunk(words));
      assert Fillers(words)[1..] == rest;
      assert forall k :: 0 <= k < |rest| ==> Fillers(words)[k + 1] == rest[k];
    }
  }

  lemma {:induction false} BlocksTotal(bs: seq<Block>)
    requires AllWritable(bs)
    ensures |WriteBlocks(bs)| == Total(bs)
  {
    if bs != [] {
      WriteBlockSize(bs[0]);
      BlocksTotal(bs[1..]);
    }
  }

  // ----- An image whose last block wraps around -----

  /** Size 255 and count 65535, with nothing behind the header. */
  function Bare(): (r: seq<Byte>)
    ensures |r| == 24
  {
    Zeros(16) + [0, 255, 255, 255] + Zeros(4)
  }

  lemma BareInfo(img: seq<Byte>, reg: nat)
    requires Holds(img, reg, Bare())
    ensures InfoAt(img, reg) == Info(0, 255, 65535)
  {
    HoldsAt(img, reg, Bare(), 16);
    HoldsAt(img, reg, Bare(), 17);
    HoldsAt(img, reg, Bare(), 18);
    HoldsAt(img, reg, Bare(), 19);
  }

  /** Filler blocks, a bare header and up to seven more bytes. */
  function Overrun(bs: seq<Block>, slack: nat): (img: seq<Byte>)
    requires AllWritable(bs) && |bs| < 65535
  {
    Head(|bs| + 1) + (WriteBlocks(bs) + (Bare() + Zeros(slack)))
  }

  lemma OverrunParts(bs: seq<Block>, slack: nat)
    requires AllWritable(bs) && |bs| < 65535
    ensures var img := Overrun(bs, slack);
            && Holds(img, 0, Head(|bs| + 1)) && Holds(img, 8, WriteBlocks(bs)) && Holds(img, 8 + Total(bs), Bare())
            && |img| == 32 + Total(bs) + slack
  {
    var img := Overrun(bs, slack);
    BlocksTotal(bs);
    assert Holds(img, 0, img);
    HoldsParts(img, 0, Head(|bs| + 1), WriteBlocks(bs) + (Bare() + Zeros(slack)));
    HoldsParts(img, 8, WriteBlocks(bs), Bare() + Zeros(slack));
    HoldsParts(img, 8 + Total(bs), Bare(), Zeros(slack));
  }

  lemma OverrunHolds(bs: seq<Block>, slack: nat)
    requires AllWritable(bs) && |bs| < 65535
    ensures var img := Overrun(bs, slack);
            && |img| == 32 + Total(bs) + slack && TableAccepted(img) && CountAt(img) == |bs| + 1
            && AllRecognised(img, 8, bs) && Holds(img, 8 + Total(bs), Bare())
  {
    var img := Overrun(bs, slack);
    OverrunParts(bs, slack);
    HeadWritten(img, |bs| + 1);
    BlocksPlaced(img, 8, bs);
    BlocksRecognised(img, 8, bs);
  }

  lemma CheckedNext(img: seq<Byte>, reg: nat, left: nat, next: nat)
    requires left > 0 && TableChecked(img, reg, left) && InRange(img, reg) && Align8(BlockEnd(img, reg)) == next
    ensures TableChecked(img, next, left - 1)
  {
  }

  /** The walk over recognised blocks reaches what lies behind them. */
  lemma {:induction false} WalkReaches(img: seq<Byte>, reg: nat, bs: seq<Block>)
    requires AllRecognised(img, reg, bs) && TableChecked(img, reg, |bs| + 1)
    ensures TableChecked(img, reg + Total(bs), 1)
    decreases |bs|
  {
    if bs != [] {
      CheckedNext(img, reg, |bs| + 1, reg + Size(bs[0]));
      WalkReaches(img, reg + Size(bs[0]), bs[1..]);
    }
  }

  /** The bare header's block end wraps to a small offset, passes, and lies outside the image. */
  lemma BareWraps(img: seq<Byte>, reg: nat)
    requires 0x1_0000_0000 - 16711424 <= |img| < 0x1_0000_0000 && reg + 24 == |img| / 8 * 8
    requires Holds(img, reg, Bare())
    ensures !Checked(img, reg)
  {
    BareInfo(img, reg);
    SpanIs(255, 65535);
    LastWord(|img|);
  }

  lemma LastWord(base: nat)
    requires 0x1_0000_0000 - 16711424 <= base < 0x1_0000_0000
    ensures 0x1_0000_0000 - 16711424 <= base / 8 * 8 <= base
  {
  }

  lemma {:induction false} OverrunPasses(base: nat) returns (img: seq<Byte>)
    requires 0x1_0000_0000 - 16711424 <= base < 0x1_0000_0000
    ensures |img| == base && TableAccepted(img) && !TableChecked(img, 8, CountAt(img))
  {
    var words := base / 8 - 4;
    var bs := Fillers(words);
    FillersFill(words);
    img := Overrun(bs, base % 8);
    OverrunHolds(bs, base % 8);
    if TableChecked(img, 8, |bs| + 1) {
      WalkReaches(img, 8, bs);
      BareWraps(img, 8 + Total(bs));
    }
  }

  /** The range checks are right at every block of every accepted table of a size, and no u32 offset
      of its walk wraps, exactly below this size. */
  lemma {:induction false} RangeChecksExactly(base: nat)
    requires 8 <= base < 0x1_0000_0000
    ensures (forall img: seq<Byte> :: |img| == base && TableAccepted(img) ==> TableChecked(img, 8, CountAt(img)))
       <==> base < 0x1_0000_0000 - 16711424
    ensures (forall img: seq<Byte> :: |img| == base && TableAccepted(img) ==> TableUnwrapped(img, 8, CountAt(img)))
       <==> base < 0x1_0000_0000 - 16711424
  {
    if base < 0x1_0000_0000 - 16711424 {
      forall img: seq<Byte> | |img| == base && TableAccepted(img)
        ensures TableUnwrapped(img, 8, CountAt(img)) && TableChecked(img, 8, CountAt(img))
      {
        SmallImagesUnwrapped(img, 8, CountAt(img));
        UnwrappedIsChecked(img, 8, CountAt(img));
      }
    } else {
      var img := OverrunPasses(base);
      if TableUnwrapped(img, 8, CountAt(img)) { UnwrappedIsChecked(img, 8, CountAt(img)); }
    }
  }

  // ----- A table with more than 2^31 sensors -----

  /** A temperature metric "A" of 65535 values of no bytes: all are read from the next header. */
  function Hollow(): (r: seq<Byte>)
    ensures |r| == 24
  {
    [65] + Zeros(15) + [1, 0, 255, 255] + Zeros(4)
  }

  function Copies(n: nat): seq<Byte> {
    if n == 0 then [] else Hollow() + Copies(n - 1)
  }

  predicate HollowRun(img: seq<Byte>, reg: nat, n: nat)
    decreases n
  {
    n == 0 || (Holds(img, reg, Hollow()) && HollowRun(img, reg + 24, n - 1))
  }

  lemma {:induction false} CopiesRun(img: seq<Byte>, reg: nat, n: nat)
    requires Holds(img, reg, Copies(n))
    ensures HollowRun(img, reg, n)
    decreases n
  {
    if n > 0 {
      HoldsParts(img, reg, Hollow(), Copies(n - 1));
      CopiesRun(img, reg + 24, n - 1);
    }
  }

  lemma HollowFields(img: seq<Byte>, reg: nat)
    requires Holds(img, reg, Hollow())
    ensures InfoAt(img, reg) == Info(1, 0, 65535) && Peek32(img, reg) == 65
    ensures NameAt(img, reg) == [65] && 0 in img[reg..reg + 16] && reg + 24 <= |img|
  {
    var name := [65] + Zeros(15);
    var rest := [1, 0, 255, 255] + Zeros(4);
    assert Hollow() == name + rest;
    HoldsParts(img, reg, name, rest);
    HoldsAt(img, reg, name, 0);
    HoldsAt(img, reg, name, 1);
    HoldsAt(img, reg, name, 2);
    HoldsAt(img, reg, name, 3);
    HoldsAt(img, reg + 16, rest, 0);
    HoldsAt(img, reg + 16, rest, 1);
    HoldsAt(img, reg + 16, rest, 2);
    HoldsAt(img, reg + 16, rest, 3);
    LabelEnds([65], 15);
    assert name[15] == 0;
  }

  lemma {:induction false} SameSpot(img: seq<Byte>, name: seq<Byte>, reg: nat, left: nat, rank: nat)
    requires SensorValid(img, reg)
    ensures |ItemsFrom(img, name, 1, 0, reg, left, rank)| == left
    decreases left
  {
    if left > 0 { SameSpot(img, name, reg, left - 1, rank + 1); }
  }

  lemma NoBytes(n: nat)
    ensures Span(0, n) == 0
  {
    SpanIs(0, n);
  }

  /** What the walk needs to know of a hollow metric with another header behind it. */
  predicate HollowSpot(img: seq<Byte>, reg: nat) {
    && MetricAt(img, reg).Some? && MetricAt(img, reg).value.kind == Temp
    && |MetricAt(img, reg).value.items| == 65535
    && InRange(img, reg) && BlockReadable(img, reg) && Unwrapped(img, reg)
    && Align8(BlockEnd(img, reg)) == reg + 24
  }

  predicate HollowSpots(img: seq<Byte>, reg: nat, left: nat)
    decreases left
  {
    left == 0 || (HollowSpot(img, reg) && HollowSpots(img, reg + 24, left - 1))
  }

  lemma HollowMetric(img: seq<Byte>, reg: nat)
    requires Holds(img, reg, Hollow()) && Holds(img, reg + 24, Hollow()) && reg % 8 == 0 && |img| < 0x8000_0000
    ensures HollowSpot(img, reg)
  {
    HollowFields(img, reg);
    HollowFields(img, reg + 24);
    NoBytes(65535);
    NoBytes(65534);
    SameSpot(img, [65], reg + 24, 65535, 0);
    AlignShift(reg, 0);
  }

  lemma {:induction false} RunSpots(img: seq<Byte>, reg: nat, left: nat)
    requires HollowRun(img, reg, left + 1) && reg % 8 == 0 && |img| < 0x8000_0000
    ensures HollowSpots(img, reg, left)
    decreases left
  {
    if left > 0 {
      assert HollowRun(img, reg + 24, left);
      HollowMetric(img, reg);
      NextHeader(reg);
      RunSpots(img, reg + 24, left - 1);
    }
  }

  lemma NextHeader(reg: nat)
    requires reg % 8 == 0
    ensures (reg + 24) % 8 == 0
  {
  }

  lemma {:induction false} SpotsReadable(img: seq<Byte>, reg: nat, left: nat)
    requires HollowSpots(img, reg, left)
    ensures TableReadable(img, reg, left) && TableUnwrapped(img, reg, left)
    decreases left
  {
    if left > 0 { SpotsReadable(img, reg + 24, left - 1); }
  }

  lemma {:induction false} SpotsCount(img: seq<Byte>, reg: nat, left: nat)
    requires HollowSpots(img, reg, left)
    ensures |ItemsOf(Parse(img, reg, left), Temp)| == Span(65535, left)
    decreases left
  {
    if left > 0 {
      SpotsCount(img, reg + 24, left - 1);
      WalkNext(img, reg, left, MetricAt(img, reg), reg + 24);
      AcceptItems(MetricAt(img, reg), Parse(img, reg + 24, left - 1), Temp);
    }
  }

  lemma {:induction false} CopiesLength(n: nat)
    ensures |Copies(n)| == 24 * n
  {
    if n > 0 { CopiesLength(n - 1); }
  }

  /** An image of 1572872 bytes that the driver accepts and can read, with 65535^2 temperature
      sensors: channel -200000 passes the bounds check of the read paths. */
  lemma {:induction false} NegativeChannelPasses() returns (img: seq<Byte>)
    ensures |img| == 1572872 && TableAccepted(img)
    ensures TableReadable(img, 8, CountAt(img)) && TableUnwrapped(img, 8, CountAt(img))
    ensures |ItemsOf(Metrics(img), Temp)| == 4294836225
    ensures Verdict(-200000, |ItemsOf(Metrics(img), Temp)|) == Astray
  {
    img := Head(65535) + Copies(65536);
    CopiesLength(65536);
    assert Holds(img, 0, Head(65535) + Copies(65536));
    HoldsParts(img, 0, Head(65535), Copies(65536));
    HeadWritten(img, 65535);
    CopiesRun(img, 8, 65536);
    RunSpots(img, 8, 65535);
    SpotsReadable(img, 8, 65535);
    SpotsCount(img, 8, 65535);
    SpanIs(65535, 65535);
  }
}
