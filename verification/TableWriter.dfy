// A firmware-side writer of the sensor table, and the round trip through the driver's parser.
module TableWriter {
  import opened SensorTable
  import opened SensorLayout
  import opened Words

  /** One metric as firmware means it: a label, a unit code and values of one width. */
  datatype Block = Block(name: seq<Byte>, unit: Byte, size: Byte, values: seq<nat>)

  predicate Writable(b: Block) {
    && |b.name| <= 15 && 0 !in b.name
    && (b.size == 4 || b.size == 8) && |b.values| < 65536
    && AllFit(b.size, b.values)
  }

  predicate Fits(size: nat, v: nat) {
    if size == 4 then v < 0x1_0000_0000 else v < 0x1_0000_0000_0000_0000
  }

  predicate AllFit(size: nat, vs: seq<nat>) {
    forall k :: 0 <= k < |vs| ==> Fits(size, vs[k])
  }

  predicate AllWritable(bs: seq<Block>) {
    forall k :: 0 <= k < |bs| ==> Writable(bs[k])
  }

  // ----- The writer -----

  function Zeros(n: nat): seq<Byte> {
    seq(n, _ => 0)
  }

  /** Little-endian, of a value below 2^16. */
  function Write16(v: nat): (r: seq<Byte>)
    requires v < 65536
  {
    [v % 256, v / 256]
  }

  function Write32(v: nat): (r: seq<Byte>)
    requires v < 0x1_0000_0000
  {
    [v % 256, v / 256 % 256, v / 65536 % 256, v / 16777216]
  }

  function WriteValue(size: nat, v: nat): seq<Byte>
    requires Fits(size, v)
  {
    if size == 4 then Write32(v) else Write32(v % 0x1_0000_0000) + Write32(v / 0x1_0000_0000)
  }

  function WriteValues(size: nat, vs: seq<nat>): seq<Byte>
    requires AllFit(size, vs)
  {
    if vs == [] then [] else WriteValue(size, vs[0]) + WriteValues(size, vs[1..])
  }

  function Header(b: Block): (r: seq<Byte>)
    requires Writable(b)
    ensures |r| == 24
  {
    b.name + Zeros(16 - |b.name|) + [b.unit, b.size] + Write16(|b.values|) + Zeros(4)
  }

  /** Header and data, padded to a multiple of 8 bytes. */
  function WriteBlock(b: Block): seq<Byte>
    requires Writable(b)
  {
    var data := WriteValues(b.size, b.values);
    Header(b) + data + Zeros(Align8(|data|) - |data|)
  }

  function WriteBlocks(bs: seq<Block>): seq<Byte>
    requires AllWritable(bs)
  {
    if bs == [] then [] else WriteBlock(bs[0]) + WriteBlocks(bs[1..])
  }

  function Head(n: nat): (r: seq<Byte>)
    requires n < 65536
    ensures |r| == 8
  {
    Write32(TABLE_ID) + Write16(SUPPORTED_VERSION) + Write16(n)
  }

  function WriteTable(bs: seq<Block>): seq<Byte>
    requires AllWritable(bs) && |bs| < 65536
  {
    Head(|bs|) + WriteBlocks(bs)
  }

  // ----- What the driver is to make of it -----

  /** A value is reported unless its low 32 bits are zero. */
  predicate Reported(v: nat) {
    v % 0x1_0000_0000 != 0
  }

  predicate Understood(b: Block) {
    UnitType(b.unit).Some? && b.name != []
  }

  function ExpectedItems(b: Block, vs: seq<nat>, reg: nat, rank: nat): seq<Item>
    decreases |vs|
  {
    if vs == [] then []
    else if Reported(vs[0]) then
      [Item(PrintLabel(b.name, rank), ScaleFactor(b.unit), b.size, reg)]
      + ExpectedItems(b, vs[1..], reg + b.size, rank + 1)
    else ExpectedItems(b, vs[1..], reg + b.size, rank)
  }

  function Meaning(b: Block, reg: nat): Option<Metric> {
    if Understood(b) then Some(Metric(UnitType(b.unit).value, ExpectedItems(b, b.values, reg + 24, 0))) else None
  }

  /** The bytes a block takes. */
  function Size(b: Block): nat {
    24 + Align8(Span(b.size, |b.values|))
  }

  /** The metrics of blocks laid out from `reg` on, without the ones that are not understood. */
  function Expected(bs: seq<Block>, reg: nat): seq<Metric>
    decreases |bs|
  {
    if bs == [] then []
    else
      Accept(Meaning(bs[0], reg), Expected(bs[1..], reg + Size(bs[0])))
  }

  /** What a channel is to show: label, raw value and scale. */
  datatype Showing = Showing(text: seq<Byte>, value: nat, scale: nat)

  function Kept(b: Block, vs: seq<nat>, rank: nat): seq<Showing>
    decreases |vs|
  {
    if vs == [] then []
    else if Reported(vs[0]) then
      [Showing(PrintLabel(b.name, rank), vs[0], ScaleFactor(b.unit))] + Kept(b, vs[1..], rank + 1)
    else Kept(b, vs[1..], rank)
  }

  /** What the channels of one type are to show, in order. */
  function Shown(bs: seq<Block>, t: SensorType): seq<Showing> {
    if bs == [] then []
    else
      (if Understood(bs[0]) && UnitType(bs[0].unit).value == t then Kept(bs[0], bs[0].values, 0) else [])
      + Shown(bs[1..], t)
  }

  // ----- Finding written bytes in an image -----

  predicate Holds(img: seq<Byte>, reg: nat, bytes: seq<Byte>) {
    reg + |bytes| <= |img| && img[reg..reg + |bytes|] == bytes
  }

  lemma HoldsParts(img: seq<Byte>, reg: nat, a: seq<Byte>, b: seq<Byte>)
    requires Holds(img, reg, a + b)
    ensures Holds(img, reg, a) && Holds(img, reg + |a|, b)
  {
    var whole := img[reg..reg + |a + b|];
    assert whole[..|a|] == a && whole[|a|..] == b;
    assert img[reg..reg + |a|] == whole[..|a|];
    assert img[reg + |a|..reg + |a| + |b|] == whole[|a|..];
  }

  lemma HoldsAt(img: seq<Byte>, reg: nat, bytes: seq<Byte>, k: nat)
    requires Holds(img, reg, bytes) && k < |bytes|
    ensures img[reg + k] == bytes[k]
  {
    assert img[reg..reg + |bytes|][k] == img[reg + k];
  }

  lemma Peek32Written(img: seq<Byte>, reg: nat, v: nat)
    requires v < 0x1_0000_0000 && Holds(img, reg, Write32(v))
    ensures Peek32(img, reg) == v
  {
    var w := Write32(v);
    HoldsAt(img, reg, w, 0);
    HoldsAt(img, reg, w, 1);
    HoldsAt(img, reg, w, 2);
    HoldsAt(img, reg, w, 3);
    Reassemble(v);
  }

  lemma Reassemble(v: nat)
    requires v < 0x1_0000_0000
    ensures Word(v % 256, v / 256 % 256, v / 65536 % 256, v / 16777216) == v
  {
    Join8(v);
    Join8(v / 256);
    Join8(v / 65536);
    assert v / 65536 == v / 256 / 256 && v / 16777216 == v / 65536 / 256;
  }

  lemma ValueWritten(img: seq<Byte>, size: nat, reg: nat, v: nat)
    requires (size == 4 || size == 8) && Fits(size, v)
    requires Holds(img, reg, WriteValue(size, v))
    ensures (if size == 4 then Peek32(img, reg) else Peek64(img, reg)) == v
    ensures SensorValid(img, reg) <==> Reported(v)
  {
    if size == 4 {
      Peek32Written(img, reg, v);
      Split32(0, v);
    } else {
      Join32(v);
      HoldsParts(img, reg, Write32(v % 0x1_0000_0000), Write32(v / 0x1_0000_0000));
      Peek32Written(img, reg, v % 0x1_0000_0000);
      Peek32Written(img, reg + 4, v / 0x1_0000_0000);
    }
  }

  // ----- Sensors -----

  lemma {:induction false} ValuesLength(size: nat, vs: seq<nat>)
    requires size == 4 || size == 8
    requires AllFit(size, vs)
    ensures |WriteValues(size, vs)| == Span(size, |vs|)
  {
    if vs != [] { ValuesLength(size, vs[1..]); }
  }

  /** Labels, registers and scales as the read paths see them. */
  function Readback(img: seq<Byte>, items: seq<Item>): seq<Showing> {
    seq(|items|, k requires 0 <= k < |items| => Showing(items[k].text, Raw(img, items[k]), items[k].scale))
  }

  /** The parser finds the written sensors. */
  lemma {:induction false} ItemsWritten(img: seq<Byte>, b: Block, vs: seq<nat>, reg: nat, rank: nat)
    requires b.size == 4 || b.size == 8
    requires AllFit(b.size, vs)
    requires Holds(img, reg, WriteValues(b.size, vs))
    ensures ItemsFrom(img, b.name, b.unit, b.size, reg, |vs|, rank) == ExpectedItems(b, vs, reg, rank)
    decreases |vs|
  {
    if vs != [] {
      HoldsParts(img, reg, WriteValue(b.size, vs[0]), WriteValues(b.size, vs[1..]));
      ValueWritten(img, b.size, reg, vs[0]);
      ItemsWritten(img, b, vs[1..], reg + b.size, if Reported(vs[0]) then rank + 1 else rank);
    }
  }

  lemma ReadbackCons(img: seq<Byte>, item: Item, rest: seq<Item>)
    ensures Readback(img, [item] + rest) == [Showing(item.text, Raw(img, item), item.scale)] + Readback(img, rest)
  {
  }

  /** Their registers read back the values. */
  lemma {:induction false} ItemsReadBack(img: seq<Byte>, b: Block, vs: seq<nat>, reg: nat, rank: nat)
    requires b.size == 4 || b.size == 8
    requires AllFit(b.size, vs)
    requires Holds(img, reg, WriteValues(b.size, vs))
    ensures Readback(img, ExpectedItems(b, vs, reg, rank)) == Kept(b, vs, rank)
    decreases |vs|
  {
    if vs != [] {
      HoldsParts(img, reg, WriteValue(b.size, vs[0]), WriteValues(b.size, vs[1..]));
      ValueWritten(img, b.size, reg, vs[0]);
      var rank' := if Reported(vs[0]) then rank + 1 else rank;
      ItemsReadBack(img, b, vs[1..], reg + b.size, rank');
      if Reported(vs[0]) {
        var first := Item(PrintLabel(b.name, rank), ScaleFactor(b.unit), b.size, reg);
        ReadbackCons(img, first, ExpectedItems(b, vs[1..], reg + b.size, rank'));
      }
    }
  }

  lemma ReadbackConcat(img: seq<Byte>, x: seq<Item>, y: seq<Item>)
    ensures Readback(img, x + y) == Readback(img, x) + Readback(img, y)
  {
  }

  // ----- Metric blocks -----

  lemma {:induction false} LabelEnds(name: seq<Byte>, n: nat)
    requires 0 !in name && n > 0
    ensures CString(name + Zeros(n)) == name
  {
    if name != [] {
      assert (name + Zeros(n))[1..] == name[1..] + Zeros(n);
      LabelEnds(name[1..], n);
    }
  }

  /** The parser reads the header fields back. */
  lemma HeaderWritten(img: seq<Byte>, reg: nat, b: Block)
    requires Writable(b) && Holds(img, reg, Header(b))
    ensures InfoAt(img, reg) == Info(b.unit, b.size, |b.values|)
    ensures NameAt(img, reg) == b.name && 0 in img[reg..reg + 16]
  {
    var name := b.name + Zeros(16 - |b.name|);
    var info := [b.unit, b.size] + Write16(|b.values|);
    assert Header(b) == name + (info + Zeros(4));
    HoldsParts(img, reg, name, info + Zeros(4));
    HoldsParts(img, reg + 16, info, Zeros(4));
    HoldsAt(img, reg + 16, info, 0);
    HoldsAt(img, reg + 16, info, 1);
    HoldsAt(img, reg + 16, info, 2);
    HoldsAt(img, reg + 16, info, 3);
    LabelEnds(b.name, 16 - |b.name|);
    assert name[15] == 0;
  }

  /** Header and data of a block at `reg`, and room for its padding. */
  predicate BlockAt(img: seq<Byte>, reg: nat, b: Block)
    requires Writable(b)
  {
    && Holds(img, reg, Header(b)) && Holds(img, reg + 24, WriteValues(b.size, b.values))
    && reg + Size(b) <= |img|
  }

  lemma WriteBlockSize(b: Block)
    requires Writable(b)
    ensures |WriteBlock(b)| == Size(b)
  {
    ValuesLength(b.size, b.values);
  }

  lemma BlockParts(img: seq<Byte>, reg: nat, b: Block)
    requires Writable(b) && Holds(img, reg, WriteBlock(b))
    ensures BlockAt(img, reg, b)
  {
    var data := WriteValues(b.size, b.values);
    WriteBlockSize(b);
    HoldsParts(img, reg, Header(b) + data, Zeros(Align8(|data|) - |data|));
    HoldsParts(img, reg, Header(b), data);
  }

  lemma MetricWritten(img: seq<Byte>, reg: nat, b: Block)
    requires Writable(b) && BlockAt(img, reg, b)
    ensures MetricAt(img, reg) == Meaning(b, reg)
  {
    HeaderWritten(img, reg, b);
    ItemsWritten(img, b, b.values, reg + 24, 0);
  }

  lemma BlockBounds(img: seq<Byte>, reg: nat, b: Block)
    requires Writable(b) && BlockAt(img, reg, b) && reg % 8 == 0
    ensures InRange(img, reg) && BlockRoomy(img, reg) && BlockReadable(img, reg)
    ensures Align8(BlockEnd(img, reg)) == reg + Size(b)
  {
    HeaderWritten(img, reg, b);
    if MetricAt(img, reg).Some? { RoomyIsInside(img, reg); }
    AlignShift(reg, Span(b.size, |b.values|));
  }

  lemma AlignShift(reg: nat, n: nat)
    requires reg % 8 == 0
    ensures Align8(reg + 24 + n) == reg + 24 + Align8(n) && n <= Align8(n) && (reg + 24 + Align8(n)) % 8 == 0
  {
  }

  /** Each block at its place. */
  predicate BlocksAt(img: seq<Byte>, reg: nat, bs: seq<Block>)
    requires AllWritable(bs)
    decreases |bs|
  {
    bs == [] || (BlockAt(img, reg, bs[0]) && BlocksAt(img, reg + Size(bs[0]), bs[1..]))
  }

  lemma {:induction false} BlocksPlaced(img: seq<Byte>, reg: nat, bs: seq<Block>)
    requires AllWritable(bs) && Holds(img, reg, WriteBlocks(bs))
    ensures BlocksAt(img, reg, bs)
    decreases |bs|
  {
    if bs != [] {
      HoldsParts(img, reg, WriteBlock(bs[0]), WriteBlocks(bs[1..]));
      BlockParts(img, reg, bs[0]);
      WriteBlockSize(bs[0]);
      BlocksPlaced(img, reg + Size(bs[0]), bs[1..]);
    }
  }

  /** What the walk needs to know of one block. */
  predicate Recognised(img: seq<Byte>, reg: nat, b: Block) {
    && InRange(img, reg) && BlockRoomy(img, reg) && BlockReadable(img, reg)
    && MetricAt(img, reg) == Meaning(b, reg) && Align8(BlockEnd(img, reg)) == reg + Size(b)
  }

  predicate AllRecognised(img: seq<Byte>, reg: nat, bs: seq<Block>)
    decreases |bs|
  {
    bs == [] || (Recognised(img, reg, bs[0]) && AllRecognised(img, reg + Size(bs[0]), bs[1..]))
  }

  lemma BlockRecognised(img: seq<Byte>, reg: nat, b: Block)
    requires Writable(b) && BlockAt(img, reg, b) && reg % 8 == 0
    ensures Recognised(img, reg, b) && (reg + Size(b)) % 8 == 0
  {
    MetricWritten(img, reg, b);
    BlockBounds(img, reg, b);
    AlignShift(reg, Span(b.size, |b.values|));
  }

  lemma {:induction false} BlocksRecognised(img: seq<Byte>, reg: nat, bs: seq<Block>)
    requires AllWritable(bs) && BlocksAt(img, reg, bs) && reg % 8 == 0
    ensures AllRecognised(img, reg, bs)
    decreases |bs|
  {
    if bs != [] {
      BlockRecognised(img, reg, bs[0]);
      BlocksRecognised(img, reg + Size(bs[0]), bs[1..]);
    }
  }

  lemma WalkNext(img: seq<Byte>, reg: nat, left: nat, m: Option<Metric>, next: nat)
    requires left > 0 && InRange(img, reg) && MetricAt(img, reg) == m && Align8(BlockEnd(img, reg)) == next
    ensures Parse(img, reg, left) == Accept(m, Parse(img, next, left - 1))
    ensures BlockReadable(img, reg) && TableReadable(img, next, left - 1) ==> TableReadable(img, reg, left)
    ensures BlockRoomy(img, reg) && TableRoomy(img, next, left - 1) ==> TableRoomy(img, reg, left)
  {
  }

  lemma ExpectedNext(bs: seq<Block>, reg: nat)
    requires bs != []
    ensures Expected(bs, reg) == Accept(Meaning(bs[0], reg), Expected(bs[1..], reg + Size(bs[0])))
  {
  }

  /** The walk finds the written blocks. */
  lemma {:induction false} BlocksWritten(img: seq<Byte>, reg: nat, bs: seq<Block>)
    requires AllRecognised(img, reg, bs)
    ensures Parse(img, reg, |bs|) == Expected(bs, reg)
    ensures TableRoomy(img, reg, |bs|) && TableReadable(img, reg, |bs|)
    decreases |bs|
  {
    if bs != [] {
      var next := reg + Size(bs[0]);
      BlocksWritten(img, next, bs[1..]);
      WalkNext(img, reg, |bs|, Meaning(bs[0], reg), next);
      ExpectedNext(bs, reg);
    }
  }

  lemma {:induction false} BlocksReadBack(img: seq<Byte>, reg: nat, bs: seq<Block>, t: SensorType)
    requires AllWritable(bs) && BlocksAt(img, reg, bs)
    ensures Readback(img, ItemsOf(Expected(bs, reg), t)) == Shown(bs, t)
    decreases |bs|
  {
    if bs != [] {
      ItemsReadBack(img, bs[0], bs[0].values, reg + 24, 0);
      var rest := Expected(bs[1..], reg + Size(bs[0]));
      BlocksReadBack(img, reg + Size(bs[0]), bs[1..], t);
      AcceptItems(Meaning(bs[0], reg), rest, t);
      if Understood(bs[0]) {
        ReadbackConcat(img, ExpectedItems(bs[0], bs[0].values, reg + 24, 0), ItemsOf(rest, t));
      }
    }
  }

  // ----- The round trip -----

  /** The parser reads the table header back. */
  lemma HeadWritten(img: seq<Byte>, n: nat)
    requires n < 65536 && Holds(img, 0, Head(n))
    ensures TableAccepted(img) && CountAt(img) == n
  {
    var id, words := Write32(TABLE_ID), Write16(SUPPORTED_VERSION) + Write16(n);
    assert Head(n) == id + words;
    HoldsParts(img, 0, id, words);
    HoldsAt(img, 4, words, 0);
    HoldsAt(img, 4, words, 1);
    HoldsAt(img, 4, words, 2);
    HoldsAt(img, 4, words, 3);
    Peek32Written(img, 0, TABLE_ID);
  }

  /** The written table stands at the start of the image, with anything behind it. */
  predicate Begins(img: seq<Byte>, bs: seq<Block>)
    requires AllWritable(bs) && |bs| < 65536
  {
    WriteTable(bs) <= img
  }

  lemma TableWritten(img: seq<Byte>, bs: seq<Block>)
    requires AllWritable(bs) && |bs| < 65536 && Begins(img, bs)
    ensures TableAccepted(img) && CountAt(img) == |bs| && BlocksAt(img, 8, bs)
  {
    assert Holds(img, 0, Head(|bs|) + WriteBlocks(bs));
    HoldsParts(img, 0, Head(|bs|), WriteBlocks(bs));
    HeadWritten(img, |bs|);
    BlocksPlaced(img, 8, bs);
  }

  /** The driver accepts a written table, and can read all of it. */
  lemma {:induction false} WrittenIsReadable(img: seq<Byte>, bs: seq<Block>)
    requires AllWritable(bs) && |bs| < 65536 && Begins(img, bs)
    ensures TableAccepted(img) && CountAt(img) == |bs| && TableRoomy(img, 8, |bs|) && TableReadable(img, 8, |bs|)
  {
    TableWritten(img, bs);
    BlocksRecognised(img, 8, bs);
    BlocksWritten(img, 8, bs);
  }

  /** Parsing it yields exactly the reported sensors of the understood blocks, in order, ... */
  lemma {:induction false} RoundTrip(img: seq<Byte>, bs: seq<Block>)
    requires AllWritable(bs) && |bs| < 65536 && Begins(img, bs)
    ensures Metrics(img) == Expected(bs, 8)
  {
    TableWritten(img, bs);
    BlocksRecognised(img, 8, bs);
    BlocksWritten(img, 8, bs);
  }

  /** ... and their labels, registers and scales read back as written. */
  lemma {:induction false} RoundTripReadings(img: seq<Byte>, bs: seq<Block>, t: SensorType)
    requires AllWritable(bs) && |bs| < 65536 && Begins(img, bs)
    ensures Readback(img, ItemsOf(Metrics(img), t)) == Shown(bs, t)
  {
    RoundTrip(img, bs);
    TableWritten(img, bs);
    BlocksReadBack(img, 8, bs, t);
  }
}
