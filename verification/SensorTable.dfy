// The self-describing sensor table of the Altra hwmon driver, as a pure parser over the bytes of
// the register image (module/altra-hwmon.c).
module SensorTable {
  import opened Words

  type Byte = b: int | 0 <= b < 256

  datatype Option<+T> = None | Some(value: T)

  // ----- Little-endian register reads -----

  /** readl_relaxed at `reg`; the parser never reads outside the image, where this yields 0. */
  function Peek32(img: seq<Byte>, reg: nat): nat {
    if reg + 4 <= |img| then
      Word(img[reg], img[reg + 1], img[reg + 2], img[reg + 3])
    else 0
  }

  function Word(b0: nat, b1: nat, b2: nat, b3: nat): nat {
    b0 + 256 * b1 + 65536 * b2 + 16777216 * b3
  }

  function Peek64(img: seq<Byte>, reg: nat): nat {
    Peek32(img, reg) + 0x1_0000_0000 * Peek32(img, reg + 4)
  }

  // ----- Fields of the header words -----

  /** Unit, data size and data count of a metric: the bytes of its info word. */
  datatype Info = Info(unit: nat, size: nat, count: nat)

  function InfoAt(img: seq<Byte>, reg: nat): Info {
    if reg + 20 <= |img| then Info(img[reg + 16], img[reg + 17], img[reg + 18] + 256 * (img[reg + 19] as nat))
    else Info(0, 0, 0)
  }

  /** Version and metric count of the table: the halves of its info word. */
  function VersionAt(img: seq<Byte>): nat {
    if |img| >= 8 then img[4] + 256 * (img[5] as nat) else 0
  }

  function CountAt(img: seq<Byte>): nat {
    if |img| >= 8 then img[6] + 256 * (img[7] as nat) else 0
  }

  /** The masks and shifts of the driver select those bytes. */
  lemma WordFields(b0: nat, b1: nat, b2: nat, b3: nat)
    requires b0 < 256 && b1 < 256 && b2 < 256 && b3 < 256
    ensures var x := Word(b0, b1, b2, b3);
            && x % 256 == b0 && x / 256 % 256 == b1 && x / 65536 % 65536 == b2 + 256 * b3
            && x % 65536 == b0 + 256 * b1
  {
    Split8(b1 + 256 * (b2 + 256 * b3), b0);
    Split8(b2 + 256 * b3, b1);
    Split16(b2 + 256 * b3, b0 + 256 * b1);
    Split16(0, b2 + 256 * b3);
  }

  const TABLE_ID: nat := 0x304D5748
  const SUPPORTED_VERSION: nat := 1

  datatype SensorType = Temp | Energy

  /** The channel flags of a type: input and label, of temperature or of energy. */
  datatype Flag = TempInputLabel | EnergyInputLabel

  function UnitType(unit: nat): Option<SensorType> {
    if unit == 0x01 then Some(Temp)
    else if unit == 0x10 || unit == 0x11 || unit == 0x12 then Some(Energy)
    else None
  }

  function ScaleFactor(unit: nat): nat {
    if unit == 0x01 then 1000
    else if unit == 0x10 then 1000000
    else if unit == 0x11 then 1000
    else 1
  }

  function TypeFlag(t: SensorType): Flag {
    if t.Temp? then TempInputLabel else EnergyInputLabel
  }

  // ----- Labels -----

  /** The C string at the start of a buffer. */
  function CString(b: seq<Byte>): seq<Byte> {
    if b == [] || b[0] == 0 then [] else [b[0]] + CString(b[1..])
  }

  /** Decimal digits. */
  function Digits(n: nat): seq<Byte> {
    if n < 10 then [48 + n] else Digits(n / 10) + [48 + n % 10]
  }

  /** printf "%03u". */
  function Padded(n: nat): seq<Byte> {
    if n < 10 then [48, 48] + Digits(n) else if n < 100 then [48] + Digits(n) else Digits(n)
  }

  /** scnprintf "%s %03u" into a sensor's 20-byte label: at most 19 characters survive. */
  function PrintLabel(name: seq<Byte>, n: nat): seq<Byte> {
    var text := name + [32] + Padded(n);
    if |text| <= 19 then text else text[..19]
  }

  // ----- The parser -----

  datatype Item = Item(text: seq<Byte>, scale: nat, size: nat, reg: nat)

  datatype Metric = Metric(kind: SensorType, items: seq<Item>)

  /** The probe reads 4 bytes of a 4-byte sensor and 8 bytes of any other. */
  function Width(size: nat): nat { if size == 4 then 4 else 8 }

  /** A sensor is valid when its value, truncated to an int, is not zero: only the low 32 bits count. */
  predicate SensorValid(img: seq<Byte>, reg: nat) {
    Peek32(img, reg) != 0
  }

  lemma TruncateRead(img: seq<Byte>, reg: nat)
    ensures Peek64(img, reg) % 0x1_0000_0000 == Peek32(img, reg)
  {
    Peek32Fits(img, reg);
    Split32(Peek32(img, reg + 4), Peek32(img, reg));
  }

  lemma Peek32Fits(img: seq<Byte>, reg: nat)
    ensures Peek32(img, reg) < 0x1_0000_0000
  {
  }

  /** The valid ones among `left` sensors from `reg` on, numbered from `rank`. */
  function ItemsFrom(img: seq<Byte>, name: seq<Byte>, unit: nat, size: nat, reg: nat, left: nat, rank: nat): seq<Item>
    decreases left
  {
    if left == 0 then []
    else if SensorValid(img, reg) then
      [Item(PrintLabel(name, rank), ScaleFactor(unit), size, reg)]
      + ItemsFrom(img, name, unit, size, reg + size, left - 1, rank + 1)
    else ItemsFrom(img, name, unit, size, reg + size, left - 1, rank)
  }

  function NameAt(img: seq<Byte>, reg: nat): seq<Byte> {
    if reg + 16 <= |img| then CString(img[reg..reg + 16]) else []
  }

  /** The metric block at `reg`, unless its unit is unknown or its label empty. */
  function MetricAt(img: seq<Byte>, reg: nat): Option<Metric> {
    var info := InfoAt(img, reg);
    var kind := UnitType(info.unit);
    if kind.None? || NameAt(img, reg) == [] then None
    else Some(Metric(kind.value,
                     ItemsFrom(img, NameAt(img, reg), info.unit, info.size, reg + 24, info.count, 0)))
  }

  function BlockEnd(img: seq<Byte>, reg: nat): nat {
    var info := InfoAt(img, reg);
    reg + 24 + Span(info.size, info.count)
  }

  /** The bytes that `n` sensors take. */
  function Span(size: nat, n: nat): nat {
    if n == 0 then 0 else size + Span(size, n - 1)
  }

  lemma {:induction false} SpanIs(size: nat, n: nat)
    ensures Span(size, n) == size * n
  {
    if n > 0 { SpanIs(size, n - 1); }
  }

  function Align8(reg: nat): nat { (reg + 7) / 8 * 8 }

  /** The range check that ends the walk. */
  predicate InRange(img: seq<Byte>, reg: nat) {
    reg + 24 <= |img| && BlockEnd(img, reg) <= |img|
  }

  function Parse(img: seq<Byte>, reg: nat, left: nat): seq<Metric>
    decreases left
  {
    if left == 0 || !InRange(img, reg) then []
    else
      Accept(MetricAt(img, reg), Parse(img, Align8(BlockEnd(img, reg)), left - 1))
  }

  function Accept(m: Option<Metric>, rest: seq<Metric>): seq<Metric> {
    if m.Some? then [m.value] + rest else rest
  }

  // ----- What the driver demands of a table -----

  /** The validity reads of n sensors end inside the image. */
  predicate ReadsInside(img: seq<Byte>, data: nat, size: nat, n: nat) {
    n == 0 || data + Span(size, n - 1) + Width(size) <= |img|
  }

  /** An accepted metric's label ends within its 16 bytes, and its sensors are read inside the image. */
  predicate BlockReadable(img: seq<Byte>, reg: nat) {
    var info := InfoAt(img, reg);
    MetricAt(img, reg).Some? ==>
      reg + 16 <= |img| && 0 in img[reg..reg + 16] && ReadsInside(img, reg + 24, info.size, info.count)
  }

  predicate TableReadable(img: seq<Byte>, reg: nat, left: nat)
    decreases left
  {
    left == 0 || !InRange(img, reg)
    || (BlockReadable(img, reg) && TableReadable(img, Align8(BlockEnd(img, reg)), left - 1))
  }

  /** No u32 offset of the walk wraps at this block. */
  predicate Unwrapped(img: seq<Byte>, reg: nat) {
    && reg + 24 < 0x1_0000_0000
    && (reg + 24 <= |img| ==> BlockEnd(img, reg) < 0x1_0000_0000)
    && (InRange(img, reg) ==> BlockEnd(img, reg) + 7 < 0x1_0000_0000)
  }

  predicate TableUnwrapped(img: seq<Byte>, reg: nat, left: nat)
    decreases left
  {
    left == 0
    || (Unwrapped(img, reg) && (InRange(img, reg) ==> TableUnwrapped(img, Align8(BlockEnd(img, reg)), left - 1)))
  }

  predicate TableAccepted(img: seq<Byte>) {
    |img| >= 8 && Peek32(img, 0) == TABLE_ID && VersionAt(img) == SUPPORTED_VERSION
  }

  /** The metrics of a whole image. */
  function Metrics(img: seq<Byte>): seq<Metric> {
    if TableAccepted(img) then Parse(img, 8, CountAt(img)) else []
  }

  /** One type's sensor list: the concatenation over its metrics. */
  function ItemsOf(ms: seq<Metric>, t: SensorType): seq<Item> {
    if ms == [] then []
    else (if ms[0].kind == t then ms[0].items else []) + ItemsOf(ms[1..], t)
  }

  // ----- Reading back a sensor -----

  function Raw(img: seq<Byte>, it: Item): nat {
    if it.size == 4 then Peek32(img, it.reg) else Peek64(img, it.reg)
  }
}
