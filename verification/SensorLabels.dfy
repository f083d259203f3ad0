// Printing sensor labels in the driver and parsing them in the joule reader
// (module/altra-hwmon.c, altra_create_sensor; wfey_hwmon.c, wfey_hwmon_joules_cache_path).
module SensorLabels {
  import opened SensorTable
  import opened SensorLayout

  // ----- The reader's scanf -----

  predicate IsSpace(c: Byte) { c == 32 || 9 <= c <= 13 }

  predicate IsDigit(c: Byte) { 48 <= c <= 57 }

  function SkipSpace(s: seq<Byte>): seq<Byte> {
    if s != [] && IsSpace(s[0]) then SkipSpace(s[1..]) else s
  }

  function Strip(s: seq<Byte>, word: seq<Byte>): Option<seq<Byte>> {
    if |word| <= |s| && s[..|word|] == word then Some(s[|word|..]) else None
  }

  /** The value of the leading digits, after digits worth `acc`. */
  function Leading(s: seq<Byte>, acc: nat): nat {
    if s == [] || !IsDigit(s[0]) then acc else Leading(s[1..], 10 * acc + (s[0] - 48))
  }

  /** %d: white space, a sign, at least one digit. */
  function ScanInt(s: seq<Byte>): Option<int> {
    var t := SkipSpace(s);
    var signed := t != [] && (t[0] == 43 || t[0] == 45);
    var u := if signed then t[1..] else t;
    if u == [] || !IsDigit(u[0]) then None
    else
      var v: int := Leading(u, 0);
      Some(if signed && t[0] == 45 then -v else v)
  }

  const CORE: seq<Byte> := [67, 111, 114, 101]
  const ENERGY: seq<Byte> := [69, 110, 101, 114, 103, 121]
  const CORE_ENERGY: seq<Byte> := CORE + [32] + ENERGY

  /** sscanf with "Core Energy %d"; white space in the format matches any white space. */
  function ScanLabel(s: seq<Byte>): Option<int> {
    var a := Strip(s, CORE);
    if a == None then None
    else
      var b := Strip(SkipSpace(a.value), ENERGY);
      if b == None then None else ScanInt(b.value)
  }

  // ----- Digits -----

  function Pow10(k: nat): (p: nat)
    ensures p >= 1
  {
    if k == 0 then 1 else 10 * Pow10(k - 1)
  }

  lemma {:induction false} DigitsLength(n: nat, k: nat)
    requires k >= 1
    ensures |Digits(n)| <= k <==> n < Pow10(k)
  {
    if n >= 10 && k > 1 { DigitsLength(n / 10, k - 1); }
    if n >= 10 && k == 1 { assert |Digits(n / 10)| >= 1; }
    if n < 10 { assert Pow10(k) == 10 * Pow10(k - 1); }
  }

  lemma {:induction false} DigitsAreDigits(n: nat)
    ensures |Digits(n)| >= 1 && forall k :: 0 <= k < |Digits(n)| ==> IsDigit(Digits(n)[k])
  {
    if n >= 10 { DigitsAreDigits(n / 10); }
  }

  lemma {:induction false} LeadingDigits(n: nat, rest: seq<Byte>)
    ensures Leading(Digits(n) + rest, 0) == Leading(rest, n)
    decreases n
  {
    if n < 10 {
      assert (Digits(n) + rest)[1..] == rest;
    } else {
      var d := [48 + n % 10];
      assert Digits(n) + rest == Digits(n / 10) + (d + rest);
      LeadingDigits(n / 10, d + rest);
      assert (d + rest)[1..] == rest;
    }
  }

  lemma PaddedShape(n: nat)
    ensures |Padded(n)| == (if n < 100 then 3 else |Digits(n)|)
    ensures IsDigit(Padded(n)[0])
  {
    DigitsAreDigits(n);
    DigitsLength(n, 1);
    DigitsLength(n, 2);
  }

  lemma LeadingPadded(n: nat, rest: seq<Byte>)
    ensures Leading(Padded(n) + rest, 0) == Leading(rest, n)
  {
    LeadingDigits(n, rest);
    if n < 10 {
      assert (Padded(n) + rest)[1..] == [48] + (Digits(n) + rest);
      assert ([48] + (Digits(n) + rest))[1..] == Digits(n) + rest;
    } else if n < 100 {
      assert (Padded(n) + rest)[1..] == Digits(n) + rest;
    }
  }

  lemma PaddedLength(n: nat, k: nat)
    requires k >= 3
    ensures |Padded(n)| <= k <==> n < Pow10(k)
  {
    PaddedShape(n);
    DigitsLength(n, k);
    assert Pow10(2) == 100;
    PowGrows(2, k);
  }

  lemma {:induction false} PowGrows(j: nat, k: nat)
    requires j <= k
    ensures Pow10(j) <= Pow10(k)
    decreases k
  {
    if j < k { PowGrows(j, k - 1); }
  }

  // ----- Signs and spaces in %d -----

  /** A number after any white space and an optional sign, whatever non-digit follows it. */
  lemma {:induction false} ScanSigned(spaces: seq<Byte>, n: nat, rest: seq<Byte>)
    requires forall k :: 0 <= k < |spaces| ==> spaces[k] == 32 || 9 <= spaces[k] <= 13
    requires rest == [] || rest[0] < 48 || 57 < rest[0]
    ensures ScanInt(spaces + (Digits(n) + rest)) == Some(n)
    ensures ScanInt(spaces + ([43] + (Digits(n) + rest))) == Some(n)
    ensures var r := ScanInt(spaces + ([45] + (Digits(n) + rest))); r.Some? && r.value + n == 0
  {
    var number := Digits(n) + rest;
    DigitsAreDigits(n);
    LeadingDigits(n, rest);
    assert number[0] == Digits(n)[0];
    SkipAll(spaces, number);
    SkipAll(spaces, [43] + number);
    SkipAll(spaces, [45] + number);
    assert ([43] + number)[1..] == number && ([45] + number)[1..] == number;
  }

  lemma {:induction false} SkipAll(spaces: seq<Byte>, rest: seq<Byte>)
    requires (forall k :: 0 <= k < |spaces| ==> IsSpace(spaces[k])) && rest != [] && !IsSpace(rest[0])
    ensures SkipSpace(spaces + rest) == rest
  {
    if spaces == [] {
      assert spaces + rest == rest;
    } else {
      assert (spaces + rest)[1..] == spaces[1..] + rest;
      SkipAll(spaces[1..], rest);
    }
  }

  // ----- Print, then parse -----

  lemma StripWord(word: seq<Byte>, rest: seq<Byte>)
    ensures Strip(word + rest, word) == Some(rest)
  {
    assert (word + rest)[|word|..] == rest;
  }

  lemma SkipOne(rest: seq<Byte>)
    requires rest != [] && !IsSpace(rest[0])
    ensures SkipSpace([32] + rest) == rest
  {
    assert ([32] + rest)[1..] == rest;
  }

  lemma ScanCore(number: seq<Byte>)
    requires number != [] && IsDigit(number[0])
    ensures ScanLabel(CORE_ENERGY + [32] + number) == Some(Leading(number, 0))
  {
    var a := [32] + number;
    var b := [32] + (ENERGY + a);
    assert CORE_ENERGY + [32] + number == CORE + b;
    StripWord(CORE, b);
    SkipOne(ENERGY + a);
    StripWord(ENERGY, a);
    SkipOne(number);
  }

  /** A "Core Energy" label is never truncated and parses back to exactly its number,
      whatever non-digit follows it in the file. */
  lemma CoreEnergyRoundTrip(n: nat, rest: seq<Byte>)
    requires n < 65536 && (rest == [] || !IsDigit(rest[0]))
    ensures PrintLabel(CORE_ENERGY, n) == CORE_ENERGY + [32] + Padded(n)
    ensures ScanLabel(PrintLabel(CORE_ENERGY, n) + rest) == Some(n)
  {
    PaddedShape(n);
    assert Pow10(5) == 100000;
    PaddedLength(n, 5);
    assert CORE_ENERGY + [32] + Padded(n) + rest == CORE_ENERGY + [32] + (Padded(n) + rest);
    ScanCore(Padded(n) + rest);
    LeadingPadded(n, rest);
  }

  // ----- Distinct labels -----

  predicate Distinct(name: seq<Byte>, n: nat) {
    forall i: nat, j: nat :: i < j < n ==> PrintLabel(name, i) != PrintLabel(name, j)
  }

  /** The first n labels of a name of at most 15 characters are pairwise distinct exactly when
      no number needs more digits than the 19 characters leave room for. */
  lemma {:induction false} DistinctExactly(name: seq<Byte>, n: nat)
    requires |name| <= 15
    ensures Distinct(name, n) <==> n <= Pow10(18 - |name|)
  {
    if n <= Pow10(18 - |name|) {
      DistinctWithin(name, n);
    } else {
      CollisionBeyond(name, n);
    }
  }

  lemma DistinctWithin(name: seq<Byte>, n: nat)
    requires |name| <= 15 && n <= Pow10(18 - |name|)
    ensures Distinct(name, n)
  {
    forall i: nat, j: nat | i < j < n ensures PrintLabel(name, i) != PrintLabel(name, j) {
      Untruncated(name, i);
      Untruncated(name, j);
    }
  }

  lemma CollisionBeyond(name: seq<Byte>, n: nat)
    requires |name| <= 15 && n > Pow10(18 - |name|)
    ensures !Distinct(name, n)
  {
    var lo, hi := Pow10(17 - |name|), Pow10(18 - |name|);
    Collision(name);
    assert lo < hi < n && PrintLabel(name, lo) == PrintLabel(name, hi);
  }

  /** A label that fits carries its number. */
  lemma Untruncated(name: seq<Byte>, i: nat)
    requires |name| <= 15 && i < Pow10(18 - |name|)
    ensures |PrintLabel(name, i)| > |name| && Leading(PrintLabel(name, i)[|name| + 1..], 0) == i
  {
    PaddedLength(i, 18 - |name|);
    LeadingPadded(i, []);
    assert (name + [32] + Padded(i))[|name| + 1..] == Padded(i) + [];
  }

  lemma Collision(name: seq<Byte>)
    requires |name| <= 15
    ensures var k := 18 - |name|; PrintLabel(name, Pow10(k - 1)) == PrintLabel(name, Pow10(k))
  {
    var k := 18 - |name|;
    var lo, hi := Pow10(k - 1), Pow10(k);
    PowGrows(2, k - 1);
    assert Pow10(2) == 100;
    assert hi / 10 == lo && hi % 10 == 0;
    PaddedLength(lo, k);
    DigitsLength(lo, k - 1);
    assert |Padded(lo)| == k;
    assert name + [32] + Padded(hi) == (name + [32] + Padded(lo)) + [48];
  }

  // ----- Labels in the parsed table -----

  /** The k-th sensor of a metric is labelled with its rank among the valid ones. */
  lemma {:induction false} ItemText(img: seq<Byte>, name: seq<Byte>, unit: nat, size: nat, reg: nat, left: nat,
                                    rank: nat, k: nat)
    requires k < |ItemsFrom(img, name, unit, size, reg, left, rank)|
    ensures ItemsFrom(img, name, unit, size, reg, left, rank)[k].text == PrintLabel(name, rank + k)
    decreases left
  {
    if SensorValid(img, reg) {
      if k > 0 { ItemText(img, name, unit, size, reg + size, left - 1, rank + 1, k - 1); }
    } else {
      ItemText(img, name, unit, size, reg + size, left - 1, rank, k);
    }
  }

  /** The first n sensors from `reg` on are all valid. */
  predicate AllValid(img: seq<Byte>, size: nat, reg: nat, n: nat)
    decreases n
  {
    n == 0 || (SensorValid(img, reg) && AllValid(img, size, reg + size, n - 1))
  }

  /** Channel k of a metric shows the metric's k-th value exactly when all values up to it are
      valid: each invalid one moves all later sensors down by one label. */
  lemma {:induction false} ChannelIsIndex(img: seq<Byte>, name: seq<Byte>, unit: nat, size: nat, reg: nat,
                                          left: nat, rank: nat, k: nat)
    requires size > 0 && k < |ItemsFrom(img, name, unit, size, reg, left, rank)|
    ensures var r := ItemsFrom(img, name, unit, size, reg, left, rank)[k].reg;
            r >= reg + Span(size, k) && (r == reg + Span(size, k) <==> AllValid(img, size, reg, k + 1))
    decreases left
  {
    if SensorValid(img, reg) {
      if k > 0 { ChannelIsIndex(img, name, unit, size, reg + size, left - 1, rank + 1, k - 1); }
    } else {
      ChannelIsIndex(img, name, unit, size, reg + size, left - 1, rank, k);
    }
  }

  predicate TextsDiffer(items: seq<Item>) {
    forall i, j :: 0 <= i < j < |items| ==> items[i].text != items[j].text
  }

  lemma TextsDifferExactly(items: seq<Item>, name: seq<Byte>)
    requires |name| <= 15 && forall k :: 0 <= k < |items| ==> items[k].text == PrintLabel(name, k)
    ensures TextsDiffer(items) <==> |items| <= Pow10(18 - |name|)
  {
    DistinctExactly(name, |items|);
    if !Distinct(name, |items|) {
      var i: nat, j: nat :| i < j < |items| && PrintLabel(name, i) == PrintLabel(name, j);
      assert items[i].text == items[j].text;
    } else {
      forall i, j | 0 <= i < j < |items| ensures items[i].text != items[j].text {
        assert PrintLabel(name, i) != PrintLabel(name, j);
      }
    }
  }

  /** The labels of one metric's sensors are pairwise distinct exactly up to that many sensors. */
  lemma MetricLabelsDistinctExactly(img: seq<Byte>, reg: nat)
    requires MetricAt(img, reg).Some? && |NameAt(img, reg)| <= 15
    ensures TextsDiffer(MetricAt(img, reg).value.items)
       <==> |MetricAt(img, reg).value.items| <= Pow10(18 - |NameAt(img, reg)|)
  {
    var info, name := InfoAt(img, reg), NameAt(img, reg);
    var items := MetricAt(img, reg).value.items;
    forall k | 0 <= k < |items| ensures items[k].text == PrintLabel(name, k) {
      ItemText(img, name, info.unit, info.size, reg + 24, info.count, 0, k);
    }
    TextsDifferExactly(items, name);
  }

  // ----- The first energy metric -----

  /** The register of the first accepted energy block of a walk. */
  function FirstEnergy(img: seq<Byte>, reg: nat, left: nat): Option<nat>
    decreases left
  {
    if left == 0 || !InRange(img, reg) then None
    else if MetricAt(img, reg).Some? && MetricAt(img, reg).value.kind == Energy then Some(reg)
    else FirstEnergy(img, Align8(BlockEnd(img, reg)), left - 1)
  }

  lemma {:induction false} FirstEnergyLeads(img: seq<Byte>, reg: nat, left: nat)
    requires FirstEnergy(img, reg, left).Some?
    ensures var r := FirstEnergy(img, reg, left).value;
            MetricAt(img, r).Some? && MetricAt(img, r).value.items <= ItemsOf(Parse(img, reg, left), Energy)
    decreases left
  {
    var m := MetricAt(img, reg);
    var next := Align8(BlockEnd(img, reg));
    AcceptLeads(m, Parse(img, next, left - 1));
    if !(m.Some? && m.value.kind == Energy) {
      FirstEnergyLeads(img, next, left - 1);
    }
  }

  lemma AcceptLeads(m: Option<Metric>, rest: seq<Metric>)
    ensures m.Some? && m.value.kind == Energy ==> m.value.items <= ItemsOf(Accept(m, rest), Energy)
    ensures !(m.Some? && m.value.kind == Energy) ==> ItemsOf(Accept(m, rest), Energy) == ItemsOf(rest, Energy)
  {
    if m.Some? {
      assert ([m.value] + rest)[1..] == rest;
    }
  }

  /** When the first energy metric is labelled "Core Energy", each of its channels c carries a
      label, newline and all, that the reader parses to exactly c. */
  lemma CoresFindTheirLabels(img: seq<Byte>, c: nat)
    requires TableAccepted(img)
    requires var r := FirstEnergy(img, 8, CountAt(img));
             r.Some? && NameAt(img, r.value) == CORE_ENERGY
             && MetricAt(img, r.value).Some? && c < |MetricAt(img, r.value).value.items|
    ensures c < |ItemsOf(Metrics(img), Energy)|
    ensures ScanLabel(ItemsOf(Metrics(img), Energy)[c].text + [10]) == Some(c)
  {
    var r := FirstEnergy(img, 8, CountAt(img)).value;
    FirstEnergyLeads(img, 8, CountAt(img));
    var info := InfoAt(img, r);
    ItemText(img, CORE_ENERGY, info.unit, info.size, r + 24, info.count, 0, c);
    ItemsBounded(img, CORE_ENERGY, info.unit, info.size, r + 24, info.count, 0);
    CoreEnergyRoundTrip(c, [10]);
  }
}
