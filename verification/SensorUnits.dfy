// The driver's constants told by image bytes and by physical units: which tables and blocks it takes,
// under which type, and in which unit their channels read.
module SensorUnits {
  import opened Words
  import opened SensorTable
  import opened SensorLayout
  import opened AltraHwmon
  import opened TableWriter

  /** A table is accepted exactly if it begins with "HWM0" and version 1. */
  lemma {:induction false} AcceptedExactly(img: seq<Byte>)
    ensures TableAccepted(img)
       <==> && |img| >= 8 && img[0] == 0x48 && img[1] == 0x57 && img[2] == 0x4D && img[3] == 0x30
            && img[4] == 1 && img[5] == 0
  {
  }

  lemma NameEmpty(b: seq<Byte>)
    requires b != []
    ensures CString(b) == [] <==> b[0] == 0
  {
  }

  /** A block with a header inside the image is accepted exactly if its label is not empty and its
      unit is degrees Celsius, joules, millijoules or microjoules; it is a temperature exactly for
      the first of these. */
  lemma {:induction false} MetricExactly(img: seq<Byte>, reg: nat)
    requires reg + 24 <= |img|
    ensures MetricAt(img, reg).Some?
       <==> && img[reg] != 0
            && (img[reg + 16] == 0x01 || img[reg + 16] == 0x10 || img[reg + 16] == 0x11 || img[reg + 16] == 0x12)
    ensures MetricAt(img, reg).Some? ==> (MetricAt(img, reg).value.kind == Temp <==> img[reg + 16] == 0x01)
  {
    NameEmpty(img[reg..reg + 16]);
    assert img[reg..reg + 16][0] == img[reg];
  }

  /** The channels of a metric carry the flags of its own type, one for each sensor. */
  lemma {:induction false} FlagsOfKind(m: Metric)
    ensures |ChannelOf(m).config| == |m.items| && ChannelOf(m).kind == m.kind
    ensures forall k :: 0 <= k < |m.items| ==> (ChannelOf(m).config[k].TempInputLabel? <==> m.kind.Temp?)
  {
  }

  // ----- Units -----

  /** The unit codes and what one unit is worth in the unit of a channel: millidegrees Celsius on a
      temperature channel, microjoules on an energy channel. */
  predicate Worth(unit: nat, t: SensorType, worth: nat) {
    || (unit == 0x01 && t == Temp && worth == 1000)
    || (unit == 0x10 && t == Energy && worth == 1_000_000)
    || (unit == 0x11 && t == Energy && worth == 1000)
    || (unit == 0x12 && t == Energy && worth == 1)
  }

  lemma {:induction false} KeptFrom(b: Block, vs: seq<nat>, rank: nat, k: nat) returns (j: nat)
    requires k < |Kept(b, vs, rank)|
    ensures j < |vs| && Reported(vs[j])
    ensures Kept(b, vs, rank)[k] == Showing(PrintLabel(b.name, rank + k), vs[j], ScaleFactor(b.unit))
    decreases |vs|
  {
    if Reported(vs[0]) {
      if k == 0 { j := 0; } else { j := KeptFrom(b, vs[1..], rank + 1, k - 1); j := j + 1; }
    } else {
      j := KeptFrom(b, vs[1..], rank, k);
      j := j + 1;
    }
  }

  /** Every channel that a written table shows belongs to a value of a block of a unit of its type,
      scaled by what that unit is worth. */
  lemma {:induction false} ShownInUnits(bs: seq<Block>, t: SensorType, k: nat) returns (i: nat, j: nat)
    requires k < |Shown(bs, t)|
    ensures i < |bs| && j < |bs[i].values| && Shown(bs, t)[k].value == bs[i].values[j]
    ensures bs[i].name != [] && Worth(bs[i].unit, t, Shown(bs, t)[k].scale)
    decreases |bs|
  {
    var here := Understood(bs[0]) && UnitType(bs[0].unit).value == t;
    var first := if here then Kept(bs[0], bs[0].values, 0) else [];
    if k < |first| {
      i := 0;
      j := KeptFrom(bs[0], bs[0].values, 0, k);
    } else {
      i, j := ShownInUnits(bs[1..], t, k - |first|);
      i := i + 1;
    }
  }

  /** A table of one block with one value. */
  function Single(name: seq<Byte>, unit: Byte, v: nat): seq<Block> {
    [Block(name, unit, 8, [v])]
  }

  /** And every reported value of a block of a known unit is shown on a channel of its type. */
  lemma {:induction false} SingleShown(name: seq<Byte>, unit: Byte, v: nat, t: SensorType, worth: nat)
    requires name != [] && Reported(v) && Worth(unit, t, worth)
    ensures Shown(Single(name, unit, v), t) == [Showing(PrintLabel(name, 0), v, worth)]
    ensures forall u :: u != t ==> Shown(Single(name, unit, v), u) == []
  {
    var b := Block(name, unit, 8, [v]);
    assert [v][1..] == [] && [b][1..] == [];
    assert Kept(b, [v], 0) == [Showing(PrintLabel(name, 0), v, worth)] + Kept(b, [], 1);
    assert Shown([], t) == [];
  }

  /** One channel, reading `amount`. */
  predicate ShowsOne(shown: seq<Showing>, amount: nat) {
    |shown| == 1 && shown[0].value * shown[0].scale == amount
  }

  /** v joules, 1000 v millijoules and 1000000 v microjoules are shown alike on an energy channel. */
  lemma {:induction false} SameEnergy(name: seq<Byte>, v: nat)
    requires name != [] && Reported(v) && Reported(1000 * v) && Reported(1_000_000 * v)
    ensures ShowsOne(Shown(Single(name, 0x10, v), Energy), 1_000_000 * v)
    ensures ShowsOne(Shown(Single(name, 0x11, 1000 * v), Energy), 1_000_000 * v)
    ensures ShowsOne(Shown(Single(name, 0x12, 1_000_000 * v), Energy), 1_000_000 * v)
  {
    SingleShown(name, 0x10, v, Energy, 1_000_000);
    SingleShown(name, 0x11, 1000 * v, Energy, 1000);
    SingleShown(name, 0x12, 1_000_000 * v, Energy, 1);
  }
}
