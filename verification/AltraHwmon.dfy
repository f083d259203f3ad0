// The driver's probe and read paths over its context object (module/altra-hwmon.c).
module AltraHwmon {
  import opened Words
  import opened SensorTable
  import opened SensorLayout
  import opened Clock

  /** An int channel as the comparison with a u32 count sees it. */
  function AsU32(channel: int): nat
    requires -0x8000_0000 <= channel < 0x8000_0000
  {
    if channel < 0 then channel + 0x1_0000_0000 else channel
  }

  /** `Astray` is no return value of the driver: the bounds check has passed and the array access
      behind it is outside the list, so nothing is promised of the call. */
  datatype Status = Ok | NoDevice | Invalid | Astray

  /** The read paths compare an int channel with the u32 count, but index the list by the int. */
  function Verdict(channel: int, count: nat): Status
    requires -0x8000_0000 <= channel < 0x8000_0000
  {
    if AsU32(channel) >= count then Invalid else if channel < 0 then Astray else Ok
  }

  /** No channel goes astray exactly for counts up to 2^31. */
  lemma {:induction false} NeverAstrayExactly(count: nat)
    ensures (forall channel: int :: -0x8000_0000 <= channel < 0x8000_0000 ==> Verdict(channel, count) != Astray)
       <==> count <= 0x8000_0000
  {
    if count > 0x8000_0000 {
      assert Verdict(-0x8000_0000, count) == Astray;
    }
  }

  /** One channel_info entry: its type and the flags of its sensors. */
  datatype Channel = Channel(kind: SensorType, config: seq<Flag>)

  const ZERO_ITEM := Item([], 0, 0, 0)

  function Flags(t: SensorType, n: nat): seq<Flag> {
    seq(n, _ => TypeFlag(t))
  }

  function ChannelOf(m: Metric): Channel {
    Channel(m.kind, Flags(m.kind, |m.items|))
  }

  /** Which lists exist, the lists, and the channel table. */
  datatype Tables = Tables(kinds: set<SensorType>, temp: seq<Item>, energy: seq<Item>, channels: seq<Option<Channel>>)

  /** A metric's sensors go to the end of its type's list; its channel goes into `slot`. */
  function Take(tables: Tables, m: Metric, slot: nat): Tables
    requires slot < |tables.channels|
  {
    Tables(tables.kinds + {m.kind},
           tables.temp + (if m.kind == Temp then m.items else []),
           tables.energy + (if m.kind == Energy then m.items else []),
           tables.channels[slot := Some(ChannelOf(m))])
  }

  /** The tables after taking each metric of a list in turn. */
  function Taken(ms: seq<Metric>, n: nat): (tables: Tables)
    requires |ms| <= n
    ensures |tables.channels| == n
  {
    if ms == [] then Tables({}, [], [], seq(n, _ => None))
    else Take(Taken(ms[..|ms| - 1], n), ms[|ms| - 1], |ms| - 1)
  }

  /** The tables of a metric list, with room for n channels. */
  function Tabulate(ms: seq<Metric>, n: nat): Tables {
    Tables(Kinds(ms), ItemsOf(ms, Temp), ItemsOf(ms, Energy),
           seq(n, k => if 0 <= k < |ms| then Some(ChannelOf(ms[k])) else None))
  }

  function Kinds(ms: seq<Metric>): set<SensorType> {
    set m | m in ms :: m.kind
  }

  /** The context of one device. `list` holds the allocated sensor lists, `cnt` their counts. */
  class Context {
    const img: seq<Byte>
    var list: map<SensorType, array<Item>>
    var cnt: map<SensorType, nat>
    var channels: array<Option<Channel>>
    var info: array<Option<nat>>

    /** Freshly zeroed, as probe allocates it. */
    constructor (image: seq<Byte>)
      ensures img == image && Valid() && list == map[] && fresh(channels) && fresh(info)
    {
      img := image;
      list := map[];
      cnt := map[Temp := 0, Energy := 0];
      channels := new Option<Channel>[0];
      info := new Option<nat>[0];
      new;
    }

    /** A list is allocated exactly as long as its count; an unallocated one counts zero. */
    ghost predicate Valid()
      reads this
    {
      cnt.Keys == {Temp, Energy} && Counted(Temp) && Counted(Energy)
    }

    ghost predicate Counted(t: SensorType)
      reads this
    {
      t in cnt && cnt[t] == (if t in list then list[t].Length else 0)
    }

    ghost function ListFrame(t: SensorType): set<array<Item>>
      reads this
    {
      if t in list then {list[t]} else {}
    }

    ghost function Items(t: SensorType): seq<Item>
      reads this, ListFrame(t)
    {
      if t in list then list[t][..] else []
    }

    /** All that probing builds. */
    ghost function Contents(): Tables
      reads this, channels, ListFrame(Temp), ListFrame(Energy)
    {
      Tables(list.Keys, Items(Temp), Items(Energy), channels[..])
    }

    /** readl_relaxed: an aligned word inside the image. */
    method Read32(reg: nat) returns (v: nat)
      requires reg + 4 <= |img| && reg % 4 == 0
      ensures v == Peek32(img, reg)
    {
      v := Word(img[reg], img[reg + 1], img[reg + 2], img[reg + 3]);
    }

    /** readq_relaxed of a sensor: aligned if its data take 8 bytes. */
    method Read64(reg: nat, ghost size: nat) returns (v: nat)
      requires reg + 8 <= |img| && OnGrid(size, reg)
      ensures v == Peek64(img, reg)
    {
      v := Word(img[reg], img[reg + 1], img[reg + 2], img[reg + 3])
         + 0x1_0000_0000 * Word(img[reg + 4], img[reg + 5], img[reg + 6], img[reg + 7]);
    }

    /** altra_sensor_is_valid. */
    method SensorIsValid(reg: nat, size: nat) returns (b: bool)
      requires reg + Width(size) <= |img| && OnGrid(size, reg)
      ensures b == SensorValid(img, reg)
    {
      var v: nat;
      if size == 4 {
        v := Read32(reg);
      } else {
        v := Read64(reg, size);
        TruncateRead(img, reg);
        v := v % 0x1_0000_0000;
      }
      b := v != 0;
    }

    /** The bytes of a 32-bit read. */
    method ReadBytes(reg: nat) returns (b0: Byte, b1: Byte, b2: Byte, b3: Byte)
      requires reg + 4 <= |img| && reg % 4 == 0
      ensures b0 == img[reg] && b1 == img[reg + 1] && b2 == img[reg + 2] && b3 == img[reg + 3]
    {
      var w := Read32(reg);
      Unpack(img[reg], img[reg + 1], img[reg + 2], img[reg + 3]);
      return w % 256, w / 256 % 256, w / 65536 % 256, w / 16777216;
    }

    /** A metric's info word, masked. */
    method ReadInfo(reg: nat) returns (info: Info)
      requires reg + 24 <= |img| && reg % 8 == 0
      ensures info == InfoAt(img, reg)
    {
      WordAligned(reg, 4);
      var w := Read32(reg + 16);
      WordFields(img[reg + 16], img[reg + 17], img[reg + 18], img[reg + 19]);
      info := Info(w % 256, w / 256 % 256, w / 65536 % 65536);
    }

    /** The label loop: four little-endian words into the local buffer. */
    method ReadLabel(reg: nat) returns (label16: seq<Byte>)
      requires reg + 16 <= |img| && reg % 8 == 0
      ensures label16 == img[reg..reg + 16]
    {
      var buf := new Byte[16];
      var i: nat := 0;
      ghost var words: nat := 0;
      while i < 16
        invariant i == 4 * words <= 16
        invariant forall k :: 0 <= k < i ==> buf[k] == img[reg + k]
      {
        WordAligned(reg, words);
        var b0, b1, b2, b3 := ReadBytes(reg + i);
        buf[i], buf[i + 1], buf[i + 2], buf[i + 3] := b0, b1, b2, b3;
        i, words := i + 4, words + 1;
      }
      label16 := buf[..];
    }

    /** The count pass. */
    method CountValid(data: nat, size: nat, total: nat, ghost name: seq<Byte>, ghost unit: nat) returns (j: nat)
      requires ReadsInside(img, data, size, total) && OnGrid(size, data) && |img| < 0x1_0000_0000
      ensures j == |ItemsFrom(img, name, unit, size, data, total, 0)|
    {
      ghost var items := ItemsFrom(img, name, unit, size, data, total, 0);
      j := 0;
      var i := 0;
      while i < total
        invariant 0 <= i <= total && Upcoming(img, name, unit, size, data, total, i, j, items)
      {
        SensorRead(img, size, data, total, i);
        UpcomingStep(img, name, unit, size, data, total, i, j, items);
        var b := SensorIsValid(Wrap32(data + i * size), size);
        if b {
          j := j + 1;
        }
        i := i + 1;
      }
    }

    /** The reallocation: a longer list that starts with the entries so far. */
    method Grow(t: SensorType, total: nat) returns (a: array<Item>)
      requires Valid()
      ensures fresh(a) && a.Length == cnt[t] + total && a[..cnt[t]] == Items(t)
    {
      a := new Item[cnt[t] + total](_ => ZERO_ITEM);
      if t in list {
        var from := list[t];
        forall k | 0 <= k < cnt[t] {
          a[k] := from[k];
        }
      }
    }

    /** One round of the fill pass: a valid sensor's entry goes to the type's count, its flags to
        `config[j]`; an invalid one is passed over. */
    method FillOne(t: SensorType, a: array<Item>, config: array<Flag>, entry: Item, j: nat) returns (next: nat)
      requires entry.reg + Width(entry.size) <= |img| && OnGrid(entry.size, entry.reg)
      requires t in cnt && (SensorValid(img, entry.reg) ==> cnt[t] < a.Length && j < config.Length)
      modifies this`cnt, a, config
      ensures SensorValid(img, entry.reg) ==>
                && next == j + 1 && cnt == old(cnt)[t := old(cnt)[t] + 1]
                && a[..] == old(a[..])[old(cnt)[t] := entry] && config[..] == old(config[..])[j := TypeFlag(t)]
      ensures !SensorValid(img, entry.reg) ==>
                next == j && cnt == old(cnt) && a[..] == old(a[..]) && config[..] == old(config[..])
    {
      next := j;
      var b := SensorIsValid(entry.reg, entry.size);
      if b {
        a[cnt[t]] := entry;
        config[j] := TypeFlag(t);
        cnt := cnt[t := cnt[t] + 1];
        next := j + 1;
      }
    }

    /** The same round against the list to be built. */
    method FillNext(t: SensorType, a: array<Item>, config: array<Flag>, entry: Item, j: nat,
                    ghost before: seq<Item>, ghost items: seq<Item>) returns (next: nat)
      requires entry.reg + Width(entry.size) <= |img| && OnGrid(entry.size, entry.reg)
      requires t in cnt && cnt[t] == |before| + j && j <= |items|
      requires a.Length == |before| + |items| && config.Length == |items|
      requires SensorValid(img, entry.reg) ==> j < |items| && items[j] == entry
      requires Filled(a[..], config[..], before, items[..j], t)
      modifies this`cnt, a, config
      ensures next == (if SensorValid(img, entry.reg) then j + 1 else j) && next <= |items|
      ensures cnt == old(cnt)[t := |before| + next] && Filled(a[..], config[..], before, items[..next], t)
    {
      ghost var entries, flags := a[..], config[..];
      next := FillOne(t, a, config, entry, j);
      if next > j { FilledNext(entries, flags, before, items, j, t); }
    }

    /** The fill pass appends exactly the counted sensors and sets one flag for each. */
    method Fill(t: SensorType, a: array<Item>, config: array<Flag>, name: seq<Byte>, unit: nat, data: nat,
                size: nat, total: nat)
      requires ReadsInside(img, data, size, total) && OnGrid(size, data) && |img| < 0x1_0000_0000
      requires t in cnt && a.Length == cnt[t] + config.Length
      requires config.Length == |ItemsFrom(img, name, unit, size, data, total, 0)|
      modifies this`cnt, a, config
      ensures cnt == old(cnt)[t := a.Length]
      ensures a[..] == old(a[..cnt[t]]) + ItemsFrom(img, name, unit, size, data, total, 0)
      ensures config[..] == Flags(t, config.Length)
    {
      ghost var items := ItemsFrom(img, name, unit, size, data, total, 0);
      ghost var before := a[..cnt[t]];
      var j := 0;
      var i := 0;
      while i < total
        invariant 0 <= i <= total && Upcoming(img, name, unit, size, data, total, i, j, items)
        invariant cnt == old(cnt)[t := |before| + j]
        invariant Filled(a[..], config[..], before, items[..j], t)
      {
        SensorRead(img, size, data, total, i);
        UpcomingStep(img, name, unit, size, data, total, i, j, items);
        var entry := Item(PrintLabel(name, j), ScaleFactor(unit), size, Wrap32(data + i * size));
        j := FillNext(t, a, config, entry, j, before, items);
        i := i + 1;
      }
      UpcomingEnd(img, name, unit, size, data, total, j, items);
    }

    /** altra_create_sensor: append the metric's valid sensors to its type's list, or leave the
        context alone. */
    method CreateSensor(metric: nat, slot: nat) returns (status: Status)
      requires Valid() && slot < channels.Length
      requires InRange(img, metric) && BlockReadable(img, metric) && metric % 8 == 0 && |img| < 0x1_0000_0000
      modifies this`list, this`cnt, channels
      ensures Valid() && status == (if MetricAt(img, metric).Some? then Ok else NoDevice)
      ensures Contents() == if status == Ok then Take(old(Contents()), MetricAt(img, metric).value, slot)
                            else old(Contents())
    {
      var info := ReadInfo(metric);
      var kind := UnitType(info.unit);
      if kind == None {
        return NoDevice;
      }
      var label16 := ReadLabel(metric);
      var name := CString(label16);
      if name == [] {
        return NoDevice;
      }
      GridStart(info.size, metric);
      AddSensors(kind.value, name, info.unit, metric + 24, info.size, info.count, slot);
      return Ok;
    }

    /** Its second half: count, reallocate, fill, and describe the channel. */
    method AddSensors(t: SensorType, name: seq<Byte>, unit: nat, data: nat, size: nat, n: nat, slot: nat)
      requires Valid() && slot < channels.Length
      requires ReadsInside(img, data, size, n) && OnGrid(size, data) && |img| < 0x1_0000_0000
      modifies this`list, this`cnt, channels
      ensures Valid()
      ensures Contents() == Take(old(Contents()), Metric(t, ItemsFrom(img, name, unit, size, data, n, 0)), slot)
    {
      var total := CountValid(data, size, n, name, unit);
      var config := AddEntries(t, name, unit, data, size, n, total);
      Describe(slot, t, config);
    }

    /** The type's list grows by the counted entries; the other type's list is as before. */
    method AddEntries(t: SensorType, name: seq<Byte>, unit: nat, data: nat, size: nat, n: nat, total: nat)
      returns (config: array<Flag>)
      requires Valid() && total == |ItemsFrom(img, name, unit, size, data, n, 0)|
      requires ReadsInside(img, data, size, n) && OnGrid(size, data) && |img| < 0x1_0000_0000
      modifies this`list, this`cnt
      ensures fresh(config) && config[..] == Flags(t, total)
      ensures Valid() && list.Keys == old(list.Keys) + {t}
      ensures Items(t) == old(Items(t)) + ItemsFrom(img, name, unit, size, data, n, 0)
      ensures forall u :: u != t ==> Items(u) == old(Items(u))
    {
      var a := Grow(t, total);
      list := list[t := a];
      config := new Flag[total](_ => TempInputLabel);
      Fill(t, a, config, name, unit, data, size, n);
    }

    /** The channel entry of a metric's sensors. */
    method Describe(slot: nat, t: SensorType, config: array<Flag>)
      requires Valid() && slot < channels.Length
      modifies channels
      ensures Valid()
      ensures Contents() == old(Contents()).(channels := old(channels[..])[slot := Some(Channel(t, config[..]))])
    {
      channels[slot] := Some(Channel(t, config[..]));
    }

    /** The header check: how many metrics the table announces. */
    method Header() returns (ok: bool, n: nat)
      requires |img| >= 8
      ensures ok == TableAccepted(img) && (ok ==> n == CountAt(img))
    {
      var id := Read32(0);
      if id != TABLE_ID {
        return false, 0;
      }
      var w := Read32(4);
      WordFields(img[4], img[5], img[6], img[7]);
      return w % 65536 == SUPPORTED_VERSION, w / 65536 % 65536;
    }

    /** The two range checks on the block at `reg`, in u32 arithmetic. */
    method Block(reg: nat) returns (inside: bool, end: nat)
      requires |img| < 0x1_0000_0000 && reg % 8 == 0 && reg + 24 < 0x1_0000_0000
      ensures inside == RangeCheck32(|img|, reg, InfoAt(img, reg).size, InfoAt(img, reg).count)
      ensures inside ==> end == Wrap32(BlockEnd(img, reg))
      ensures Unwrapped(img, reg) ==> inside == InRange(img, reg) && (inside ==> end == BlockEnd(img, reg))
    {
      if Wrap32(reg + 24) > |img| {
        return false, 0;
      }
      var info := ReadInfo(reg);
      SpanIs(info.size, info.count);
      end := Wrap32(reg + 24 + info.size * info.count);
      inside := end <= |img|;
    }

    /** One round of the walk: an accepted metric takes the next channel and table entry, a
        rejected one leaves the context as it is and the walk goes on. */
    method AddMetric(reg: nat, slot: nat, ghost done: seq<Metric>) returns (used: nat)
      requires Valid() && |done| == slot < channels.Length && Contents() == Taken(done, channels.Length) && Listed(slot)
      requires slot + 1 < info.Length
      requires InRange(img, reg) && BlockReadable(img, reg) && reg % 8 == 0 && |img| < 0x1_0000_0000
      modifies this`list, this`cnt, channels, info
      ensures used == |Extend(done, MetricAt(img, reg))| && Listed(used)
      ensures Valid() && Contents() == Taken(Extend(done, MetricAt(img, reg)), channels.Length)
    {
      var status := CreateSensor(reg, slot);
      ExtendTaken(done, MetricAt(img, reg), channels.Length);
      if status == NoDevice {
        return slot;
      }
      Link(slot);
      return slot + 1;
    }

    /** The next table entry points to the next channel. */
    method Link(slot: nat)
      requires Valid() && Listed(slot) && slot + 1 < info.Length
      modifies info
      ensures Valid() && Contents() == old(Contents()) && Listed(slot + 1)
    {
      info[slot] := Some(slot);
    }

    /** The walk over at most n metric blocks. */
    method WalkTable(n: nat) returns (used: nat)
      requires 8 <= |img| < 0x1_0000_0000 && Walk(img, [], 8, n)
      requires Valid() && Contents() == Taken([], n) && Listed(0) && info.Length == n + 1
      modifies this`list, this`cnt, channels, info
      ensures used == |Metrics(img)| <= n && Listed(used)
      ensures Valid() && Contents() == Taken(Metrics(img), n)
    {
      used := 0;
      ghost var done: seq<Metric> := [];
      ghost var left := n;
      var reg: nat, i := 8, 0;
      while i < n
        invariant left == n - i && |done| == used <= i <= n
        invariant Walk(img, done, reg, left)
        invariant Valid() && Contents() == Taken(done, n) && Listed(used)
      {
        WalkStep(img, done, reg, left);
        var inside, end := Block(reg);
        if !inside {
          return;
        }
        used := AddMetric(reg, used, done);
        done := Extend(done, MetricAt(img, reg));
        reg := Wrap32(end + 7) / 8 * 8;
        i, left := i + 1, left - 1;
      }
      WalkDone(img, done, reg);
    }

    /** Zeroed channel and pointer tables. */
    method Allocate(n: nat)
      requires Valid() && list == map[]
      modifies this`channels, this`info
      ensures fresh(channels) && fresh(info) && info.Length == n + 1
      ensures Valid() && Contents() == Taken([], n) && Listed(0)
    {
      channels := new Option<Channel>[n](_ => None);
      info := new Option<nat>[n + 1](_ => None);
    }

    /** The NULL behind the last used table entry. */
    method Terminate(used: nat)
      requires Valid() && Listed(used)
      modifies info
      ensures Valid() && Contents() == old(Contents()) && Listed(used)
    {
      info[used] := None;
    }

    /** altra_hwmon_create_sensors. */
    method CreateSensors() returns (status: Status, used: nat)
      requires 8 <= |img| < 0x1_0000_0000 && TableReadable(img, 8, CountAt(img)) && TableUnwrapped(img, 8, CountAt(img))
      requires Valid() && list == map[]
      modifies this
      ensures Valid() && status == (if TableAccepted(img) then Ok else NoDevice)
      ensures status == NoDevice ==> list == old(list) && channels == old(channels) && info == old(info)
      ensures status == Ok ==>
                used == |Metrics(img)| && Contents() == Tabulate(Metrics(img), CountAt(img)) && Listed(used)
    {
      var ok, n := Header();
      if !ok {
        return NoDevice, 0;
      }
      Allocate(n);
      WalkStart(img);
      used := WalkTable(n);
      TakenIs(Metrics(img), n);
      Terminate(used);
      status := Ok;
    }

    /** What a successful probe leaves for the read paths. */
    ghost predicate Probed()
      reads this, channels, ListFrame(Temp), ListFrame(Energy)
    {
      && Valid() && TableAccepted(img) && TableReadable(img, 8, CountAt(img)) && |img| < 0x1_0000_0000
      && Contents() == Tabulate(Metrics(img), CountAt(img))
    }

    /** The bounds check of both read paths, and the access behind it. */
    method Lookup(t: SensorType, channel: int) returns (status: Status, item: Item)
      requires Valid() && -0x8000_0000 <= channel < 0x8000_0000
      ensures status == Verdict(channel, |Items(t)|)
      ensures status == Ok ==> item == Items(t)[channel]
    {
      if AsU32(channel) >= cnt[t] {
        return Invalid, ZERO_ITEM;
      }
      if channel < 0 {
        return Astray, ZERO_ITEM;
      }
      return Ok, list[t][channel];
    }

    /** altra_hwmon_read: the scaled register, as a 64-bit signed long. */
    method Read(t: SensorType, channel: int) returns (status: Status, val: int)
      requires Probed() && -0x8000_0000 <= channel < 0x8000_0000
      ensures status == Verdict(channel, |ItemsOf(Metrics(img), t)|)
      ensures status == Ok ==>
                var it := ItemsOf(Metrics(img), t)[channel];
                && -TWO_63 <= val < TWO_63 && Wrap64(val) == Wrap64(Raw(img, it) * it.scale)
                && (Raw(img, it) * it.scale < TWO_63 ==> val == Raw(img, it) * it.scale)
    {
      var item: Item;
      status, item := Lookup(t, channel);
      assert Items(t) == ItemsOf(Metrics(img), t);
      if status != Ok {
        return status, 0;
      }
      Readable(img, t, channel);
      val := ReadScaled(item);
    }

    /** The register, cast to a long, times the scale factor. */
    method ReadScaled(item: Item) returns (val: int)
      requires item.reg + Width(item.size) <= |img| && OnGrid(item.size, item.reg)
      ensures -TWO_63 <= val < TWO_63 && Wrap64(val) == Wrap64(Raw(img, item) * item.scale)
      ensures Raw(img, item) * item.scale < TWO_63 ==> val == Raw(img, item) * item.scale
    {
      val := ReadLong(item);
      LongProduct(Raw(img, item), item.scale);
      val := Signed(Wrap64(val * item.scale));
    }

    /** The register as a long. */
    method ReadLong(item: Item) returns (val: int)
      requires item.reg + Width(item.size) <= |img| && OnGrid(item.size, item.reg)
      ensures val == Signed(Raw(img, item)) && Raw(img, item) < TWO_64
    {
      Peek32Fits(img, item.reg);
      Peek32Fits(img, item.reg + 4);
      if item.size == 4 {
        val := Read32(item.reg);
      } else {
        val := Read64(item.reg, item.size);
        val := Signed(val);
      }
    }

    /** altra_hwmon_read_labels. */
    method ReadLabels(t: SensorType, channel: int) returns (status: Status, text: seq<Byte>)
      requires Probed() && -0x8000_0000 <= channel < 0x8000_0000
      ensures status == Verdict(channel, |ItemsOf(Metrics(img), t)|)
      ensures status == Ok ==> text == ItemsOf(Metrics(img), t)[channel].text
    {
      var item: Item;
      status, item := Lookup(t, channel);
      assert Items(t) == ItemsOf(Metrics(img), t);
      text := item.text;
    }

    /** The null-terminated table of pointers to the first `used` channels. */
    ghost predicate Listed(used: nat)
      reads this, info
    {
      && used < info.Length
      && (forall k :: 0 <= k < used ==> info[k] == Some(k))
      && (forall k :: used <= k < info.Length ==> info[k] == None)
    }
  }

  /** `done` follows the earlier entries, and as many flags are set. */
  ghost predicate Filled(a: seq<Item>, config: seq<Flag>, before: seq<Item>, done: seq<Item>, t: SensorType) {
    && |before| + |done| <= |a| && |done| <= |config|
    && a[..|before| + |done|] == before + done && config[..|done|] == Flags(t, |done|)
  }

  lemma FilledNext(a: seq<Item>, config: seq<Flag>, before: seq<Item>, items: seq<Item>, j: nat, t: SensorType)
    requires j < |items| && Filled(a, config, before, items[..j], t) && |before| + j < |a| && j < |config|
    ensures Filled(a[|before| + j := items[j]], config[j := TypeFlag(t)], before, items[..j + 1], t)
  {
    var a', config' := a[|before| + j := items[j]], config[j := TypeFlag(t)];
    assert a'[..|before| + (j + 1)] == a[..|before| + j] + [items[j]];
    assert items[..j + 1] == items[..j] + [items[j]];
  }

  lemma WordAligned(reg: nat, words: nat)
    requires reg % 8 == 0
    ensures (reg + 4 * words) % 4 == 0
  {
    assert reg + 4 * words == 4 * (2 * (reg / 8) + words);
  }

  /** The i-th of `total` sensors: its u32 offset, in bounds and aligned. */
  lemma SensorRead(img: seq<Byte>, size: nat, data: nat, total: nat, i: nat)
    requires i < total && ReadsInside(img, data, size, total) && OnGrid(size, data) && |img| < 0x1_0000_0000
    ensures Wrap32(data + i * size) == data + Span(size, i)
    ensures data + Span(size, i) + Width(size) <= |img| && OnGrid(size, data + Span(size, i))
  {
    SpanIs(size, i);
    GridSpan(size, data, i);
    if i < total - 1 { SpanGrows(size, i, total - 1); }
  }

  lemma {:induction false} GridSpan(size: nat, data: nat, i: nat)
    requires OnGrid(size, data)
    ensures OnGrid(size, data + Span(size, i))
  {
    if i > 0 {
      GridSpan(size, data, i - 1);
      GridStep(size, data + Span(size, i - 1));
    }
  }

  /** After i sensors of which j were valid, the rest of the list is still to come. */
  ghost predicate Upcoming(img: seq<Byte>, name: seq<Byte>, unit: nat, size: nat, data: nat, total: nat,
                           i: nat, j: nat, items: seq<Item>) {
    i <= total && j <= |items| && items[j..] == ItemsFrom(img, name, unit, size, data + Span(size, i), total - i, j)
  }

  lemma UpcomingEnd(img: seq<Byte>, name: seq<Byte>, unit: nat, size: nat, data: nat, total: nat, j: nat,
                    items: seq<Item>)
    requires Upcoming(img, name, unit, size, data, total, total, j, items)
    ensures j == |items| && items[..j] == items
  {
  }

  lemma UpcomingStep(img: seq<Byte>, name: seq<Byte>, unit: nat, size: nat, data: nat, total: nat, i: nat,
                     j: nat, items: seq<Item>)
    requires i < total && Upcoming(img, name, unit, size, data, total, i, j, items)
    ensures SensorValid(img, data + Span(size, i)) ==>
              j < |items| && items[j] == Item(PrintLabel(name, j), ScaleFactor(unit), size, data + Span(size, i))
              && Upcoming(img, name, unit, size, data, total, i + 1, j + 1, items)
    ensures !SensorValid(img, data + Span(size, i)) ==> Upcoming(img, name, unit, size, data, total, i + 1, j, items)
  {
    assert Span(size, i + 1) == size + Span(size, i);
    if SensorValid(img, data + Span(size, i)) {
      assert items[j] == items[j..][0];
      assert items[j + 1..] == items[j..][1..];
    }
  }

  lemma Unpack(b0: nat, b1: nat, b2: nat, b3: nat)
    requires b0 < 256 && b1 < 256 && b2 < 256 && b3 < 256
    ensures var w := Word(b0, b1, b2, b3);
            w % 256 == b0 && w / 256 % 256 == b1 && w / 65536 % 256 == b2 && w / 16777216 == b3
  {
    WordFields(b0, b1, b2, b3);
    Split16(b2 + 256 * b3, b0 + 256 * b1);
    Split8(b3, b2);
    Split24(b3, b0 + 256 * b1 + 65536 * b2);
  }

  // ----- The read paths -----

  /** Casting the register to a signed long before the product makes no difference modulo 2^64. */
  lemma ScaleWraps(raw: nat, scale: nat)
    requires raw < TWO_64
    ensures Wrap64(Signed(raw) * scale) == Wrap64(raw * scale)
  {
    if raw >= TWO_63 {
      assert (raw - TWO_64) * scale == raw * scale - TWO_64 * scale;
      WrapMultiple(raw * scale, scale);
    }
  }

  lemma LongProduct(raw: nat, scale: nat)
    requires raw < TWO_64
    ensures var val := Signed(Wrap64(Signed(raw) * scale));
            && -TWO_63 <= val < TWO_63 && Wrap64(val) == Wrap64(raw * scale)
            && (raw * scale < TWO_63 ==> val == raw * scale)
  {
    ScaleWraps(raw, scale);
    assert raw * scale >= 0;
    LongOf(raw * scale, Signed(raw) * scale);
  }

  lemma LongOf(p: nat, q: int)
    requires Wrap64(q) == Wrap64(p)
    ensures var val := Signed(Wrap64(q));
            -TWO_63 <= val < TWO_63 && Wrap64(val) == Wrap64(p) && (p < TWO_63 ==> val == p)
  {
    LongIs(p);
  }

  /** The long that a wrapped value is read as. */
  lemma LongIs(x: int)
    ensures var val := Signed(Wrap64(x));
            -TWO_63 <= val < TWO_63 && Wrap64(val) == Wrap64(x) && (0 <= x < TWO_63 ==> val == x)
  {
  }

  lemma {:induction false} WrapMultiple(x: int, k: nat)
    ensures Wrap64(x - 0x1_0000_0000_0000_0000 * k) == Wrap64(x)
  {
    if k > 0 {
      WrapMultiple(x, k - 1);
      WrapAdd(x - 0x1_0000_0000_0000_0000 * (k - 1), -0x1_0000_0000_0000_0000);
    }
  }

  /** Every listed sensor can be read, aligned and inside the image. */
  lemma {:induction false} Readable(img: seq<Byte>, t: SensorType, k: nat)
    requires TableAccepted(img) && TableReadable(img, 8, CountAt(img)) && k < |ItemsOf(Metrics(img), t)|
    ensures var item := ItemsOf(Metrics(img), t)[k];
            item.reg + Width(item.size) <= |img| && OnGrid(item.size, item.reg)
  {
    ParseInside(img, 8, CountAt(img), t);
    ParseAligned(img, 8, CountAt(img));
    TypeAligned(Metrics(img), t);
  }

  lemma {:induction false} TypeAligned(ms: seq<Metric>, t: SensorType)
    requires Aligned(AllItems(ms))
    ensures Aligned(ItemsOf(ms, t))
  {
    if ms != [] {
      var a, b := ms[0].items, AllItems(ms[1..]);
      assert forall k :: 0 <= k < |a| ==> (a + b)[k] == a[k];
      assert forall k :: 0 <= k < |b| ==> (a + b)[|a| + k] == b[k];
      TypeAligned(ms[1..], t);
    }
  }

  /** No u32 sensor count wraps. */
  lemma CountsFit(img: seq<Byte>, t: SensorType)
    ensures |ItemsOf(Metrics(img), t)| < 0x1_0000_0000
  {
    if TableAccepted(img) {
      CountSpan(img, 8, CountAt(img), t);
      SpanIs(65535, CountAt(img));
    }
  }

  lemma {:induction false} CountSpan(img: seq<Byte>, reg: nat, left: nat, t: SensorType)
    ensures |ItemsOf(Parse(img, reg, left), t)| <= Span(65535, left)
    decreases left
  {
    if left > 0 && InRange(img, reg) {
      var rest := Parse(img, Align8(BlockEnd(img, reg)), left - 1);
      CountSpan(img, Align8(BlockEnd(img, reg)), left - 1, t);
      AcceptItems(MetricAt(img, reg), rest, t);
      MetricCount(img, reg);
    }
  }

  lemma {:induction false} MetricCount(img: seq<Byte>, reg: nat)
    ensures MetricAt(img, reg).Some? ==> |MetricAt(img, reg).value.items| <= 65535
  {
    var info := InfoAt(img, reg);
    ItemsBounded(img, NameAt(img, reg), info.unit, info.size, reg + 24, info.count, 0);
  }

  /** When slots hold what is read of them, the counts stay below 2^30: a negative channel is
      never taken for a valid one. */
  lemma {:induction false} NegativeChannels(img: seq<Byte>, t: SensorType, channel: int)
    requires TableAccepted(img) && TableRoomy(img, 8, CountAt(img)) && |img| < 0x1_0000_0000
    requires -0x8000_0000 <= channel < 0x8000_0000
    ensures |ItemsOf(Metrics(img), t)| < 0x4000_0000
    ensures Verdict(channel, |ItemsOf(Metrics(img), t)|)
         == if 0 <= channel < |ItemsOf(Metrics(img), t)| then Ok else Invalid
  {
    SensorsDisjoint(img, t);
    ChainShort(ItemsOf(Metrics(img), t), 8, |img|);
    ChannelIndex(channel, |ItemsOf(Metrics(img), t)|);
  }

  lemma ChannelIndex(channel: int, n: nat)
    requires -0x8000_0000 <= channel < 0x8000_0000 && n < 0x4000_0000
    ensures Verdict(channel, n) == if 0 <= channel < n then Ok else Invalid
  {
  }

  lemma {:induction false} ChainShort(items: seq<Item>, lo: nat, hi: nat)
    requires Chain(items, lo, hi)
    ensures lo + 4 * |items| <= hi
  {
    if items != [] {
      ChainShort(items[1..], items[0].reg + Width(items[0].size), hi);
    }
  }

  // ----- The channel table -----

  /** The lengths of the configurations among the first k channels of a type. */
  function ConfigTotal(channels: seq<Option<Channel>>, k: nat, t: SensorType): nat
    requires k <= |channels|
  {
    if k == 0 then 0
    else
      ConfigTotal(channels, k - 1, t)
      + (if channels[k - 1].Some? && channels[k - 1].value.kind == t then |channels[k - 1].value.config| else 0)
  }

  /** A type's sensor count is the sum of the configuration lengths of its channels. */
  lemma {:induction false} ConfigsCount(ms: seq<Metric>, n: nat, k: nat, t: SensorType)
    requires k <= |ms| <= n
    ensures ConfigTotal(Tabulate(ms, n).channels, k, t) == |ItemsOf(ms[..k], t)|
  {
    if k > 0 {
      ConfigsCount(ms, n, k - 1, t);
      assert ms[..k] == ms[..k - 1] + [ms[k - 1]];
      ItemsAppend(ms[..k - 1], ms[k - 1], t);
    }
  }

  // ----- The walk -----

  function Extend(ms: seq<Metric>, m: Option<Metric>): seq<Metric> {
    if m.Some? then ms + [m.value] else ms
  }

  /** What the walk has taken and what is left of the table, at an aligned register. */
  ghost predicate Walk(img: seq<Byte>, done: seq<Metric>, reg: nat, left: nat) {
    && Metrics(img) == done + Parse(img, reg, left) && reg % 8 == 0
    && TableReadable(img, reg, left) && TableUnwrapped(img, reg, left)
  }

  lemma WalkStart(img: seq<Byte>)
    requires TableAccepted(img) && TableReadable(img, 8, CountAt(img)) && TableUnwrapped(img, 8, CountAt(img))
    ensures Walk(img, [], 8, CountAt(img))
  {
    assert [] + Parse(img, 8, CountAt(img)) == Metrics(img);
  }

  lemma WalkDone(img: seq<Byte>, done: seq<Metric>, reg: nat)
    requires Walk(img, done, reg, 0)
    ensures Metrics(img) == done
  {
  }

  lemma WalkStep(img: seq<Byte>, done: seq<Metric>, reg: nat, left: nat)
    requires left > 0 && Walk(img, done, reg, left)
    ensures Unwrapped(img, reg)
    ensures !InRange(img, reg) ==> Metrics(img) == done
    ensures InRange(img, reg) ==>
              && BlockReadable(img, reg) && Wrap32(BlockEnd(img, reg) + 7) / 8 * 8 == Align8(BlockEnd(img, reg))
              && Walk(img, Extend(done, MetricAt(img, reg)), Align8(BlockEnd(img, reg)), left - 1)
  {
    if InRange(img, reg) {
      var end := BlockEnd(img, reg);
      var rest := Parse(img, Align8(end), left - 1);
      var m := MetricAt(img, reg);
      AlignUp(end);
      assert done + Accept(m, rest) == Extend(done, m) + rest;
    } else {
      assert done + [] == done;
    }
  }

  lemma {:induction false} ItemsAppend(ms: seq<Metric>, m: Metric, t: SensorType)
    ensures ItemsOf(ms + [m], t) == ItemsOf(ms, t) + (if m.kind == t then m.items else [])
  {
    if ms == [] {
      assert [m][1..] == [];
    } else {
      var first := if ms[0].kind == t then ms[0].items else [];
      var last := if m.kind == t then m.items else [];
      assert (ms + [m])[1..] == ms[1..] + [m] && (ms + [m])[0] == ms[0];
      ItemsAppend(ms[1..], m, t);
      assert first + (ItemsOf(ms[1..], t) + last) == (first + ItemsOf(ms[1..], t)) + last;
    }
  }

  /** Taking the next metric extends the tables of a metric list. */
  lemma TakeNext(ms: seq<Metric>, m: Metric, n: nat)
    requires |ms| < n
    ensures Tabulate(ms + [m], n) == Take(Tabulate(ms, n), m, |ms|)
  {
    ItemsAppend(ms, m, Temp);
    ItemsAppend(ms, m, Energy);
    KindsAppend(ms, m);
  }

  lemma {:induction false} TakenIs(ms: seq<Metric>, n: nat)
    requires |ms| <= n
    ensures Taken(ms, n) == Tabulate(ms, n)
  {
    if ms == [] {
      assert Kinds(ms) == {};
    } else {
      var init := ms[..|ms| - 1];
      TakenIs(init, n);
      TakeNext(init, ms[|ms| - 1], n);
      assert ms == init + [ms[|ms| - 1]];
    }
  }

  lemma ExtendTaken(ms: seq<Metric>, m: Option<Metric>, n: nat)
    requires |ms| < n
    ensures Taken(Extend(ms, m), n) == if m.Some? then Take(Taken(ms, n), m.value, |ms|) else Taken(ms, n)
  {
    if m.Some? { TakenNext(ms, m.value, n); }
  }

  lemma TakenNext(ms: seq<Metric>, m: Metric, n: nat)
    requires |ms| < n
    ensures Taken(ms + [m], n) == Take(Taken(ms, n), m, |ms|)
  {
    assert (ms + [m])[..|ms|] == ms;
  }

  lemma KindsAppend(ms: seq<Metric>, m: Metric)
    ensures Kinds(ms + [m]) == Kinds(ms) + {m.kind}
  {
    forall k | k in Kinds(ms) + {m.kind} ensures k in Kinds(ms + [m]) {
      if k in Kinds(ms) {
        var x :| x in ms && x.kind == k;
        assert x in ms + [m];
      } else {
        assert m in ms + [m];
      }
    }
  }
}
