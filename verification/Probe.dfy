// The whole driver on a written table: probe, then read one channel.
module Probe {
  import opened Words
  import opened SensorTable
  import opened SensorLayout
  import opened AltraHwmon
  import opened TableWriter

  /** What the round trip says about one channel. */
  lemma {:induction false} ChannelShows(img: seq<Byte>, bs: seq<Block>, t: SensorType, k: nat)
    requires AllWritable(bs) && |bs| < 65536 && Begins(img, bs) && k < |Shown(bs, t)|
    ensures |ItemsOf(Metrics(img), t)| == |Shown(bs, t)|
    ensures var it := ItemsOf(Metrics(img), t)[k]; Showing(it.text, Raw(img, it), it.scale) == Shown(bs, t)[k]
  {
    RoundTripReadings(img, bs, t);
    assert Readback(img, ItemsOf(Metrics(img), t))[k] == Shown(bs, t)[k];
  }

  /** Exactly the channels that are shown pass the bounds check. */
  lemma {:induction false} ChannelBound(img: seq<Byte>, bs: seq<Block>, t: SensorType, channel: int)
    requires AllWritable(bs) && |bs| < 65536 && Begins(img, bs) && |img| < 0x1_0000_0000
    requires -0x8000_0000 <= channel < 0x8000_0000
    ensures Verdict(channel, |ItemsOf(Metrics(img), t)|) == if 0 <= channel < |Shown(bs, t)| then Ok else Invalid
  {
    WrittenIsReadable(img, bs);
    RoundTripReadings(img, bs, t);
    assert |Readback(img, ItemsOf(Metrics(img), t))| == |Shown(bs, t)|;
    NegativeChannels(img, t, channel);
  }

  /** Probing any table: data sizes and terminated labels are enough for every register read to be
      inside the image, while probing and after it. */
  method ProbeAny(ctx: Context) returns (status: Status)
    requires 8 <= |ctx.img| < 0x1_0000_0000 - 16711424 && ctx.Valid() && ctx.list == map[]
    requires TableRoomy(ctx.img, 8, CountAt(ctx.img)) && TableLabelled(ctx.img, 8, CountAt(ctx.img))
    modifies ctx
    ensures status == if TableAccepted(ctx.img) then Ok else NoDevice
    ensures status == Ok ==> ctx.Probed()
  {
    RoomyIsReadable(ctx.img, 8, CountAt(ctx.img));
    SmallImagesUnwrapped(ctx.img, 8, CountAt(ctx.img));
    var used: nat;
    status, used := ctx.CreateSensors();
  }

  /** Probing a written table succeeds. */
  method ProbeWritten(ctx: Context, bs: seq<Block>)
    requires AllWritable(bs) && |bs| < 65536 && Begins(ctx.img, bs)
    requires |ctx.img| < 0x1_0000_0000 - 16711424 && ctx.Valid() && ctx.list == map[]
    modifies ctx
    ensures ctx.Probed()
  {
    WrittenIsReadable(ctx.img, bs);
    SmallImagesUnwrapped(ctx.img, 8, CountAt(ctx.img));
    var status, used := ctx.CreateSensors();
  }

  /** After probing a written table, a channel of a type reads as the written value times the scale
      of its unit, under the label of its block; a channel beyond the reported ones is refused. */
  method ReadWritten(ctx: Context, bs: seq<Block>, t: SensorType, channel: int)
    returns (status: Status, val: int, text: seq<Byte>)
    requires AllWritable(bs) && |bs| < 65536 && Begins(ctx.img, bs)
    requires |ctx.img| < 0x1_0000_0000 - 16711424 && ctx.Valid() && ctx.list == map[]
    requires -0x8000_0000 <= channel < 0x8000_0000
    modifies ctx
    ensures status == if 0 <= channel < |Shown(bs, t)| then Ok else Invalid
    ensures status == Ok ==>
              var shown := Shown(bs, t)[channel];
              && -TWO_63 <= val < TWO_63 && Wrap64(val) == Wrap64(shown.value * shown.scale)
              && (shown.value * shown.scale < TWO_63 ==> val == shown.value * shown.scale)
              && text == shown.text
  {
    ProbeWritten(ctx, bs);
    status, val := ctx.Read(t, channel);
    status, text := ctx.ReadLabels(t, channel);
    ChannelBound(ctx.img, bs, t, channel);
    if status == Ok { ChannelShows(ctx.img, bs, t, channel); }
  }
}
