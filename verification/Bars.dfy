/** Bars on the time axis, and what it means for one bar to summarise a run of others. */
module Bars {
  import opened Common

  type U32 = n: nat | n <= U32_MAX

  /** `closeTime` is inclusive: `openTime + width - 1`, the venue's convention. */
  datatype Bar = Bar(
    openTime: int, closeTime: int,
    open: real, high: real, low: real, close: real,
    volume: real, trades: U32)

  function SaturatingAdd(a: nat, b: nat): U32 {
    if a + b <= U32_MAX then a + b else U32_MAX
  }

  function EmptyAt(openTime: int, width: int, price: real): Bar {
    Bar(openTime, openTime + width - 1, price, price, price, price, 0.0, 0)
  }

  function Last<T>(s: seq<T>): T
    requires s != []
  {
    s[|s| - 1]
  }

  function Init<T>(s: seq<T>): seq<T>
    requires s != []
  {
    s[..|s| - 1]
  }

  function SumVolume(g: seq<Bar>): real {
    if g == [] then 0.0 else SumVolume(Init(g)) + Last(g).volume
  }

  function SumTrades(g: seq<Bar>): nat {
    if g == [] then 0 else SumTrades(Init(g)) + Last(g).trades
  }

  /** `o` is the bar `[t, t + width)` of the run `g`: first open, last close, extremes, sums. */
  ghost predicate Summarises(o: Bar, g: seq<Bar>, t: int, width: int) {
    && g != []
    && o.openTime == t && o.closeTime == t + width - 1
    && o.open == g[0].open && o.close == Last(g).close
    && (forall j :: 0 <= j < |g| ==> g[j].high <= o.high)
    && (exists j :: 0 <= j < |g| && g[j].high == o.high)
    && (forall j :: 0 <= j < |g| ==> o.low <= g[j].low)
    && (exists j :: 0 <= j < |g| && g[j].low == o.low)
    && o.volume == SumVolume(g)
    && o.trades == SaturatingAdd(SumTrades(g), 0)
  }

  /** Fold one more bar into a bucket under construction. */
  function Absorb(o: Bar, b: Bar): Bar {
    o.(close := b.close,
       high := MaxReal(o.high, b.high),
       low := MinReal(o.low, b.low),
       volume := o.volume + b.volume,
       trades := SaturatingAdd(o.trades, b.trades))
  }

  /** A bucket `[t, t + width)` that has received its first bar. */
  function OpenedBy(b: Bar, t: int, width: int): Bar {
    b.(openTime := t, closeTime := t + width - 1)
  }

  lemma OpenedBySummarises(b: Bar, t: int, width: int)
    ensures Summarises(OpenedBy(b, t, width), [b], t, width)
  {
    assert Init([b]) == [];
    assert [b][0].high == b.high && [b][0].low == b.low;
  }

  lemma AbsorbSummarises(o: Bar, g: seq<Bar>, b: Bar, t: int, width: int)
    requires Summarises(o, g, t, width)
    ensures Summarises(Absorb(o, b), g + [b], t, width)
  {
    var h := g + [b];
    assert Init(h) == g && Last(h) == b;
    var o' := Absorb(o, b);
    var j :| 0 <= j < |g| && g[j].high == o.high;
    assert h[j].high == o.high && h[|g|].high == b.high;
    assert exists m :: 0 <= m < |h| && h[m].high == o'.high;
    var k :| 0 <= k < |g| && g[k].low == o.low;
    assert h[k].low == o.low && h[|g|].low == b.low;
    assert exists m :: 0 <= m < |h| && h[m].low == o'.low;
  }
}
