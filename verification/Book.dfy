/** Walking the order book: what a size would fill at, and how large it may go before its
    average fill is worse than N basis points from the touch. Money is exact (`real`). */
module Book {
  import opened Common

  datatype Level = Level(px: real, sz: real)
  datatype L2Book = L2Book(bids: seq<Level>, asks: seq<Level>)
  datatype Fill = Fill(size: real, notional: real)
  datatype BookWalk = BookWalk(
    topPx: Option<real>, avgPx: Option<real>, filledSz: real, exhaustsBook: bool,
    slipBps: Option<real>, maxSizeUsdWithinBps: seq<real>)

  const BPS: real := 10000.0
  const SIZE_BANDS_BPS: seq<nat> := [5, 10, 25]

  function Side(book: L2Book, isBuy: bool): seq<Level> {
    if isBuy then book.asks else book.bids
  }

  // ---- prices times sizes -----------------------------------------------------------------

  /** What `size` costs at `px`. Proofs hide this body and use the four facts below it. */
  function Value(size: real, px: real): real {
    size * px
  }

  function Ratio(a: real, b: real): real
    requires b != 0.0
  {
    a / b
  }

  lemma ValueAdds(a: real, b: real, px: real)
    ensures Value(a + b, px) == Value(a, px) + Value(b, px)
    ensures Value(a - b, px) == Value(a, px) - Value(b, px)
    ensures Value(0.0, px) == 0.0
  {
  }

  lemma PositiveProduct(x: real, y: real)
    requires 0.0 < x && 0.0 < y
    ensures 0.0 < Value(x, y)
  {
  }

  /** A product with a positive price has the sign of the size. */
  lemma ValueSign(x: real, px: real)
    requires 0.0 < px
    ensures 0.0 <= x <==> 0.0 <= Value(x, px)
  {
    hide Value;
    ValueAdds(0.0, x, px);
    if 0.0 < x {
      PositiveProduct(x, px);
    } else if x < 0.0 {
      PositiveProduct(0.0 - x, px);
    }
  }

  lemma ValueOrder(a: real, b: real, px: real)
    requires 0.0 < px
    ensures a <= b <==> Value(a, px) <= Value(b, px)
    ensures 0.0 <= a <==> 0.0 <= Value(a, px)
  {
    hide Value;
    ValueAdds(b, a, px);
    ValueSign(b - a, px);
    ValueSign(a, px);
  }

  lemma PriceOrder(size: real, p: real, q: real)
    requires 0.0 <= size && p <= q
    ensures Value(size, p) <= Value(size, q)
  {
    hide Value;
    ValueSplits(size, q, p);
    if p < q {
      ValueSign(size, q - p);
    }
  }

  lemma ValueSplits(size: real, q: real, p: real)
    ensures Value(size, q - p) == Value(size, q) - Value(size, p)
    ensures Value(size, 0.0) == 0.0
  {
  }

  lemma RatioTimes(a: real, b: real)
    requires b != 0.0
    ensures Value(Ratio(a, b), b) == a
    ensures Value(b, Ratio(a, b)) == a
  {
  }

  // ---- the two algorithms, and the recursive forms they are proved against ----------------

  /** What consuming up to `want`, best level first, takes and costs. */
  function FillOf(levels: seq<Level>, want: real): Fill {
    if levels == [] || want <= 0.0 then Fill(0.0, 0.0)
    else
      var taken := MinReal(levels[0].sz, want);
      var rest := FillOf(levels[1..], want - taken);
      Fill(taken + rest.size, Value(taken, levels[0].px) + rest.notional)
  }

  lemma FillStep(levels: seq<Level>, i: nat, want: real)
    requires i < |levels| && want > 0.0
    ensures var taken := MinReal(levels[i].sz, want);
            FillOf(levels[i..], want) == Plus(Part(levels[i], taken), FillOf(levels[i + 1..], want - taken))
  {
    hide Value;
    assert levels[i..][1..] == levels[i + 1..];
  }

  lemma FillDone(levels: seq<Level>, want: real)
    requires levels == [] || want <= 0.0
    ensures FillOf(levels, want) == Fill(0.0, 0.0)
  {
  }

  method Take(levels: seq<Level>, want: real) returns (filled: real, notional: real)
    ensures Fill(filled, notional) == FillOf(levels, want)
  {
    hide Value;
    hide FillOf;
    var remaining := want;
    filled, notional := 0.0, 0.0;
    var i := 0;
    assert levels[0..] == levels;
    while i < |levels| && remaining > 0.0
      invariant 0 <= i <= |levels|
      invariant FillOf(levels, want) == Plus(Fill(filled, notional), FillOf(levels[i..], remaining))
    {
      var level := levels[i];
      var taken := MinReal(level.sz, remaining);
      FillStep(levels, i, remaining);
      filled := filled + taken;
      notional := notional + Value(taken, level.px);
      remaining := remaining - taken;
      i := i + 1;
    }
    FillDone(levels[i..], remaining);
  }

  /** The worst average price a band of `bps` allows, on the side that costs. */
  function Limit(top: real, isBuy: bool, bps: nat): real {
    var band := Value(top, bps as real) / BPS;
    if isBuy then top + band else top - band
  }

  predicate NoWorse(avg: real, limit: real, isBuy: bool) {
    if isBuy then avg <= limit else avg >= limit
  }

  function Plus(f: Fill, g: Fill): Fill {
    Fill(f.size + g.size, f.notional + g.notional)
  }

  function Part(level: Level, size: real): Fill {
    Fill(size, Value(size, level.px))
  }

  /** The size at `px` that brings the average of `done` exactly onto the limit. */
  function BreakEvenSize(done: Fill, px: real, limit: real): real
    requires px - limit != 0.0
  {
    Ratio(Value(done.size, limit) - done.notional, px - limit)
  }

  /** The solver's tail, having already taken `done` from the levels before these. */
  function SolveFrom(levels: seq<Level>, limit: real, isBuy: bool, done: Fill): real {
    if levels == [] then done.notional
    else
      var next := Plus(done, Part(levels[0], levels[0].sz));
      if next.size <= 0.0 then SolveFrom(levels[1..], limit, isBuy, done)
      else if NoWorse(Ratio(next.notional, next.size), limit, isBuy) then
        SolveFrom(levels[1..], limit, isBuy, next)
      else if levels[0].px - limit == 0.0 then done.notional
      else
        var x := BreakEvenSize(done, levels[0].px, limit);
        if x > 0.0 then done.notional + Value(MinReal(x, levels[0].sz), levels[0].px)
        else done.notional
  }

  function BandNotional(levels: seq<Level>, isBuy: bool, bps: nat): real {
    if levels == [] || levels[0].px <= 0.0 then 0.0
    else SolveFrom(levels, Limit(levels[0].px, isBuy, bps), isBuy, Fill(0.0, 0.0))
  }

  method MaxNotionalWithin(levels: seq<Level>, isBuy: bool, bps: nat) returns (notional: real)
    ensures notional == BandNotional(levels, isBuy, bps)
    ensures levels == [] || levels[0].px <= 0.0 ==> notional == 0.0
  {
    hide Value;
    hide Ratio;
    notional := 0.0;
    if levels == [] || levels[0].px <= 0.0 {
      return;
    }
    var limit := Limit(levels[0].px, isBuy, bps);
    var filled := 0.0;
    var i := 0;
    while i < |levels|
      invariant 0 <= i <= |levels|
      invariant BandNotional(levels, isBuy, bps) ==
                SolveFrom(levels[i..], limit, isBuy, Fill(filled, notional))
    {
      var level := levels[i];
      assert levels[i..][0] == level && levels[i..][1..] == levels[i + 1..];
      var nextFilled := filled + level.sz;
      var nextNotional := notional + Value(level.sz, level.px);
      i := i + 1;
      if nextFilled <= 0.0 {
        continue;
      }
      if NoWorse(Ratio(nextNotional, nextFilled), limit, isBuy) {
        filled, notional := nextFilled, nextNotional;
        continue;
      }
      var denominator := level.px - limit;
      if denominator == 0.0 {
        break;
      }
      var x := Ratio(Value(filled, limit) - notional, denominator);
      if x > 0.0 {
        notional := notional + Value(MinReal(x, level.sz), level.px);
      }
      break;
    }
  }

  function SlipBps(top: real, avg: real, isBuy: bool): real
    requires 0.0 < top
  {
    var adverse := if isBuy then avg - top else top - avg;
    Ratio(MaxReal(adverse, 0.0), top) * BPS
  }

  function LadderReachBps(levels: seq<Level>, isBuy: bool): Option<real> {
    if levels == [] || levels[0].px <= 0.0 then None
    else Some(SlipBps(levels[0].px, levels[|levels| - 1].px, isBuy))
  }

  // ---- what a usable ladder is -------------------------------------------------------------

  /** Positive levels, ordered away from the touch. */
  ghost predicate Ladder(levels: seq<Level>, isBuy: bool) {
    && (forall i :: 0 <= i < |levels| ==> 0.0 < levels[i].px && 0.0 < levels[i].sz)
    && (forall i, j :: 0 <= i <= j < |levels| ==> NoWorse(levels[i].px, levels[j].px, isBuy))
  }

  /** Everything resting on a side. */
  function WholeSide(levels: seq<Level>): Fill {
    if levels == [] then Fill(0.0, 0.0)
    else Plus(Part(levels[0], levels[0].sz), WholeSide(levels[1..]))
  }

  /** The cost of `f` over paying `limit` throughout, signed so that positive is adverse. */
  function Excess(f: Fill, limit: real, isBuy: bool): real {
    Signed(f.notional - Value(f.size, limit), isBuy)
  }

  function Signed(v: real, isBuy: bool): real {
    if isBuy then v else -v
  }

  lemma LadderTail(levels: seq<Level>, isBuy: bool)
    requires Ladder(levels, isBuy) && levels != []
    ensures Ladder(levels[1..], isBuy)
  {
  }

  /** The walk takes the whole request, or the whole side when the request is larger. */
  lemma {:induction false} FillSize(levels: seq<Level>, isBuy: bool, want: real)
    requires Ladder(levels, isBuy) && 0.0 <= want
    ensures FillOf(levels, want).size == MinReal(want, WholeSide(levels).size)
    ensures 0.0 <= WholeSide(levels).size
    ensures 0.0 <= FillOf(levels, want).notional
    ensures WholeSide(levels).size <= want ==> FillOf(levels, want) == WholeSide(levels)
    decreases |levels|
  {
    hide Value;
    if levels != [] {
      LadderTail(levels, isBuy);
      var taken := MinReal(levels[0].sz, want);
      FillSize(levels[1..], isBuy, want - taken);
      ValueOrder(taken, taken, levels[0].px);
    }
  }

  // ---- the walk and the solver agree -----------------------------------------------------

  lemma NoWorseIsExcess(f: Fill, limit: real, isBuy: bool)
    requires 0.0 < f.size
    ensures NoWorse(Ratio(f.notional, f.size), limit, isBuy) <==> Excess(f, limit, isBuy) <= 0.0
  {
    hide Value;
    hide Ratio;
    var avg := Ratio(f.notional, f.size);
    RatioTimes(f.notional, f.size);
    ValueOrder(avg, limit, f.size);
    ValueOrder(limit, avg, f.size);
    ValueCommutes(f.size, limit);
  }

  lemma ValueCommutes(a: real, b: real)
    ensures Value(a, b) == Value(b, a)
  {
  }

  /** Excess is additive, and one level's share of it is affine in the size taken. */
  lemma ExcessAdds(f: Fill, g: Fill, limit: real, isBuy: bool)
    ensures Excess(Plus(f, g), limit, isBuy) == Excess(f, limit, isBuy) + Excess(g, limit, isBuy)
  {
    hide Value;
    ValueAdds(f.size, g.size, limit);
  }

  function Edge(px: real, limit: real, isBuy: bool): real {
    Signed(px - limit, isBuy)
  }

  lemma PartExcess(level: Level, w: real, limit: real, isBuy: bool)
    ensures Excess(Part(level, w), limit, isBuy) == Value(w, Edge(level.px, limit, isBuy))
  {
  }

  /** Levels that are all worse than the limit only ever add excess. */
  lemma {:induction false} WorseLevelsAddExcess(levels: seq<Level>, isBuy: bool, limit: real, want: real)
    requires Ladder(levels, isBuy)
    requires forall i :: 0 <= i < |levels| ==> !NoWorse(levels[i].px, limit, isBuy)
    ensures 0.0 <= Excess(FillOf(levels, want), limit, isBuy)
    decreases |levels|
  {
    hide Value;
    ValueAdds(0.0, 0.0, limit);
    if levels != [] && want > 0.0 {
      LadderTail(levels, isBuy);
      var taken := MinReal(levels[0].sz, want);
      WorseLevelsAddExcess(levels[1..], isBuy, limit, want - taken);
      PartExcess(levels[0], taken, limit, isBuy);
      ValueOrder(taken, taken, Edge(levels[0].px, limit, isBuy));
      ExcessAdds(Part(levels[0], taken), FillOf(levels[1..], want - taken), limit, isBuy);
    }
  }

  lemma {:induction false} SolveNeverShrinks(levels: seq<Level>, limit: real, isBuy: bool, done: Fill)
    requires Ladder(levels, isBuy) && 0.0 <= done.size
    ensures done.notional <= SolveFrom(levels, limit, isBuy, done)
    decreases |levels|
  {
    hide Value;
    hide Ratio;
    if levels != [] {
      LadderTail(levels, isBuy);
      ValueOrder(levels[0].sz, levels[0].sz, levels[0].px);
      SolveNeverShrinks(levels[1..], limit, isBuy, Plus(done, Part(levels[0], levels[0].sz)));
      if levels[0].px - limit != 0.0 {
        var x := MinReal(BreakEvenSize(done, levels[0].px, limit), levels[0].sz);
        ValueOrder(x, x, levels[0].px);
      }
    }
  }

  /** The part of the first over-limit level that lands exactly on the limit. */
  lemma BreakEven(done: Fill, level: Level, limit: real, isBuy: bool, w: real)
    requires 0.0 < level.px && 0.0 < level.sz
    requires Excess(done, limit, isBuy) <= 0.0
    requires 0.0 < Excess(Plus(done, Part(level, level.sz)), limit, isBuy)
    ensures !NoWorse(level.px, limit, isBuy)
    ensures var x := BreakEvenSize(done, level.px, limit);
            && 0.0 <= x < level.sz
            && (Excess(Plus(done, Part(level, w)), limit, isBuy) <= 0.0 <==> w <= x)
  {
    hide Value;
    hide Ratio;
    var e := Edge(level.px, limit, isBuy);
    PartExcess(level, level.sz, limit, isBuy);
    ExcessAdds(done, Part(level, level.sz), limit, isBuy);
    PartExcess(level, w, limit, isBuy);
    ExcessAdds(done, Part(level, w), limit, isBuy);
    PositiveFactor(level.sz, e);
    var x := BreakEvenSize(done, level.px, limit);
    RatioTimes(Value(done.size, limit) - done.notional, level.px - limit);
    ValueNegates(x, level.px - limit);
    ValueOrder(x, x, e);
    ValueOrder(level.sz, x, e);
    ValueOrder(w, x, e);
  }

  lemma PositiveFactor(size: real, e: real)
    requires 0.0 < size && 0.0 < Value(size, e)
    ensures 0.0 < e
  {
  }

  lemma ValueNegates(size: real, px: real)
    ensures Value(size, -px) == -Value(size, px)
  {
  }

  /** From any point inside the band, a further walk stays inside exactly when its notional
      stays at or below what the solver returns. */
  lemma {:induction false} SolverMatchesWalk(
    levels: seq<Level>, isBuy: bool, limit: real, done: Fill, want: real)
    requires Ladder(levels, isBuy) && 0.0 <= done.size && 0.0 < want
    requires Excess(done, limit, isBuy) <= 0.0
    ensures Excess(Plus(done, FillOf(levels, want)), limit, isBuy) <= 0.0
       <==> done.notional + FillOf(levels, want).notional <= SolveFrom(levels, limit, isBuy, done)
    decreases |levels|
  {
    hide Value;
    hide Ratio;
    if levels == [] {
      assert Plus(done, FillOf(levels, want)) == done;
      return;
    }
    LadderTail(levels, isBuy);
    var level, rest := levels[0], levels[1..];
    var next := Plus(done, Part(level, level.sz));
    NoWorseIsExcess(next, limit, isBuy);
    if Excess(next, limit, isBuy) > 0.0 {
      OverLimitLevel(levels, isBuy, limit, done, want);
    } else if want <= level.sz {
      PartInside(done, level, limit, isBuy, want);
      SolveNeverShrinks(rest, limit, isBuy, next);
      ValueOrder(want, level.sz, level.px);
      assert FillOf(levels, want) == Part(level, want);
    } else {
      SolverMatchesWalk(rest, isBuy, limit, next, want - level.sz);
      assert Plus(done, FillOf(levels, want)) == Plus(next, FillOf(rest, want - level.sz));
    }
  }

  lemma PartInside(done: Fill, level: Level, limit: real, isBuy: bool, w: real)
    requires 0.0 < w <= level.sz
    requires Excess(done, limit, isBuy) <= 0.0
    requires Excess(Plus(done, Part(level, level.sz)), limit, isBuy) <= 0.0
    ensures Excess(Plus(done, Part(level, w)), limit, isBuy) <= 0.0
  {
    hide Value;
    var e := Edge(level.px, limit, isBuy);
    PartExcess(level, level.sz, limit, isBuy);
    ExcessAdds(done, Part(level, level.sz), limit, isBuy);
    PartExcess(level, w, limit, isBuy);
    ExcessAdds(done, Part(level, w), limit, isBuy);
    if 0.0 < e {
      ValueOrder(w, level.sz, e);
    } else {
      PriceOrder(w, e, 0.0);
      ValueAdds(0.0, 0.0, w);
      ValueCommutes(w, 0.0);
    }
  }

  lemma OverLimitLevel(levels: seq<Level>, isBuy: bool, limit: real, done: Fill, want: real)
    requires levels != [] && Ladder(levels, isBuy) && 0.0 <= done.size && 0.0 < want
    requires Excess(done, limit, isBuy) <= 0.0
    requires 0.0 < Excess(Plus(done, Part(levels[0], levels[0].sz)), limit, isBuy)
    ensures Excess(Plus(done, FillOf(levels, want)), limit, isBuy) <= 0.0
       <==> done.notional + FillOf(levels, want).notional <= SolveFrom(levels, limit, isBuy, done)
  {
    hide Value;
    hide Ratio;
    var level, rest := levels[0], levels[1..];
    LadderTail(levels, isBuy);
    var taken := MinReal(level.sz, want);
    BreakEven(done, level, limit, isBuy, taken);
    NoWorseIsExcess(Plus(done, Part(level, level.sz)), limit, isBuy);
    var x := BreakEvenSize(done, level.px, limit);
    ValueAdds(0.0, 0.0, level.px);
    assert SolveFrom(levels, limit, isBuy, done) == done.notional + Value(x, level.px);
    ValueOrder(taken, x, level.px);
    if want <= level.sz {
      assert FillOf(levels, want) == Part(level, taken);
    } else {
      var tail := FillOf(rest, want - taken);
      assert FillOf(levels, want) == Plus(Part(level, taken), tail);
      assert Plus(done, FillOf(levels, want)) == Plus(Plus(done, Part(level, taken)), tail);
      forall i | 0 <= i < |rest| ensures !NoWorse(rest[i].px, limit, isBuy) {
        assert rest[i] == levels[i + 1];
      }
      WorseLevelsAddExcess(rest, isBuy, limit, want - taken);
      ExcessAdds(Plus(done, Part(level, taken)), tail, limit, isBuy);
      FillSize(rest, isBuy, want - taken);
    }
  }

  lemma SlipWithinIsNoWorse(top: real, avg: real, isBuy: bool, bps: nat)
    requires 0.0 < top
    ensures SlipBps(top, avg, isBuy) <= bps as real <==> NoWorse(avg, Limit(top, isBuy, bps), isBuy)
  {
    hide Value;
    hide Ratio;
    var n := bps as real;
    var adverse := MaxReal(if isBuy then avg - top else top - avg, 0.0);
    RatioTimes(adverse, top);
    ValueOrder(Ratio(adverse, top), n / BPS, top);
    ValueScales(n, BPS, top);
    ValueCommutes(top, n);
    ValueOrder(n, n, top);
  }

  lemma ValueScales(n: real, k: real, px: real)
    requires k != 0.0
    ensures Value(n / k, px) == Value(n, px) / k
  {
  }

  /** The two algorithms agree: the walk of any positive size slips at most `bps` exactly
      when the notional it walked is at most the solver's figure for `bps`. */
  lemma WalkWithinBandIff(levels: seq<Level>, isBuy: bool, want: real, bps: nat)
    requires Ladder(levels, isBuy) && levels != [] && 0.0 < want
    ensures var f := FillOf(levels, want);
            && 0.0 < f.size
            && (SlipBps(levels[0].px, Ratio(f.notional, f.size), isBuy) <= bps as real
                <==> f.notional <= BandNotional(levels, isBuy, bps))
  {
    hide Value;
    hide Ratio;
    var f := FillOf(levels, want);
    FillSize(levels, isBuy, want);
    LadderTail(levels, isBuy);
    FillSize(levels[1..], isBuy, 0.0);
    SlipWithinIsNoWorse(levels[0].px, Ratio(f.notional, f.size), isBuy, bps);
    var limit := Limit(levels[0].px, isBuy, bps);
    NoWorseIsExcess(f, limit, isBuy);
    ValueAdds(0.0, 0.0, limit);
    SolverMatchesWalk(levels, isBuy, limit, Fill(0.0, 0.0), want);
    assert Plus(Fill(0.0, 0.0), f) == f;
  }

  /** The slippage in prices: basis points of the touch are ten-thousandths of it, and a price
      better than the touch slips by nothing. */
  lemma SlipInPrices(top: real, avg: real, isBuy: bool)
    requires 0.0 < top
    ensures SlipBps(top, avg, isBuy) * top
         == 10000.0 * MaxReal(if isBuy then avg - top else top - avg, 0.0)
    ensures 0.0 <= SlipBps(top, avg, isBuy)
  {
    hide Value;
    hide Ratio;
    var adverse := MaxReal(if isBuy then avg - top else top - avg, 0.0);
    RatioTimes(adverse, top);
    ScaleBy(Ratio(adverse, top), top);
    ValueOrder(Ratio(adverse, top), 0.0, top);
  }

  lemma SlipTimesTop(top: real, avg: real, isBuy: bool)
    requires 0.0 < top
    ensures Value(SlipBps(top, avg, isBuy), top)
         == 10000.0 * MaxReal(if isBuy then avg - top else top - avg, 0.0)
  {
    hide SlipBps;
    hide Value;
    SlipInPrices(top, avg, isBuy);
    TimesIsValue(SlipBps(top, avg, isBuy), top);
  }

  lemma ScaleBy(x: real, y: real)
    ensures (x * 10000.0) * y == 10000.0 * Value(x, y)
    ensures Value(x * 10000.0, y) == 10000.0 * Value(x, y)
  {
  }

  lemma RatioIs(n: real, s: real, avg: real)
    requires s != 0.0 && avg * s == n
    ensures Ratio(n, s) == avg
  {
  }

  lemma TimesIsValue(x: real, y: real)
    ensures x * y == Value(x, y)
  {
  }

  /** The band in prices: the walk of any positive size has a notional within the figure for
      `bps` exactly when its average is at most `bps` ten-thousandths of the touch away. */
  lemma WithinBandInPrices(levels: seq<Level>, isBuy: bool, want: real, bps: nat, avg: real)
    requires Ladder(levels, isBuy) && levels != [] && 0.0 < want
    requires avg * FillOf(levels, want).size == FillOf(levels, want).notional
    ensures 0.0 < FillOf(levels, want).size
    ensures FillOf(levels, want).notional <= BandNotional(levels, isBuy, bps)
       <==> 10000.0 * (if isBuy then avg - levels[0].px else levels[0].px - avg) <= bps as real * levels[0].px
  {
    hide Value;
    hide Ratio;
    hide SlipBps;
    var f, top, n := FillOf(levels, want), levels[0].px, bps as real;
    WalkWithinBandIff(levels, isBuy, want, bps);
    RatioIs(f.notional, f.size, avg);
    SlipInPrices(top, avg, isBuy);
    var slip := SlipBps(top, avg, isBuy);
    TimesIsValue(slip, top);
    TimesIsValue(n, top);
    ValueOrder(slip, n, top);
    ValueOrder(n, 0.0, top);
  }

  /** The reach in prices: how far the last level is from the touch. */
  lemma ReachIsLastLevel(levels: seq<Level>, isBuy: bool)
    ensures LadderReachBps(levels, isBuy).Some? <==> levels != [] && 0.0 < levels[0].px
    ensures LadderReachBps(levels, isBuy).Some? ==>
              var top, last := levels[0].px, levels[|levels| - 1].px;
              LadderReachBps(levels, isBuy).value * top
              == 10000.0 * MaxReal(if isBuy then last - top else top - last, 0.0)
    ensures Ladder(levels, isBuy) && levels != [] ==>
              var top, last := levels[0].px, levels[|levels| - 1].px;
              && LadderReachBps(levels, isBuy).Some?
              && LadderReachBps(levels, isBuy).value * top
                 == 10000.0 * (if isBuy then last - top else top - last)
  {
    hide SlipBps;
    if levels != [] && 0.0 < levels[0].px {
      SlipInPrices(levels[0].px, levels[|levels| - 1].px, isBuy);
    }
  }

  /** The solver's figure is attained by some walk. */
  lemma {:induction false} SolverIsAttained(levels: seq<Level>, isBuy: bool, limit: real, done: Fill)
    returns (want: real)
    requires Ladder(levels, isBuy) && 0.0 <= done.size
    requires Excess(done, limit, isBuy) <= 0.0
    ensures 0.0 <= want
    ensures done.notional + FillOf(levels, want).notional == SolveFrom(levels, limit, isBuy, done)
    decreases |levels|
  {
    hide Value;
    hide Ratio;
    want := 0.0;
    if levels == [] {
      return;
    }
    LadderTail(levels, isBuy);
    var level, rest := levels[0], levels[1..];
    var next := Plus(done, Part(level, level.sz));
    NoWorseIsExcess(next, limit, isBuy);
    if Excess(next, limit, isBuy) <= 0.0 {
      var more := SolverIsAttained(rest, isBuy, limit, next);
      want := level.sz + more;
      assert FillOf(levels, want) == Plus(Part(level, level.sz), FillOf(rest, more));
    } else {
      BreakEven(done, level, limit, isBuy, 0.0);
      want := BreakEvenSize(done, level.px, limit);
      ValueAdds(0.0, 0.0, level.px);
      assert 0.0 < want ==> FillOf(levels, want) == Part(level, want);
    }
  }

  /** The touch is always inside its own band, so the figure is positive, and some walk of
      positive size has exactly that notional: it is the true maximum. */
  lemma BandIsAttained(levels: seq<Level>, isBuy: bool, bps: nat) returns (want: real)
    requires Ladder(levels, isBuy) && levels != []
    ensures 0.0 < want
    ensures FillOf(levels, want).notional == BandNotional(levels, isBuy, bps)
  {
    hide Value;
    hide Ratio;
    var limit := Limit(levels[0].px, isBuy, bps);
    ValueAdds(0.0, 0.0, limit);
    want := SolverIsAttained(levels, isBuy, limit, Fill(0.0, 0.0));
    TouchIsInside(levels, isBuy, bps);
  }

  lemma TouchIsInside(levels: seq<Level>, isBuy: bool, bps: nat)
    requires Ladder(levels, isBuy) && levels != []
    ensures 0.0 < BandNotional(levels, isBuy, bps)
  {
    hide Value;
    hide Ratio;
    var top := levels[0].px;
    SlipWithinIsNoWorse(top, top, isBuy, bps);
    RatioTimes(0.0, top);
    ValueOrder(Ratio(0.0, top), 0.0, top);
    ValueAdds(0.0, 0.0, top);
    var f := FillOf(levels, levels[0].sz);
    assert FillOf(levels[1..], 0.0) == Fill(0.0, 0.0);
    assert f == Part(levels[0], levels[0].sz);
    WalkWithinBandIff(levels, isBuy, levels[0].sz, bps);
    RatioOfValue(levels[0].sz, top);
    ValueOrder(levels[0].sz, 0.0, top);
  }

  lemma RatioOfValue(size: real, px: real)
    requires size != 0.0
    ensures Ratio(Value(size, px), size) == px
  {
  }

  /** Widening the band never shrinks the figure. */
  lemma BandIsMonotone(levels: seq<Level>, isBuy: bool, narrow: nat, wide: nat)
    requires Ladder(levels, isBuy) && narrow <= wide
    ensures BandNotional(levels, isBuy, narrow) <= BandNotional(levels, isBuy, wide)
  {
    hide Value;
    hide Ratio;
    if levels != [] {
      var want := BandIsAttained(levels, isBuy, narrow);
      WalkWithinBandIff(levels, isBuy, want, narrow);
      WalkWithinBandIff(levels, isBuy, want, wide);
    }
  }

  lemma {:induction false} FillCostIsMonotone(levels: seq<Level>, isBuy: bool, want: real)
    requires Ladder(levels, isBuy) && 0.0 <= want
    ensures FillOf(levels, want).notional <= WholeSide(levels).notional
    decreases |levels|
  {
    hide Value;
    if levels != [] {
      LadderTail(levels, isBuy);
      var taken := MinReal(levels[0].sz, want);
      ValueOrder(taken, levels[0].sz, levels[0].px);
      ValueAdds(0.0, 0.0, levels[0].px);
      FillCostIsMonotone(levels[1..], isBuy, want - taken);
    }
  }

  /** The figure never exceeds the side, and is the whole side exactly when the average over
      the whole side is in the band. */
  lemma WholeSideIff(levels: seq<Level>, isBuy: bool, bps: nat)
    requires Ladder(levels, isBuy) && levels != []
    ensures 0.0 < WholeSide(levels).size
    ensures BandNotional(levels, isBuy, bps) <= WholeSide(levels).notional
    ensures BandNotional(levels, isBuy, bps) == WholeSide(levels).notional
       <==> SlipBps(levels[0].px, Ratio(WholeSide(levels).notional, WholeSide(levels).size), isBuy)
            <= bps as real
  {
    hide Value;
    hide Ratio;
    LadderTail(levels, isBuy);
    FillSize(levels[1..], isBuy, 0.0);
    var all := WholeSide(levels).size;
    FillSize(levels, isBuy, all);
    WalkWithinBandIff(levels, isBuy, all, bps);
    var want := BandIsAttained(levels, isBuy, bps);
    FillCostIsMonotone(levels, isBuy, want);
  }

  lemma {:induction false} SideExcess(levels: seq<Level>, isBuy: bool, limit: real)
    requires Ladder(levels, isBuy)
    requires levels != [] ==> NoWorse(levels[|levels| - 1].px, limit, isBuy)
    ensures Excess(WholeSide(levels), limit, isBuy) <= 0.0
    decreases |levels|
  {
    hide Value;
    ValueAdds(0.0, 0.0, limit);
    if levels != [] {
      LadderTail(levels, isBuy);
      var l := levels[0];
      SideExcess(levels[1..], isBuy, limit);
      PartExcess(l, l.sz, limit, isBuy);
      PriceOrder(l.sz, Edge(l.px, limit, isBuy), 0.0);
      ValueAdds(0.0, 0.0, l.sz);
      ValueCommutes(l.sz, 0.0);
      ExcessAdds(Part(l, l.sz), WholeSide(levels[1..]), limit, isBuy);
    }
  }

  /** A side whose reach is inside the band reports its full notional. */
  lemma ShortLadderReportsWholeSide(levels: seq<Level>, isBuy: bool, bps: nat)
    requires Ladder(levels, isBuy) && levels != []
    requires LadderReachBps(levels, isBuy).value <= bps as real
    ensures BandNotional(levels, isBuy, bps) == WholeSide(levels).notional
  {
    hide Value;
    hide Ratio;
    var top, side := levels[0].px, WholeSide(levels);
    var limit := Limit(top, isBuy, bps);
    SlipWithinIsNoWorse(top, levels[|levels| - 1].px, isBuy, bps);
    WholeSideIff(levels, isBuy, bps);
    SideExcess(levels, isBuy, limit);
    NoWorseIsExcess(side, limit, isBuy);
    SlipWithinIsNoWorse(top, Ratio(side.notional, side.size), isBuy, bps);
  }

  // ---- greedy is optimal -------------------------------------------------------------------

  function Sum(xs: seq<real>): real {
    if xs == [] then 0.0 else xs[0] + Sum(xs[1..])
  }

  function Cost(levels: seq<Level>, xs: seq<real>): real
    requires |xs| == |levels|
  {
    if xs == [] then 0.0 else Value(xs[0], levels[0].px) + Cost(levels[1..], xs[1..])
  }

  /** One way of filling an order: how much is taken from each level. */
  ghost predicate Allocation(levels: seq<Level>, xs: seq<real>) {
    |xs| == |levels| && forall i :: 0 <= i < |xs| ==> 0.0 <= xs[i] <= levels[i].sz
  }

  lemma {:induction false} AllocationFits(levels: seq<Level>, isBuy: bool, xs: seq<real>)
    requires Ladder(levels, isBuy) && Allocation(levels, xs)
    ensures 0.0 <= Sum(xs) <= WholeSide(levels).size
    decreases |levels|
  {
    if levels != [] {
      LadderTail(levels, isBuy);
      assert forall i :: 0 <= i < |xs[1..]| ==> xs[1..][i] == xs[i + 1] && levels[1..][i] == levels[i + 1];
      AllocationFits(levels[1..], isBuy, xs[1..]);
    }
  }

  /** Walking further costs at least the best remaining price per unit (or yields at most it). */
  lemma {:induction false} MarginalPrice(levels: seq<Level>, isBuy: bool, a: real, b: real, px: real)
    requires Ladder(levels, isBuy) && 0.0 <= b <= a <= WholeSide(levels).size
    requires forall i :: 0 <= i < |levels| ==> NoWorse(px, levels[i].px, isBuy)
    ensures Signed(Value(a - b, px), isBuy)
         <= Signed(FillOf(levels, a).notional - FillOf(levels, b).notional, isBuy)
    decreases |levels|
  {
    hide Value;
    ValueAdds(0.0, 0.0, px);
    if levels != [] && 0.0 < a {
      LadderTail(levels, isBuy);
      var l, rest := levels[0], levels[1..];
      var ta, tb := MinReal(l.sz, a), MinReal(l.sz, b);
      FillSize(rest, isBuy, 0.0);
      MarginalPrice(rest, isBuy, a - ta, b - tb, px);
      ValueAdds(ta - tb, (a - ta) - (b - tb), px);
      if isBuy {
        PriceOrder(ta - tb, px, l.px);
      } else {
        PriceOrder(ta - tb, l.px, px);
      }
      ValueAdds(ta, tb, l.px);
      assert FillOf(levels, b).notional == Value(tb, l.px) + FillOf(rest, b - tb).notional;
    }
  }

  /** Greedy is optimal: no allocation of the same size is cheaper (buy) or richer (sell). */
  lemma {:induction false} GreedyIsOptimal(levels: seq<Level>, isBuy: bool, xs: seq<real>)
    requires Ladder(levels, isBuy) && Allocation(levels, xs)
    ensures FillOf(levels, Sum(xs)).size == Sum(xs)
    ensures Signed(FillOf(levels, Sum(xs)).notional, isBuy) <= Signed(Cost(levels, xs), isBuy)
    decreases |levels|
  {
    hide Value;
    AllocationFits(levels, isBuy, xs);
    FillSize(levels, isBuy, Sum(xs));
    if levels != [] {
      LadderTail(levels, isBuy);
      var rest, ys := levels[1..], xs[1..];
      assert Allocation(rest, ys) by {
        assert forall i :: 0 <= i < |ys| ==> ys[i] == xs[i + 1] && rest[i] == levels[i + 1];
      }
      GreedyIsOptimal(rest, isBuy, ys);
      AllocationFits(rest, isBuy, ys);
      TakeMoreUpFront(levels, isBuy, xs[0], Sum(ys));
    }
  }

  /** Taking as much as possible from the best level is no worse than taking `x0` from it. */
  lemma TakeMoreUpFront(levels: seq<Level>, isBuy: bool, x0: real, more: real)
    requires levels != [] && Ladder(levels, isBuy)
    requires 0.0 <= x0 <= levels[0].sz && 0.0 <= more <= WholeSide(levels[1..]).size
    ensures Signed(FillOf(levels, x0 + more).notional, isBuy)
         <= Signed(Value(x0, levels[0].px) + FillOf(levels[1..], more).notional, isBuy)
  {
    hide Value;
    hide FillOf;
    hide WholeSide;
    var l, rest, s := levels[0], levels[1..], x0 + more;
    LadderTail(levels, isBuy);
    var t := MinReal(l.sz, s);
    forall i | 0 <= i < |rest| ensures NoWorse(l.px, rest[i].px, isBuy) {
      assert rest[i] == levels[i + 1];
    }
    assert more - (s - t) == t - x0;
    MarginalPrice(rest, isBuy, more, s - t, l.px);
    ValueAdds(t, x0, l.px);
    FirstStep(levels, s);
  }

  lemma FirstStep(levels: seq<Level>, want: real)
    requires levels != [] && 0.0 <= want && 0.0 < levels[0].sz
    ensures var t := MinReal(levels[0].sz, want);
            FillOf(levels, want).notional == Value(t, levels[0].px) + FillOf(levels[1..], want - t).notional
  {
    hide Value;
    ValueAdds(0.0, 0.0, levels[0].px);
  }

  /** The greedy fill is itself an allocation, so the bound above is attained. */
  lemma {:induction false} GreedyIsAllocation(levels: seq<Level>, isBuy: bool, want: real)
    returns (xs: seq<real>)
    requires Ladder(levels, isBuy) && 0.0 <= want
    ensures Allocation(levels, xs)
    ensures Fill(Sum(xs), Cost(levels, xs)) == FillOf(levels, want)
    decreases |levels|
  {
    hide Value;
    if levels == [] {
      xs := [];
    } else {
      LadderTail(levels, isBuy);
      var taken := MinReal(levels[0].sz, want);
      var ys := GreedyIsAllocation(levels[1..], isBuy, want - taken);
      xs := [taken] + ys;
      assert xs[1..] == ys;
      ValueAdds(0.0, 0.0, levels[0].px);
    }
  }

  // ---- the whole estimate --------------------------------------------------------------

  /** Walk `book` for an order of `sz`: a buy lifts the asks, a sell hits the bids. The average
      and the slippage are stated in prices; on a usable ladder the three band figures are
      consistent with both. */
  method Walk(book: L2Book, isBuy: bool, sz: real) returns (r: BookWalk)
    ensures var levels := if isBuy then book.asks else book.bids; var f := FillOf(levels, sz);
            && r.topPx == (if levels == [] then None else Some(levels[0].px))
            && r.filledSz == f.size && r.exhaustsBook == (f.size < sz)
            && (r.avgPx.Some? <==> 0.0 < f.size)
            && (r.avgPx.Some? ==> Value(r.avgPx.value, f.size) == f.notional)
            && (r.slipBps.Some? <==> r.avgPx.Some? && levels != [] && 0.0 < levels[0].px)
            && (r.slipBps.Some? ==>
                  var top, avg := levels[0].px, r.avgPx.value;
                  Value(r.slipBps.value, top) == 10000.0 * MaxReal(if isBuy then avg - top else top - avg, 0.0))
            && r.maxSizeUsdWithinBps ==
                 [BandNotional(levels, isBuy, 5), BandNotional(levels, isBuy, 10), BandNotional(levels, isBuy, 25)]
    ensures var levels := if isBuy then book.asks else book.bids;
            Ladder(levels, isBuy) && levels != [] && 0.0 < sz ==>
              && r.avgPx.Some? && r.slipBps.Some? && |r.maxSizeUsdWithinBps| == |SIZE_BANDS_BPS|
              && forall k :: 0 <= k < |SIZE_BANDS_BPS| ==>
                   (r.slipBps.value <= SIZE_BANDS_BPS[k] as real
                    <==> Value(r.filledSz, r.avgPx.value) <= r.maxSizeUsdWithinBps[k])
  {
    hide Value;
    hide Ratio;
    hide SlipBps;
    var levels := Side(book, isBuy);
    var topPx := if levels == [] then None else Some(levels[0].px);
    var filled, notional := Take(levels, sz);
    var avgPx := if filled > 0.0 then Some(Ratio(notional, filled)) else None;
    var slip := if topPx.Some? && avgPx.Some? && topPx.value > 0.0
      then Some(SlipBps(topPx.value, avgPx.value, isBuy)) else None;
    var b0 := MaxNotionalWithin(levels, isBuy, SIZE_BANDS_BPS[0]);
    var b1 := MaxNotionalWithin(levels, isBuy, SIZE_BANDS_BPS[1]);
    var b2 := MaxNotionalWithin(levels, isBuy, SIZE_BANDS_BPS[2]);
    r := BookWalk(topPx, avgPx, filled, filled < sz, slip, [b0, b1, b2]);
    if filled > 0.0 {
      RatioTimes(notional, filled);
      if slip.Some? {
        SlipTimesTop(topPx.value, avgPx.value, isBuy);
      }
    }
    if Ladder(levels, isBuy) && levels != [] && 0.0 < sz {
      WalkWithinBandIff(levels, isBuy, sz, 5);
      WalkWithinBandIff(levels, isBuy, sz, 10);
      WalkWithinBandIff(levels, isBuy, sz, 25);
    }
  }
}
