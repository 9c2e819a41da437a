/** Every bar a live chart ever shows is a real bar: whatever was delivered, malformed rows never
    become or replace one. */
module ChartBars {
  import opened Common
  import opened Bars
  import opened Chart
  import opened ChartTape
  import opened ChartRuns
  import opened ChartProps

  /** One width wide from its bucket, positive prices inside the extremes, volume not negative. */
  predicate RealBar(b: Bar, k: int, width: int) {
    && b.openTime == k && b.closeTime == k + width - 1
    && 0.0 < b.low && b.low <= b.open <= b.high && b.low <= b.close <= b.high && 0.0 <= b.volume
  }

  /** Every stored venue bar is real, and every retained print is one this market could make. */
  ghost predicate Sources(c: Chart) {
    && (forall k :: k in c.venue ==> RealBar(c.venue[k].bar, k, Width(c)))
    && (forall k :: k in c.identities ==> WellFormed(c, c.identities[k]))
  }

  lemma FloorKeepsSources(c: Chart, bucket: int)
    requires Sources(c)
    ensures Sources(AdvanceFloor(c, bucket))
  {
    hide Widths;
    hide RealBar;
  }

  lemma FreezeKeepsSources(c: Chart, status: TapeStatus, detail: Notice)
    requires Sources(c)
    ensures Sources(Freeze(c, status, detail))
  {
    hide RealBar;
  }

  lemma AcceptKeepsSources(c: Chart, t: WsTrade, bucket: int, at: nat)
    requires Sources(c) && WellFormed(c, t)
    ensures Sources(Accept(c, t, bucket, at))
  {
    hide RealBar;
    hide FoldPrint;
    hide NewTapeBar;
    hide MarkWith;
    hide Doubted;
  }

  lemma RowKeepsSources(c: Chart, t: WsTrade, at: nat)
    requires 0 < Width(c) && Sources(c)
    ensures Sources(ObserveRow(c, t, at).0)
  {
    hide Judge;
    hide TradeBucket;
    hide AdvanceFloor;
    hide Accept;
    hide Freeze;
    hide RealBar;
    JudgeFacts(c, t, at);
    var bucket := TradeBucket(c, t);
    var c' := AdvanceFloor(c, bucket);
    FloorKeepsSources(c, bucket);
    PiecesAreFramed(c, t, bucket, at, Observing, BadTrade);
    match Judge(c, t, at)
    case Malformed(d) => FreezeKeepsSources(c, InvalidObservation, d);
    case Conflicting => FreezeKeepsSources(c, InvalidObservation, IdentityConflict);
    case NoRoom => FreezeKeepsSources(c', CapacityExceeded, IdentityCapacity);
    case Overflow => FreezeKeepsSources(c', InvalidObservation, VolumeOverflow);
    case Fresh => AcceptKeepsSources(c', t, bucket, at);
    case _ =>
  }

  lemma {:induction false} RowsKeepSources(c: Chart, rows: seq<WsTrade>, at: nat)
    requires 0 < Width(c) && Sources(c)
    ensures Sources(Rows(c, rows, at).0)
    decreases |rows|
  {
    hide ObserveRow;
    hide Sources;
    if rows != [] {
      RowKeepsSources(c, rows[0], at);
      RowIsObserved(c, rows[0], at);
      var (c', stop) := ObserveRow(c, rows[0], at);
      if !stop {
        RowsKeepSources(c', rows[1..], at);
      }
    }
  }

  lemma TradesKeepSources(c: Chart, batch: seq<WsTrade>, at: nat)
    requires 0 < Width(c) && Sources(c)
    ensures Sources(ObserveTrades(c, batch, at))
  {
    hide Sources;
    hide Rows;
    hide Sorted;
    hide Freeze;
    FreezeKeepsSources(c, CapacityExceeded, BatchTooLarge);
    RowsKeepSources(c, Sorted(batch), at);
  }

  /** What validation promises of each row it lets through. */
  lemma ValidatedIsReal(c: Chart, candles: seq<Candle>)
    requires 0 < Width(c) && ValidateCandles(c, candles).Ok?
    ensures var bars := ValidateCandles(c, candles).value;
            |bars| == |candles| && forall i :: 0 <= i < |bars| ==> RealBar(bars[i], bars[i].openTime, Width(c))
  {
    hide Aligned;
    var bars := ValidateCandles(c, candles).value;
    forall i | 0 <= i < |bars| ensures RealBar(bars[i], bars[i].openTime, Width(c)) {
      assert GoodCandle(c, candles[i]) && OnAxis(c, candles[i]);
    }
  }

  lemma VenueKeepsSources(c: Chart, r: Chart)
    requires Sources(c) && VenueOnly(c, r)
    requires forall k :: k in r.venue ==>
               (k in c.venue && r.venue[k] == c.venue[k]) || RealBar(r.venue[k].bar, k, Width(c))
    ensures Sources(r)
  {
    hide RealBar;
  }

  lemma CandleKeepsSources(c: Chart, k: Candle, at: nat)
    requires 0 < Width(c) && Sources(c)
    ensures Sources(ObserveCandle(c, k, at))
  {
    hide Sources;
    hide AdvanceFloor;
    hide PlaceCandle;
    hide ObserveCandle;
    hide ValidateCandles;
    hide RealBar;
    CandleCases(c, k, at);
    var r := ObserveCandle(c, k, at);
    if TakesCandle(c, k, at) {
      var c' := AdvanceFloor(c, k.t);
      ValidatedIsReal(c, [k]);
      ValidatedCandles(c, [k]);
      assert ValidateCandles(c, [k]).value[0] == BarOf([k][0]);
      FloorKeepsSources(c, k.t);
      PiecesAreFramed(c, ANY_PRINT, k.t, at, Observing, BadTrade);
      PlacedCandle(c, k, at);
      VenueKeepsSources(c', r);
    } else {
      VenueKeepsSources(c, r);
    }
  }

  lemma HistoryFloorKeepsSources(c: Chart, bars: seq<Bar>)
    requires Sources(c)
    ensures Sources(HistoryFloor(c, bars)) && SameChart(c, HistoryFloor(c, bars))
  {
    hide Sources;
    hide AdvanceFloor;
    if bars != [] {
      FloorKeepsSources(c, Last(bars).openTime);
      PiecesAreFramed(c, ANY_PRINT, Last(bars).openTime, 0, Observing, BadTrade);
    }
  }

  lemma HistoryKeepsSources(c: Chart, ticket: Ticket, outcome: Result<Snapshot, string>, at: nat)
    requires 0 < Width(c) && Sources(c)
    ensures Sources(FinishHistory(c, ticket, outcome, at).0)
  {
    hide Sources;
    hide FinishHistory;
    hide HistoryFloor;
    hide PlaceHistory;
    hide ValidateCandles;
    hide Backfill;
    hide RealBar;
    var r := FinishHistory(c, ticket, outcome, at).0;
    HistoryCases(c, ticket, outcome, at);
    if TakesHistory(c, ticket, outcome, at) {
      var bars := ValidateCandles(c, outcome.value.candles).value;
      var c1 := HistoryFloor(c, bars);
      ValidatedIsReal(c, outcome.value.candles);
      HistoryFloorKeepsSources(c, bars);
      PlacedHistory(c, bars, outcome.value.priceDecimals, at);
      BackfillOnlyAdds(c1, bars, at);
      VenueKeepsSources(c1, r);
    } else {
      VenueKeepsSources(c, r);
    }
  }

  lemma QuietStepKeepsSources(c: Chart, op: Op)
    requires 0 < Width(c) && Sources(c)
    requires op.InterruptFeed? || op.TransportDown? || op.AskHistory? || op.Show?
    ensures Sources(Step(c, op))
  {
    hide RealBar;
    hide ObserveTrades;
    hide ObserveCandle;
    hide FinishHistory;
    hide Rendered;
    var r := Step(c, op);
    assert r.venue == c.venue && r.identities == c.identities && SameChart(c, r);
  }

  lemma {:induction false} RunKeepsSources(c: Chart, ops: seq<Op>)
    requires Inv(c) && Sources(c)
    ensures Sources(Run(c, ops))
    decreases |ops|
  {
    hide Inv;
    hide Sources;
    hide Step;
    if ops != [] {
      var prev := Run(c, Init(ops));
      RunKeepsSources(c, Init(ops));
      InvFacts(prev);
      StepKeepsSources(prev, Last(ops));
    }
  }

  lemma StepKeepsSources(c: Chart, op: Op)
    requires 0 < Width(c) && Sources(c)
    ensures Sources(Step(c, op))
  {
    hide Sources;
    hide ObserveTrades;
    hide ObserveCandle;
    hide FinishHistory;
    hide Project;
    match op
    case Trades(batch, at) => TradesKeepSources(c, batch, at);
    case WsCandle(k, at) => CandleKeepsSources(c, k, at);
    case HistoryDone(ticket, outcome, at) => HistoryKeepsSources(c, ticket, outcome, at);
    case _ => QuietStepKeepsSources(c, op);
  }

  lemma {:induction false} SumIsNotNegative(m: Prints)
    requires forall k :: k in m ==> 0.0 < m[k].sz
    ensures 0.0 <= SumSz(m)
    decreases |m|
  {
    if m != map[] {
      SumIsNotNegative(m - {Pick(m)});
    }
  }

  lemma TapeBarIsReal(c: Chart, k: int)
    requires Tape(c) && Sources(c) && k in c.tape
    ensures RealBar(c.tape[k].bar, k, Width(c))
  {
    hide BucketStart;
    SumIsNotNegative(InBucket(c.identities, k, Width(c)));
  }

  /** In every projection of every run, each bar shown, closed or forming, is a real bar of the
      bucket it is shown in. */
  lemma EveryShownBarIsReal(c: Chart, ops: seq<Op>, now: nat)
    requires Inv(c) && c.venue == map[] && c.identities == map[]
    ensures 0 < Width(Run(c, ops))
    ensures var (r, p) := Project(Run(c, ops), now);
            && (forall k :: k in p.closed ==> RealBar(p.closed[k].bar, k, Width(c)))
            && (p.forming.Some? ==> RealBar(p.forming.value.bar, p.forming.value.bar.openTime, Width(c)))
  {
    hide Inv;
    hide Step;
    hide Run;
    hide RealBar;
    hide Project;
    hide Tape;
    hide Sources;
    var last := Run(c, ops);
    EmptyHasSources(c);
    RunKeepsSources(c, ops);
    InvFacts(last);
    ProjectionIsExact(last, now);
    var (r, p) := Project(last, now);
    forall k | k in last.tape || k in last.venue
      ensures RealBar(ShownBar(last, k).bar, k, Width(last))
    {
      ShownIsReal(last, k);
    }
    if p.forming.Some? {
      var k :| FormingIn(r, k);
      assert ShownBar(r, k) == ShownBar(last, k);
      RealBarOpens(p.forming.value.bar, k, Width(c));
    }
  }

  lemma EmptyHasSources(c: Chart)
    requires c.venue == map[] && c.identities == map[]
    ensures Sources(c)
  {
  }

  lemma RealBarOpens(b: Bar, k: int, width: int)
    requires RealBar(b, k, width)
    ensures b.openTime == k
  {
  }

  lemma ShownIsReal(c: Chart, k: int)
    requires Tape(c) && Sources(c) && (k in c.tape || k in c.venue)
    ensures RealBar(ShownBar(c, k).bar, k, Width(c))
  {
    hide Tape;
    hide RealBar;
    if k !in c.venue {
      TapeBarIsReal(c, k);
    }
  }
}
