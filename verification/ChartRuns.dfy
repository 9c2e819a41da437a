/** Every run of a live chart: any interleaving of trade batches, websocket candles, history
    completions, interruptions, failures and projections, with arbitrary clocks. */
module ChartRuns {
  import opened Common
  import opened Bars
  import opened Chart
  import opened ChartTape
  import I = Intervals

  datatype Op =
    | Trades(batch: seq<WsTrade>, at: nat)
    | WsCandle(candle: Candle, at: nat)
    | InterruptFeed
    | TransportDown(detail: string)
    | AskHistory
    | HistoryDone(ticket: Ticket, outcome: Result<Snapshot, string>, at: nat)
    | Show(now: nat)

  /** A print to name where a lemma about several pieces does not use it. */
  const ANY_PRINT: WsTrade := WsTrade([], true, 1.0, 1.0, 0, [], 0, [])

  function Step(c: Chart, op: Op): (r: Chart)
    requires 0 < Width(c)
  {
    match op
    case Trades(batch, at) => ObserveTrades(c, batch, at)
    case WsCandle(k, at) => ObserveCandle(c, k, at)
    case InterruptFeed => Interrupt(c)
    case TransportDown(detail) => ObservationFailed(c, detail)
    case AskHistory => BeginHistory(c).0
    case HistoryDone(ticket, outcome, at) => FinishHistory(c, ticket, outcome, at).0
    case Show(now) => Project(c, now).0
  }

  // ---- every call keeps the invariant -----------------------------------------------------------

  lemma {:induction false} RowsKeepInv(c: Chart, rows: seq<WsTrade>, at: nat)
    requires Inv(c) && !Frozen(c)
    ensures var (r, stop) := Rows(c, rows, at);
            Inv(r) && stop == Frozen(r) && c.floor <= r.floor && SameChart(c, r)
    decreases |rows|
  {
    hide Inv;
    hide ObserveRow;
    InvFacts(c);
    if rows != [] {
      RowKeepsInv(c, rows[0], at);
      RowIsObserved(c, rows[0], at);
      var (c', stop) := ObserveRow(c, rows[0], at);
      if !stop {
        RowsKeepInv(c', rows[1..], at);
      }
    }
  }

  lemma InvFacts(c: Chart)
    requires Inv(c)
    ensures 0 < Width(c) && Window(c) && Ids(c) && Tape(c)
  {
    hide Ids;
    hide Tape;
  }

  lemma ValidatedCandles(c: Chart, candles: seq<Candle>)
    requires 0 < Width(c) && ValidateCandles(c, candles).Ok?
    ensures var bars := ValidateCandles(c, candles).value;
            && |bars| == |candles|
            && (forall i :: 0 <= i < |bars| ==>
                  bars[i] == BarOf(candles[i]) && 0 <= bars[i].openTime && Aligned(bars[i].openTime, Width(c)))
            && (forall i :: 0 <= i < |bars| ==> bars[i].openTime <= Last(bars).openTime)
  {
    hide Aligned;
    var bars := ValidateCandles(c, candles).value;
    assert forall i :: 0 <= i < |candles| ==> OnAxis(c, candles[i]);
    AscendingToLast(candles);
  }

  lemma {:induction false} AscendingToLast(candles: seq<Candle>)
    requires forall i :: 0 < i < |candles| ==> candles[i - 1].t < candles[i].t
    ensures forall i :: 0 <= i < |candles| ==> candles[i].t <= Last(candles).t
    decreases |candles|
  {
    if |candles| > 1 {
      assert forall i :: 0 < i < |Init(candles)| ==> Init(candles)[i - 1].t < Init(candles)[i].t;
      AscendingToLast(Init(candles));
      assert candles[|candles| - 2].t < candles[|candles| - 1].t;
      forall i | 0 <= i < |candles| ensures candles[i].t <= Last(candles).t {
        if i < |candles| - 1 {
          assert Init(candles)[i].t <= Last(Init(candles)).t;
        }
      }
    }
  }

  /** Nothing but venue bars, messages, precision, receipt time and revision differs. */
  ghost predicate VenueOnly(c: Chart, r: Chart) {
    && SameTape(c, r) && SameChart(c, r)
    && r.status == c.status && r.transportError == c.transportError && r.marker == c.marker
    && r.request == c.request && r.classification == c.classification && r.clockRollback == c.clockRollback
  }

  /** A websocket candle inside the window and the clock tolerance. */
  predicate TakesCandle(c: Chart, k: Candle, at: nat)
    requires 0 < Width(c)
  {
    k.t <= at + MAX_CLOCK_SKEW_MS && ValidateCandles(c, [k]).Ok? && c.floor <= k.t
  }

  lemma CandleCases(c: Chart, k: Candle, at: nat)
    requires 0 < Width(c)
    ensures var r := ObserveCandle(c, k, at);
            if TakesCandle(c, k, at)
            then r == PlaceCandle(c, k, at) && Aligned(k.t, Width(c))
            else VenueOnly(c, r) && r.venue == c.venue && (r == c || c.revision < r.revision)
  {
    hide ValidateCandles;
    hide PlaceCandle;
    hide Aligned;
    if TakesCandle(c, k, at) {
      ValidatedCandles(c, [k]);
      assert ValidateCandles(c, [k]).value[0] == BarOf([k][0]);
    }
  }

  lemma PlacedCandle(c: Chart, k: Candle, at: nat)
    ensures var c', r := AdvanceFloor(c, k.t), PlaceCandle(c, k, at);
            && VenueOnly(c', r) && r.revision == c'.revision + 1
            && r.venue == c'.venue[k.t as int := VenueBar(BarOf(k), at, true)]
  {
    hide AdvanceFloor;
  }

  /** A history outcome that is current, valid and not from the future. */
  predicate TakesHistory(c: Chart, ticket: Ticket, outcome: Result<Snapshot, string>, at: nat)
    requires 0 < Width(c)
  {
    && ticket == Ticket(c.owner, c.request) && outcome.Ok?
    && ValidateCandles(c, outcome.value.candles).Ok?
    && var bars := ValidateCandles(c, outcome.value.candles).value;
       bars == [] || Last(bars).openTime <= at + MAX_CLOCK_SKEW_MS
  }

  lemma HistoryCases(c: Chart, ticket: Ticket, outcome: Result<Snapshot, string>, at: nat)
    requires 0 < Width(c)
    ensures var r := FinishHistory(c, ticket, outcome, at).0;
            if TakesHistory(c, ticket, outcome, at)
            then r == PlaceHistory(c, ValidateCandles(c, outcome.value.candles).value, outcome.value.priceDecimals, at)
            else VenueOnly(c, r) && r.venue == c.venue && (r == c || c.revision < r.revision)
  {
    hide ValidateCandles;
    hide PlaceHistory;
  }

  lemma PlacedHistory(c: Chart, bars: seq<Bar>, priceDecimals: nat, at: nat)
    ensures var c1, r := HistoryFloor(c, bars), PlaceHistory(c, bars, priceDecimals, at);
            && VenueOnly(c1, r) && r.revision == c1.revision + 1 && r.venue == Backfill(c1, bars, at)
  {
    hide AdvanceFloor;
    hide Backfill;
  }

  lemma VenueKeepsInv(c: Chart, r: Chart)
    requires Inv(c) && VenueOnly(c, r)
    requires forall k :: k in r.venue ==> InWindow(c, k) && r.venue[k].bar.openTime == k
    ensures Inv(r)
  {
    hide Ids;
    hide Tape;
    hide Widths;
    hide Aligned;
    TapeFrame(c, r);
  }

  lemma FloorKeepsInv(c: Chart, bucket: int)
    requires Inv(c) && Aligned(bucket, Width(c))
    ensures var r := AdvanceFloor(c, bucket);
            && Inv(r) && c.floor <= r.floor && SameChart(c, r)
            && r.status == c.status && r.transportError == c.transportError && r.marker == c.marker
            && r.request == c.request && r.revision == c.revision
            && r.classification == c.classification && r.clockRollback == c.clockRollback
  {
    hide Window;
    hide Ids;
    hide Tape;
    FloorKeepsWindow(c, bucket);
    FloorKeepsTape(c, bucket);
  }

  lemma CandleKeepsInv(c: Chart, k: Candle, at: nat)
    requires Inv(c)
    ensures var r := ObserveCandle(c, k, at); Inv(r) && c.floor <= r.floor && SameChart(c, r)
  {
    hide Ids;
    hide Tape;
    hide AdvanceFloor;
    hide ObserveCandle;
    hide PlaceCandle;
    hide ValidateCandles;
    hide Aligned;
    hide InWindow;
    var r := ObserveCandle(c, k, at);
    CandleCases(c, k, at);
    if TakesCandle(c, k, at) {
      var c' := AdvanceFloor(c, k.t);
      FloorKeepsInv(c, k.t);
      FloorKeepsWindow(c, k.t);
      PlacedCandle(c, k, at);
      VenueKeepsInv(c', r);
    } else {
      VenueKeepsInv(c, r);
    }
  }

  /** What a backfill may do to the venue bars: add rows at or above the floor, replace rows
      that are not from the websocket, and nothing else. */
  lemma {:induction false} BackfillOnlyAdds(c: Chart, bars: seq<Bar>, at: nat)
    ensures var r := Backfill(c, bars, at);
            && (forall k :: k in c.venue ==> k in r)
            && (forall k :: k in c.venue && c.venue[k].ws ==> r[k] == c.venue[k])
            && (forall k :: k in r && !(k in c.venue && r[k] == c.venue[k]) ==>
                  && c.floor <= k && !r[k].ws && r[k].received == at
                  && exists i :: 0 <= i < |bars| && bars[i].openTime == k && r[k].bar == bars[i])
  {
    if bars != [] {
      var n := |bars| - 1;
      BackfillOnlyAdds(c, bars[..n], at);
      var v, r := Backfill(c, bars[..n], at), Backfill(c, bars, at);
      forall k | k in r && !(k in c.venue && r[k] == c.venue[k])
        ensures c.floor <= k && !r[k].ws && r[k].received == at
        ensures exists i :: 0 <= i < |bars| && bars[i].openTime == k && r[k].bar == bars[i]
      {
        if k in v && r[k] == v[k] {
          var i :| 0 <= i < n && bars[..n][i].openTime == k && v[k].bar == bars[..n][i];
          assert bars[i].openTime == k && r[k].bar == bars[i];
        } else {
          assert bars[n].openTime == k && r[k].bar == bars[n];
        }
      }
    }
  }

  lemma HistoryFloorKeepsInv(c: Chart, candles: seq<Candle>)
    requires Inv(c) && 0 < Width(c) && ValidateCandles(c, candles).Ok?
    ensures var bars := ValidateCandles(c, candles).value; var r := HistoryFloor(c, bars);
            && Inv(r) && c.floor <= r.floor && SameChart(c, r)
            && r.status == c.status && r.transportError == c.transportError && r.marker == c.marker
            && r.request == c.request && r.revision == c.revision
            && r.classification == c.classification && r.clockRollback == c.clockRollback
            && forall i :: 0 <= i < |bars| ==>
                 && Aligned(bars[i].openTime, Width(c))
                 && bars[i].openTime <= r.floor + Widths(HISTORY_BARS - 1, Width(c))
  {
    hide Inv;
    hide AdvanceFloor;
    hide ValidateCandles;
    hide Aligned;
    hide Widths;
    var bars := ValidateCandles(c, candles).value;
    ValidatedCandles(c, candles);
    if bars != [] {
      FloorKeepsInv(c, Last(bars).openTime);
      InvFacts(c);
      FloorKeepsWindow(c, Last(bars).openTime);
    }
  }

  lemma HistoryKeepsInv(c: Chart, ticket: Ticket, outcome: Result<Snapshot, string>, at: nat)
    requires Inv(c)
    ensures var r := FinishHistory(c, ticket, outcome, at).0; Inv(r) && c.floor <= r.floor && SameChart(c, r)
  {
    hide Ids;
    hide Tape;
    hide FinishHistory;
    hide HistoryFloor;
    hide PlaceHistory;
    hide ValidateCandles;
    hide Backfill;
    hide Aligned;
    hide Widths;
    var r := FinishHistory(c, ticket, outcome, at).0;
    HistoryCases(c, ticket, outcome, at);
    if TakesHistory(c, ticket, outcome, at) {
      var bars := ValidateCandles(c, outcome.value.candles).value;
      var c1 := HistoryFloor(c, bars);
      HistoryFloorKeepsInv(c, outcome.value.candles);
      PlacedHistory(c, bars, outcome.value.priceDecimals, at);
      BackfillOnlyAdds(c1, bars, at);
      VenueKeepsInv(c1, r);
    } else {
      VenueKeepsInv(c, r);
    }
  }

  lemma QuietStepKeepsInv(c: Chart, op: Op)
    requires Inv(c) && (op.InterruptFeed? || op.TransportDown? || op.AskHistory? || op.Show?)
    ensures Inv(Step(c, op)) && c.floor == Step(c, op).floor && SameChart(c, Step(c, op))
  {
    hide Window;
    hide Ids;
    hide Tape;
    hide ObserveTrades;
    hide ObserveCandle;
    hide FinishHistory;
    hide Rendered;
    InvFacts(c);
    TapeFrame(c, Step(c, op));
  }

  lemma TradesKeepInv(c: Chart, batch: seq<WsTrade>, at: nat)
    requires Inv(c)
    ensures var r := ObserveTrades(c, batch, at); Inv(r) && c.floor <= r.floor && SameChart(c, r)
  {
    hide Window;
    hide Ids;
    hide Tape;
    hide Rows;
    hide Sorted;
    InvFacts(c);
    if !Frozen(c) {
      if |batch| > MAX_IDENTITIES {
        FreezeKeepsInv(c, CapacityExceeded, BatchTooLarge);
      } else {
        RowsKeepInv(c, Sorted(batch), at);
      }
    }
  }

  lemma StepKeepsInv(c: Chart, op: Op)
    requires Inv(c)
    ensures Inv(Step(c, op)) && c.floor <= Step(c, op).floor && SameChart(c, Step(c, op))
  {
    hide Inv;
    hide ObserveTrades;
    hide ObserveCandle;
    hide FinishHistory;
    hide Project;
    InvFacts(c);
    match op
    case Trades(batch, at) => TradesKeepInv(c, batch, at);
    case WsCandle(k, at) => CandleKeepsInv(c, k, at);
    case HistoryDone(ticket, outcome, at) => HistoryKeepsInv(c, ticket, outcome, at);
    case _ => QuietStepKeepsInv(c, op);
  }

  // ---- runs ---------------------------------------------------------------------------------------

  ghost function Run(c: Chart, ops: seq<Op>): (r: Chart)
    requires Inv(c)
    ensures Inv(r) && SameChart(c, r) && c.floor <= r.floor
    decreases |ops|
  {
    if ops == [] then c
    else
      var prev := Run(c, Init(ops));
      StepKeepsInv(prev, Last(ops));
      InvFacts(prev);
      Step(prev, Last(ops))
  }

  lemma NewIsInv(symbol: string, interval: I.Interval, precision: Option<nat>, owner: nat)
    requires 0 < I.Millis(interval) && New(symbol, interval, precision, owner).Ok?
    ensures Inv(New(symbol, interval, precision, owner).value)
  {
  }
}
