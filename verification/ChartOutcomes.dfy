/** What each call on a live chart leaves behind, field by field. */
module ChartOutcomes {
  import opened Common
  import opened Bars
  import opened Chart
  import opened ChartTape
  import opened ChartRuns
  import opened ChartProps
  import opened ChartFreeze
  import I = Intervals

  // ---- candles -------------------------------------------------------------------------------------

  /** A row of this market and interval with positive prices inside its extremes. */
  predicate SoundRow(c: Chart, k: Candle) {
    && k.s == c.symbol && k.i == I.Print(c.interval)
    && 0.0 < k.o && 0.0 < k.c && 0.0 < k.l && 0.0 <= k.v
    && k.l <= k.o <= k.h && k.l <= k.c <= k.h
  }

  /** On the calendar, starting on a boundary, one width long. */
  predicate OnGrid(c: Chart, k: Candle)
    requires 0 < Width(c)
  {
    && k.t <= 253_402_300_799_999 && k.tClose <= 253_402_300_799_999
    && k.t % Width(c) == 0 && k.tClose == k.t + Width(c) - 1
  }

  /** The floor once `bucket` is reached: 599 widths below it, if that is higher. */
  function RaisedFor(c: Chart, bucket: int): int {
    var low := bucket - Widths(599, Width(c));
    if c.floor < low then low else c.floor
  }

  predicate Rising(candles: seq<Candle>) {
    forall i, j :: 0 <= i < j < |candles| ==> candles[i].t < candles[j].t
  }

  /** The bar a row is stored as. */
  function StoredBar(k: Candle): Bar {
    Bar(k.t, k.tClose, k.o, k.h, k.l, k.c, k.v, k.n)
  }

  lemma {:induction false} NeighboursRise(candles: seq<Candle>)
    requires forall i :: 0 < i < |candles| ==> candles[i - 1].t < candles[i].t
    ensures Rising(candles)
    decreases |candles|
  {
    if |candles| > 1 {
      var front := candles[..|candles| - 1];
      NeighboursRise(front);
      forall i, j | 0 <= i < j < |candles| ensures candles[i].t < candles[j].t {
        assert j < |front| ==> front[i].t < front[j].t;
        assert i < |front| - 1 ==> front[i].t < front[|front| - 1].t;
      }
    }
  }

  lemma RowChecksAgree(c: Chart, k: Candle)
    requires 0 < Width(c)
    ensures GoodCandle(c, k) <==> SoundRow(c, k)
    ensures OnAxis(c, k) <==> OnGrid(c, k)
  {
    hide I.Print;
  }

  /** Validation accepts exactly at most 601 rows, each sound and on the grid, in strictly rising
      order, stores each as delivered, and names the first kind of fault otherwise. */
  lemma ValidationExact(c: Chart, candles: seq<Candle>)
    requires 0 < Width(c)
    ensures var r := ValidateCandles(c, candles);
            var sound := forall i :: 0 <= i < |candles| ==> SoundRow(c, candles[i]);
            var onGrid := forall i :: 0 <= i < |candles| ==> OnGrid(c, candles[i]);
            && (r.Ok? <==> |candles| <= 601 && sound && onGrid && Rising(candles))
            && (r.Ok? ==> |r.value| == |candles|
                          && forall i :: 0 <= i < |candles| ==> r.value[i] == StoredBar(candles[i]))
            && (r == Err(WindowExceeded) <==> |candles| > 601)
            && (r == Err(BadOhlcv) <==> |candles| <= 601 && !sound)
            && (r == Err(OffAxis) <==> |candles| <= 601 && sound && !onGrid)
  {
    hide GoodCandle;
    hide OnAxis;
    hide SoundRow;
    hide OnGrid;
    forall k ensures (GoodCandle(c, k) <==> SoundRow(c, k)) && (OnAxis(c, k) <==> OnGrid(c, k)) {
      RowChecksAgree(c, k);
    }
    if forall i :: 0 < i < |candles| ==> candles[i - 1].t < candles[i].t {
      NeighboursRise(candles);
    }
  }

  /** A websocket candle is taken exactly when it is sound, on the grid, not too far ahead and not
      below the floor; it is then stored as delivered, and moves nothing but the floor. */
  lemma CandleExact(c: Chart, k: Candle, at: nat)
    requires Inv(c)
    ensures 0 < Width(c)
    ensures TakesCandle(c, k, at) <==> SoundRow(c, k) && OnGrid(c, k) && k.t <= at + 5_000 && c.floor <= k.t
    ensures TakesCandle(c, k, at) ==>
              var r := ObserveCandle(c, k, at);
              && k.t in r.venue && r.venue[k.t] == VenueBar(StoredBar(k), at, true)
              && (forall x :: x != k.t ==> (x in r.venue <==> x in c.venue && r.floor <= x))
              && (forall x :: x != k.t && x in r.venue ==> r.venue[x] == c.venue[x])
              && r.floor == RaisedFor(c, k.t) && r.marker == c.marker && r.status == c.status
              && ReceiptIs(r.received, c.received, at) && r.revision == c.revision + 1
              && r.observationError == c.observationError
    ensures !TakesCandle(c, k, at) ==>
              var r := ObserveCandle(c, k, at);
              if k.t > at + 5_000 then r == c.(observationError := Some(CandleSkew), revision := c.revision + 1)
              else if !SoundRow(c, k) then
                r == c.(observationError := Some(InvalidCandle(BadOhlcv)), revision := c.revision + 1)
              else if !OnGrid(c, k) then
                r == c.(observationError := Some(InvalidCandle(OffAxis)), revision := c.revision + 1)
              else r == c
  {
    hide Inv;
    hide AdvanceFloor;
    hide ValidateCandles;
    hide Widths;
    hide SoundRow;
    hide OnGrid;
    hide Window;
    hide Ids;
    hide Tape;
    InvFacts(c);
    ValidationExact(c, [k]);
    OneRow(c, k);
    FloorRetains(c, k.t);
    FloorLeaves(c, k.t);
    FloorAfter(c, k.t);
  }

  lemma OneRow(c: Chart, k: Candle)
    requires 0 < Width(c)
    ensures (forall i :: 0 <= i < |[k]| ==> SoundRow(c, [k][i])) <==> SoundRow(c, k)
    ensures (forall i :: 0 <= i < |[k]| ==> OnGrid(c, [k][i])) <==> OnGrid(c, k)
    ensures Rising([k])
  {
    hide SoundRow;
    hide OnGrid;
    assert [k][0] == k;
  }

  // ---- history -------------------------------------------------------------------------------------

  /** A bucket no row is stored in is untouched. */
  lemma {:induction false} BackfillLeaves(c: Chart, bars: seq<Bar>, at: nat, k: int)
    requires k < c.floor || (k in c.venue && c.venue[k].ws)
             || forall i :: 0 <= i < |bars| ==> bars[i].openTime != k
    ensures var r := Backfill(c, bars, at); (k in r <==> k in c.venue) && (k in r ==> r[k] == c.venue[k])
    decreases |bars|
  {
    if bars != [] {
      var front := bars[..|bars| - 1];
      assert forall i :: 0 <= i < |front| ==> front[i] == bars[i];
      BackfillLeaves(c, front, at, k);
    }
  }

  /** Each delivered row at or above the floor is stored as delivered unless a websocket candle
      holds its bucket. */
  lemma {:induction false} BackfillStores(c: Chart, bars: seq<Bar>, at: nat, i: nat)
    requires forall p, q :: 0 <= p < q < |bars| ==> bars[p].openTime < bars[q].openTime
    requires i < |bars| && c.floor <= bars[i].openTime
    requires !(bars[i].openTime in c.venue && c.venue[bars[i].openTime].ws)
    ensures var r := Backfill(c, bars, at);
            bars[i].openTime in r && r[bars[i].openTime] == VenueBar(bars[i], at, false)
    decreases |bars|
  {
    var n := |bars| - 1;
    var front := bars[..n];
    if i < n {
      assert front[i] == bars[i];
      BackfillStores(c, front, at, i);
    } else {
      BackfillLeaves(c, front, at, bars[n].openTime);
    }
  }

  /** A finished history is honoured exactly when its ticket is current, its rows are valid and the
      newest does not start more than the tolerance after receipt; it then fills the window and
      clears the error. */
  lemma HistoryExact(c: Chart, ticket: Ticket, candles: seq<Candle>, decimals: nat, at: nat)
    requires Inv(c)
    ensures 0 < Width(c)
    ensures var outcome := Ok(Snapshot(candles, decimals));
            var (r, answer) := FinishHistory(c, ticket, outcome, at);
            var valid := ValidateCandles(c, candles);
            && (answer == Ok(()) <==>
                  && ticket == Ticket(c.owner, c.request) && valid.Ok?
                  && (candles == [] || candles[|candles| - 1].t <= at + 5_000))
            && (answer == Err(Superseded) <==> ticket != Ticket(c.owner, c.request))
            && (answer == Err(Superseded) ==> r == c)
            && (ticket == Ticket(c.owner, c.request) && answer.Err? ==>
                  var why := if valid.Err? then valid.error else StartsAfterReceipt;
                  && answer == Err(Invalid(why))
                  && r == c.(historyError := Some(InvalidCandle(why)), revision := c.revision + 1))
  {
    hide *;
    InvFacts(c);
    FenceIsExact(c, ticket, Ok(Snapshot(candles, decimals)), at);
    if ticket == Ticket(c.owner, c.request) {
      CurrentHistory(c, candles, decimals, at);
      if ValidateCandles(c, candles).Ok? {
        NewestRow(c, candles);
      }
    }
  }

  lemma NewestRow(c: Chart, candles: seq<Candle>)
    requires 0 < Width(c) && ValidateCandles(c, candles).Ok?
    ensures var bars := ValidateCandles(c, candles).value;
            |bars| == |candles| && (candles != [] ==> Last(bars).openTime == candles[|candles| - 1].t)
  {
    hide ValidateCandles;
    hide SoundRow;
    hide OnGrid;
    hide Rising;
    ValidationExact(c, candles);
  }

  /** What a current ticket's history answers, by its validation. */
  lemma CurrentHistory(c: Chart, candles: seq<Candle>, decimals: nat, at: nat)
    requires 0 < Width(c)
    ensures var (r, answer) := FinishHistory(c, Ticket(c.owner, c.request), Ok(Snapshot(candles, decimals)), at);
            match ValidateCandles(c, candles)
            case Err(e) =>
              answer == Err(Invalid(e)) && r == c.(historyError := Some(InvalidCandle(e)), revision := c.revision + 1)
            case Ok(bars) =>
              if bars == [] || Last(bars).openTime <= at + 5_000 then answer == Ok(())
              else && answer == Err(Invalid(StartsAfterReceipt))
                   && r == c.(historyError := Some(InvalidCandle(StartsAfterReceipt)), revision := c.revision + 1)
  {
    hide ValidateCandles;
    hide PlaceHistory;
  }

  /** What an honoured history leaves: the floor raised for its newest row, its rows stored as
      delivered wherever no websocket candle is, the decimals it reports and no error. */
  lemma HistoryFills(c: Chart, candles: seq<Candle>, decimals: nat, at: nat)
    requires Inv(c) && 0 < Width(c) && ValidateCandles(c, candles).Ok?
    requires candles == [] || candles[|candles| - 1].t <= at + 5_000
    ensures var r := FinishHistory(c, Ticket(c.owner, c.request), Ok(Snapshot(candles, decimals)), at).0;
            && r.floor == (if candles == [] then c.floor else RaisedFor(c, candles[|candles| - 1].t))
            && (forall i :: 0 <= i < |candles| && r.floor <= candles[i].t
                            && !(candles[i].t in c.venue && c.venue[candles[i].t].ws) ==>
                  candles[i].t in r.venue && r.venue[candles[i].t] == VenueBar(StoredBar(candles[i]), at, false))
            && (forall k :: k in c.venue && r.floor <= k
                            && (c.venue[k].ws || forall i :: 0 <= i < |candles| ==> candles[i].t != k) ==>
                  k in r.venue && r.venue[k] == c.venue[k])
            && r.precision == Some(decimals) && r.historyError.None? && r.revision == c.revision + 1
            && r.marker == c.marker && r.status == c.status && r.observationError == c.observationError
            && (if candles == [] then r.received == c.received else ReceiptIs(r.received, c.received, at))
  {
    hide Inv;
    hide AdvanceFloor;
    hide ValidateCandles;
    hide Widths;
    hide Backfill;
    hide Window;
    hide Ids;
    hide Tape;
    InvFacts(c);
    ValidationExact(c, candles);
    var bars := ValidateCandles(c, candles).value;
    var c1 := HistoryFloor(c, bars);
    if bars != [] {
      FloorRetains(c, Last(bars).openTime);
      FloorLeaves(c, Last(bars).openTime);
      FloorAfter(c, Last(bars).openTime);
    }
    FillsAt(c1, candles, bars, at);
  }

  lemma FillsAt(c: Chart, candles: seq<Candle>, bars: seq<Bar>, at: nat)
    requires |bars| == |candles| && Rising(candles)
    requires forall i :: 0 <= i < |bars| ==> bars[i] == StoredBar(candles[i])
    ensures var r := Backfill(c, bars, at);
            && (forall i :: 0 <= i < |candles| && c.floor <= candles[i].t
                            && !(candles[i].t in c.venue && c.venue[candles[i].t].ws) ==>
                  candles[i].t in r && r[candles[i].t] == VenueBar(StoredBar(candles[i]), at, false))
            && (forall k :: k in c.venue && (c.venue[k].ws || forall i :: 0 <= i < |candles| ==> candles[i].t != k) ==>
                  k in r && r[k] == c.venue[k])
  {
    hide Backfill;
    forall i | 0 <= i < |candles| && c.floor <= candles[i].t
               && !(candles[i].t in c.venue && c.venue[candles[i].t].ws)
      ensures candles[i].t in Backfill(c, bars, at)
      ensures Backfill(c, bars, at)[candles[i].t] == VenueBar(StoredBar(candles[i]), at, false)
    {
      BackfillStores(c, bars, at, i);
    }
    forall k | k in c.venue && (c.venue[k].ws || forall i :: 0 <= i < |candles| ==> candles[i].t != k)
      ensures k in Backfill(c, bars, at) && Backfill(c, bars, at)[k] == c.venue[k]
    {
      BackfillLeaves(c, bars, at, k);
    }
  }

  /** A fetch that failed is reported, cut to 512 characters, and changes nothing else. */
  lemma HistoryFailureExact(c: Chart, ticket: Ticket, detail: string, at: nat)
    requires 0 < Width(c) && ticket == Ticket(c.owner, c.request)
    ensures var (r, answer) := FinishHistory(c, ticket, Err(detail), at);
            && answer == Ok(()) && r == c.(historyError := r.historyError, revision := c.revision + 1)
            && r.historyError.Some? && r.historyError.value.HistoryFailed?
            && r.historyError.value.text <= detail
            && |r.historyError.value.text| == (if |detail| < 512 then |detail| else 512)
  {
  }

  /** A chart is made exactly for a symbol of 1 to 256 characters, and starts with nothing. */
  lemma NewExact(symbol: string, interval: I.Interval, precision: Option<nat>, owner: nat)
    ensures var r := New(symbol, interval, precision, owner);
            && (r.Ok? <==> 1 <= |symbol| <= 256)
            && (r.Ok? ==>
                  var c := r.value;
                  && c.symbol == symbol && c.interval == interval && c.precision == precision && c.owner == owner
                  && c.venue == map[] && c.tape == map[] && c.identities == map[] && c.marker.None?
                  && c.floor == 0 && c.status == Observing && !Frozen(c) && c.classification.None?
                  && c.historyError.None? && c.observationError.None? && c.received.None?)
  {
  }

  // ---- interruptions and failures --------------------------------------------------------------------

  /** An interruption marks a live tape and touches nothing else; the first transport failure is
      kept, cut to 512 characters, and leaves the marker in doubt; later ones change nothing. */
  lemma InterruptionsExact(c: Chart, detail: string)
    ensures Interrupt(c) == if Frozen(c) then c else c.(status := Interrupted, revision := c.revision + 1)
    ensures var r := ObservationFailed(c, detail);
            && (c.transportError.Some? ==> r == c)
            && (c.transportError.None? ==>
                  && r == c.(status := r.status, transportError := r.transportError, marker := r.marker,
                             revision := c.revision + 1)
                  && r.status == (if Frozen(c) then c.status else Interrupted)
                  && r.transportError.Some? && r.transportError.value <= detail
                  && |r.transportError.value| == (if |detail| < 512 then |detail| else 512)
                  && (c.marker.None? ==> r.marker.None?)
                  && (c.marker.Some? ==>
                        r.marker == Some(c.marker.value.(shown := c.marker.value.shown.(priceAmbiguous := true)))))
    ensures Frozen(c) <==> c.transportError.Some? || c.status == CapacityExceeded || c.status == InvalidObservation
  {
  }

  /** A frozen chart takes no trades at all. */
  lemma FrozenTakesNoTrades(c: Chart, batch: seq<WsTrade>, at: nat)
    requires 0 < Width(c) && Frozen(c)
    ensures ObserveTrades(c, batch, at) == c
  {
    hide Rows;
    hide Sorted;
    hide Freeze;
  }

  // ---- what is shown -----------------------------------------------------------------------------

  /** The bar shown for a bucket, with its provenance. */
  lemma ShownFields(c: Chart, k: int)
    requires k in c.tape || k in c.venue
    ensures k in c.venue ==>
              ShownBar(c, k) == ObservedBar(c.venue[k].bar, Venue, false, false, c.venue[k].received)
    ensures k !in c.venue ==>
              ShownBar(c, k) == ObservedBar(c.tape[k].bar, ObservedTrades, true,
                                            c.tape[k].firstAmbiguous || c.tape[k].lastAmbiguous, c.tape[k].received)
  {
  }

  /** A projection's other fields are the chart's own, its errors the observation's, the transport's
      and the clock's in that order, and its instant the later of the clock and the last instant. */
  lemma ProjectionFields(c: Chart, now: nat)
    requires 0 < Width(c)
    ensures var (r, p) := Project(c, now);
            && r == c.(classification := r.classification, clockRollback := r.clockRollback, revision := r.revision)
            && r.classification.Some? && now <= r.classification.value
            && (c.classification.Some? ==> c.classification.value <= r.classification.value)
            && (r.classification == Some(now) || r.classification == c.classification)
            && (r.clockRollback <==> now < r.classification.value)
            && r.revision == c.revision +
                 (if c.classification.None?
                     || c.classification.value / Width(c) != r.classification.value / Width(c)
                     || c.clockRollback != r.clockRollback then 1 else 0)
            && p.symbol == c.symbol && p.interval == c.interval && p.revision == r.revision
            && p.priceDecimals == c.precision && p.historyError == c.historyError
            && p.lastReceived == c.received && p.tapeStatus == c.status
            && p.latestTrade == (if c.marker.Some? then Some(c.marker.value.shown) else None)
    ensures var (r, p) := Project(c, now);
            p.observationError ==
              (if c.observationError.Some? then [c.observationError.value] else [])
              + (if c.transportError.Some? then [TransportFailed(c.transportError.value)] else [])
              + (if r.clockRollback then [ClockRolledBack] else [])
  {
    hide Merged;
    hide ClosedBars;
    hide FormingBar;
  }

  /** The greatest clock a run has been shown at. */
  function GreatestClock(ops: seq<Op>): Option<nat> {
    if ops == [] then None
    else
      var before := GreatestClock(Init(ops));
      if !Last(ops).Show? then before
      else if before.None? || before.value < Last(ops).now then Some(Last(ops).now) else before
  }

  lemma {:induction false} GreatestClockIs(ops: seq<Op>)
    ensures GreatestClock(ops).None? <==> forall i :: 0 <= i < |ops| ==> !ops[i].Show?
    ensures GreatestClock(ops).Some? ==>
              && (exists i :: 0 <= i < |ops| && ops[i] == Show(GreatestClock(ops).value))
              && (forall i :: 0 <= i < |ops| && ops[i].Show? ==> ops[i].now <= GreatestClock(ops).value)
  {
    if ops != [] {
      GreatestClockIs(Init(ops));
      assert forall i :: 0 <= i < |ops| - 1 ==> ops[i] == Init(ops)[i];
    }
  }

  /** The instant a chart classifies by is the greatest clock it has ever been shown at, no more. */
  lemma {:induction false} InstantIsGreatestClock(c: Chart, ops: seq<Op>)
    requires Inv(c) && c.classification.None?
    ensures Run(c, ops).classification == GreatestClock(ops)
    decreases |ops|
  {
    hide Inv;
    hide Step;
    if ops != [] {
      var prev, op := Run(c, Init(ops)), ops[|ops| - 1];
      InstantIsGreatestClock(c, Init(ops));
      InvFacts(prev);
      InstantAfter(prev, op);
    }
  }

  lemma InstantAfter(c: Chart, op: Op)
    requires Inv(c) && 0 < Width(c)
    ensures var r := Step(c, op);
            if op.Show? then r.classification == Some(if c.classification.Some? && c.classification.value > op.now
                                                      then c.classification.value else op.now)
            else r.classification == c.classification
  {
    hide Inv;
    hide Step;
    if op.Show? {
      ShowMovesClock(c, op.now);
    } else if op.AskHistory? {
      RequestIsQuiet(c);
    } else {
      StepIsObserved(c, op);
    }
  }
}
