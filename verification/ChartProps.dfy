/** What every run of the chart promises: a bounded one-way window, revisions that are a sound
    change token, closed bars that stay closed, live bars that win, and a terminal freeze. */
module ChartProps {
  import opened Common
  import opened Bars
  import opened Chart
  import opened ChartTape
  import opened ChartRuns

  // ---- the window ---------------------------------------------------------------------------------

  lemma {:induction false} AlignedRangeSize(s: set<int>, floor: int, width: int, n: nat)
    requires 0 < width && Aligned(floor, width)
    requires forall k :: k in s ==> Aligned(k, width) && floor <= k < floor + Widths(n, width)
    ensures |s| <= n
    decreases n
  {
    hide Widths;
    hide Aligned;
    if n == 0 {
      WidthsStep(0, width);
      assert forall k :: k !in s;
      assert s == {};
    } else {
      WidthsStep(n - 1, width);
      var top := floor + Widths(n - 1, width);
      GridPoint(floor, width, n - 1);
      var rest := s - {top};
      forall k | k in rest ensures k < top {
        GridGap(k, top, width);
      }
      AlignedRangeSize(rest, floor, width, n - 1);
      SubsetSize(s, rest + {top});
    }
  }

  lemma GridPoint(floor: int, width: int, n: int)
    requires 0 < width && Aligned(floor, width)
    ensures Aligned(floor + Widths(n, width), width)
  {
    ProductIsMultiple(n, width);
    SumOfMultiples(floor, Widths(n, width), width);
  }

  lemma GridGap(k: int, top: int, width: int)
    requires 0 < width && Aligned(k, width) && Aligned(top, width) && k != top && k < top + width
    ensures k < top
  {
    if top < k {
      MultiplesAreSpaced(k, top, width);
    }
  }

  /** Over every run the floor is aligned and never decreases, each map holds at most 600
      buckets, identities never exceed their cap, and nothing below the floor re-enters. */
  lemma WindowIsBoundedAndOneWay(c: Chart, ops: seq<Op>)
    requires Inv(c)
    ensures var r := Run(c, ops);
            && c.floor <= r.floor && Aligned(r.floor, Width(c)) && Width(r) == Width(c)
            && |r.venue| <= HISTORY_BARS && |r.tape| <= HISTORY_BARS && |r.identities| <= MAX_IDENTITIES
            && (forall k :: k in r.venue || k in r.tape ==>
                  Aligned(k, Width(c)) && r.floor <= k <= r.floor + Widths(HISTORY_BARS - 1, Width(c)))
            && (forall k :: k in r.identities ==> r.floor <= k.time)
  {
    hide Run;
    hide Tape;
    hide Widths;
    hide Aligned;
    var r := Run(c, ops);
    InvFacts(r);
    WidthsStep(HISTORY_BARS - 1, Width(c));
    AlignedRangeSize(r.venue.Keys, r.floor, Width(c), HISTORY_BARS);
    AlignedRangeSize(r.tape.Keys, r.floor, Width(c), HISTORY_BARS);
  }

  // ---- the revision is a change token --------------------------------------------------------------

  lemma {:induction false} RowsAreObserved(c: Chart, rows: seq<WsTrade>, at: nat)
    requires 0 < Width(c)
    ensures Observed(c, Rows(c, rows, at).0)
    decreases |rows|
  {
    hide ObserveRow;
    if rows != [] {
      RowIsObserved(c, rows[0], at);
      RowsAreObserved(ObserveRow(c, rows[0], at).0, rows[1..], at);
    }
  }

  lemma TradesAreObserved(c: Chart, batch: seq<WsTrade>, at: nat)
    requires 0 < Width(c)
    ensures Observed(c, ObserveTrades(c, batch, at))
  {
    hide Rows;
    hide Sorted;
    hide Freeze;
    RowsAreObserved(c, Sorted(batch), at);
    PiecesAreFramed(c, ANY_PRINT, 0, at, CapacityExceeded, BatchTooLarge);
  }

  lemma CandleIsObserved(c: Chart, k: Candle, at: nat)
    requires 0 < Width(c)
    ensures Observed(c, ObserveCandle(c, k, at))
  {
    hide ObserveCandle;
    hide TakesCandle;
    hide AdvanceFloor;
    hide PlaceCandle;
    CandleCases(c, k, at);
    if TakesCandle(c, k, at) {
      PiecesAreFramed(c, ANY_PRINT, k.t, at, Observing, BadTrade);
      PlacedCandle(c, k, at);
    }
  }

  lemma HistoryIsObserved(c: Chart, ticket: Ticket, outcome: Result<Snapshot, string>, at: nat)
    requires 0 < Width(c)
    ensures Observed(c, FinishHistory(c, ticket, outcome, at).0)
  {
    hide FinishHistory;
    hide AdvanceFloor;
    hide PlaceHistory;
    hide ValidateCandles;
    HistoryCases(c, ticket, outcome, at);
    if TakesHistory(c, ticket, outcome, at) {
      var bars := ValidateCandles(c, outcome.value.candles).value;
      if bars != [] {
        PiecesAreFramed(c, ANY_PRINT, Last(bars).openTime, at, Observing, BadTrade);
      }
      PlacedHistory(c, bars, outcome.value.priceDecimals, at);
    }
  }

  /** Every call but a new request or a projection leaves requests and clock alone, and one that
      leaves the revision alone leaves the whole state alone. */
  lemma StepIsObserved(c: Chart, op: Op)
    requires 0 < Width(c) && !op.AskHistory? && !op.Show?
    ensures Observed(c, Step(c, op))
  {
    hide Observed;
    hide ObserveTrades;
    hide ObserveCandle;
    hide FinishHistory;
    match op
    case Trades(batch, at) => TradesAreObserved(c, batch, at);
    case WsCandle(k, at) => CandleIsObserved(c, k, at);
    case HistoryDone(ticket, outcome, at) => HistoryIsObserved(c, ticket, outcome, at);
    case InterruptFeed => InterruptionIsObserved(c, []);
    case TransportDown(detail) => InterruptionIsObserved(c, detail);
  }

  lemma InterruptionIsObserved(c: Chart, detail: string)
    ensures Observed(c, Interrupt(c)) && Observed(c, ObservationFailed(c, detail))
  {
  }

  /** Bars are aligned, so what is closed and what is forming depend only on which bucket the
      clock is in. */
  lemma ClassDependsOnBucket(c: Chart, now: nat, later: nat)
    requires Window(c) && now / Width(c) == later / Width(c)
    ensures ClosedBars(Merged(c), Width(c), now) == ClosedBars(Merged(c), Width(c), later)
    ensures FormingBar(Merged(c), Width(c), now) == FormingBar(Merged(c), Width(c), later)
  {
    hide Widths;
    var w := Width(c);
    assert BucketStart(now, w) == BucketStart(later, w);
    forall k | k in Merged(c) ensures k + w <= now <==> k + w <= later {
      ElapsedDependsOnBucket(k, w, now);
      ElapsedDependsOnBucket(k, w, later);
    }
  }

  lemma ElapsedDependsOnBucket(k: int, width: int, now: nat)
    requires 0 < width && Aligned(k, width)
    ensures k + width <= now <==> k < BucketStart(now, width)
  {
    hide BucketStart;
    BucketContains(now, width);
    var b := BucketStart(now, width);
    if k < b && b < k + width {
      MultiplesAreSpaced(k, b, width);
    }
  }

  /** A call that leaves the revision alone leaves the projection alone. */
  lemma SameRevisionSameRendering(c: Chart, op: Op)
    requires Inv(c) && c.classification.Some?
    ensures var r := Step(c, op);
            && c.revision <= r.revision && r.classification.Some?
            && 0 < Width(c) && Width(r) == Width(c)
            && (r.revision == c.revision ==> Rendered(r) == Rendered(c))
  {
    hide Window;
    hide Ids;
    hide Tape;
    hide Merged;
    hide ObserveTrades;
    hide ObserveCandle;
    hide FinishHistory;
    InvFacts(c);
    StepKeepsInv(c, op);
    match op
    case AskHistory => MergedFrame(c, Step(c, op));
    case Show(now) =>
      var r := Step(c, op);
      MergedFrame(c, r);
      if r.revision == c.revision {
        ClassDependsOnBucket(c, c.classification.value, r.classification.value);
      }
    case _ => StepIsObserved(c, op);
  }

  lemma MergedFrame(c: Chart, r: Chart)
    requires r.tape == c.tape && r.venue == c.venue
    ensures Merged(r) == Merged(c)
  {
  }

  lemma {:induction false} SameRevisionSameRenderingOverRuns(c: Chart, ops: seq<Op>)
    requires Inv(c) && c.classification.Some?
    ensures var r := Run(c, ops);
            && c.revision <= r.revision && r.classification.Some?
            && 0 < Width(c) && Width(r) == Width(c)
            && (r.revision == c.revision ==> Rendered(r) == Rendered(c))
    decreases |ops|
  {
    hide Inv;
    hide Step;
    hide Rendered;
    InvFacts(c);
    if ops != [] {
      SameRevisionSameRenderingOverRuns(c, Init(ops));
      SameRevisionSameRendering(Run(c, Init(ops)), Last(ops));
    }
  }

  lemma ProjectingIsShowing(c: Chart, now: nat)
    requires Inv(c) && 0 < Width(c)
    ensures var (c', p) := Project(c, now);
            && Inv(c') && c' == Step(c, Show(now)) && c'.classification.Some? && 0 < Width(c')
            && p == Rendered(c') && p.revision == c'.revision
  {
    hide Inv;
    hide Classify;
    hide Rendered;
    StepKeepsInv(c, Show(now));
    RenderedShowsRevision(Project(c, now).0);
  }

  /** Two projections of one chart carrying the same revision are identical, whatever
      happened and whatever the clocks said in between. */
  lemma RevisionIsAChangeToken(c: Chart, now: nat, between: seq<Op>, later: nat)
    requires Inv(c)
    ensures 0 < Width(c)
    ensures var (c1, shown) := Project(c, now);
            && Inv(c1)
            && var c2 := Run(c1, between);
               && 0 < Width(c2)
               && var (_, again) := Project(c2, later);
                  && shown.revision <= again.revision
                  && (shown.revision == again.revision ==> shown == again)
  {
    hide Inv;
    hide Run;
    hide Step;
    hide Project;
    hide Rendered;
    InvFacts(c);
    ProjectingIsShowing(c, now);
    var c1 := Project(c, now).0;
    var c2 := Run(c1, between);
    InvFacts(c2);
    SameRevisionSameRenderingOverRuns(c1, between);
    SameRevisionSameRendering(c2, Show(later));
    ProjectingIsShowing(c2, later);
  }

  lemma RenderedShowsRevision(c: Chart)
    requires 0 < Width(c) && c.classification.Some?
    ensures Rendered(c).revision == c.revision
  {
    hide Merged;
    hide BucketStart;
  }

  // ---- bars leave only below the floor ---------------------------------------------------------

  /** Every bar at or above the new floor is still there, and a websocket bar is still one. */
  ghost predicate Retains(c: Chart, r: Chart) {
    && c.floor <= r.floor
    && (forall k :: k in c.tape ==> k < r.floor || k in r.tape)
    && (forall k :: k in c.venue ==> k < r.floor || (k in r.venue && (c.venue[k].ws ==> r.venue[k].ws)))
  }

  lemma RetainsIsTransitive(a: Chart, b: Chart, c: Chart)
    requires Retains(a, b) && Retains(b, c)
    ensures Retains(a, c)
  {
  }

  lemma FloorRetainsBars(c: Chart, bucket: int)
    requires Inv(c) && Aligned(bucket, Width(c))
    ensures Retains(c, AdvanceFloor(c, bucket))
  {
    hide AdvanceFloor;
    hide Window;
    hide Ids;
    hide Tape;
    FloorKeepsWindow(c, bucket);
    FloorRetains(c, bucket);
  }

  lemma AcceptRetains(c: Chart, t: WsTrade, bucket: int, at: nat)
    ensures Retains(c, Accept(c, t, bucket, at))
  {
    hide FoldPrint;
    hide MarkWith;
    hide NewTapeBar;
  }

  lemma FreezeRetains(c: Chart, status: TapeStatus, detail: Notice)
    ensures Retains(c, Freeze(c, status, detail))
  {
  }

  lemma RowRetains(c: Chart, t: WsTrade, at: nat)
    requires Inv(c)
    ensures Retains(c, ObserveRow(c, t, at).0)
  {
    hide Inv;
    hide Judge;
    hide BucketStart;
    hide AdvanceFloor;
    hide Accept;
    hide Freeze;
    hide Retains;
    InvFacts(c);
    var b := TradeBucket(c, t);
    var c' := AdvanceFloor(c, b);
    BucketContains(t.time, Width(c));
    FloorRetainsBars(c, b);
    match Judge(c, t, at)
    case Malformed(d) => FreezeRetains(c, InvalidObservation, d);
    case Conflicting => FreezeRetains(c, InvalidObservation, IdentityConflict);
    case NoRoom =>
      FreezeRetains(c', CapacityExceeded, IdentityCapacity);
      RetainsIsTransitive(c, c', ObserveRow(c, t, at).0);
    case Overflow =>
      FreezeRetains(c', InvalidObservation, VolumeOverflow);
      RetainsIsTransitive(c, c', ObserveRow(c, t, at).0);
    case Fresh =>
      AcceptRetains(c', t, b, at);
      RetainsIsTransitive(c, c', ObserveRow(c, t, at).0);
    case _ => SameBarsRetain(c, ObserveRow(c, t, at).0);
  }

  lemma SameBarsRetain(c: Chart, r: Chart)
    requires r.floor == c.floor && r.tape == c.tape && r.venue == c.venue
    ensures Retains(c, r)
  {
  }

  lemma {:induction false} RowsRetain(c: Chart, rows: seq<WsTrade>, at: nat)
    requires Inv(c) && !Frozen(c)
    ensures Retains(c, Rows(c, rows, at).0)
    decreases |rows|
  {
    hide Inv;
    hide ObserveRow;
    hide Retains;
    InvFacts(c);
    if rows == [] {
      SameBarsRetain(c, c);
    } else {
      RowRetains(c, rows[0], at);
      RowKeepsInv(c, rows[0], at);
      var (c', stop) := ObserveRow(c, rows[0], at);
      if !stop {
        RowsRetain(c', rows[1..], at);
        RetainsIsTransitive(c, c', Rows(c, rows, at).0);
      }
    }
  }

  lemma WsBarRetains(c: Chart, r: Chart, k: int, v: VenueBar)
    requires r.floor == c.floor && r.tape == c.tape && r.venue == c.venue[k := v] && v.ws
    ensures Retains(c, r)
  {
  }

  lemma CandleRetains(c: Chart, k: Candle, at: nat)
    requires Inv(c)
    ensures Retains(c, ObserveCandle(c, k, at))
  {
    hide Inv;
    hide AdvanceFloor;
    hide ObserveCandle;
    hide TakesCandle;
    hide PlaceCandle;
    hide Retains;
    InvFacts(c);
    CandleCases(c, k, at);
    var r := ObserveCandle(c, k, at);
    if TakesCandle(c, k, at) {
      var c' := AdvanceFloor(c, k.t);
      FloorRetainsBars(c, k.t);
      PlacedCandle(c, k, at);
      WsBarRetains(c', r, k.t, VenueBar(BarOf(k), at, true));
      RetainsIsTransitive(c, c', r);
    } else {
      SameBarsRetain(c, r);
    }
  }

  /** Every bar at or above the new floor is still there, and a websocket bar is untouched. */
  ghost predicate KeepsWs(c: Chart, r: Chart) {
    && Retains(c, r)
    && (forall k :: k in c.venue && c.venue[k].ws && r.floor <= k ==> k in r.venue && r.venue[k] == c.venue[k])
  }

  lemma FloorKeepsWs(c: Chart, bars: seq<Bar>)
    requires Inv(c)
    requires bars != [] ==> Aligned(Last(bars).openTime, Width(c))
    ensures KeepsWs(c, HistoryFloor(c, bars))
  {
    hide Inv;
    hide AdvanceFloor;
    InvFacts(c);
    if bars != [] {
      FloorRetainsBars(c, Last(bars).openTime);
      FloorRetains(c, Last(bars).openTime);
    }
  }

  lemma BackfillKeepsWs(c: Chart, d: Chart, r: Chart, bars: seq<Bar>, at: nat)
    requires KeepsWs(c, d) && SameTape(d, r) && r.venue == Backfill(d, bars, at)
    ensures KeepsWs(c, r)
  {
    hide Backfill;
    BackfillOnlyAdds(d, bars, at);
  }

  /** A finished history never touches a websocket bar above the floor. */
  lemma HistoryRetains(c: Chart, ticket: Ticket, outcome: Result<Snapshot, string>, at: nat)
    requires Inv(c)
    ensures 0 < Width(c) && KeepsWs(c, FinishHistory(c, ticket, outcome, at).0)
  {
    hide Inv;
    hide KeepsWs;
    hide Window;
    hide Ids;
    hide Tape;
    hide FinishHistory;
    hide PlaceHistory;
    hide HistoryFloor;
    hide ValidateCandles;
    hide Backfill;
    InvFacts(c);
    HistoryCases(c, ticket, outcome, at);
    if TakesHistory(c, ticket, outcome, at) {
      var bars := ValidateCandles(c, outcome.value.candles).value;
      ValidatedCandles(c, outcome.value.candles);
      PlacedHistory(c, bars, outcome.value.priceDecimals, at);
      FloorKeepsWs(c, bars);
      BackfillKeepsWs(c, HistoryFloor(c, bars), FinishHistory(c, ticket, outcome, at).0, bars, at);
    } else {
      SameBarsKeepWs(c, FinishHistory(c, ticket, outcome, at).0);
    }
  }

  lemma SameBarsKeepWs(c: Chart, r: Chart)
    requires r.floor == c.floor && r.tape == c.tape && r.venue == c.venue
    ensures KeepsWs(c, r)
  {
  }

  lemma TradesRetain(c: Chart, batch: seq<WsTrade>, at: nat)
    requires Inv(c)
    ensures Retains(c, ObserveTrades(c, batch, at))
  {
    hide Inv;
    hide Rows;
    hide Retains;
    hide Sorted;
    InvFacts(c);
    if !Frozen(c) && |batch| <= MAX_IDENTITIES {
      RowsRetain(c, Sorted(batch), at);
    } else {
      SameBarsRetain(c, ObserveTrades(c, batch, at));
    }
  }

  /** Interruptions, failures, requests and projections leave every bar where it is. */
  lemma QuietStepSameBars(c: Chart, op: Op)
    requires 0 < Width(c) && (op.InterruptFeed? || op.TransportDown? || op.AskHistory? || op.Show?)
    ensures var r := Step(c, op); r.floor == c.floor && r.tape == c.tape && r.venue == c.venue
  {
    hide ObserveTrades;
    hide ObserveCandle;
    hide FinishHistory;
    hide Rendered;
  }

  lemma StepRetains(c: Chart, op: Op)
    requires Inv(c)
    ensures Retains(c, Step(c, op))
  {
    hide Inv;
    hide Retains;
    InvFacts(c);
    if op.Trades? || op.WsCandle? || op.HistoryDone? {
      BarStepRetains(c, op);
    } else {
      hide Step;
      QuietStepSameBars(c, op);
      SameBarsRetain(c, Step(c, op));
    }
  }

  lemma BarStepRetains(c: Chart, op: Op)
    requires Inv(c) && 0 < Width(c) && (op.Trades? || op.WsCandle? || op.HistoryDone?)
    ensures Retains(c, Step(c, op))
  {
    hide Inv;
    hide Retains;
    hide ObserveTrades;
    hide ObserveCandle;
    hide FinishHistory;
    match op
    case Trades(batch, at) => TradesRetain(c, batch, at);
    case WsCandle(k, at) => CandleRetains(c, k, at);
    case HistoryDone(ticket, outcome, at) => HistoryRetains(c, ticket, outcome, at);
  }

  // ---- closed stays closed, and live wins -------------------------------------------------------

  predicate ClosedIn(c: Chart, k: int) {
    c.classification.Some? && (k in c.tape || k in c.venue) && k + Width(c) <= c.classification.value
  }

  lemma ShowMovesClock(c: Chart, now: nat)
    requires 0 < Width(c)
    ensures Step(c, Show(now)) == Classify(c, now)
  {
    hide Classify;
    hide Rendered;
  }

  lemma StepKeepsClosed(c: Chart, op: Op, k: int)
    requires Inv(c) && ClosedIn(c, k)
    ensures var r := Step(c, op); k < r.floor || ClosedIn(r, k)
  {
    hide Inv;
    hide Step;
    hide Classify;
    InvFacts(c);
    StepRetains(c, op);
    StepKeepsInv(c, op);
    if op.Show? {
      ShowMovesClock(c, op.now);
      ClassifyFacts(c, op.now);
    } else if op.AskHistory? {
      RequestIsQuiet(c);
    } else {
      StepIsObserved(c, op);
    }
  }

  lemma RequestIsQuiet(c: Chart)
    requires 0 < Width(c)
    ensures Step(c, AskHistory) == c.(request := c.request + 1)
  {
    hide ObserveTrades;
    hide ObserveCandle;
    hide FinishHistory;
    hide Project;
  }

  /** A bucket once projected closed is projected closed by every later projection, under any
      sequence of host clocks, until the floor evicts it. */
  lemma {:induction false} ClosedStaysClosed(c: Chart, ops: seq<Op>, k: int)
    requires Inv(c) && ClosedIn(c, k)
    ensures var r := Run(c, ops); k < r.floor || ClosedIn(r, k)
    decreases |ops|
  {
    hide Inv;
    hide Step;
    hide ClosedIn;
    if ops != [] {
      ClosedStaysClosed(c, Init(ops), k);
      var prev := Run(c, Init(ops));
      InvFacts(prev);
      StepKeepsInv(prev, Last(ops));
      if !(k < prev.floor) {
        StepKeepsClosed(prev, Last(ops), k);
      }
    }
  }

  /** The bar shown for a stored bucket: the venue's whenever the venue has one. */
  function ShownBar(c: Chart, k: int): ObservedBar
    requires k in c.tape || k in c.venue
  {
    if k in c.venue then VenueView(c.venue[k]) else TapeView(c.tape[k])
  }

  predicate FormingIn(c: Chart, k: int) {
    && c.classification.Some? && (k in c.tape || k in c.venue)
    && k <= c.classification.value < k + Width(c)
  }

  lemma RenderedClosed(c: Chart)
    requires 0 < Width(c) && c.classification.Some?
    ensures var p := Rendered(c);
            && (forall k :: k in p.closed <==> ClosedIn(c, k))
            && (forall k :: k in p.closed ==> p.closed[k] == ShownBar(c, k))
  {
    hide Merged;
    hide BucketStart;
    MergedIs(c);
  }

  lemma RenderedForming(c: Chart)
    requires Inv(c) && c.classification.Some?
    ensures 0 < Width(c)
    ensures var p := Rendered(c);
            && (p.forming.Some? <==> exists k :: FormingIn(c, k))
            && (forall k :: FormingIn(c, k) ==> p.forming == Some(ShownBar(c, k)))
  {
    hide Inv;
    hide Merged;
    hide BucketStart;
    InvFacts(c);
    MergedIs(c);
    var at, w := c.classification.value, Width(c);
    BucketContains(at, w);
    var b := BucketStart(at, w);
    assert b in Merged(c) ==> FormingIn(c, b);
    forall k | FormingIn(c, k) ensures k == b {
      StoredIsAligned(c, k);
      BucketUnique(at, k, w);
    }
  }

  /** What a projection shows of each bucket: closed exactly when its width has elapsed, forming
      for at most one bucket, and the venue's bar whenever the venue has one. The instant it
      classifies by never goes back. */
  lemma ProjectionIsExact(c: Chart, now: nat)
    requires Inv(c)
    ensures 0 < Width(c)
    ensures var (c', p) := Project(c, now);
            && now <= c'.classification.value
            && (c.classification.Some? ==> c.classification.value <= c'.classification.value)
            && c'.tape == c.tape && c'.venue == c.venue
            && (forall k :: k in p.closed <==> ClosedIn(c', k))
            && (forall k :: k in p.closed ==> p.closed[k] == ShownBar(c', k))
            && (p.forming.Some? <==> exists k :: FormingIn(c', k))
            && (forall k :: FormingIn(c', k) ==> p.forming == Some(ShownBar(c', k)))
  {
    hide Inv;
    hide Classify;
    hide Rendered;
    hide Step;
    hide FormingIn;
    hide ClosedIn;
    InvFacts(c);
    ClassifyFacts(c, now);
    ShowMovesClock(c, now);
    StepKeepsInv(c, Show(now));
    RenderedClosed(Classify(c, now));
    RenderedForming(Classify(c, now));
  }

  lemma ClassifyFacts(c: Chart, now: nat)
    requires 0 < Width(c)
    ensures var r := Classify(c, now);
            && r.tape == c.tape && r.venue == c.venue && r.interval == c.interval
            && now <= r.classification.value
            && (c.classification.Some? ==> c.classification.value <= r.classification.value)
  {
  }

  lemma MergedIs(c: Chart)
    ensures forall k :: k in Merged(c) <==> k in c.tape || k in c.venue
    ensures forall k :: k in Merged(c) ==>
              Merged(c)[k] == if k in c.venue then VenueView(c.venue[k]) else TapeView(c.tape[k])
  {
  }

  lemma StoredIsAligned(c: Chart, k: int)
    requires Window(c) && (k in c.tape || k in c.venue)
    ensures Aligned(k, Width(c))
  {
    hide Widths;
  }

  // ---- tickets ------------------------------------------------------------------------------------

  function Asks(ops: seq<Op>): nat {
    if ops == [] then 0 else Asks(Init(ops)) + if Last(ops).AskHistory? then 1 else 0
  }

  lemma StepKeepsRequest(c: Chart, op: Op)
    requires 0 < Width(c)
    ensures Step(c, op).request == c.request + if op.AskHistory? then 1 else 0
  {
    hide ObserveTrades;
    hide ObserveCandle;
    hide FinishHistory;
    hide Rendered;
    if !op.AskHistory? && !op.Show? {
      StepIsObserved(c, op);
    }
  }

  lemma {:induction false} RunCountsRequests(c: Chart, ops: seq<Op>)
    requires Inv(c)
    ensures Run(c, ops).request == c.request + Asks(ops)
    decreases |ops|
  {
    hide Inv;
    hide Step;
    if ops != [] {
      RunCountsRequests(c, Init(ops));
      InvFacts(Run(c, Init(ops)));
      StepKeepsRequest(Run(c, Init(ops)), Last(ops));
    }
  }

  /** A ticket is honoured exactly when no later request was begun on the same chart; a
      superseded or foreign one is refused and changes nothing. */
  lemma TicketHonouredExactlyWhenCurrent(
    c: Chart, between: seq<Op>, other: nat, outcome: Result<Snapshot, string>, at: nat)
    requires Inv(c)
    ensures 0 < Width(c) && Inv(BeginHistory(c).0)
    ensures var (c1, ticket) := BeginHistory(c); var now := Run(c1, between);
            && 0 < Width(now)
            && (Asks(between) > 0 ==> FinishHistory(now, ticket, outcome, at) == (now, Err(Superseded)))
            && (Asks(between) == 0 ==> FinishHistory(now, ticket, outcome, at).1 != Err(Superseded))
            && (other != c.owner ==>
                  FinishHistory(now, ticket.(owner := other), outcome, at) == (now, Err(Superseded)))
  {
    hide *;
    InvFacts(c);
    BeginsRequest(c);
    var (c1, ticket) := BeginHistory(c);
    var now := Run(c1, between);
    InvFacts(now);
    RunCountsRequests(c1, between);
    RunKeepsOwner(c1, between);
    FenceIsExact(now, ticket, outcome, at);
    FenceIsExact(now, ticket.(owner := other), outcome, at);
  }

  lemma BeginsRequest(c: Chart)
    requires Inv(c)
    ensures var (c1, ticket) := BeginHistory(c);
            Inv(c1) && c1.request == c.request + 1 && c1.owner == c.owner && ticket == Ticket(c.owner, c.request + 1)
  {
    hide Inv;
    hide Step;
    InvFacts(c);
    RequestIsQuiet(c);
    StepKeepsInv(c, AskHistory);
  }

  lemma RunKeepsOwner(c: Chart, ops: seq<Op>)
    requires Inv(c)
    ensures Run(c, ops).owner == c.owner
  {
    hide Inv;
    hide Run;
  }

  lemma FenceIsExact(c: Chart, ticket: Ticket, outcome: Result<Snapshot, string>, at: nat)
    requires 0 < Width(c)
    ensures ticket != Ticket(c.owner, c.request) ==> FinishHistory(c, ticket, outcome, at) == (c, Err(Superseded))
    ensures ticket == Ticket(c.owner, c.request) ==> FinishHistory(c, ticket, outcome, at).1 != Err(Superseded)
  {
    hide ValidateCandles;
    hide PlaceHistory;
  }

  // ---- the freeze is terminal, for the tape only ------------------------------------------------

  /** `r` is frozen like `c`: its tape and identities are `c`'s at or above the new floor, its
      status and marker price are the same, and no doubt about the marker was cleared. */
  ghost predicate StillFrozen(c: Chart, r: Chart) {
    && Frozen(r) && r.status == c.status && c.floor <= r.floor
    && (forall k :: k in r.tape <==> k in c.tape && r.floor <= k)
    && (forall k :: k in r.tape ==> r.tape[k] == c.tape[k])
    && (forall k :: k in r.identities <==> k in c.identities && r.floor <= k.time)
    && (forall k :: k in r.identities ==> r.identities[k] == c.identities[k])
    && (c.marker.None? <==> r.marker.None?)
    && (c.marker.Some? ==>
          && r.marker.value.key == c.marker.value.key
          && r.marker.value.shown == c.marker.value.shown.(priceAmbiguous := true))
  }

  lemma FrozenFloor(c: Chart, bucket: int)
    requires Inv(c) && Frozen(c) && Aligned(bucket, Width(c))
    ensures StillFrozen(c, AdvanceFloor(c, bucket))
  {
    hide AdvanceFloor;
    hide Window;
    hide Ids;
    hide Tape;
    FloorKeepsWindow(c, bucket);
    FloorRetains(c, bucket);
    FloorKeepsInv(c, bucket);
  }

  lemma FrozenSame(c: Chart, r: Chart)
    requires Inv(c) && Frozen(c) && SameTape(c, r) && Frozen(r) && r.status == c.status
    requires r.marker == c.marker || r.marker == Doubted(c.marker)
    ensures StillFrozen(c, r)
  {
    hide Tape;
    hide Aligned;
    hide Widths;
    hide BucketStart;
  }

  lemma FrozenVenue(c: Chart, d: Chart, r: Chart)
    requires Inv(d) && StillFrozen(c, d) && VenueOnly(d, r)
    ensures StillFrozen(c, r)
  {
    hide Inv;
    FrozenSame(d, r);
    FrozenAgain(c, d, r);
  }

  lemma FrozenAgain(c: Chart, d: Chart, r: Chart)
    requires StillFrozen(c, d) && StillFrozen(d, r)
    ensures StillFrozen(c, r)
  {
  }

  lemma FrozenCandle(c: Chart, k: Candle, at: nat)
    requires Inv(c) && Frozen(c)
    ensures StillFrozen(c, ObserveCandle(c, k, at))
  {
    hide Inv;
    hide AdvanceFloor;
    hide ObserveCandle;
    hide TakesCandle;
    hide PlaceCandle;
    hide StillFrozen;
    hide VenueOnly;
    InvFacts(c);
    FrozenSame(c, c);
    CandleCases(c, k, at);
    var r := ObserveCandle(c, k, at);
    if TakesCandle(c, k, at) {
      FrozenFloor(c, k.t);
      FloorKeepsInv(c, k.t);
      PlacedCandle(c, k, at);
      FrozenVenue(c, AdvanceFloor(c, k.t), r);
    } else {
      FrozenVenue(c, c, r);
    }
  }

  lemma FrozenHistory(c: Chart, ticket: Ticket, outcome: Result<Snapshot, string>, at: nat)
    requires Inv(c) && Frozen(c)
    ensures StillFrozen(c, FinishHistory(c, ticket, outcome, at).0)
  {
    hide Inv;
    hide AdvanceFloor;
    hide FinishHistory;
    hide PlaceHistory;
    hide ValidateCandles;
    hide StillFrozen;
    hide VenueOnly;
    InvFacts(c);
    FrozenSame(c, c);
    HistoryCases(c, ticket, outcome, at);
    var r := FinishHistory(c, ticket, outcome, at).0;
    if TakesHistory(c, ticket, outcome, at) {
      var bars := ValidateCandles(c, outcome.value.candles).value;
      ValidatedCandles(c, outcome.value.candles);
      HistoryFloorKeepsInv(c, outcome.value.candles);
      PlacedHistory(c, bars, outcome.value.priceDecimals, at);
      if bars != [] {
        FrozenFloor(c, Last(bars).openTime);
      }
      FrozenVenue(c, HistoryFloor(c, bars), r);
    } else {
      FrozenVenue(c, c, r);
    }
  }

  lemma QuietStepStaysFrozen(c: Chart, op: Op)
    requires Inv(c) && Frozen(c) && 0 < Width(c)
    requires op.InterruptFeed? || op.TransportDown? || op.AskHistory? || op.Show?
    ensures SameTape(c, Step(c, op)) && Frozen(Step(c, op)) && Step(c, op).status == c.status
    ensures Step(c, op).marker == c.marker || Step(c, op).marker == Doubted(c.marker)
  {
    hide Inv;
    hide ObserveTrades;
    hide ObserveCandle;
    hide FinishHistory;
    hide Rendered;
  }

  lemma StepStaysFrozen(c: Chart, op: Op)
    requires Inv(c) && Frozen(c)
    ensures StillFrozen(c, Step(c, op))
  {
    hide Inv;
    hide Step;
    hide StillFrozen;
    InvFacts(c);
    if op.WsCandle? || op.HistoryDone? || op.Trades? {
      VenueStepStaysFrozen(c, op);
    } else {
      QuietStepStaysFrozen(c, op);
      FrozenSame(c, Step(c, op));
    }
  }

  lemma VenueStepStaysFrozen(c: Chart, op: Op)
    requires Inv(c) && Frozen(c) && 0 < Width(c) && (op.WsCandle? || op.HistoryDone? || op.Trades?)
    ensures StillFrozen(c, Step(c, op))
  {
    hide Inv;
    hide ObserveCandle;
    hide FinishHistory;
    hide StillFrozen;
    hide Rows;
    match op
    case WsCandle(k, at) => FrozenCandle(c, k, at);
    case HistoryDone(ticket, outcome, at) => FrozenHistory(c, ticket, outcome, at);
    case Trades(_, _) => FrozenSame(c, c);
  }

  /** After a capacity, conflict, invalid-print or transport failure no call sequence adds a
      print, changes the status or marker price, or clears the marker's doubt. */
  lemma {:induction false} FreezeIsTerminal(c: Chart, ops: seq<Op>)
    requires Inv(c) && Frozen(c)
    ensures StillFrozen(c, Run(c, ops))
    decreases |ops|
  {
    hide Inv;
    hide Step;
    hide StillFrozen;
    InvFacts(c);
    if ops == [] {
      FrozenSame(c, c);
    } else {
      FreezeIsTerminal(c, Init(ops));
      var prev := Run(c, Init(ops));
      FrozenIsFrozen(c, prev);
      StepStaysFrozen(prev, Last(ops));
      FrozenAgain(c, prev, Run(c, ops));
    }
  }

  lemma FrozenIsFrozen(c: Chart, r: Chart)
    requires StillFrozen(c, r)
    ensures Frozen(r)
  {
  }

  /** Two charts that may differ in their tapes, messages and revisions only. */
  predicate SameVenue(c: Chart, d: Chart) {
    SameChart(c, d) && d.floor == c.floor && d.venue == c.venue && d.request == c.request
  }

  lemma CandleIgnoresTheTape(c: Chart, d: Chart, k: Candle, at: nat)
    requires 0 < Width(c) && SameVenue(c, d)
    ensures SameVenue(ObserveCandle(c, k, at), ObserveCandle(d, k, at))
  {
    hide AdvanceFloor;
    hide ObserveCandle;
    hide PlaceCandle;
    hide ValidateCandles;
    SameValidation(c, d, [k]);
    SameFloor(c, d, k.t);
    CandleCases(c, k, at);
    CandleCases(d, k, at);
    PlacedCandle(c, k, at);
    PlacedCandle(d, k, at);
  }

  lemma TakenAlike(c: Chart, d: Chart, ticket: Ticket, outcome: Result<Snapshot, string>, at: nat)
    requires 0 < Width(c) && SameVenue(c, d)
    ensures TakesHistory(c, ticket, outcome, at) == TakesHistory(d, ticket, outcome, at)
    ensures outcome.Ok? ==>
              ValidateCandles(c, outcome.value.candles) == ValidateCandles(d, outcome.value.candles)
  {
    hide ValidateCandles;
    if outcome.Ok? {
      SameValidation(c, d, outcome.value.candles);
    }
  }

  lemma PlacedAlike(c: Chart, d: Chart, bars: seq<Bar>, priceDecimals: nat, at: nat)
    requires SameVenue(c, d)
    ensures SameVenue(PlaceHistory(c, bars, priceDecimals, at), PlaceHistory(d, bars, priceDecimals, at))
  {
    hide AdvanceFloor;
    hide PlaceHistory;
    hide Backfill;
    if bars != [] {
      SameFloor(c, d, Last(bars).openTime);
    }
    PlacedHistory(c, bars, priceDecimals, at);
    PlacedHistory(d, bars, priceDecimals, at);
    SameBackfill(HistoryFloor(c, bars), HistoryFloor(d, bars), bars, at);
  }

  lemma HistoryIgnoresTheTape(c: Chart, d: Chart, ticket: Ticket, outcome: Result<Snapshot, string>, at: nat)
    requires 0 < Width(c) && SameVenue(c, d)
    ensures SameVenue(FinishHistory(c, ticket, outcome, at).0, FinishHistory(d, ticket, outcome, at).0)
  {
    hide FinishHistory;
    hide PlaceHistory;
    hide ValidateCandles;
    HistoryCases(c, ticket, outcome, at);
    HistoryCases(d, ticket, outcome, at);
    TakenAlike(c, d, ticket, outcome, at);
    if TakesHistory(c, ticket, outcome, at) {
      PlacedAlike(c, d, ValidateCandles(c, outcome.value.candles).value, outcome.value.priceDecimals, at);
    }
  }

  /** Venue candles and history do not ask whether the tape is frozen: two charts that agree on
      everything else take the same venue bars. */
  lemma VenueIgnoresTheTape(c: Chart, d: Chart, op: Op)
    requires Inv(c) && Inv(d) && (op.WsCandle? || op.HistoryDone?) && SameVenue(c, d)
    ensures 0 < Width(c) && 0 < Width(d)
    ensures SameVenue(Step(c, op), Step(d, op))
  {
    hide *;
    InvFacts(c);
    InvFacts(d);
    match op
    case WsCandle(k, at) =>
      CandleIgnoresTheTape(c, d, k, at);
      VenueSteps(c, op);
      VenueSteps(d, op);
    case HistoryDone(ticket, outcome, at) =>
      HistoryIgnoresTheTape(c, d, ticket, outcome, at);
      VenueSteps(c, op);
      VenueSteps(d, op);
  }

  lemma VenueSteps(c: Chart, op: Op)
    requires 0 < Width(c)
    ensures op.WsCandle? ==> Step(c, op) == ObserveCandle(c, op.candle, op.at)
    ensures op.HistoryDone? ==> Step(c, op) == FinishHistory(c, op.ticket, op.outcome, op.at).0
  {
    hide ObserveCandle;
    hide FinishHistory;
    hide ObserveTrades;
    hide Project;
  }

  lemma SameFloor(c: Chart, d: Chart, bucket: int)
    requires SameVenue(c, d)
    ensures SameVenue(AdvanceFloor(c, bucket), AdvanceFloor(d, bucket))
  {
    hide Widths;
  }

  lemma SameValidation(c: Chart, d: Chart, candles: seq<Candle>)
    requires SameChart(c, d) && 0 < Width(c)
    ensures ValidateCandles(c, candles) == ValidateCandles(d, candles)
  {
    assert forall k :: GoodCandle(c, k) == GoodCandle(d, k);
    assert forall k :: OnAxis(c, k) == OnAxis(d, k);
  }

  lemma {:induction false} SameBackfill(c: Chart, d: Chart, bars: seq<Bar>, at: nat)
    requires d.floor == c.floor && d.venue == c.venue
    ensures Backfill(c, bars, at) == Backfill(d, bars, at)
  {
    if bars != [] {
      SameBackfill(c, d, bars[..|bars| - 1], at);
    }
  }
}
