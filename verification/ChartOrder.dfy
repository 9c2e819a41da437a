/** Delivery order does not matter: charts fed the same prints, in any order, batching or
    replay, show the same tape. */
module ChartOrder {
  import opened Common
  import opened Bars
  import opened Chart
  import opened ChartTape
  import opened ChartRuns
  import opened ChartProps

  // ---- sorting a batch ----------------------------------------------------------------------------

  ghost predicate InKeyOrder(rows: seq<WsTrade>) {
    forall i, j :: 0 <= i < j < |rows| ==> !Before(KeyOf(rows[j]), KeyOf(rows[i]))
  }

  lemma {:induction false} InsertAdds(t: WsTrade, rows: seq<WsTrade>)
    ensures multiset(Insert(t, rows)) == multiset(rows) + multiset{t}
    decreases |rows|
  {
    if rows != [] && Before(KeyOf(rows[0]), KeyOf(t)) {
      InsertAdds(t, rows[1..]);
      assert rows == [rows[0]] + rows[1..];
    }
  }

  lemma {:induction false} InsertIsSorted(t: WsTrade, rows: seq<WsTrade>)
    requires InKeyOrder(rows)
    ensures InKeyOrder(Insert(t, rows))
    decreases |rows|
  {
    hide KeyOf;
    if rows != [] && Before(KeyOf(rows[0]), KeyOf(t)) {
      InsertIsSorted(t, rows[1..]);
      InsertAdds(t, rows[1..]);
      var rest := Insert(t, rows[1..]);
      forall j | 0 <= j < |rest| ensures !Before(KeyOf(rest[j]), KeyOf(rows[0])) {
        assert rest[j] in multiset(rest);
        if rest[j] != t {
          var i :| 0 <= i < |rows[1..]| && rows[1..][i] == rest[j];
          assert rows[i + 1] == rest[j];
        }
      }
    }
  }

  /** A batch is processed in `(time, tid)` order and nothing is lost or added by sorting. */
  lemma {:induction false} SortedIsSorted(rows: seq<WsTrade>)
    ensures InKeyOrder(Sorted(rows)) && multiset(Sorted(rows)) == multiset(rows)
    decreases |rows|
  {
    if rows != [] {
      SortedIsSorted(rows[1..]);
      InsertIsSorted(rows[0], Sorted(rows[1..]));
      InsertAdds(rows[0], Sorted(rows[1..]));
      assert rows == [rows[0]] + rows[1..];
    }
  }

  function SetOf(rows: seq<WsTrade>): set<WsTrade> {
    set t | t in rows
  }

  lemma SortedSameSet(rows: seq<WsTrade>)
    ensures SetOf(Sorted(rows)) == SetOf(rows)
  {
    SortedIsSorted(rows);
    forall t ensures t in Sorted(rows) <==> t in rows {
      assert t in Sorted(rows) <==> t in multiset(Sorted(rows));
      assert t in rows <==> t in multiset(rows);
    }
  }

  // ---- what was delivered so far determines the floor and the prints ---------------------------

  /** The floor is 599 widths below the greatest bucket reached, and never below zero. */
  ghost predicate FloorOf(floor: int, width: int, reached: set<int>) {
    && (forall b :: b in reached ==> b <= floor + Widths(HISTORY_BARS - 1, width))
    && (floor == 0 || exists b :: b in reached && floor == b - Widths(HISTORY_BARS - 1, width))
  }

  /** Exactly the prints of `p` at or above the floor are retained. */
  ghost predicate Retained(c: Chart, p: set<WsTrade>)
    requires 0 < Width(c)
  {
    && (forall k :: k in c.identities ==> c.identities[k] in p)
    && (forall t :: t in p && c.floor <= TradeBucket(c, t) ==>
          KeyOf(t) in c.identities && c.identities[KeyOf(t)] == t)
  }

  ghost function BucketsOf(p: set<WsTrade>, width: int): set<int>
    requires 0 < width
  {
    set t | t in p :: BucketStart(t.time, width)
  }

  /** The chart is the view of the prints `p` and of the venue buckets `q`. */
  ghost predicate Reflects(c: Chart, p: set<WsTrade>, q: set<int>)
    requires 0 < Width(c)
  {
    FloorOf(c.floor, Width(c), BucketsOf(p, Width(c)) + q) && Retained(c, p)
  }

  lemma FloorReaches(floor: int, width: int, reached: set<int>, b: int)
    requires FloorOf(floor, width, reached)
    ensures FloorOf(Max(floor, b - Widths(HISTORY_BARS - 1, width)), width, reached + {b})
  {
    hide Widths;
    var next := Max(floor, b - Widths(HISTORY_BARS - 1, width));
    if next != 0 && next == floor {
      var x :| x in reached && floor == x - Widths(HISTORY_BARS - 1, width);
      assert x in reached + {b};
    } else if next != 0 {
      assert b in reached + {b};
    }
  }

  lemma FloorUnique(f: int, g: int, width: int, reached: set<int>)
    requires 0 <= f && 0 <= g && FloorOf(f, width, reached) && FloorOf(g, width, reached)
    ensures f == g
  {
    hide Widths;
  }

  lemma FloorIs(c: Chart, bucket: int)
    ensures AdvanceFloor(c, bucket).floor == Max(c.floor, bucket - Widths(HISTORY_BARS - 1, Width(c)))
    ensures Width(AdvanceFloor(c, bucket)) == Width(c)
  {
    hide Widths;
  }

  lemma FloorKeepsRetained(c: Chart, bucket: int, p: set<WsTrade>)
    requires Window(c) && Ids(c) && Retained(c, p)
    ensures Width(AdvanceFloor(c, bucket)) == Width(c) && Retained(AdvanceFloor(c, bucket), p)
  {
    hide AdvanceFloor;
    hide BucketStart;
    hide Widths;
    hide Aligned;
    var r := AdvanceFloor(c, bucket);
    FloorRetains(c, bucket);
    FloorIs(c, bucket);
    forall t | t in p && r.floor <= TradeBucket(r, t)
      ensures KeyOf(t) in r.identities && r.identities[KeyOf(t)] == t
    {
      BucketContains(t.time, Width(c));
    }
  }

  /** Reaching a bucket: the floor follows, and nothing else is forgotten. */
  lemma AdvanceReflects(c: Chart, b: int, p: set<WsTrade>, q: set<int>)
    requires Inv(c) && 0 < Width(c) && Reflects(c, p, q)
    ensures var r := AdvanceFloor(c, b); Width(r) == Width(c) && Reflects(r, p, q + {b})
  {
    hide Inv;
    hide Window;
    hide Ids;
    hide Tape;
    hide Widths;
    hide AdvanceFloor;
    hide FloorOf;
    hide Retained;
    hide BucketsOf;
    InvFacts(c);
    FloorIs(c, b);
    FloorReaches(c.floor, Width(c), BucketsOf(p, Width(c)) + q, b);
    FloorKeepsRetained(c, b, p);
    assert BucketsOf(p, Width(c)) + q + {b} == BucketsOf(p, Width(c)) + (q + {b});
  }

  lemma ReflectsFrame(c: Chart, r: Chart, p: set<WsTrade>, q: set<int>)
    requires 0 < Width(c) && Reflects(c, p, q)
    requires r.interval == c.interval && r.floor == c.floor && r.identities == c.identities
    ensures Width(r) == Width(c) && Reflects(r, p, q)
  {
    hide BucketStart;
    hide FloorOf;
    assert forall t :: TradeBucket(r, t) == TradeBucket(c, t);
  }

  lemma BucketsOfMore(p: set<WsTrade>, t: WsTrade, width: int)
    requires 0 < width
    ensures BucketsOf(p + {t}, width) == BucketsOf(p, width) + {BucketStart(t.time, width)}
  {
    hide BucketStart;
  }

  lemma AcceptStores(c: Chart, t: WsTrade, bucket: int, at: nat)
    ensures var r := Accept(c, t, bucket, at);
            r.interval == c.interval && r.floor == c.floor && r.identities == c.identities[KeyOf(t) := t]
  {
    hide FoldPrint;
    hide NewTapeBar;
    hide MarkWith;
    hide Doubted;
  }

  lemma RetainedMore(c: Chart, r: Chart, t: WsTrade, p: set<WsTrade>)
    requires 0 < Width(c) && Retained(c, p) && KeyOf(t) !in c.identities
    requires r.interval == c.interval && r.floor == c.floor && r.identities == c.identities[KeyOf(t) := t]
    ensures Width(r) == Width(c) && Retained(r, p + {t})
  {
    hide BucketStart;
    assert forall x :: TradeBucket(r, x) == TradeBucket(c, x);
  }

  lemma FreshReflects(c: Chart, t: WsTrade, at: nat, p: set<WsTrade>, q: set<int>)
    requires Inv(c) && 0 < Width(c) && Reflects(c, p, q) && Judge(c, t, at).Fresh?
    ensures var r := ObserveRow(c, t, at).0; Width(r) == Width(c) && Reflects(r, p + {t}, q)
  {
    hide Inv;
    hide Judge;
    hide BucketStart;
    hide AdvanceFloor;
    hide Accept;
    hide Retained;
    hide FloorOf;
    hide BucketsOf;
    InvFacts(c);
    var b, w := TradeBucket(c, t), Width(c);
    var c', r := AdvanceFloor(c, b), ObserveRow(c, t, at).0;
    JudgeFacts(c, t, at);
    AdvanceReflects(c, b, p, q);
    FloorDropsKeys(c, b, KeyOf(t));
    AcceptStores(c', t, b, at);
    RetainedMore(c', r, t, p);
    BucketsOfMore(p, t, w);
    assert BucketsOf(p + {t}, w) + q == BucketsOf(p, w) + (q + {b});
  }

  lemma FloorDropsKeys(c: Chart, bucket: int, k: Key)
    requires Window(c) && Ids(c)
    ensures k !in c.identities ==> k !in AdvanceFloor(c, bucket).identities
  {
    hide AdvanceFloor;
    FloorRetains(c, bucket);
  }

  lemma StaleReflects(c: Chart, t: WsTrade, p: set<WsTrade>, q: set<int>)
    requires 0 < Width(c) && Reflects(c, p, q) && TradeBucket(c, t) < c.floor
    ensures Reflects(c, p + {t}, q)
  {
    hide BucketStart;
    hide FloorOf;
    hide BucketsOf;
    var w, b := Width(c), TradeBucket(c, t);
    BelowFloorReaches(c.floor, w, BucketsOf(p, w) + q, b);
    BucketsOfMore(p, t, w);
    assert BucketsOf(p + {t}, w) + q == BucketsOf(p, w) + q + {b};
  }

  lemma BelowFloorReaches(floor: int, width: int, reached: set<int>, b: int)
    requires 0 < width && FloorOf(floor, width, reached) && b < floor
    ensures FloorOf(floor, width, reached + {b})
  {
    hide FloorOf;
    assert 0 <= Widths(HISTORY_BARS - 1, width);
    FloorReaches(floor, width, reached, b);
  }

  /** The prints of a batch that are not too far ahead of their receipt. */
  function Timely(rows: seq<WsTrade>, at: nat): set<WsTrade> {
    set t | t in rows && t.time <= at + MAX_CLOCK_SKEW_MS
  }

  lemma RowReflects(c: Chart, t: WsTrade, at: nat, p: set<WsTrade>, q: set<int>)
    requires Inv(c) && !Frozen(c) && 0 < Width(c) && Reflects(c, p, q)
    requires !Frozen(ObserveRow(c, t, at).0)
    ensures var r := ObserveRow(c, t, at).0;
            Width(r) == Width(c) && Reflects(r, p + Timely([t], at), q)
  {
    hide Inv;
    hide Judge;
    hide BucketStart;
    hide AdvanceFloor;
    hide Accept;
    hide Reflects;
    var r := ObserveRow(c, t, at).0;
    JudgeFacts(c, t, at);
    match Judge(c, t, at)
    case Skewed =>
      ReflectsFrame(c, r, p, q);
      assert p + Timely([t], at) == p;
    case Stale =>
      StaleReflects(c, t, p, q);
      assert Timely([t], at) == {t};
    case Replayed =>
      ReflectsFrame(c, r, p, q);
      RetainedIsDelivered(c, t, p, q);
      assert p + Timely([t], at) == p;
    case Fresh =>
      FreshReflects(c, t, at, p, q);
      assert Timely([t], at) == {t};
    case _ =>
  }

  lemma RetainedIsDelivered(c: Chart, t: WsTrade, p: set<WsTrade>, q: set<int>)
    requires 0 < Width(c) && Reflects(c, p, q)
    requires KeyOf(t) in c.identities && c.identities[KeyOf(t)] == t
    ensures t in p
  {
  }

  lemma {:induction false} RowsReflect(c: Chart, rows: seq<WsTrade>, at: nat, p: set<WsTrade>, q: set<int>)
    requires Inv(c) && !Frozen(c) && 0 < Width(c) && Reflects(c, p, q)
    requires !Frozen(Rows(c, rows, at).0)
    ensures var r := Rows(c, rows, at).0; Width(r) == Width(c) && Reflects(r, p + Timely(rows, at), q)
    decreases |rows|
  {
    hide Inv;
    hide ObserveRow;
    hide Reflects;
    if rows == [] {
      assert p + Timely(rows, at) == p;
    } else {
      RowKeepsInv(c, rows[0], at);
      RowReflects(c, rows[0], at, p, q);
      RowsReflect(ObserveRow(c, rows[0], at).0, rows[1..], at, p + Timely([rows[0]], at), q);
      assert rows == [rows[0]] + rows[1..];
      assert p + Timely(rows, at) == p + Timely([rows[0]], at) + Timely(rows[1..], at);
    }
  }

  // ---- whole runs --------------------------------------------------------------------------------

  /** The buckets a call reaches through the venue: a valid websocket candle not too far ahead,
      or the newest row of a history that is taken. */
  function VenueReach(c: Chart, op: Op): set<int>
    requires 0 < Width(c)
  {
    match op
    case WsCandle(k, at) =>
      if k.t <= at + MAX_CLOCK_SKEW_MS && ValidateCandles(c, [k]).Ok? then {k.t as int} else {}
    case HistoryDone(ticket, outcome, at) =>
      if TakesHistory(c, ticket, outcome, at) && outcome.value.candles != []
      then {Last(outcome.value.candles).t as int} else {}
    case _ => {}
  }

  function PrintsIn(op: Op): set<WsTrade> {
    if op.Trades? then Timely(op.batch, op.at) else {}
  }

  /** Every print delivered in time. */
  function Delivered(ops: seq<Op>): set<WsTrade> {
    if ops == [] then {} else Delivered(Init(ops)) + PrintsIn(Last(ops))
  }

  /** Every bucket reached through the venue. */
  ghost function Reached(c: Chart, ops: seq<Op>): set<int>
    requires Inv(c)
    decreases |ops|
  {
    if ops == [] then {}
    else
      InvFacts(Run(c, Init(ops)));
      Reached(c, Init(ops)) + VenueReach(Run(c, Init(ops)), Last(ops))
  }

  lemma TradesReflect(c: Chart, batch: seq<WsTrade>, at: nat, p: set<WsTrade>, q: set<int>)
    requires Inv(c) && !Frozen(c) && 0 < Width(c) && Reflects(c, p, q)
    requires !Frozen(ObserveTrades(c, batch, at))
    ensures var r := ObserveTrades(c, batch, at); Width(r) == Width(c) && Reflects(r, p + Timely(batch, at), q)
  {
    hide Inv;
    hide Rows;
    hide Reflects;
    hide Sorted;
    SortedSameSet(batch);
    RowsReflect(c, Sorted(batch), at, p, q);
    assert forall t :: t in Sorted(batch) <==> t in SetOf(Sorted(batch));
    assert forall t :: t in batch <==> t in SetOf(batch);
    assert Timely(Sorted(batch), at) == Timely(batch, at);
  }

  lemma CandleReflects(c: Chart, k: Candle, at: nat, p: set<WsTrade>, q: set<int>)
    requires Inv(c) && 0 < Width(c) && Reflects(c, p, q)
    ensures var r := ObserveCandle(c, k, at);
            Width(r) == Width(c) && Reflects(r, p, q + VenueReach(c, WsCandle(k, at)))
  {
    hide Inv;
    hide ObserveCandle;
    hide AdvanceFloor;
    hide PlaceCandle;
    hide ValidateCandles;
    hide Reflects;
    CandleCases(c, k, at);
    var r := ObserveCandle(c, k, at);
    if TakesCandle(c, k, at) {
      PlacedCandle(c, k, at);
      AdvanceReflects(c, k.t, p, q);
      ReflectsFrame(AdvanceFloor(c, k.t), r, p, q + {k.t as int});
    } else {
      ReflectsFrame(c, r, p, q);
      assert q + {} == q;
      if k.t <= at + MAX_CLOCK_SKEW_MS && ValidateCandles(c, [k]).Ok? {
        StaleCandleReflects(r, k.t, p, q);
      }
    }
  }

  lemma StaleCandleReflects(c: Chart, b: int, p: set<WsTrade>, q: set<int>)
    requires 0 < Width(c) && Reflects(c, p, q) && b < c.floor
    ensures Reflects(c, p, q + {b})
  {
    hide FloorOf;
    hide BucketsOf;
    hide Retained;
    var all := BucketsOf(p, Width(c));
    BelowFloorReaches(c.floor, Width(c), all + q, b);
    assert all + q + {b} == all + (q + {b});
  }

  lemma HistoryReflects(
    c: Chart, ticket: Ticket, outcome: Result<Snapshot, string>, at: nat, p: set<WsTrade>, q: set<int>)
    requires Inv(c) && 0 < Width(c) && Reflects(c, p, q)
    ensures var r := FinishHistory(c, ticket, outcome, at).0;
            Width(r) == Width(c) && Reflects(r, p, q + VenueReach(c, HistoryDone(ticket, outcome, at)))
  {
    hide Inv;
    hide FinishHistory;
    hide AdvanceFloor;
    hide PlaceHistory;
    hide ValidateCandles;
    hide Reflects;
    HistoryCases(c, ticket, outcome, at);
    var r := FinishHistory(c, ticket, outcome, at).0;
    assert q + {} == q;
    if TakesHistory(c, ticket, outcome, at) {
      var candles := outcome.value.candles;
      var bars := ValidateCandles(c, candles).value;
      ValidatedCandles(c, candles);
      PlacedHistory(c, bars, outcome.value.priceDecimals, at);
      if candles == [] {
        ReflectsFrame(c, r, p, q);
      } else {
        assert bars[|bars| - 1] == BarOf(candles[|candles| - 1]);
        AdvanceReflects(c, Last(bars).openTime, p, q);
        ReflectsFrame(AdvanceFloor(c, Last(bars).openTime), r, p, q + {Last(candles).t as int});
      }
    } else {
      ReflectsFrame(c, r, p, q);
    }
  }

  lemma QuietStepReflects(c: Chart, op: Op, p: set<WsTrade>, q: set<int>)
    requires 0 < Width(c) && Reflects(c, p, q)
    requires op.InterruptFeed? || op.TransportDown? || op.AskHistory? || op.Show?
    ensures var r := Step(c, op); Width(r) == Width(c) && Reflects(r, p, q)
  {
    hide Reflects;
    hide ObserveTrades;
    hide ObserveCandle;
    hide FinishHistory;
    hide Rendered;
    ReflectsFrame(c, Step(c, op), p, q);
  }

  lemma StepReflects(c: Chart, op: Op, p: set<WsTrade>, q: set<int>)
    requires Inv(c) && !Frozen(c) && 0 < Width(c) && Reflects(c, p, q)
    requires !Frozen(Step(c, op))
    ensures var r := Step(c, op);
            Width(r) == Width(c) && Reflects(r, p + PrintsIn(op), q + VenueReach(c, op))
  {
    hide Inv;
    hide Frozen;
    hide Reflects;
    hide ObserveTrades;
    hide ObserveCandle;
    hide FinishHistory;
    hide Project;
    assert p + {} == p && q + {} == q;
    match op
    case Trades(batch, at) => TradesReflect(c, batch, at, p, q);
    case WsCandle(k, at) => CandleReflects(c, k, at, p, q);
    case HistoryDone(ticket, outcome, at) => HistoryReflects(c, ticket, outcome, at, p, q);
    case _ => QuietStepReflects(c, op, p, q);
  }

  lemma ThawsNever(c: Chart, op: Op)
    requires Inv(c) && 0 < Width(c) && !Frozen(Step(c, op))
    ensures !Frozen(c)
  {
    hide Inv;
    hide Step;
    if Frozen(c) {
      StepStaysFrozen(c, op);
      FrozenIsFrozen(c, Step(c, op));
    }
  }

  /** After any unfrozen run the floor and the retained prints are those of what was delivered. */
  lemma {:induction false} RunReflects(c: Chart, ops: seq<Op>)
    requires Inv(c) && 0 < Width(c) && Reflects(c, {}, {}) && !Frozen(Run(c, ops))
    ensures var r := Run(c, ops); Width(r) == Width(c) && Reflects(r, Delivered(ops), Reached(c, ops))
    decreases |ops|
  {
    hide Inv;
    hide Step;
    hide Frozen;
    hide Reflects;
    hide VenueReach;
    hide PrintsIn;
    if ops != [] {
      var prev := Run(c, Init(ops));
      InvFacts(prev);
      ThawsNever(prev, Last(ops));
      RunReflects(c, Init(ops));
      StepReflects(prev, Last(ops), Delivered(Init(ops)), Reached(c, Init(ops)));
    }
  }

  /** Two tapes with the same buckets and, apart from receipt times, the same bars. */
  ghost predicate SameTapeBars(c: Chart, d: Chart) {
    && c.tape.Keys == d.tape.Keys
    && forall k :: k in c.tape ==> c.tape[k].(received := 0) == d.tape[k].(received := 0)
  }

  /** What was delivered determines the floor, the prints and the bars. */
  lemma ReflectionIsUnique(c: Chart, d: Chart, p: set<WsTrade>, q: set<int>)
    requires Inv(c) && Inv(d) && SameChart(c, d) && 0 < Width(c) && 0 < Width(d)
    requires Reflects(c, p, q) && Reflects(d, p, q)
    ensures c.floor == d.floor && c.identities == d.identities && SameTapeBars(c, d)
  {
    hide Inv;
    hide Window;
    hide Ids;
    hide Tape;
    hide FloorOf;
    hide Retained;
    hide SameTapeBars;
    InvFacts(c);
    InvFacts(d);
    WindowFacts(c);
    WindowFacts(d);
    FloorUnique(c.floor, d.floor, Width(c), BucketsOf(p, Width(c)) + q);
    SameIdentities(c, d, p);
    SameIdentities(d, c, p);
    assert c.identities == d.identities;
    TapesAgree(c, d);
  }

  lemma SameIdentities(c: Chart, d: Chart, p: set<WsTrade>)
    requires Inv(c) && SameChart(c, d) && 0 < Width(c) && c.floor == d.floor
    requires Retained(c, p) && Retained(d, p)
    ensures forall k :: k in c.identities ==> k in d.identities && d.identities[k] == c.identities[k]
  {
    hide Tape;
    hide BucketStart;
    hide Widths;
    hide Aligned;
    forall k | k in c.identities ensures k in d.identities && d.identities[k] == c.identities[k] {
      var t := c.identities[k];
      assert t in p && KeyOf(t) == k;
      AlignedFloorKeepsBucket(c.floor, k.time, Width(c));
      assert TradeBucket(d, t) == TradeBucket(c, t);
    }
  }

  lemma TapesAgree(c: Chart, d: Chart)
    requires Inv(c) && Inv(d) && SameChart(c, d) && 0 < Width(c) && c.identities == d.identities
    ensures SameTapeBars(c, d)
  {
    hide Window;
    hide BucketStart;
    hide TapeOf;
    InvFacts(c);
    InvFacts(d);
    forall k | k in c.tape ensures k in d.tape {
      TapeBucketOccupied(c, k);
    }
    forall k | k in d.tape ensures k in c.tape {
      TapeBucketOccupied(d, k);
    }
    forall k | k in c.tape ensures c.tape[k].(received := 0) == d.tape[k].(received := 0) {
      TapeUnique(c.tape[k], d.tape[k], InBucket(c.identities, k, Width(c)), k, Width(c));
    }
  }

  lemma TapeBucketOccupied(c: Chart, k: int)
    requires Tape(c) && k in c.tape
    ensures 0 < Width(c) && exists x :: x in c.identities && BucketStart(x.time, Width(c)) == k
  {
    hide BucketStart;
    hide SumSz;
    var x := c.tape[k].first;
    assert x in InBucket(c.identities, k, Width(c));
  }

  /** The tape is an order-independent view. Take any two runs from a new chart, of any calls
      whatever, that do not freeze. If the same prints were delivered within the clock tolerance
      and the same buckets were reached through the venue — in any order, batched or replayed in
      any way, whatever else happened — they end with the same floor, the same retained prints
      and the same bars. */
  lemma OrderDoesNotMatter(c: Chart, ops: seq<Op>, ops': seq<Op>)
    requires Inv(c) && c.floor == 0 && c.identities == map[]
    requires Delivered(ops) == Delivered(ops') && Reached(c, ops) == Reached(c, ops')
    requires !Frozen(Run(c, ops)) && !Frozen(Run(c, ops'))
    ensures var r, r' := Run(c, ops), Run(c, ops');
            r.floor == r'.floor && r.identities == r'.identities && SameTapeBars(r, r')
  {
    hide Inv;
    hide Run;
    hide Frozen;
    hide Delivered;
    hide Reached;
    hide SameTapeBars;
    InvFacts(c);
    NothingReflectsNothing(c);
    RunReflects(c, ops);
    RunReflects(c, ops');
    ReflectionIsUnique(Run(c, ops), Run(c, ops'), Delivered(ops), Reached(c, ops));
  }

  lemma NothingReflectsNothing(c: Chart)
    requires 0 < Width(c) && c.floor == 0 && c.identities == map[]
    ensures Reflects(c, {}, {})
  {
    assert BucketsOf({}, Width(c)) == {};
  }

  // ---- the marker --------------------------------------------------------------------------------

  /** The marker is the greatest retained print, in doubt whenever its instant has two prices;
      when `exact`, only then. */
  ghost predicate MarkerOf(m: Option<Marker>, ids: Prints, exact: bool) {
    && (m.None? <==> ids == map[])
    && (m.Some? ==>
          var k, shown := m.value.key, m.value.shown;
          && k in ids && (forall x :: x in ids ==> !Before(k, x))
          && shown.time == k.time && shown.price == ids[k].px
          && (TwoPrices(ids, k.time) ==> shown.priceAmbiguous)
          && (exact && shown.priceAmbiguous ==> TwoPrices(ids, k.time)))
  }

  ghost predicate TwoPrices(ids: Prints, time: nat) {
    exists x, y :: x in ids && y in ids && x.time == time && y.time == time && ids[x].px != ids[y].px
  }

  lemma SamePricesAbove(ids: Prints, kept: Prints, floor: int, time: nat)
    requires floor <= time
    requires forall k :: k in kept <==> k in ids && floor <= k.time
    requires forall k :: k in kept ==> kept[k] == ids[k]
    ensures TwoPrices(kept, time) <==> TwoPrices(ids, time)
  {
    if TwoPrices(ids, time) {
      var x, y :| x in ids && y in ids && x.time == time && y.time == time && ids[x].px != ids[y].px;
      assert x in kept && y in kept;
    }
  }

  /** One more print adds a second price at its own instant, or none anywhere. */
  lemma PricesWith(ids: Prints, t: WsTrade, k: Key)
    requires KeyOf(t) !in ids && k in ids
    ensures var n := ids[KeyOf(t) := t];
            TwoPrices(n, k.time) <==> TwoPrices(ids, k.time) || (t.time == k.time && t.px != ids[k].px)
  {
    var n := ids[KeyOf(t) := t];
    if TwoPrices(ids, k.time) {
      var x, y :| x in ids && y in ids && x.time == k.time && y.time == k.time && ids[x].px != ids[y].px;
      assert x in n && y in n;
    }
    if t.time == k.time && t.px != ids[k].px {
      assert k in n && KeyOf(t) in n;
    }
  }

  lemma LatestIsAlone(ids: Prints, t: WsTrade)
    requires forall k :: k in ids ==> k.time < t.time
    ensures !TwoPrices(ids[KeyOf(t) := t], t.time)
  {
  }

  lemma MarkIsMax(m: Option<Marker>, ids: Prints, kept: Prints, floor: int, t: WsTrade, exact: bool)
    requires MarkerOf(m, ids, exact) && KeyOf(t) !in ids && floor <= t.time
    requires forall k :: k in kept <==> k in ids && floor <= k.time
    requires forall k :: k in kept ==> kept[k] == ids[k]
    ensures MarkerOf(MarkWith(m, t), kept[KeyOf(t) := t], exact)
  {
    hide TwoPrices;
    var n := kept[KeyOf(t) := t];
    assert KeyOf(t) in n && n[KeyOf(t)] == t;
    if m.None? || m.value.key.time < t.time {
      LatestIsAlone(kept, t);
    } else {
      var k := m.value.key;
      assert k in kept && n[k] == ids[k];
      SamePricesAbove(ids, kept, floor, k.time);
      PricesWith(kept, t, k);
    }
  }

  lemma DoubtKeepsMarker(m: Option<Marker>, ids: Prints)
    requires MarkerOf(m, ids, false)
    ensures MarkerOf(Doubted(m), ids, false)
  {
    hide TwoPrices;
  }

  lemma FreshKeepsMarker(c: Chart, t: WsTrade, at: nat, exact: bool)
    requires Inv(c) && 0 < Width(c) && MarkerOf(c.marker, c.identities, exact)
    requires (exact ==> t.time <= at) && Judge(c, t, at).Fresh?
    ensures var r := ObserveRow(c, t, at).0; MarkerOf(r.marker, r.identities, exact)
  {
    hide Inv;
    hide Judge;
    hide BucketStart;
    hide AdvanceFloor;
    hide MarkWith;
    hide MarkerOf;
    hide FoldPrint;
    hide NewTapeBar;
    hide Doubted;
    InvFacts(c);
    var b := TradeBucket(c, t);
    var c' := AdvanceFloor(c, b);
    JudgeFacts(c, t, at);
    BucketContains(t.time, Width(c));
    FloorRetains(c, b);
    FloorKeepsWindow(c, b);
    RowAdvances(c, t, at);
    FloorBelowBucket(c', b);
    MarkIsMax(c.marker, c.identities, c'.identities, c'.floor, t, exact);
    if t.time > at {
      DoubtKeepsMarker(MarkWith(c.marker, t), c'.identities[KeyOf(t) := t]);
    }
  }

  lemma RowKeepsMarker(c: Chart, t: WsTrade, at: nat, exact: bool)
    requires Inv(c) && !Frozen(c) && 0 < Width(c) && MarkerOf(c.marker, c.identities, exact)
    requires (exact ==> t.time <= at) && !Frozen(ObserveRow(c, t, at).0)
    ensures var r := ObserveRow(c, t, at).0; MarkerOf(r.marker, r.identities, exact)
  {
    hide Inv;
    hide Judge;
    hide BucketStart;
    hide AdvanceFloor;
    hide Accept;
    hide MarkerOf;
    JudgeFacts(c, t, at);
    if Judge(c, t, at).Fresh? {
      FreshKeepsMarker(c, t, at, exact);
    }
  }

  lemma {:induction false} RowsKeepMarker(c: Chart, rows: seq<WsTrade>, at: nat, exact: bool)
    requires Inv(c) && !Frozen(c) && 0 < Width(c) && MarkerOf(c.marker, c.identities, exact)
    requires forall i :: 0 <= i < |rows| && exact ==> rows[i].time <= at
    requires !Frozen(Rows(c, rows, at).0)
    ensures var r := Rows(c, rows, at).0; MarkerOf(r.marker, r.identities, exact)
    decreases |rows|
  {
    hide Inv;
    hide ObserveRow;
    hide MarkerOf;
    if rows != [] {
      RowKeepsInv(c, rows[0], at);
      RowIsObserved(c, rows[0], at);
      RowKeepsMarker(c, rows[0], at, exact);
      RowsKeepMarker(ObserveRow(c, rows[0], at).0, rows[1..], at, exact);
    }
  }

  /** Calls that reach no bucket through the venue. */
  predicate TapeOp(op: Op) {
    op.Trades? || op.InterruptFeed? || op.AskHistory? || op.Show?
  }

  ghost predicate TradesOnly(ops: seq<Op>) {
    forall i :: 0 <= i < |ops| ==> TapeOp(ops[i])
  }

  /** No print was received before its own timestamp. */
  predicate InTime(op: Op) {
    op.Trades? ==> forall i :: 0 <= i < |op.batch| ==> op.batch[i].time <= op.at
  }

  ghost predicate OnTime(ops: seq<Op>) {
    forall i :: 0 <= i < |ops| ==> InTime(ops[i])
  }

  lemma QuietStepKeepsMarker(c: Chart, op: Op)
    requires 0 < Width(c) && (op.InterruptFeed? || op.AskHistory? || op.Show?)
    ensures Step(c, op).marker == c.marker && Step(c, op).identities == c.identities
  {
    hide ObserveTrades;
    hide ObserveCandle;
    hide FinishHistory;
    hide Rendered;
  }

  lemma TradesKeepMarker(c: Chart, batch: seq<WsTrade>, at: nat, exact: bool)
    requires Inv(c) && !Frozen(c) && 0 < Width(c) && MarkerOf(c.marker, c.identities, exact)
    requires (exact ==> InTime(Trades(batch, at))) && !Frozen(ObserveTrades(c, batch, at))
    ensures var r := ObserveTrades(c, batch, at); MarkerOf(r.marker, r.identities, exact)
  {
    hide Inv;
    hide Rows;
    hide Sorted;
    hide MarkerOf;
    var rows := Sorted(batch);
    SortedSameSet(batch);
    forall i | 0 <= i < |rows| && exact ensures rows[i].time <= at {
      assert rows[i] in SetOf(rows);
    }
    RowsKeepMarker(c, rows, at, exact);
  }

  lemma {:induction false} RunKeepsMarker(c: Chart, ops: seq<Op>, exact: bool)
    requires Inv(c) && MarkerOf(c.marker, c.identities, exact) && TradesOnly(ops) && !Frozen(Run(c, ops))
    requires exact ==> OnTime(ops)
    ensures var r := Run(c, ops); MarkerOf(r.marker, r.identities, exact)
    decreases |ops|
  {
    hide Inv;
    hide Frozen;
    hide ObserveTrades;
    hide ObserveCandle;
    hide FinishHistory;
    hide Project;
    hide MarkerOf;
    hide InTime;
    if ops != [] {
      var prev, op := Run(c, Init(ops)), ops[|ops| - 1];
      assert TapeOp(op) && (exact ==> InTime(op));
      InvFacts(prev);
      ThawsNever(prev, op);
      RunKeepsMarker(c, Init(ops), exact);
      if op.Trades? {
        TradesKeepMarker(prev, op.batch, op.at, exact);
      } else {
        QuietStepKeepsMarker(prev, op);
      }
    }
  }

  lemma MarkerUnique(m: Option<Marker>, n: Option<Marker>, ids: Prints, exact: bool)
    requires MarkerOf(m, ids, exact) && MarkerOf(n, ids, exact)
    ensures m.Some? == n.Some? && (exact ==> m == n)
    ensures m.Some? ==> m.value.key == n.value.key && m.value.shown.time == n.value.shown.time
                        && m.value.shown.price == n.value.shown.price
  {
    hide TwoPrices;
    if m.Some? {
      assert !Before(m.value.key, n.value.key) && !Before(n.value.key, m.value.key);
      assert m.value.key == n.value.key;
    }
  }

  /** What the marker shows does not depend on order either, over trades-only runs: it is the
      greatest retained print. Its doubt does not when prints come no earlier than their own
      timestamps: it is then in doubt exactly when its instant has two prices. */
  lemma MarkerDoesNotDependOnOrder(c: Chart, ops: seq<Op>, ops': seq<Op>)
    requires Inv(c) && c.floor == 0 && c.identities == map[] && c.marker.None?
    requires TradesOnly(ops) && TradesOnly(ops') && Delivered(ops) == Delivered(ops')
    requires !Frozen(Run(c, ops)) && !Frozen(Run(c, ops'))
    ensures var r, r' := Run(c, ops), Run(c, ops'); var exact := OnTime(ops) && OnTime(ops');
            && MarkerOf(r.marker, r.identities, exact) && MarkerOf(r'.marker, r.identities, exact)
            && r.marker.Some? == r'.marker.Some?
            && (r.marker.Some? ==> r.marker.value.shown.price == r'.marker.value.shown.price
                                   && r.marker.value.shown.time == r'.marker.value.shown.time)
            && (exact ==> r.marker == r'.marker)
  {
    hide Inv;
    hide Run;
    hide Frozen;
    hide Delivered;
    hide Reached;
    hide SameTapeBars;
    hide TwoPrices;
    hide OnTime;
    var exact := OnTime(ops) && OnTime(ops');
    InvFacts(c);
    TradesReachNothing(c, ops);
    TradesReachNothing(c, ops');
    OrderDoesNotMatter(c, ops, ops');
    RunKeepsMarker(c, ops, exact);
    RunKeepsMarker(c, ops', exact);
    MarkerUnique(Run(c, ops).marker, Run(c, ops').marker, Run(c, ops).identities, exact);
  }

  lemma {:induction false} TradesReachNothing(c: Chart, ops: seq<Op>)
    requires Inv(c) && TradesOnly(ops)
    ensures Reached(c, ops) == {}
    decreases |ops|
  {
    hide Inv;
    hide Run;
    if ops != [] {
      assert TapeOp(ops[|ops| - 1]);
      TradesReachNothing(c, Init(ops));
    }
  }
}
