/** The live chart as a value: its state and what each call makes of it. Class `LiveChart` is
    proved against these functions; modules `ChartTape` and `ChartRuns` prove what they promise. */
module Chart {
  import opened Common
  import opened Bars
  import I = Intervals

  const HISTORY_BARS: int := 600
  const MAX_IDENTITIES: nat := 65_536
  const MAX_CLOCK_SKEW_MS: nat := 5_000
  /** The largest amount a decimal can hold. */
  const DECIMAL_MAX: real := 79228162514264337593543950335.0

  datatype Key = Key(time: nat, tid: nat)

  datatype WsTrade = WsTrade(
    coin: string, buy: bool, px: real, sz: real, time: nat, hash: string, tid: nat, users: seq<string>)

  datatype Candle = Candle(
    s: string, i: string, t: nat, tClose: nat,
    o: real, h: real, l: real, c: real, v: real, n: U32)

  datatype TapeStatus = Observing | Interrupted | CapacityExceeded | InvalidObservation
  datatype BarSource = Venue | ObservedTrades

  datatype VenueBar = VenueBar(bar: Bar, received: nat, ws: bool)

  datatype TapeBar = TapeBar(
    bar: Bar, first: Key, last: Key, firstAmbiguous: bool, lastAmbiguous: bool, received: nat)

  datatype TradeMarker = TradeMarker(time: nat, price: real, priceAmbiguous: bool)
  datatype Marker = Marker(key: Key, shown: TradeMarker)

  /** A history request's identity: which chart issued it, and which request of that chart. */
  datatype Ticket = Ticket(owner: nat, request: nat)

  datatype Snapshot = Snapshot(candles: seq<Candle>, priceDecimals: nat)

  datatype CandleError = WindowExceeded | BadOhlcv | OffAxis | NotAscending | StartsAfterReceipt
  datatype ChartError = BadSymbol | Invalid(reason: CandleError) | Superseded

  /** The messages the chart shows, by name rather than by wording. */
  datatype Notice =
    | BadTimestamp | BadTrade | SkewIgnored | IdentityConflict | IdentityCapacity | VolumeOverflow
    | BatchTooLarge | ClockSkew | CandleSkew | InvalidCandle(reason: CandleError)
    | HistoryFailed(text: string) | TransportFailed(text: string) | ClockRolledBack

  datatype Chart = Chart(
    symbol: string, interval: I.Interval, precision: Option<nat>,
    owner: nat, request: nat, revision: nat,
    classification: Option<nat>, clockRollback: bool, floor: int,
    venue: map<int, VenueBar>, tape: map<int, TapeBar>, identities: map<Key, WsTrade>,
    marker: Option<Marker>, status: TapeStatus,
    historyError: Option<Notice>, observationError: Option<Notice>, transportError: Option<string>,
    received: Option<nat>)

  function Width(c: Chart): int {
    I.Millis(c.interval)
  }

  function New(symbol: string, interval: I.Interval, precision: Option<nat>, owner: nat): Result<Chart, ChartError> {
    if symbol == [] || |symbol| > 256 then Err(BadSymbol)
    else Ok(Chart(symbol, interval, precision, owner, 0, 0, None, false, 0, map[], map[], map[],
                  None, Observing, None, None, None, None))
  }

  // ---- shared pieces -------------------------------------------------------------------------

  function Changed(c: Chart): Chart {
    c.(revision := c.revision + 1)
  }

  predicate Frozen(c: Chart) {
    c.transportError.Some? || c.status == CapacityExceeded || c.status == InvalidObservation
  }

  function Doubted(m: Option<Marker>): Option<Marker> {
    match m
    case None => None
    case Some(k) => Some(k.(shown := k.shown.(priceAmbiguous := true)))
  }

  function Freeze(c: Chart, status: TapeStatus, detail: Notice): Chart {
    Changed(c.(status := status, observationError := Some(detail), marker := Doubted(c.marker)))
  }

  function Later(received: Option<nat>, at: nat): Option<nat> {
    Some(if received.Some? && received.value > at then received.value else at)
  }

  function Received(c: Chart, at: nat): Chart {
    c.(received := Later(c.received, at))
  }

  function NextFloor(floor: int, bucket: int, width: int): int {
    Max(floor, bucket - Widths(HISTORY_BARS - 1, width))
  }

  function From<V>(bars: map<int, V>, floor: int): map<int, V> {
    map k | k in bars && k >= floor :: bars[k]
  }

  function IdentitiesFrom(ids: map<Key, WsTrade>, floor: int): map<Key, WsTrade> {
    map k | k in ids && k.time >= floor :: ids[k]
  }

  function AdvanceFloor(c: Chart, bucket: int): Chart {
    var next := NextFloor(c.floor, bucket, Width(c));
    if next == c.floor then c
    else c.(floor := next, venue := From(c.venue, next), tape := From(c.tape, next),
            identities := IdentitiesFrom(c.identities, next))
  }

  // ---- the trade tape ------------------------------------------------------------------------

  function KeyOf(t: WsTrade): Key {
    Key(t.time, t.tid)
  }

  predicate Before(a: Key, b: Key) {
    a.time < b.time || (a.time == b.time && a.tid < b.tid)
  }

  /** Stable insertion by `(time, tid)`. */
  function Insert(t: WsTrade, rows: seq<WsTrade>): seq<WsTrade> {
    if rows == [] || !Before(KeyOf(rows[0]), KeyOf(t)) then [t] + rows
    else [rows[0]] + Insert(t, rows[1..])
  }

  function Sorted(rows: seq<WsTrade>): seq<WsTrade> {
    if rows == [] then [] else Insert(rows[0], Sorted(rows[1..]))
  }

  predicate TimeInRange(t: WsTrade) {
    t.time <= MAX_TIME_MS
  }

  predicate WellFormed(c: Chart, t: WsTrade) {
    t.coin == c.symbol && t.px > 0.0 && t.sz > 0.0 && |t.hash| <= 128 && |t.users| <= 2
  }

  function NewTapeBar(t: WsTrade, bucket: int, width: int, at: nat): TapeBar {
    TapeBar(Bar(bucket, bucket + width - 1, t.px, t.px, t.px, t.px, 0.0, 0),
            KeyOf(t), KeyOf(t), false, false, at)
  }

  /** Fold one new print into its bucket, whatever order prints arrive in. */
  function FoldPrint(b: TapeBar, t: WsTrade, at: nat): TapeBar {
    var key := KeyOf(t);
    var firstAmb := (b.firstAmbiguous && key.time >= b.first.time)
                    || (key.time == b.first.time && t.px != b.bar.open);
    var lastAmb := (b.lastAmbiguous && key.time <= b.last.time)
                   || (key.time == b.last.time && t.px != b.bar.close);
    TapeBar(
      b.bar.(open := if Before(key, b.first) then t.px else b.bar.open,
             close := if Before(b.last, key) then t.px else b.bar.close,
             high := MaxReal(b.bar.high, t.px),
             low := MinReal(b.bar.low, t.px),
             volume := b.bar.volume + t.sz,
             trades := SaturatingAdd(b.bar.trades, 1)),
      if Before(key, b.first) then key else b.first,
      if Before(b.last, key) then key else b.last,
      firstAmb, lastAmb,
      if b.received > at then b.received else at)
  }

  function MarkWith(m: Option<Marker>, t: WsTrade): Option<Marker> {
    var key := KeyOf(t);
    var mine := Some(Marker(key, TradeMarker(t.time, t.px, false)));
    match m
    case None => mine
    case Some(k) =>
      if key.time == k.key.time then
        var amb := k.shown.priceAmbiguous || k.shown.price != t.px;
        if Before(k.key, key) then Some(Marker(key, k.shown.(price := t.px, priceAmbiguous := amb)))
        else Some(k.(shown := k.shown.(priceAmbiguous := amb)))
      else if Before(key, k.key) then m
      else mine
  }

  function TapeVolume(c: Chart, bucket: int): real {
    if bucket in c.tape then c.tape[bucket].bar.volume else 0.0
  }

  function FoldedTape(tape: map<int, TapeBar>, t: WsTrade, bucket: int, width: int, at: nat): map<int, TapeBar> {
    tape[bucket := FoldPrint(
      if bucket in tape then tape[bucket] else NewTapeBar(t, bucket, width, at), t, at)]
  }

  function MarkedBy(m: Option<Marker>, t: WsTrade, at: nat): Option<Marker> {
    if t.time > at then Doubted(MarkWith(m, t)) else MarkWith(m, t)
  }

  function SkewNote(e: Option<Notice>, uncertain: bool): Option<Notice> {
    if uncertain then Some(ClockSkew) else if e == Some(ClockSkew) then None else e
  }

  /** A new identity inside the window, with the floor already advanced. */
  function Accept(c: Chart, t: WsTrade, bucket: int, at: nat): Chart {
    c.(tape := FoldedTape(c.tape, t, bucket, Width(c), at),
       marker := MarkedBy(c.marker, t, at),
       observationError := SkewNote(c.observationError, t.time > at),
       identities := c.identities[KeyOf(t) := t],
       status := Observing,
       received := Later(c.received, at),
       revision := c.revision + 1)
  }

  /** What a row is, in the order the checks are made. */
  datatype Verdict =
    | Malformed(detail: Notice) | Skewed | Stale | Conflicting | Replayed | NoRoom | Overflow | Fresh

  function TradeBucket(c: Chart, t: WsTrade): int
    requires 0 < Width(c)
  {
    BucketStart(t.time, Width(c))
  }

  function Judge(c: Chart, t: WsTrade, at: nat): Verdict
    requires 0 < Width(c)
  {
    if !TimeInRange(t) then Malformed(BadTimestamp)
    else if !WellFormed(c, t) then Malformed(BadTrade)
    else if t.time > at + MAX_CLOCK_SKEW_MS then Skewed
    else if TradeBucket(c, t) < c.floor then Stale
    else if KeyOf(t) in c.identities then
      if c.identities[KeyOf(t)] != t then Conflicting else Replayed
    else
      var c' := AdvanceFloor(c, TradeBucket(c, t));
      if |c'.identities| >= MAX_IDENTITIES then NoRoom
      else if TapeVolume(c', TradeBucket(c, t)) + t.sz > DECIMAL_MAX then Overflow
      else Fresh
  }

  /** One row of a batch; the flag says the batch stops here. */
  function ObserveRow(c: Chart, t: WsTrade, at: nat): (Chart, bool)
    requires 0 < Width(c)
  {
    var bucket := TradeBucket(c, t);
    match Judge(c, t, at)
    case Malformed(detail) => (Freeze(c, InvalidObservation, detail), true)
    case Skewed =>
      (Changed(c.(observationError := Some(SkewIgnored))), false)
    case Stale => (c, false)
    case Conflicting => (Freeze(c, InvalidObservation, IdentityConflict), true)
    case Replayed => (Changed(Received(c, at)), false)
    case NoRoom =>
      (Freeze(AdvanceFloor(c, bucket), CapacityExceeded, IdentityCapacity), true)
    case Overflow => (Freeze(AdvanceFloor(c, bucket), InvalidObservation, VolumeOverflow), true)
    case Fresh => (Accept(AdvanceFloor(c, bucket), t, bucket, at), false)
  }

  /** Same market, same axis, same chart. */
  predicate SameChart(c: Chart, r: Chart) {
    r.interval == c.interval && r.symbol == c.symbol && r.owner == c.owner
  }

  /** What an observation leaves alone: which chart it is, its requests and its clock. */
  predicate Framed(c: Chart, r: Chart) {
    && SameChart(c, r) && r.request == c.request
    && r.classification == c.classification && r.clockRollback == c.clockRollback
  }

  /** A framed state, and a different one only under a higher revision. */
  predicate Observed(c: Chart, r: Chart) {
    Framed(c, r) && (r == c || c.revision < r.revision)
  }

  lemma FloorIsFramed(c: Chart, bucket: int)
    ensures Framed(c, AdvanceFloor(c, bucket)) && AdvanceFloor(c, bucket).revision == c.revision
  {
    hide NextFloor;
    hide From;
    hide IdentitiesFrom;
    hide I.Millis;
  }

  lemma AcceptIsFramed(c: Chart, t: WsTrade, bucket: int, at: nat)
    ensures Framed(c, Accept(c, t, bucket, at)) && Accept(c, t, bucket, at).revision == c.revision + 1
  {
    hide FoldedTape;
    hide MarkedBy;
    hide SkewNote;
    hide Later;
    hide I.Millis;
  }

  lemma PiecesAreFramed(c: Chart, t: WsTrade, bucket: int, at: nat, status: TapeStatus, detail: Notice)
    ensures Framed(c, AdvanceFloor(c, bucket)) && AdvanceFloor(c, bucket).revision == c.revision
    ensures Framed(c, Accept(c, t, bucket, at)) && Accept(c, t, bucket, at).revision == c.revision + 1
    ensures Framed(c, Freeze(c, status, detail)) && Freeze(c, status, detail).revision == c.revision + 1
  {
    hide AdvanceFloor;
    hide Accept;
    hide Doubted;
    FloorIsFramed(c, bucket);
    AcceptIsFramed(c, t, bucket, at);
  }

  lemma RowIsObserved(c: Chart, t: WsTrade, at: nat)
    requires 0 < Width(c)
    ensures Observed(c, ObserveRow(c, t, at).0)
  {
    hide Judge;
    hide TradeBucket;
    hide AdvanceFloor;
    hide Accept;
    hide Freeze;
    var bucket := TradeBucket(c, t);
    var c' := AdvanceFloor(c, bucket);
    PiecesAreFramed(c, t, bucket, at, Observing, BadTrade);
    match Judge(c, t, at)
    case Malformed(d) => PiecesAreFramed(c, t, bucket, at, InvalidObservation, d);
    case Conflicting => PiecesAreFramed(c, t, bucket, at, InvalidObservation, IdentityConflict);
    case NoRoom => PiecesAreFramed(c', t, bucket, at, CapacityExceeded, IdentityCapacity);
    case Overflow => PiecesAreFramed(c', t, bucket, at, InvalidObservation, VolumeOverflow);
    case Fresh => PiecesAreFramed(c', t, bucket, at, Observing, BadTrade);
    case _ =>
  }

  function Rows(c: Chart, rows: seq<WsTrade>, at: nat): (Chart, bool)
    requires 0 < Width(c)
    decreases |rows|
  {
    if rows == [] then (c, false)
    else
      var (c', stop) := ObserveRow(c, rows[0], at);
      RowIsObserved(c, rows[0], at);
      if stop then (c', true) else Rows(c', rows[1..], at)
  }

  function ObserveTrades(c: Chart, trades: seq<WsTrade>, at: nat): Chart
    requires 0 < Width(c)
  {
    if Frozen(c) then c
    else if |trades| > MAX_IDENTITIES then
      Freeze(c, CapacityExceeded, BatchTooLarge)
    else Rows(c, Sorted(trades), at).0
  }

  // ---- venue candles ---------------------------------------------------------------------------

  predicate GoodCandle(c: Chart, k: Candle) {
    && k.s == c.symbol && k.i == I.Print(c.interval)
    && k.o > 0.0 && k.c > 0.0 && k.l > 0.0
    && k.h >= k.l && k.h >= k.o && k.h >= k.c && k.l <= k.o && k.l <= k.c && k.v >= 0.0
  }

  /** Aligned, one width wide, and in range. */
  predicate OnAxis(c: Chart, k: Candle)
    requires 0 < Width(c)
  {
    k.t <= MAX_TIME_MS && k.tClose <= MAX_TIME_MS && Aligned(k.t, Width(c)) && k.tClose - k.t + 1 == Width(c)
  }

  function BarOf(k: Candle): Bar {
    Bar(k.t, k.tClose, k.o, k.h, k.l, k.c, k.v, k.n)
  }

  function ValidateCandles(c: Chart, candles: seq<Candle>): Result<seq<Bar>, CandleError>
    requires 0 < Width(c)
  {
    if |candles| > HISTORY_BARS + 1 then Err(WindowExceeded)
    else if exists i :: 0 <= i < |candles| && !GoodCandle(c, candles[i]) then
      Err(BadOhlcv)
    else if exists i :: 0 <= i < |candles| && !OnAxis(c, candles[i]) then Err(OffAxis)
    else if exists i :: 0 < i < |candles| && candles[i - 1].t >= candles[i].t then
      Err(NotAscending)
    else Ok(seq(|candles|, i requires 0 <= i < |candles| => BarOf(candles[i])))
  }

  function PlaceCandle(c: Chart, k: Candle, at: nat): Chart {
    var c' := AdvanceFloor(c, k.t);
    Changed(Received(c'.(venue := c'.venue[k.t as int := VenueBar(BarOf(k), at, true)]), at))
  }

  function ObserveCandle(c: Chart, k: Candle, at: nat): Chart
    requires 0 < Width(c)
  {
    if k.t > at + MAX_CLOCK_SKEW_MS then Changed(c.(observationError := Some(CandleSkew)))
    else match ValidateCandles(c, [k])
      case Err(e) => Changed(c.(observationError := Some(InvalidCandle(e))))
      case Ok(_) => if k.t < c.floor then c else PlaceCandle(c, k, at)
  }

  function Interrupt(c: Chart): Chart {
    if Frozen(c) then c else Changed(c.(status := Interrupted))
  }

  function Take512(s: string): string {
    if |s| > 512 then s[..512] else s
  }

  function ObservationFailed(c: Chart, detail: string): Chart {
    if c.transportError.Some? then c
    else Changed(c.(status := if Frozen(c) then c.status else Interrupted,
                    transportError := Some(Take512(detail)), marker := Doubted(c.marker)))
  }

  // ---- history ---------------------------------------------------------------------------------

  function BeginHistory(c: Chart): (Chart, Ticket) {
    (c.(request := c.request + 1), Ticket(c.owner, c.request + 1))
  }

  /** Rows the floor or a websocket candle does not shut out. */
  function Backfill(c: Chart, bars: seq<Bar>, at: nat): map<int, VenueBar> {
    if bars == [] then c.venue
    else
      var venue := Backfill(c, bars[..|bars| - 1], at);
      var bar := bars[|bars| - 1];
      if bar.openTime < c.floor || (bar.openTime in venue && venue[bar.openTime].ws) then venue
      else venue[bar.openTime := VenueBar(bar, at, false)]
  }

  function HistoryFloor(c: Chart, bars: seq<Bar>): Chart {
    if bars == [] then c else AdvanceFloor(c, Last(bars).openTime)
  }

  function PlaceHistory(c: Chart, bars: seq<Bar>, priceDecimals: nat, at: nat): Chart {
    var c1 := HistoryFloor(c, bars);
    var c2 := c1.(venue := Backfill(c1, bars, at), precision := Some(priceDecimals), historyError := None);
    Changed(if bars == [] then c2 else Received(c2, at))
  }

  function FinishHistory(c: Chart, ticket: Ticket, outcome: Result<Snapshot, string>, at: nat)
    : (Chart, Result<(), ChartError>)
    requires 0 < Width(c)
  {
    if ticket != Ticket(c.owner, c.request) then (c, Err(Superseded))
    else match outcome
      case Err(e) => (Changed(c.(historyError := Some(HistoryFailed(Take512(e))))), Ok(()))
      case Ok(snapshot) =>
        match ValidateCandles(c, snapshot.candles)
        case Err(e) => (Changed(c.(historyError := Some(InvalidCandle(e)))), Err(Invalid(e)))
        case Ok(bars) =>
          if bars != [] && Last(bars).openTime > at + MAX_CLOCK_SKEW_MS then
            (Changed(c.(historyError := Some(InvalidCandle(StartsAfterReceipt)))), Err(Invalid(StartsAfterReceipt)))
          else (PlaceHistory(c, bars, snapshot.priceDecimals, at), Ok(()))
  }

  // ---- projection ------------------------------------------------------------------------------

  datatype ObservedBar = ObservedBar(
    bar: Bar, source: BarSource, partial: bool, openCloseAmbiguous: bool, received: nat)

  /** `closed` is keyed by bucket; the list the program returns is this map in key order. */
  datatype Projection = Projection(
    symbol: string, interval: I.Interval, revision: nat, priceDecimals: Option<nat>,
    closed: map<int, ObservedBar>, forming: Option<ObservedBar>, latestTrade: Option<TradeMarker>,
    historyError: Option<Notice>, observationError: seq<Notice>,
    lastReceived: Option<nat>, tapeStatus: TapeStatus)

  function TapeView(t: TapeBar): ObservedBar {
    ObservedBar(t.bar, ObservedTrades, true, t.firstAmbiguous || t.lastAmbiguous, t.received)
  }

  function VenueView(v: VenueBar): ObservedBar {
    ObservedBar(v.bar, Venue, false, false, v.received)
  }

  /** Venue bars shadow tape bars. */
  function Merged(c: Chart): map<int, ObservedBar> {
    (map k | k in c.tape :: TapeView(c.tape[k])) + (map k | k in c.venue :: VenueView(c.venue[k]))
  }

  function ClosedBars(bars: map<int, ObservedBar>, width: int, now: nat): map<int, ObservedBar> {
    map k | k in bars && k + width <= now :: bars[k]
  }

  function FormingBar(bars: map<int, ObservedBar>, width: int, now: nat): Option<ObservedBar>
    requires 0 < width
  {
    var k := BucketStart(now, width);
    if k in bars then Some(bars[k]) else None
  }

  /** The parts of the shown error, in the order they are joined; none means no error. */
  function ShownErrors(c: Chart): seq<Notice> {
    (if c.observationError.Some? then [c.observationError.value] else [])
    + (if c.transportError.Some? then [TransportFailed(c.transportError.value)] else [])
    + (if c.clockRollback then [ClockRolledBack] else [])
  }

  /** What the chart shows at its own classification instant. */
  function Rendered(c: Chart): Projection
    requires 0 < Width(c) && c.classification.Some?
  {
    var now := c.classification.value;
    Projection(c.symbol, c.interval, c.revision, c.precision,
               ClosedBars(Merged(c), Width(c), now), FormingBar(Merged(c), Width(c), now),
               if c.marker.Some? then Some(c.marker.value.shown) else None,
               c.historyError, ShownErrors(c), c.received, c.status)
  }

  /** Move the classification clock, never back; count a change only when it is visible. */
  function Classify(c: Chart, now: nat): (r: Chart)
    requires 0 < Width(c)
    ensures r.classification.Some? && Width(r) == Width(c)
  {
    var at := if c.classification.Some? && c.classification.value > now then c.classification.value else now;
    var rollback := now < at;
    var moved := c.classification.None?
                 || c.classification.value / Width(c) != at / Width(c)
                 || c.clockRollback != rollback;
    (if moved then Changed(c) else c).(classification := Some(at), clockRollback := rollback)
  }

  function Project(c: Chart, now: nat): (Chart, Projection)
    requires 0 < Width(c)
  {
    var c' := Classify(c, now);
    (c', Rendered(c'))
  }
}
