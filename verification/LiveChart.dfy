/** The live chart component: fields updated in place, each call proved against module `Chart`. */
module LiveCharts {
  import opened Common
  import opened Bars
  import opened Chart
  import opened ChartTape
  import opened ChartRuns
  import I = Intervals

  /** One print folded into its bucket's bar, step by step. */
  method FoldRow(entry0: TapeBar, trade: WsTrade, at: nat) returns (entry: TapeBar)
    ensures entry == FoldPrint(entry0, trade, at)
  {
    var key := KeyOf(trade);
    entry := entry0;
    if key.time < entry.first.time {
      entry := entry.(firstAmbiguous := false);
    }
    if key.time == entry.first.time && trade.px != entry.bar.open {
      entry := entry.(firstAmbiguous := true);
    }
    if Before(key, entry.first) {
      entry := entry.(first := key, bar := entry.bar.(open := trade.px));
    }
    if key.time > entry.last.time {
      entry := entry.(lastAmbiguous := false);
    }
    if key.time == entry.last.time && trade.px != entry.bar.close {
      entry := entry.(lastAmbiguous := true);
    }
    if Before(entry.last, key) {
      entry := entry.(last := key, bar := entry.bar.(close := trade.px));
    }
    entry := entry.(
      bar := entry.bar.(high := MaxReal(entry.bar.high, trade.px),
                        low := MinReal(entry.bar.low, trade.px),
                        volume := entry.bar.volume + trade.sz,
                        trades := SaturatingAdd(entry.bar.trades, 1)),
      received := if entry.received > at then entry.received else at);
  }

  lemma {:induction false} LeastExists(s: set<int>)
    requires s != {}
    ensures exists k :: k in s && forall j :: j in s ==> k <= j
    decreases |s|
  {
    assert (forall x :: x !in s) ==> s == {};
    var x :| x in s;
    var rest := s - {x};
    var k := x;
    if rest != {} {
      LeastExists(rest);
      var y :| y in rest && forall j :: j in rest ==> y <= j;
      k := if x < y then x else y;
    }
    forall j | j in s
      ensures k <= j
    {
      assert j == x || j in rest;
    }
    assert k in s;
  }

  lemma AlignedHolds(now: int, k: int, width: int)
    requires 0 < width && Aligned(k, width) && k <= now < k + width
    ensures k == BucketStart(now, width)
  {
    BucketUnique(now, k, width);
  }

  /** Walk the merged bars in bucket order, splitting elapsed buckets from the forming one. */
  method Classified(bars: map<int, ObservedBar>, width: int, now: nat)
    returns (closed: map<int, ObservedBar>, forming: Option<ObservedBar>)
    requires 0 < width && forall k :: k in bars ==> Aligned(k, width)
    ensures closed == ClosedBars(bars, width, now)
    ensures forming == FormingBar(bars, width, now)
  {
    hide BucketStart;
    hide Aligned;
    var keys := bars.Keys;
    closed, forming := map[], None;
    ghost var b := BucketStart(now, width);
    BucketContains(now, width);
    while keys != {}
      invariant keys <= bars.Keys
      invariant closed == map k | k in bars && k !in keys && k + width <= now :: bars[k]
      invariant forming == if b in bars && b !in keys then Some(bars[b]) else None
      decreases keys
    {
      LeastExists(keys);
      var k :| k in keys && forall j :: j in keys ==> k <= j;
      keys := keys - {k};
      if k + width <= now {
        closed := closed[k := bars[k]];
      } else if k <= now {
        AlignedHolds(now, k, width);
        forming := Some(bars[k]);
      }
    }
  }

  class LiveChart {
    const symbol: string
    const interval: I.Interval
    const owner: nat
    var precision: Option<nat>
    var request: nat
    var revision: nat
    var classification: Option<nat>
    var clockRollback: bool
    var floor: int
    var venue: map<int, VenueBar>
    var tape: map<int, TapeBar>
    var identities: map<Key, WsTrade>
    var marker: Option<Marker>
    var status: TapeStatus
    var historyError: Option<Notice>
    var observationError: Option<Notice>
    var transportError: Option<string>
    var received: Option<nat>

    function View(): Chart
      reads this
    {
      Chart(symbol, interval, precision, owner, request, revision, classification, clockRollback,
            floor, venue, tape, identities, marker, status,
            historyError, observationError, transportError, received)
    }

    ghost predicate Valid()
      reads this
    {
      Inv(View())
    }

    constructor (symbol: string, interval: I.Interval, precision: Option<nat>, owner: nat)
      requires 0 < I.Millis(interval) && New(symbol, interval, precision, owner).Ok?
      ensures Valid() && New(symbol, interval, precision, owner) == Ok(View())
    {
      this.symbol, this.interval, this.precision, this.owner := symbol, interval, precision, owner;
      request, revision, classification, clockRollback, floor := 0, 0, None, false, 0;
      venue, tape, identities, marker, status := map[], map[], map[], None, Observing;
      historyError, observationError, transportError, received := None, None, None, None;
      new;
      NewIsInv(symbol, interval, precision, owner);
    }

    method Bump()
      modifies this`revision
      ensures View() == Changed(old(View()))
    {
      revision := revision + 1;
    }

    method Stop(status: TapeStatus, detail: Notice)
      modifies this`status, this`observationError, this`marker, this`revision
      ensures View() == Freeze(old(View()), status, detail)
    {
      this.status := status;
      observationError := Some(detail);
      marker := Doubted(marker);
      Bump();
    }

    method Stamp(at: nat)
      modifies this`received
      ensures View() == Received(old(View()), at)
    {
      received := Later(received, at);
    }

    method RaiseFloor(bucket: int)
      modifies this`floor, this`venue, this`tape, this`identities
      ensures View() == AdvanceFloor(old(View()), bucket)
    {
      hide NextFloor;
      hide From;
      hide IdentitiesFrom;
      var next := NextFloor(floor, bucket, I.Millis(interval));
      if next == floor {
        return;
      }
      floor := next;
      venue, tape := From(venue, next), From(tape, next);
      identities := IdentitiesFrom(identities, next);
    }

    method Mark(trade: WsTrade)
      modifies this`marker
      ensures marker == MarkWith(old(marker), trade)
    {
      var key := KeyOf(trade);
      if marker.Some? && key.time == marker.value.key.time {
        var m := marker.value;
        m := m.(shown := m.shown.(priceAmbiguous := m.shown.priceAmbiguous || m.shown.price != trade.px));
        if Before(m.key, key) {
          m := m.(key := key, shown := m.shown.(price := trade.px));
        }
        marker := Some(m);
      } else if marker.Some? && Before(key, marker.value.key) {
      } else {
        marker := Some(Marker(key, TradeMarker(trade.time, trade.px, false)));
      }
    }

    /** A print dated after its receipt leaves the marker in doubt and says so. */
    method NoteSkew(uncertain: bool)
      modifies this`marker, this`observationError
      ensures marker == if uncertain then Doubted(old(marker)) else old(marker)
      ensures observationError == SkewNote(old(observationError), uncertain)
    {
      if uncertain {
        marker := Doubted(marker);
        observationError := Some(ClockSkew);
      } else if observationError == Some(ClockSkew) {
        observationError := None;
      }
    }

    method FoldIn(trade: WsTrade, bucket: int, at: nat)
      modifies this`tape
      ensures tape == FoldedTape(old(tape), trade, bucket, I.Millis(interval), at)
    {
      hide FoldPrint;
      hide NewTapeBar;
      var base := if bucket in tape then tape[bucket]
                  else NewTapeBar(trade, bucket, I.Millis(interval), at);
      var entry := FoldRow(base, trade, at);
      tape := tape[bucket := entry];
    }

    method FoldAndMark(trade: WsTrade, bucket: int, at: nat)
      modifies this`tape, this`marker, this`observationError
      ensures tape == FoldedTape(old(tape), trade, bucket, I.Millis(interval), at)
      ensures marker == MarkedBy(old(marker), trade, at)
      ensures observationError == SkewNote(old(observationError), trade.time > at)
    {
      hide FoldedTape;
      hide MarkWith;
      hide SkewNote;
      hide Doubted;
      FoldIn(trade, bucket, at);
      Mark(trade);
      NoteSkew(trade.time > at);
    }

    method Add(trade: WsTrade, bucket: int, at: nat)
      modifies this
      ensures View() == Accept(old(View()), trade, bucket, at)
    {
      hide FoldedTape;
      hide MarkedBy;
      hide SkewNote;
      hide Later;
      hide I.Millis;
      FoldAndMark(trade, bucket, at);
      identities, status := identities[KeyOf(trade) := trade], Observing;
      received, revision := Later(received, at), revision + 1;
    }

    method Row(trade: WsTrade, at: nat) returns (stop: bool)
      requires 0 < I.Millis(interval)
      modifies this
      ensures (View(), stop) == ObserveRow(old(View()), trade, at)
    {
      hide BucketStart;
      hide AdvanceFloor;
      hide Accept;
      hide Freeze;
      if trade.time > MAX_TIME_MS {
        Stop(InvalidObservation, BadTimestamp);
        return true;
      }
      if trade.coin != symbol || trade.px <= 0.0 || trade.sz <= 0.0
         || |trade.hash| > 128 || |trade.users| > 2 {
        Stop(InvalidObservation, BadTrade);
        return true;
      }
      if trade.time > at + MAX_CLOCK_SKEW_MS {
        observationError := Some(SkewIgnored);
        Bump();
        return false;
      }
      var bucket := BucketStart(trade.time, I.Millis(interval));
      if bucket < floor {
        return false;
      }
      var key := KeyOf(trade);
      if key in identities {
        if identities[key] != trade {
          Stop(InvalidObservation, IdentityConflict);
          return true;
        }
        Stamp(at);
        Bump();
        return false;
      }
      stop := TakeNew(trade, bucket, at);
    }

    /** A new identity inside the window: raise the floor, then check the two capacities. */
    method TakeNew(trade: WsTrade, bucket: int, at: nat) returns (stop: bool)
      requires 0 < I.Millis(interval) && bucket == TradeBucket(View(), trade)
      requires var v := Judge(View(), trade, at); v.NoRoom? || v.Overflow? || v.Fresh?
      modifies this
      ensures (View(), stop) == ObserveRow(old(View()), trade, at)
    {
      hide AdvanceFloor;
      hide Accept;
      hide Freeze;
      RaiseFloor(bucket);
      if |identities| >= MAX_IDENTITIES {
        Stop(CapacityExceeded, IdentityCapacity);
        return true;
      }
      var oldVolume := if bucket in tape then tape[bucket].bar.volume else 0.0;
      if oldVolume + trade.sz > DECIMAL_MAX {
        Stop(InvalidObservation, VolumeOverflow);
        return true;
      }
      Add(trade, bucket, at);
      stop := false;
    }

    method ObserveTradeBatch(trades: seq<WsTrade>, at: nat)
      requires Valid()
      modifies this
      ensures Valid() && View() == ObserveTrades(old(View()), trades, at)
    {
      hide Inv;
      hide ObserveRow;
      hide Sorted;
      ghost var c := View();
      InvFacts(c);
      StepKeepsInv(c, Trades(trades, at));
      if Frozen(View()) {
        return;
      }
      if |trades| > MAX_IDENTITIES {
        Stop(CapacityExceeded, BatchTooLarge);
        return;
      }
      var rows := Sorted(trades);
      assert rows[0..] == rows;
      for i := 0 to |rows|
        invariant 0 < I.Millis(interval)
        invariant Rows(c, rows, at) == Rows(View(), rows[i..], at)
      {
        assert rows[i..][0] == rows[i] && rows[i..][1..] == rows[i + 1..];
        var stop := Row(rows[i], at);
        if stop {
          return;
        }
      }
    }

    method ObserveWsCandle(candle: Candle, at: nat)
      requires Valid()
      modifies this
      ensures Valid() && View() == ObserveCandle(old(View()), candle, at)
    {
      hide Inv;
      hide AdvanceFloor;
      hide ValidateCandles;
      InvFacts(View());
      StepKeepsInv(View(), WsCandle(candle, at));
      if candle.t > at + MAX_CLOCK_SKEW_MS {
        observationError := Some(CandleSkew);
        Bump();
        return;
      }
      var bars := ValidateCandles(View(), [candle]);
      if bars.Err? {
        observationError := Some(InvalidCandle(bars.error));
        Bump();
        return;
      }
      if candle.t < floor {
        return;
      }
      RaiseFloor(candle.t);
      venue := venue[candle.t as int := VenueBar(BarOf(candle), at, true)];
      Stamp(at);
      Bump();
    }

    method InterruptTape()
      requires Valid()
      modifies this`status, this`revision
      ensures Valid() && View() == Interrupt(old(View()))
    {
      hide Inv;
      InvFacts(View());
      StepKeepsInv(View(), InterruptFeed);
      if !Frozen(View()) {
        status := Interrupted;
        Bump();
      }
    }

    method FailObservation(detail: string)
      requires Valid()
      modifies this
      ensures Valid() && View() == ObservationFailed(old(View()), detail)
    {
      hide Inv;
      InvFacts(View());
      StepKeepsInv(View(), TransportDown(detail));
      if transportError.Some? {
        return;
      }
      if !Frozen(View()) {
        status := Interrupted;
      }
      transportError := Some(Take512(detail));
      marker := Doubted(marker);
      Bump();
    }

    method RequestHistory() returns (ticket: Ticket)
      requires Valid()
      modifies this`request
      ensures Valid() && (View(), ticket) == BeginHistory(old(View()))
    {
      hide Inv;
      InvFacts(View());
      StepKeepsInv(View(), AskHistory);
      request := request + 1;
      ticket := Ticket(owner, request);
    }

    method CompleteHistory(ticket: Ticket, outcome: Result<Snapshot, string>, at: nat)
      returns (r: Result<(), ChartError>)
      requires Valid()
      modifies this
      ensures Valid() && (View(), r) == FinishHistory(old(View()), ticket, outcome, at)
    {
      hide Inv;
      hide PlaceHistory;
      hide ValidateCandles;
      InvFacts(View());
      StepKeepsInv(View(), HistoryDone(ticket, outcome, at));
      if ticket != Ticket(owner, request) {
        return Err(Superseded);
      }
      if outcome.Err? {
        historyError := Some(HistoryFailed(Take512(outcome.error)));
        Bump();
        return Ok(());
      }
      var checked := ValidateCandles(View(), outcome.value.candles);
      if checked.Err? {
        historyError := Some(InvalidCandle(checked.error));
        Bump();
        return Err(Invalid(checked.error));
      }
      var bars := checked.value;
      if bars != [] && Last(bars).openTime > at + MAX_CLOCK_SKEW_MS {
        historyError := Some(InvalidCandle(StartsAfterReceipt));
        Bump();
        return Err(Invalid(StartsAfterReceipt));
      }
      Fill(bars, outcome.value.priceDecimals, at);
      r := Ok(());
    }

    method Fill(bars: seq<Bar>, priceDecimals: nat, at: nat)
      modifies this
      ensures View() == PlaceHistory(old(View()), bars, priceDecimals, at)
    {
      hide AdvanceFloor;
      hide Backfill;
      if bars != [] {
        RaiseFloor(Last(bars).openTime);
      }
      Merge(bars, at);
      precision := Some(priceDecimals);
      historyError := None;
      if bars != [] {
        Stamp(at);
      }
      Bump();
    }

    method Merge(bars: seq<Bar>, at: nat)
      modifies this`venue
      ensures View() == old(View()).(venue := Backfill(old(View()), bars, at))
    {
      ghost var c := View();
      assert bars[..0] == [];
      for i := 0 to |bars|
        invariant View() == c.(venue := Backfill(c, bars[..i], at))
      {
        var bar := bars[i];
        assert bars[..i + 1][..i] == bars[..i];
        if bar.openTime < floor || (bar.openTime in venue && venue[bar.openTime].ws) {
          continue;
        }
        venue := venue[bar.openTime := VenueBar(bar, at, false)];
      }
      assert bars[..|bars|] == bars;
    }

    method Reclassify(now: nat)
      requires 0 < I.Millis(interval)
      modifies this`classification, this`clockRollback, this`revision
      ensures View() == Classify(old(View()), now) && classification.Some?
    {
      var width := I.Millis(interval);
      var instant := if classification.Some? && classification.value > now then classification.value else now;
      var rollback := now < instant;
      if classification.None? || classification.value / width != instant / width || clockRollback != rollback {
        Bump();
      }
      classification, clockRollback := Some(instant), rollback;
    }

    method Show(now: nat) returns (p: Projection)
      requires Valid()
      modifies this`classification, this`clockRollback, this`revision
      ensures Valid() && (View(), p) == Project(old(View()), now)
    {
      hide Inv;
      hide Rendered;
      hide Classify;
      InvFacts(View());
      StepKeepsInv(View(), ChartRuns.Show(now));
      Reclassify(now);
      InvFacts(View());
      p := RenderNow();
    }

    method RenderNow() returns (p: Projection)
      requires 0 < I.Millis(interval) && classification.Some? && Window(View())
      ensures p == Rendered(View())
    {
      hide Widths;
      hide BucketStart;
      var width, now := I.Millis(interval), classification.value;
      var bars := (map k | k in tape :: TapeView(tape[k])) + (map k | k in venue :: VenueView(venue[k]));
      assert bars == Merged(View());
      var closed, forming := Classified(bars, width, now);
      p := Projection(symbol, interval, revision, precision, closed, forming,
                      if marker.Some? then Some(marker.value.shown) else None,
                      historyError, ShownErrors(View()), received, status);
    }
  }
}
