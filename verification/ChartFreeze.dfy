/** Exactly what freezes a live chart, and what a row does when nothing does. */
module ChartFreeze {
  import opened Common
  import opened Bars
  import opened Chart
  import opened ChartTape
  import opened ChartRuns
  import opened ChartProps
  import opened ChartOrder

  // ---- one row -----------------------------------------------------------------------------------

  /** A row that is wrong in itself: off the calendar, of another coin, without a positive price
      and size, or with oversized fields. */
  predicate IllFormed(c: Chart, t: WsTrade) {
    || t.time > 253_402_300_799_999
    || t.coin != c.symbol || t.px <= 0.0 || t.sz <= 0.0 || |t.hash| > 128 || |t.users| > 2
  }

  /** Too far ahead of its receipt to be taken. */
  predicate TooEarly(t: WsTrade, at: nat) {
    t.time > at + 5_000
  }

  /** The bucket a print falls in. */
  ghost function Home(c: Chart, t: WsTrade): int
    requires 0 < Width(c)
  {
    BucketStart(t.time, Width(c))
  }

  /** The floor once the print's bucket is reached. */
  ghost function FloorFor(c: Chart, t: WsTrade): int
    requires 0 < Width(c)
  {
    var low := Home(c, t) - Widths(599, Width(c));
    if c.floor < low then low else c.floor
  }

  ghost function Identity(t: WsTrade): Key {
    Key(t.time, t.tid)
  }

  /** The prints that would be kept when the print's bucket is reached. */
  ghost function KeptFor(c: Chart, t: WsTrade): set<Key>
    requires 0 < Width(c)
  {
    set k | k in c.identities && FloorFor(c, t) <= k.time
  }

  /** The volume retained in the print's bucket. */
  ghost function VolumeAt(c: Chart, t: WsTrade): real
    requires 0 < Width(c)
  {
    SumSz(InBucket(c.identities, Home(c, t), Width(c)))
  }

  /** Inside the window and in time: the row is looked at, not dropped. */
  ghost predicate InPlay(c: Chart, t: WsTrade, at: nat)
    requires 0 < Width(c)
  {
    !IllFormed(c, t) && !TooEarly(t, at) && c.floor <= Home(c, t)
  }

  ghost predicate Clashes(c: Chart, t: WsTrade) {
    Identity(t) in c.identities && c.identities[Identity(t)] != t
  }

  ghost predicate NoRoomFor(c: Chart, t: WsTrade)
    requires 0 < Width(c)
  {
    Identity(t) !in c.identities && |KeptFor(c, t)| >= 65_536
  }

  ghost predicate Overflows(c: Chart, t: WsTrade)
    requires 0 < Width(c)
  {
    && Identity(t) !in c.identities && |KeptFor(c, t)| < 65_536
    && VolumeAt(c, t) + t.sz > 79228162514264337593543950335.0
  }

  /** The rows that freeze a chart. */
  ghost predicate RowFreezes(c: Chart, t: WsTrade, at: nat)
    requires 0 < Width(c)
  {
    || IllFormed(c, t)
    || (InPlay(c, t, at) && (Clashes(c, t) || NoRoomFor(c, t) || Overflows(c, t)))
  }

  lemma FloorForIs(c: Chart, t: WsTrade)
    requires Inv(c) && 0 < Width(c)
    ensures var r := AdvanceFloor(c, TradeBucket(c, t));
            && r.floor == FloorFor(c, t) && r.identities.Keys == KeptFor(c, t)
            && |r.identities| == |KeptFor(c, t)|
            && (forall k :: k in r.identities ==> r.identities[k] == c.identities[k])
  {
    hide Inv;
    hide AdvanceFloor;
    hide BucketStart;
    hide Window;
    hide Ids;
    hide Tape;
    hide Widths;
    InvFacts(c);
    FloorRetains(c, TradeBucket(c, t));
    FloorAfter(c, TradeBucket(c, t));
  }

  lemma FloorAfter(c: Chart, bucket: int)
    ensures AdvanceFloor(c, bucket).floor ==
            var low := bucket - Widths(599, Width(c)); if c.floor < low then low else c.floor
  {
    hide Widths;
    hide From;
    hide IdentitiesFrom;
  }

  /** The bar of a bucket in the window holds the volume of the prints retained in it. */
  lemma VolumeIs(c: Chart, t: WsTrade)
    requires Inv(c) && 0 < Width(c) && c.floor <= Home(c, t)
    ensures TapeVolume(AdvanceFloor(c, TradeBucket(c, t)), TradeBucket(c, t)) == VolumeAt(c, t)
  {
    hide Inv;
    hide AdvanceFloor;
    hide BucketStart;
    hide Widths;
    hide SumSz;
    InvFacts(c);
    var b, w := TradeBucket(c, t), Width(c);
    var r := AdvanceFloor(c, b);
    BucketContains(t.time, w);
    FloorKeepsInv(c, b);
    FloorKeepsWindow(c, b);
    InvFacts(r);
    FloorBelowBucket(r, b);
    FloorRetains(c, b);
    SameBucketAboveFloor(c.identities, r.identities, r.floor, b, w);
    EmptyBucketIsZero(r, b);
  }

  lemma EmptyBucketIsZero(c: Chart, b: int)
    requires Ids(c) && Tape(c)
    ensures TapeVolume(c, b) == SumSz(InBucket(c.identities, b, Width(c)))
  {
    hide BucketStart;
    if b !in c.tape {
      assert InBucket(c.identities, b, Width(c)) == map[];
    }
  }

  /** The verdict on a row, read off its fields and the prints retained. */
  lemma VerdictExact(c: Chart, t: WsTrade, at: nat)
    requires Inv(c) && 0 < Width(c)
    ensures var v := Judge(c, t, at);
            && (v.Malformed? <==> IllFormed(c, t))
            && (v.Skewed? <==> !IllFormed(c, t) && TooEarly(t, at))
            && (v.Stale? <==> !IllFormed(c, t) && !TooEarly(t, at) && Home(c, t) < c.floor)
            && (v.Conflicting? <==> InPlay(c, t, at) && Clashes(c, t))
            && (v.Replayed? <==> InPlay(c, t, at) && Identity(t) in c.identities && c.identities[Identity(t)] == t)
            && (v.NoRoom? <==> InPlay(c, t, at) && NoRoomFor(c, t))
            && (v.Overflow? <==> InPlay(c, t, at) && Overflows(c, t))
  {
    hide Inv;
    hide AdvanceFloor;
    hide BucketStart;
    hide TapeVolume;
    hide VolumeAt;
    hide KeptFor;
    FloorForIs(c, t);
    if c.floor <= Home(c, t) {
      VolumeIs(c, t);
    }
  }

  /** A live chart is frozen by a row if and only if the row is wrong in itself, or it is looked
      at and clashes with a print held under its identity, finds no room, or overflows its bar;
      want of room is told from the rest. */
  lemma RowFreezesExactly(c: Chart, t: WsTrade, at: nat)
    requires Inv(c) && !Frozen(c)
    ensures 0 < Width(c)
    ensures var r := ObserveRow(c, t, at).0;
            && (Frozen(r) <==> RowFreezes(c, t, at))
            && (r.status == CapacityExceeded <==> InPlay(c, t, at) && NoRoomFor(c, t))
            && (r.status == InvalidObservation <==> Frozen(r) && r.status != CapacityExceeded)
  {
    hide Inv;
    hide Judge;
    hide BucketStart;
    hide AdvanceFloor;
    hide IllFormed;
    hide Clashes;
    hide NoRoomFor;
    hide Overflows;
    hide InPlay;
    InvFacts(c);
    VerdictExact(c, t, at);
    RowStatus(c, t, at);
  }

  lemma RowStatus(c: Chart, t: WsTrade, at: nat)
    requires 0 < Width(c) && !Frozen(c)
    ensures var v, r := Judge(c, t, at), ObserveRow(c, t, at).0;
            && r.transportError == c.transportError
            && (v.NoRoom? ==> r.status == CapacityExceeded)
            && (v.Malformed? || v.Conflicting? || v.Overflow? ==> r.status == InvalidObservation)
            && (v.Fresh? ==> r.status == Observing)
            && (v.Skewed? || v.Stale? || v.Replayed? ==> r.status == c.status)
  {
    hide Judge;
    hide BucketStart;
    hide AdvanceFloor;
    hide FoldedTape;
    hide MarkedBy;
    hide SkewNote;
    RowAdvances(c, t, at);
  }

  /** A freezing row names its reason, leaves the marker in doubt and adds nothing: only what its
      bucket would have evicted is gone. */
  lemma FreezingRow(c: Chart, t: WsTrade, at: nat)
    requires Inv(c) && !Frozen(c) && 0 < Width(c) && RowFreezes(c, t, at)
    ensures var r := ObserveRow(c, t, at).0;
            && r.marker == (match c.marker case None => None
                            case Some(m) => Some(m.(shown := m.shown.(priceAmbiguous := true))))
            && r.observationError == Some(
                 if IllFormed(c, t) then (if t.time > 253_402_300_799_999 then BadTimestamp else BadTrade)
                 else if Clashes(c, t) then IdentityConflict
                 else if NoRoomFor(c, t) then IdentityCapacity else VolumeOverflow)
            && r.identities.Keys == (if IllFormed(c, t) || Clashes(c, t) then c.identities.Keys else KeptFor(c, t))
            && (forall k :: k in r.identities ==> k in c.identities && r.identities[k] == c.identities[k])
            && r.revision == c.revision + 1 && r.received == c.received
  {
    hide Inv;
    hide Judge;
    hide BucketStart;
    hide AdvanceFloor;
    hide KeptFor;
    hide FloorFor;
    VerdictExact(c, t, at);
    FloorForIs(c, t);
    FloorLeaves(c, TradeBucket(c, t));
    KeptIsHeld(c, t, at);
    MalformedReason(c, t, at);
  }

  lemma MalformedReason(c: Chart, t: WsTrade, at: nat)
    requires 0 < Width(c)
    ensures var v := Judge(c, t, at);
            v.Malformed? ==> v.detail == if t.time > 253_402_300_799_999 then BadTimestamp else BadTrade
  {
    hide BucketStart;
    hide AdvanceFloor;
  }

  // ---- what a row does -----------------------------------------------------------------------------

  /** The last receipt is the later of the one before and `at`. */
  predicate ReceiptIs(after: Option<nat>, before: Option<nat>, at: nat) {
    && after.Some? && at <= after.value
    && (before.Some? ==> before.value <= after.value)
    && (after.value == at || after == before)
  }

  /** A row that is dropped or replayed leaves everything but a message, the receipt and the
      revision as it was. */
  lemma QuietRow(c: Chart, t: WsTrade, at: nat)
    requires Inv(c) && 0 < Width(c)
    ensures var r := ObserveRow(c, t, at).0;
            && (!IllFormed(c, t) && TooEarly(t, at) ==>
                  r == c.(observationError := Some(SkewIgnored), revision := c.revision + 1))
            && (!IllFormed(c, t) && !TooEarly(t, at) && Home(c, t) < c.floor ==> r == c)
            && (InPlay(c, t, at) && Identity(t) in c.identities && c.identities[Identity(t)] == t ==>
                  r == c.(received := r.received, revision := c.revision + 1)
                  && ReceiptIs(r.received, c.received, at))
  {
    hide Inv;
    hide Judge;
    hide BucketStart;
    hide IllFormed;
    hide InPlay;
    VerdictExact(c, t, at);
  }

  /** A print that is looked at, new, and neither without room nor overflowing. */
  ghost predicate Taken(c: Chart, t: WsTrade, at: nat)
    requires 0 < Width(c)
  {
    && InPlay(c, t, at) && Identity(t) !in c.identities
    && !NoRoomFor(c, t) && !Overflows(c, t)
  }

  lemma TakenIsFresh(c: Chart, t: WsTrade, at: nat)
    requires Inv(c) && 0 < Width(c)
    ensures Judge(c, t, at).Fresh? <==> Taken(c, t, at)
  {
    hide Inv;
    hide Judge;
    hide BucketStart;
    hide IllFormed;
    hide NoRoomFor;
    hide Overflows;
    hide TooEarly;
    VerdictExact(c, t, at);
    VerdictsAreAll(Judge(c, t, at));
  }

  lemma VerdictsAreAll(v: Verdict)
    ensures v.Fresh? <==> !(v.Malformed? || v.Skewed? || v.Stale? || v.Conflicting? || v.Replayed? || v.NoRoom? || v.Overflow?)
  {
  }

  /** The marker after a print: the later identity's price, in doubt if the two share an instant
      and not a price, if it was in doubt and did not move on, or if the print ran ahead of its
      receipt. */
  predicate MarkerMoves(before: Option<Marker>, after: Option<Marker>, t: WsTrade, ahead: bool) {
    && after.Some?
    && var a := after.value;
       match before
       case None => a == Marker(Key(t.time, t.tid), TradeMarker(t.time, t.px, ahead))
       case Some(b) =>
         var later := b.key.time < t.time || (b.key.time == t.time && b.key.tid < t.tid);
         && a.key == (if later then Key(t.time, t.tid) else b.key)
         && a.shown.price == (if later then t.px else b.shown.price)
         && a.shown.time == (if b.key.time < t.time then t.time else b.shown.time)
         && a.shown.priceAmbiguous ==
              (ahead || (b.key.time >= t.time && b.shown.priceAmbiguous)
               || (b.key.time == t.time && b.shown.price != t.px))
  }

  lemma MarkedByMoves(m: Option<Marker>, t: WsTrade, at: nat)
    ensures MarkerMoves(m, MarkedBy(m, t, at), t, t.time > at)
  {
  }

  /** A print that is taken joins the retained ones above the new floor, and every field follows;
      its bar is fixed by the retained prints. */
  lemma TakenRow(c: Chart, t: WsTrade, at: nat)
    requires Inv(c) && 0 < Width(c) && Taken(c, t, at)
    ensures var r := ObserveRow(c, t, at).0;
            && r.floor == FloorFor(c, t)
            && r.identities.Keys == KeptFor(c, t) + {Identity(t)} && r.identities[Identity(t)] == t
            && (forall k :: k in KeptFor(c, t) ==> r.identities[k] == c.identities[k])
            && r.status == Observing && ReceiptIs(r.received, c.received, at)
            && MarkerMoves(c.marker, r.marker, t, t.time > at)
            && r.observationError == (if t.time > at then Some(ClockSkew)
                                      else if c.observationError == Some(ClockSkew) then None
                                      else c.observationError)
            && r.revision == c.revision + 1
            && r.historyError == c.historyError && r.transportError == c.transportError && r.precision == c.precision
  {
    hide Inv;
    hide Judge;
    hide BucketStart;
    hide AdvanceFloor;
    hide FoldedTape;
    hide MarkedBy;
    hide KeptFor;
    hide FloorFor;
    hide Taken;
    hide MarkerMoves;
    TakenIsFresh(c, t, at);
    FloorForIs(c, t);
    FloorLeaves(c, TradeBucket(c, t));
    MarkedByMoves(c.marker, t, at);
    KeptIsHeld(c, t, at);
  }

  lemma KeptIsHeld(c: Chart, t: WsTrade, at: nat)
    requires 0 < Width(c)
    ensures KeptFor(c, t) <= c.identities.Keys
    ensures Taken(c, t, at) ==> Identity(t) !in c.identities
  {
  }

  lemma FloorLeaves(c: Chart, bucket: int)
    ensures var r := AdvanceFloor(c, bucket);
            && r.marker == c.marker && r.observationError == c.observationError && r.received == c.received
            && r.historyError == c.historyError && r.transportError == c.transportError
            && r.precision == c.precision && r.revision == c.revision && r.status == c.status
  {
    hide NextFloor;
    hide From;
    hide IdentitiesFrom;
  }

  // ---- one call ----------------------------------------------------------------------------------

  /** Some row of the sorted batch freezes the chart as the rows before it have left it. */
  ghost predicate SomeRowFreezes(c: Chart, rows: seq<WsTrade>, at: nat)
    requires Inv(c)
    decreases |rows|
  {
    InvFacts(c);
    rows != [] &&
    (RowFreezes(c, rows[0], at)
     || (Inv(ObserveRow(c, rows[0], at).0) && SomeRowFreezes(ObserveRow(c, rows[0], at).0, rows[1..], at)))
  }

  lemma {:induction false} RowsFreezeExactly(c: Chart, rows: seq<WsTrade>, at: nat)
    requires Inv(c) && !Frozen(c)
    ensures 0 < Width(c)
    ensures Frozen(Rows(c, rows, at).0) <==> SomeRowFreezes(c, rows, at)
    decreases |rows|
  {
    hide Inv;
    hide ObserveRow;
    hide RowFreezes;
    hide Frozen;
    InvFacts(c);
    if rows != [] {
      RowKeepsInv(c, rows[0], at);
      RowFreezesExactly(c, rows[0], at);
      var (c', stop) := ObserveRow(c, rows[0], at);
      if !stop {
        RowsFreezeExactly(c', rows[1..], at);
      }
    }
  }

  /** The calls that freeze a live chart: a transport failure, an oversized batch, or a batch with
      a freezing row. */
  ghost predicate CallFreezes(c: Chart, op: Op)
    requires Inv(c)
  {
    match op
    case TransportDown(_) => true
    case Trades(batch, at) => |batch| > 65_536 || SomeRowFreezes(c, Sorted(batch), at)
    case _ => false
  }

  lemma StepFreezesExactly(c: Chart, op: Op)
    requires Inv(c) && !Frozen(c)
    ensures 0 < Width(c)
    ensures Frozen(Step(c, op)) <==> CallFreezes(c, op)
  {
    hide *;
    InvFacts(c);
    CallCases(c, op);
    match op
    case Trades(batch, at) =>
      TradesStep(c, batch, at);
      BatchFreezesExactly(c, batch, at);
    case WsCandle(k, at) =>
      VenueSteps(c, op);
      CandleKeepsStatus(c, k, at);
    case HistoryDone(ticket, outcome, at) =>
      VenueSteps(c, op);
      HistoryKeepsStatus(c, ticket, outcome, at);
    case _ => QuietStepFreezes(c, op);
  }

  lemma CallCases(c: Chart, op: Op)
    requires Inv(c)
    ensures op.TransportDown? ==> CallFreezes(c, op)
    ensures op.Trades? ==>
              (CallFreezes(c, op) <==> |op.batch| > 65_536 || SomeRowFreezes(c, Sorted(op.batch), op.at))
    ensures !op.TransportDown? && !op.Trades? ==> !CallFreezes(c, op)
  {
    hide Inv;
    hide SomeRowFreezes;
    hide Sorted;
  }

  lemma TradesStep(c: Chart, batch: seq<WsTrade>, at: nat)
    requires 0 < Width(c)
    ensures Step(c, Trades(batch, at)) == ObserveTrades(c, batch, at)
  {
    hide ObserveTrades;
  }

  lemma QuietStepFreezes(c: Chart, op: Op)
    requires 0 < Width(c) && (op.InterruptFeed? || op.TransportDown? || op.AskHistory? || op.Show?)
    ensures Frozen(Step(c, op)) <==> Frozen(c) || op.TransportDown?
  {
    hide ObserveTrades;
    hide ObserveCandle;
    hide FinishHistory;
    hide Rendered;
  }

  lemma BatchFreezesExactly(c: Chart, batch: seq<WsTrade>, at: nat)
    requires Inv(c) && !Frozen(c) && 0 < Width(c)
    ensures Frozen(ObserveTrades(c, batch, at)) <==> |batch| > 65_536 || SomeRowFreezes(c, Sorted(batch), at)
  {
    hide Inv;
    hide Rows;
    hide Sorted;
    hide SomeRowFreezes;
    RowsFreezeExactly(c, Sorted(batch), at);
  }

  lemma CandleKeepsStatus(c: Chart, k: Candle, at: nat)
    requires 0 < Width(c)
    ensures Frozen(ObserveCandle(c, k, at)) == Frozen(c)
  {
    hide ObserveCandle;
    hide TakesCandle;
    hide AdvanceFloor;
    hide PlaceCandle;
    CandleCases(c, k, at);
    FloorLeaves(c, k.t);
    if TakesCandle(c, k, at) {
      PlacedCandle(c, k, at);
    }
  }

  lemma HistoryKeepsStatus(c: Chart, ticket: Ticket, outcome: Result<Snapshot, string>, at: nat)
    requires 0 < Width(c)
    ensures Frozen(FinishHistory(c, ticket, outcome, at).0) == Frozen(c)
  {
    hide FinishHistory;
    hide AdvanceFloor;
    hide PlaceHistory;
    hide ValidateCandles;
    HistoryCases(c, ticket, outcome, at);
    if TakesHistory(c, ticket, outcome, at) {
      var bars := ValidateCandles(c, outcome.value.candles).value;
      if bars != [] {
        FloorLeaves(c, Last(bars).openTime);
      }
      PlacedHistory(c, bars, outcome.value.priceDecimals, at);
    }
  }

  // ---- whole runs --------------------------------------------------------------------------------

  /** No call of the run meets its freezing condition in the state it finds. */
  ghost predicate NothingFreezes(c: Chart, ops: seq<Op>)
    requires Inv(c)
    decreases |ops|
  {
    ops != [] ==> NothingFreezes(c, Init(ops)) && !CallFreezes(Run(c, Init(ops)), Last(ops))
  }

  /** A run stays live if and only if no call meets its freezing condition. */
  lemma {:induction false} RunStaysLiveExactly(c: Chart, ops: seq<Op>)
    requires Inv(c) && !Frozen(c)
    ensures !Frozen(Run(c, ops)) <==> NothingFreezes(c, ops)
    decreases |ops|
  {
    hide Inv;
    hide Step;
    hide Frozen;
    hide CallFreezes;
    if ops != [] {
      var prev := Run(c, Init(ops));
      InvFacts(prev);
      RunStaysLiveExactly(c, Init(ops));
      if Frozen(prev) {
        StepStaysFrozen(prev, Last(ops));
        FrozenIsFrozen(prev, Step(prev, Last(ops)));
      } else {
        StepFreezesExactly(prev, Last(ops));
      }
    }
  }

  // ---- honest feeds never freeze -----------------------------------------------------------------

  /** Prints that can all be held at once: each under its own identity, well formed, at most 65,536
      of them, and of a total size a decimal can hold. */
  ghost predicate Honest(c: Chart, all: Prints) {
    && (forall k :: k in all ==> Identity(all[k]) == k && !IllFormed(c, all[k]))
    && |all| <= 65_536 && SumSz(all) <= 79228162514264337593543950335.0
  }

  ghost predicate Among(ids: Prints, all: Prints) {
    forall k :: k in ids ==> k in all && ids[k] == all[k]
  }

  lemma {:induction false} PartSumsLess(part: Prints, all: Prints)
    requires Among(part, all) && forall k :: k in all ==> 0.0 < all[k].sz
    ensures SumSz(part) <= SumSz(all)
    decreases |all|
  {
    if all != map[] {
      var k := Pick(all);
      SumRemove(all, k);
      if k in part {
        SumRemove(part, k);
        PartSumsLess(part - {k}, all - {k});
      } else {
        PartSumsLess(part, all - {k});
      }
    } else {
      assert part == map[];
    }
  }

  lemma HonestRowDoesNotFreeze(c: Chart, t: WsTrade, at: nat, all: Prints)
    requires Inv(c) && 0 < Width(c) && Honest(c, all) && Among(c.identities, all)
    requires Identity(t) in all && all[Identity(t)] == t
    ensures !RowFreezes(c, t, at)
  {
    hide Inv;
    hide BucketStart;
    hide IllFormed;
    hide FloorFor;
    if InPlay(c, t, at) && Identity(t) !in c.identities {
      SubsetSize(KeptFor(c, t) + {Identity(t)}, all.Keys);
      var mine := InBucket(c.identities, Home(c, t), Width(c));
      forall k | k in all ensures 0.0 < all[k].sz {
        WellFormedSize(c, all[k]);
      }
      SumInsert(mine, Identity(t), t);
      PartSumsLess(mine[Identity(t) := t], all);
    }
  }

  lemma WellFormedSize(c: Chart, t: WsTrade)
    requires !IllFormed(c, t)
    ensures 0.0 < t.sz
  {
  }

  lemma HonestIsFramed(c: Chart, r: Chart, all: Prints)
    requires Honest(c, all) && r.symbol == c.symbol
    ensures Honest(r, all)
  {
  }

  lemma RowStaysAmong(c: Chart, t: WsTrade, at: nat, all: Prints)
    requires Inv(c) && !Frozen(c) && 0 < Width(c) && Honest(c, all) && Among(c.identities, all)
    requires Identity(t) in all && all[Identity(t)] == t
    ensures var r := ObserveRow(c, t, at).0; !Frozen(r) && Among(r.identities, all) && Honest(r, all)
  {
    hide Inv;
    hide ObserveRow;
    hide Frozen;
    hide Honest;
    hide Taken;
    hide IllFormed;
    hide InPlay;
    hide RowFreezes;
    hide KeptFor;
    HonestRowDoesNotFreeze(c, t, at, all);
    RowFreezesExactly(c, t, at);
    RowIsObserved(c, t, at);
    HonestIsFramed(c, ObserveRow(c, t, at).0, all);
    IdentitiesAfter(c, t, at);
  }

  /** A row that does not freeze keeps identities or adds its own. */
  lemma IdentitiesAfter(c: Chart, t: WsTrade, at: nat)
    requires Inv(c) && !Frozen(c) && 0 < Width(c) && !RowFreezes(c, t, at)
    ensures var r := ObserveRow(c, t, at).0;
            forall k :: k in r.identities ==>
              (k == Identity(t) && r.identities[k] == t) || (k in c.identities && r.identities[k] == c.identities[k])
  {
    hide Inv;
    hide ObserveRow;
    hide BucketStart;
    hide IllFormed;
    hide NoRoomFor;
    hide Overflows;
    hide FloorFor;
    QuietRow(c, t, at);
    if Taken(c, t, at) {
      TakenRow(c, t, at);
    }
  }

  lemma {:induction false} HonestRowsStayLive(c: Chart, rows: seq<WsTrade>, at: nat, all: Prints)
    requires Inv(c) && !Frozen(c) && 0 < Width(c) && Honest(c, all) && Among(c.identities, all)
    requires forall t :: t in rows ==> Identity(t) in all && all[Identity(t)] == t
    ensures var r := Rows(c, rows, at).0; !Frozen(r) && Among(r.identities, all)
    decreases |rows|
  {
    hide Inv;
    hide ObserveRow;
    hide Frozen;
    hide Honest;
    hide Among;
    if rows != [] {
      RowKeepsInv(c, rows[0], at);
      RowIsObserved(c, rows[0], at);
      RowStaysAmong(c, rows[0], at, all);
      HonestRowsStayLive(ObserveRow(c, rows[0], at).0, rows[1..], at, all);
    }
  }

  lemma HonestBatchStaysLive(c: Chart, batch: seq<WsTrade>, at: nat, all: Prints)
    requires Inv(c) && !Frozen(c) && 0 < Width(c) && Honest(c, all) && Among(c.identities, all)
    requires |batch| <= 65_536
    requires forall t :: t in batch ==> Identity(t) in all && all[Identity(t)] == t
    ensures var r := ObserveTrades(c, batch, at); !Frozen(r) && Among(r.identities, all)
  {
    hide Inv;
    hide Rows;
    hide Sorted;
    hide Frozen;
    hide Honest;
    hide Among;
    SortedSameSet(batch);
    forall t | t in Sorted(batch) ensures Identity(t) in all && all[Identity(t)] == t {
      assert t in SetOf(Sorted(batch));
      assert t in SetOf(batch);
    }
    HonestRowsStayLive(c, Sorted(batch), at, all);
  }

  /** A call that delivers prints of `all` only, in a batch of bounded size, and is no failure. */
  ghost predicate DeliversOnly(op: Op, all: Prints) {
    !op.TransportDown? && (op.Trades? ==>
      && |op.batch| <= 65_536
      && forall t :: t in op.batch ==> Identity(t) in all && all[Identity(t)] == t)
  }

  ghost predicate Delivers(ops: seq<Op>, all: Prints) {
    forall i :: 0 <= i < |ops| ==> DeliversOnly(ops[i], all)
  }

  lemma VenueKeepsAmong(c: Chart, op: Op, all: Prints)
    requires Inv(c) && 0 < Width(c) && Among(c.identities, all) && !op.Trades?
    ensures Among(Step(c, op).identities, all)
  {
    hide Inv;
    hide ObserveTrades;
    hide ObserveCandle;
    hide FinishHistory;
    hide AdvanceFloor;
    hide PlaceCandle;
    hide PlaceHistory;
    hide ValidateCandles;
    hide Rendered;
    InvFacts(c);
    match op
    case WsCandle(k, at) =>
      CandleCases(c, k, at);
      if TakesCandle(c, k, at) {
        PlacedCandle(c, k, at);
        FloorOnlyDrops(c, k.t, all);
      }
    case HistoryDone(ticket, outcome, at) =>
      HistoryCases(c, ticket, outcome, at);
      if TakesHistory(c, ticket, outcome, at) {
        var bars := ValidateCandles(c, outcome.value.candles).value;
        PlacedHistory(c, bars, outcome.value.priceDecimals, at);
        if bars != [] {
          FloorOnlyDrops(c, Last(bars).openTime, all);
        }
      }
    case _ =>
  }

  lemma FloorOnlyDrops(c: Chart, bucket: int, all: Prints)
    requires Among(c.identities, all)
    ensures Among(AdvanceFloor(c, bucket).identities, all)
  {
    hide NextFloor;
    hide From;
  }

  /** Honest feeds never freeze a chart: if every print is well formed and the only one of its
      identity, and all of them could be held at once, then no order, batching, replay, candle,
      history, interruption or clock freezes it. */
  lemma {:induction false} HonestFeedsNeverFreeze(c: Chart, ops: seq<Op>, all: Prints)
    requires Inv(c) && !Frozen(c) && Honest(c, all) && Among(c.identities, all) && Delivers(ops, all)
    ensures !Frozen(Run(c, ops)) && Among(Run(c, ops).identities, all)
    decreases |ops|
  {
    hide Inv;
    hide Frozen;
    hide Honest;
    hide Among;
    hide Step;
    hide DeliversOnly;
    if ops != [] {
      var front, op := Init(ops), ops[|ops| - 1];
      HonestFeedsNeverFreeze(c, front, all);
      var prev := Run(c, front);
      InvFacts(prev);
      HonestIsFramed(c, prev, all);
      HonestStep(prev, op, all);
    }
  }

  lemma HonestStep(c: Chart, op: Op, all: Prints)
    requires Inv(c) && !Frozen(c) && 0 < Width(c) && Honest(c, all) && Among(c.identities, all)
    requires DeliversOnly(op, all)
    ensures !Frozen(Step(c, op)) && Among(Step(c, op).identities, all)
  {
    hide Inv;
    hide Frozen;
    hide Honest;
    hide Among;
    hide SomeRowFreezes;
    hide ObserveTrades;
    hide ObserveCandle;
    hide FinishHistory;
    hide Project;
    if op.Trades? {
      HonestBatchStaysLive(c, op.batch, op.at, all);
    } else {
      StepFreezesExactly(c, op);
      VenueKeepsAmong(c, op, all);
    }
  }
}
