/** Bucket by bucket: which of the prints the aggregator accepted a bar is made of. After an
    interruption a print may reopen the newest bucket, so a bar can miss what was discarded. */
module AggregatorBuckets {
  import opened Common
  import opened Bars
  import opened Aggregator
  import opened AggregatorRuns

  /** The prints of one bucket, in order. */
  function Of(prints: seq<Trade>, t: int, width: int): seq<Trade>
    requires 0 < width
  {
    if prints == [] then []
    else Of(Init(prints), t, width)
         + (if BucketStart(Last(prints).time, width) == t then [Last(prints)] else [])
  }

  lemma {:induction false} OfAppends(a: seq<Trade>, b: seq<Trade>, t: int, width: int)
    requires 0 < width
    ensures Of(a + b, t, width) == Of(a, t, width) + Of(b, t, width)
    decreases |b|
  {
    hide BucketStart;
    if b == [] {
      assert a + b == a;
    } else {
      assert Init(a + b) == a + Init(b) && Last(a + b) == Last(b);
      OfAppends(a, Init(b), t, width);
    }
  }

  /** All of the prints are in bucket `t`. */
  ghost predicate AllIn(prints: seq<Trade>, t: int, width: int)
    requires 0 < width
  {
    forall j :: 0 <= j < |prints| ==> BucketStart(prints[j].time, width) == t
  }

  lemma {:induction false} OfOneBucket(prints: seq<Trade>, own: int, t: int, width: int)
    requires 0 < width && AllIn(prints, own, width)
    ensures Of(prints, t, width) == if t == own then prints else []
    decreases |prints|
  {
    hide BucketStart;
    if prints != [] {
      OfOneBucket(Init(prints), own, t, width);
      assert BucketStart(prints[|prints| - 1].time, width) == own;
      assert Init(prints) + [Last(prints)] == prints;
    }
  }

  /** The prints of a run the aggregator did not refuse, in the order they came. */
  function AcceptedPrints(h: History, ops: seq<Op>): seq<Trade>
    requires 0 < h.state.width
  {
    if ops == [] then []
    else AcceptedPrints(h, Init(ops)) + TakenBy(Run(h, Init(ops)), Last(ops))
  }

  function TakenBy(h: History, op: Op): seq<Trade>
    requires 0 < h.state.width
  {
    if op.Push? && Accepted(h.state, op.trade) then [op.trade] else []
  }

  /** In every bucket: first what interruptions discarded, then what was or will be emitted. */
  ghost predicate Accounts(h: History, accepted: seq<Trade>)
    requires 0 < h.state.width
  {
    forall t :: Of(accepted, t, h.state.width) ==
      Of(h.discarded, t, h.state.width) + Of(PrintsOf(h.emitted) + h.current, t, h.state.width)
  }

  // ---- every call keeps the account ------------------------------------------------------------

  /** Each emitted bar's prints lie in its own bucket. */
  ghost predicate Filed(es: seq<Emission>, width: int)
    requires 0 < width
  {
    forall k :: 0 <= k < |es| ==> AllIn(es[k].prints, es[k].bar.openTime, width)
  }

  lemma EmissionsAreFiled(h: History)
    requires Emissions(h)
    ensures Filed(h.emitted, h.state.width)
  {
    hide BucketStart;
    forall k | 0 <= k < |h.emitted| ensures AllIn(h.emitted[k].prints, h.emitted[k].bar.openTime, h.state.width) {
      assert EmissionOk(h, k);
    }
  }

  lemma CurrentIsFiled(h: History)
    requires Shape(h) && h.current != []
    ensures h.state.bucket.Some? && AllIn(h.current, h.state.bucket.value, h.state.width)
  {
    hide BucketStart;
  }

  lemma InitIsFiled(es: seq<Emission>, width: int)
    requires 0 < width && Filed(es, width) && es != []
    ensures Filed(Init(es), width) && AllIn(Last(es).prints, Last(es).bar.openTime, width)
    ensures forall k :: 0 <= k < |es| - 1 ==> Init(es)[k] == es[k]
    ensures Ascending(es) ==> Ascending(Init(es)) && AllBelow(Init(es), Last(es).bar.openTime)
    ensures PrintsOf(es) == PrintsOf(Init(es)) + Last(es).prints
  {
    hide AllIn;
  }

  lemma {:induction false} EmittedElsewhere(es: seq<Emission>, t: int, width: int)
    requires 0 < width && Filed(es, width)
    requires forall k :: 0 <= k < |es| ==> es[k].bar.openTime != t
    ensures Of(PrintsOf(es), t, width) == []
    decreases |es|
  {
    hide AllIn;
    hide BucketStart;
    if es != [] {
      InitIsFiled(es, width);
      EmittedElsewhere(Init(es), t, width);
      var e := es[|es| - 1];
      OfAppends(PrintsOf(Init(es)), e.prints, t, width);
      OfOneBucket(e.prints, e.bar.openTime, t, width);
    }
  }

  /** Each bucket's prints among the emitted ones are the prints of its one bar. */
  lemma {:induction false} EmittedHere(es: seq<Emission>, k: nat, width: int)
    requires 0 < width && Filed(es, width) && Ascending(es) && k < |es|
    ensures Of(PrintsOf(es), es[k].bar.openTime, width) == es[k].prints
    decreases |es|
  {
    hide AllIn;
    hide Of;
    InitIsFiled(es, width);
    var e, t := es[|es| - 1], es[k].bar.openTime;
    OfAppends(PrintsOf(Init(es)), e.prints, t, width);
    OfOneBucket(e.prints, e.bar.openTime, t, width);
    if k == |es| - 1 {
      EmittedElsewhere(Init(es), t, width);
    } else {
      EmittedHere(Init(es), k, width);
    }
  }

  /** A bucket with a bar out is no longer the current one. */
  lemma CurrentIsElsewhere(h: History, t: int)
    requires Shape(h) && Emissions(h) && Ordered(h)
    ensures Of(h.current, t, h.state.width) == [] || Of(PrintsOf(h.emitted), t, h.state.width) == []
    ensures (exists k :: 0 <= k < |h.emitted| && h.emitted[k].bar.openTime == t) ==>
              Of(h.current, t, h.state.width) == []
  {
    hide PrintBar;
    hide EmissionOk;
    if h.current != [] {
      CurrentIsFiled(h);
      OfOneBucket(h.current, h.state.bucket.value, t, h.state.width);
      if t == h.state.bucket.value {
        EmissionsAreFiled(h);
        EmittedElsewhere(h.emitted, t, h.state.width);
      }
    }
  }

  lemma InterruptKeepsAccount(h: History, accepted: seq<Trade>)
    requires Shape(h) && Emissions(h) && Ordered(h) && Accounts(h, accepted)
    ensures Accounts(Note(h, FeedInterrupted), accepted)
  {
    hide Shape;
    hide Emissions;
    hide Ordered;
    hide Of;
    hide PrintsOf;
    ShapeFacts(h);
    var r, w := Note(h, FeedInterrupted), h.state.width;
    var emitted := PrintsOf(h.emitted);
    forall t ensures Of(accepted, t, w) == Of(r.discarded, t, w) + Of(PrintsOf(r.emitted) + r.current, t, w) {
      OfAppends(h.discarded, h.current, t, w);
      OfAppends(emitted, h.current, t, w);
      assert emitted + [] == emitted;
      CurrentIsElsewhere(h, t);
    }
  }

  lemma FlowKeepsAccount(h: History, target: int, fill: int, vouched: int, accepted: seq<Trade>)
    requires Shape(h) && Reached(h.state, target, fill) && Accounts(h, accepted)
    ensures Accounts(Flow(h, target, fill, vouched), accepted)
  {
    hide Shape;
    hide Of;
    hide Flow;
    FlowConserves(h, target, fill, vouched);
    FlowFrame(h, target, fill, vouched);
  }

  lemma TakenJoinsAccount(h: History, t: Trade, s: State, accepted: seq<Trade>)
    requires 0 < h.state.width == s.width && Accounts(h, accepted)
    ensures Accounts(h.(state := s, current := h.current + [t]), accepted + [t])
  {
    hide Of;
    hide PrintsOf;
    var w, all := h.state.width, PrintsOf(h.emitted) + h.current;
    assert PrintsOf(h.emitted) + (h.current + [t]) == all + [t];
    forall b ensures Of(accepted + [t], b, w) == Of(h.discarded, b, w) + Of(all + [t], b, w) {
      OfAppends(accepted, [t], b, w);
      OfAppends(all, [t], b, w);
    }
  }

  lemma PushKeepsAccount(h: History, t: Trade, accepted: seq<Trade>)
    requires Shape(h) && 0 <= h.state.acceptsFrom && Accounts(h, accepted)
    ensures Accounts(NotePush(h, t), accepted + TakenBy(h, Push(t)))
  {
    hide BucketStart;
    hide Shape;
    hide Of;
    hide PrintsOf;
    hide Flow;
    hide Advance;
    hide Fold;
    ShapeFacts(h);
    if Accepted(h.state, t) {
      var h' := h.(pushed := h.pushed + [t]);
      var bucket := BucketStart(t.time, h.state.width);
      TimeReaches(h.state, t.time, t.time);
      ShapeFrame(h, h');
      FlowKeepsAccount(h', bucket, bucket, t.time, accepted);
      FlowFrame(h', bucket, bucket, t.time);
      TakenJoinsAccount(Flow(h', bucket, bucket, t.time), t, PushTo(h.state, t).0, accepted);
    } else {
      assert accepted + [] == accepted;
    }
  }

  lemma StepKeepsAccount(h: History, op: Op, accepted: seq<Trade>)
    requires Shape(h) && Emissions(h) && Ordered(h) && 0 <= h.state.acceptsFrom && Accounts(h, accepted)
    ensures Note(h, op).state.width == h.state.width
    ensures Accounts(Note(h, op), accepted + TakenBy(h, op))
  {
    hide BucketStart;
    hide Shape;
    hide Emissions;
    hide Ordered;
    hide Accounts;
    hide NotePush;
    hide Flow;
    hide Advance;
    hide Accepted;
    ShapeFacts(h);
    WidthStays(h, op);
    assert accepted + [] == accepted;
    match op
    case Push(t) => PushKeepsAccount(h, t, accepted);
    case FeedInterrupted => InterruptKeepsAccount(h, accepted);
    case CloseThrough(now, live) =>
      if CloseActs(h.state, now) {
        TimeReaches(h.state, now, Clamp(live));
        FlowKeepsAccount(h, BucketStart(now, h.state.width), BucketStart(Clamp(live), h.state.width),
                         Clamp(live), accepted);
      }
  }

  lemma WidthStays(h: History, op: Op)
    requires 0 < h.state.width
    ensures Note(h, op).state.width == h.state.width
  {
    assert Run(h, [op]) == Note(Run(h, []), op) by {
      assert Init([op]) == [];
    }
  }

  lemma {:induction false} SafeRunsAccount(width: int, since: int, lastClose: Option<real>, floor: int, ops: seq<Op>)
    requires 0 < width
    requires AllSafe(Begin(Fresh(width, since).(noHistoryBefore := floor, lastClose := lastClose)), ops)
    ensures var h0 := Begin(Fresh(width, since).(noHistoryBefore := floor, lastClose := lastClose));
            Accounts(Run(h0, ops), AcceptedPrints(h0, ops))
    decreases |ops|
  {
    hide BucketStart;
    hide Note;
    hide Shape;
    hide Emissions;
    hide Conserved;
    hide Ordered;
    hide TakenBy;
    var h0 := Begin(Fresh(width, since).(noHistoryBefore := floor, lastClose := lastClose));
    if ops == [] {
      assert PrintsOf([]) + [] == [];
    } else {
      SafeRunsAccount(width, since, lastClose, floor, Init(ops));
      EveryRunIsGood(width, since, lastClose, floor, Init(ops));
      SafeRunsAscend(width, since, lastClose, floor, Init(ops));
      StepKeepsAccount(Run(h0, Init(ops)), Last(ops), AcceptedPrints(h0, Init(ops)));
    }
  }

  // ---- what a bar covers -----------------------------------------------------------------------

  lemma AccountOfBar(h: History, k: nat, accepted: seq<Trade>)
    requires Shape(h) && Emissions(h) && Ordered(h) && Accounts(h, accepted) && k < |h.emitted|
    ensures var e, w := h.emitted[k], h.state.width;
            Of(accepted, e.bar.openTime, w) == Of(h.discarded, e.bar.openTime, w) + e.prints
  {
    hide Shape;
    hide EmissionOk;
    hide Of;
    hide PrintsOf;
    var t, w := h.emitted[k].bar.openTime, h.state.width;
    EmissionsAreFiled(h);
    EmittedHere(h.emitted, k, w);
    CurrentIsElsewhere(h, t);
    OfAppends(PrintsOf(h.emitted), h.current, t, w);
  }

  lemma BarCovers(h: History, k: nat, all: seq<Trade>, gone: seq<Trade>)
    requires Emissions(h) && k < |h.emitted| && all == gone + h.emitted[k].prints
    ensures var e := h.emitted[k];
            && (e.prints == all <==> gone == [])
            && (e.prints != [] && |all| <= U32_MAX ==>
                  (PrintBar(e.bar, all, e.bar.openTime, h.state.width) <==> gone == []))
  {
    hide BucketStart;
    hide SumSize;
    assert EmissionOk(h, k);
    if gone == [] {
      assert all == h.emitted[k].prints;
    }
  }

  /** Over every run in which the caller keeps its ordering obligation, and for every bar
      emitted: the accepted prints of its bucket are, in order, those an interruption discarded
      followed by those the bar was made of. So the bar is made of all of them, and is their
      aggregate, if and only if no print of its bucket was discarded. (A trade count at the
      32-bit ceiling no longer tells; the last clause stays below it.) */
  lemma BarsMissExactlyTheDiscarded(
    width: int, since: int, lastClose: Option<real>, floor: int, ops: seq<Op>, k: nat)
    requires 0 < width
    requires var h0 := Begin(Fresh(width, since).(noHistoryBefore := floor, lastClose := lastClose));
             AllSafe(h0, ops) && k < |Run(h0, ops).emitted|
    ensures var h0 := Begin(Fresh(width, since).(noHistoryBefore := floor, lastClose := lastClose));
            var h := Run(h0, ops);
            var e := h.emitted[k];
            var all := Of(AcceptedPrints(h0, ops), e.bar.openTime, width);
            var gone := Of(h.discarded, e.bar.openTime, width);
            && all == gone + e.prints
            && (e.prints == all <==> gone == [])
            && (e.prints != [] && |all| <= U32_MAX ==>
                  (PrintBar(e.bar, all, e.bar.openTime, width) <==> gone == []))
  {
    hide BucketStart;
    hide Run;
    hide AllSafe;
    hide AcceptedPrints;
    hide Shape;
    hide EmissionOk;
    hide Conserved;
    hide Ordered;
    hide Accounts;
    hide PrintBar;
    hide Of;
    var h0 := Begin(Fresh(width, since).(noHistoryBefore := floor, lastClose := lastClose));
    var h := Run(h0, ops);
    var t := h.emitted[k].bar.openTime;
    SafeRunsAccount(width, since, lastClose, floor, ops);
    EveryRunIsGood(width, since, lastClose, floor, ops);
    SafeRunsAscend(width, since, lastClose, floor, ops);
    AccountOfBar(h, k, AcceptedPrints(h0, ops));
    BarCovers(h, k, Of(AcceptedPrints(h0, ops), t, width), Of(h.discarded, t, width));
  }

  // ---- three runs ------------------------------------------------------------------------------

  /** A print of size one. */
  function At(time: int, price: real): Trade {
    Trade(time, price, 1.0)
  }

  lemma RunSnoc(h: History, ops: seq<Op>, op: Op)
    requires 0 < h.state.width
    ensures Run(h, ops + [op]) == Note(Run(h, ops), op)
    ensures AllSafe(h, ops + [op]) <==> AllSafe(h, ops) && Safe(Run(h, ops), op)
    ensures AcceptedPrints(h, ops + [op]) == AcceptedPrints(h, ops) + TakenBy(Run(h, ops), op)
  {
    assert Init(ops + [op]) == ops;
  }

  const START: History := Begin(Fresh(1_000, 0))

  lemma FirstPush()
    ensures var h := Note(START, Push(At(1_000, 5.0)));
            && h.state == START.state.(bucket := Some(1_000), newest := Some(1_000), forming := h.state.forming)
            && h.state.forming == Some(Fold(EmptyAt(1_000, 1_000, 5.0), At(1_000, 5.0)))
            && h.emitted == [] && h.current == [At(1_000, 5.0)] && h.discarded == [] && h.entry == Some(1_000)
  {
  }

  /** The run up to and including an interruption of the bucket at 1 s. */
  lemma OneDiscarded() returns (h: History)
    ensures h == Run(START, [Push(At(1_000, 5.0)), FeedInterrupted])
    ensures h.emitted == [] && h.current == [] && h.discarded == [At(1_000, 5.0)]
    ensures h.state == START.state.(newest := Some(1_000), gaps := 1) && h.entry.None?
    ensures AllSafe(START, [Push(At(1_000, 5.0)), FeedInterrupted])
    ensures AcceptedPrints(START, [Push(At(1_000, 5.0)), FeedInterrupted]) == [At(1_000, 5.0)]
  {
    hide NotePush;
    FirstPush();
    var first := Push(At(1_000, 5.0));
    RunSnoc(START, [], first);
    RunSnoc(START, [first], FeedInterrupted);
    var h1 := Note(START, first);
    assert [] + [first] == [first] && [first] + [FeedInterrupted] == [first, FeedInterrupted];
    assert h1.state.bucket == Some(1_000) && h1.current == [At(1_000, 5.0)] && h1.emitted == [];
    h := Note(h1, FeedInterrupted);
  }

  const REOPENED: seq<Op> := [Push(At(1_000, 5.0)), FeedInterrupted, Push(At(1_500, 7.0)), Push(At(2_000, 7.0))]

  lemma ReopenedRun()
    ensures var h := Run(START, REOPENED);
            && |h.emitted| == 1 && h.emitted[0].bar.openTime == 1_000
            && h.emitted[0].prints == [At(1_500, 7.0)] && h.emitted[0].bar.volume == 1.0
            && h.discarded == [At(1_000, 5.0)]
    ensures AllSafe(START, REOPENED)
    ensures AcceptedPrints(START, REOPENED) == [At(1_000, 5.0), At(1_500, 7.0), At(2_000, 7.0)]
  {
    hide Note;
    hide Accepted;
    var two := [Push(At(1_000, 5.0)), FeedInterrupted];
    var h2 := OneDiscarded();
    var p3, p4 := Push(At(1_500, 7.0)), Push(At(2_000, 7.0));
    RunSnoc(START, two, p3);
    RunSnoc(START, two + [p3], p4);
    assert two + [p3] + [p4] == REOPENED;
    Reopen(h2);
    LeaveReopened(Note(h2, p3));
  }

  lemma Reopen(h: History)
    requires h.state == START.state.(newest := Some(1_000), gaps := 1) && h.entry.None?
    requires h.emitted == [] && h.current == []
    ensures Accepted(h.state, At(1_500, 7.0))
    ensures var r := Note(h, Push(At(1_500, 7.0)));
            && r.state == h.state.(bucket := Some(1_000), forming := r.state.forming)
            && r.state.forming == Some(Fold(EmptyAt(1_000, 1_000, 7.0), At(1_500, 7.0)))
            && r.emitted == [] && r.current == [At(1_500, 7.0)] && r.discarded == h.discarded
  {
  }

  lemma LeaveReopened(h: History)
    requires h.state == START.state.(bucket := Some(1_000), newest := Some(1_000), gaps := 1, forming := h.state.forming)
    requires h.state.forming == Some(Fold(EmptyAt(1_000, 1_000, 7.0), At(1_500, 7.0)))
    requires h.emitted == [] && h.current == [At(1_500, 7.0)]
    ensures Accepted(h.state, At(2_000, 7.0))
    ensures var r := Note(h, Push(At(2_000, 7.0)));
            && |r.emitted| == 1 && r.emitted[0].bar == h.state.forming.value
            && r.emitted[0].prints == h.current && r.discarded == h.discarded
  {
    assert Gap(1_000, 2_000, 2_000, 1_000) == 0;
  }

  /** A bar can miss a print that was accepted: the print at 1 s is discarded by an
      interruption, the one at 1.5 s reopens the bucket, and the bar is made of it alone. */
  lemma ReopenedBarMissesAPrint()
    ensures var h := Run(START, REOPENED); var all := AcceptedPrints(START, REOPENED);
            && AllSafe(START, REOPENED) && |h.emitted| == 1 && h.emitted[0].bar.openTime == 1_000
            && At(1_000, 5.0) in all && At(1_000, 5.0) !in h.emitted[0].prints
            && !PrintBar(h.emitted[0].bar, Of(all, 1_000, 1_000), 1_000, 1_000)
  {
    hide Run;
    hide AllSafe;
    hide AcceptedPrints;
    ReopenedRun();
    var all := [At(1_000, 5.0), At(1_500, 7.0), At(2_000, 7.0)];
    assert Init(all) == [At(1_000, 5.0), At(1_500, 7.0)] && Init(Init(all)) == [At(1_000, 5.0)];
    var mine := Of(all, 1_000, 1_000);
    assert mine == [At(1_000, 5.0), At(1_500, 7.0)];
    assert Init(mine) == [At(1_000, 5.0)] && SumSize(mine) == 2.0;
  }

  lemma SecondPush(h: History)
    requires h == Note(START, Push(At(1_000, 5.0)))
    ensures var r := Note(h, Push(At(2_000, 7.0)));
            && r.state == START.state.(bucket := Some(2_000), newest := Some(2_000), forming := r.state.forming,
                                       lastClose := Some(5.0))
            && |r.emitted| == 1 && r.emitted[0].bar.openTime == 1_000
            && r.current == [At(2_000, 7.0)] && r.discarded == [] && r.entry == Some(1_000)
  {
    hide Note;
    FirstPush();
    LeaveFirst(h);
  }

  /** Leaving the bucket at 1 s for the one at 2 s emits its bar and nothing flat. */
  lemma LeaveFirst(h: History)
    requires h.state == START.state.(bucket := Some(1_000), newest := Some(1_000), forming := h.state.forming)
    requires h.state.forming == Some(Fold(EmptyAt(1_000, 1_000, 5.0), At(1_000, 5.0)))
    requires h.emitted == [] && h.current == [At(1_000, 5.0)] && h.discarded == [] && h.entry == Some(1_000)
    ensures var r := Note(h, Push(At(2_000, 7.0)));
            && r.state == START.state.(bucket := Some(2_000), newest := Some(2_000), forming := r.state.forming,
                                       lastClose := Some(5.0))
            && |r.emitted| == 1 && r.emitted[0].bar.openTime == 1_000
            && r.current == [At(2_000, 7.0)] && r.discarded == [] && r.entry == Some(1_000)
  {
    assert Gap(1_000, 2_000, 2_000, 1_000) == 0;
  }

  /** The run up to an interruption of the bucket at 2 s, after a bar for the one at 1 s. */
  lemma OneBarThenInterrupted() returns (h: History)
    ensures h == Run(START, [Push(At(1_000, 5.0)), Push(At(2_000, 7.0)), FeedInterrupted])
    ensures |h.emitted| == 1 && h.emitted[0].bar.openTime == 1_000 && h.current == [] && h.entry.None?
    ensures h.discarded == [At(2_000, 7.0)]
    ensures h.state == START.state.(newest := Some(2_000), gaps := 1, lastClose := Some(5.0))
    ensures AllSafe(START, [Push(At(1_000, 5.0)), Push(At(2_000, 7.0)), FeedInterrupted])
  {
    hide NotePush;
    hide AcceptedPrints;
    hide TakenBy;
    var p1, p2 := Push(At(1_000, 5.0)), Push(At(2_000, 7.0));
    RunSnoc(START, [], p1);
    RunSnoc(START, [p1], p2);
    RunSnoc(START, [p1, p2], FeedInterrupted);
    assert [] + [p1] == [p1] && [p1] + [p2] == [p1, p2];
    assert [p1, p2] + [FeedInterrupted] == [p1, p2, FeedInterrupted];
    var h1 := Note(START, p1);
    SecondPush(h1);
    h := Note(Note(h1, p2), FeedInterrupted);
  }

  const UNSAFE: seq<Op> := [Push(At(1_000, 5.0)), Push(At(2_000, 7.0)), FeedInterrupted,
                            CloseThrough(1_000, 1_000), Push(At(2_000, 7.0))]

  /** Without the obligation a bucket is emitted twice: with no bucket open, a clock behind the
      last bar re-enters its bucket, and the next print closes it again. */
  lemma UnsafeRunEmitsTwice()
    ensures var h := Run(START, UNSAFE);
            && |h.emitted| == 2 && h.emitted[0].bar.openTime == 1_000 && h.emitted[1].bar.openTime == 1_000
            && !Ascending(h.emitted) && !AllSafe(START, UNSAFE)
  {
    hide Note;
    hide AcceptedPrints;
    hide TakenBy;
    var three := [Push(At(1_000, 5.0)), Push(At(2_000, 7.0)), FeedInterrupted];
    var h3 := OneBarThenInterrupted();
    var close, p5 := CloseThrough(1_000, 1_000), Push(At(2_000, 7.0));
    RunSnoc(START, three, close);
    RunSnoc(START, three + [close], p5);
    assert three + [close] + [p5] == UNSAFE;
    EnterAgain(h3, 1_000, 1_000);
    EmitAgain(Note(h3, close));
  }

  /** With no bucket open the clock decides which one is entered. */
  lemma EnterAgain(h: History, now: int, live: int)
    requires h.state == START.state.(newest := Some(2_000), gaps := 1, lastClose := Some(5.0))
    requires now == 1_000 || now == 2_000
    ensures var r := Note(h, CloseThrough(now, live));
            && r.state == h.state.(bucket := Some(now)) && r.emitted == h.emitted
            && r.current == h.current && r.discarded == h.discarded
  {
  }

  lemma EmitAgain(h: History)
    requires h.state == START.state.(bucket := Some(1_000), newest := Some(2_000), gaps := 1, lastClose := Some(5.0))
    ensures var r := Note(h, Push(At(2_000, 7.0)));
            && |r.emitted| == |h.emitted| + 1 && r.emitted[..|h.emitted|] == h.emitted
            && r.emitted[|h.emitted|].bar == EmptyAt(1_000, 1_000, 5.0)
  {
    assert Gap(1_000, 2_000, 2_000, 1_000) == 0;
  }

  const FLATTENED: seq<Op> := [Push(At(1_000, 5.0)), Push(At(2_000, 7.0)), FeedInterrupted,
                               CloseThrough(2_000, 3_000), CloseThrough(3_000, 3_000)]

  /** Even a flat bar can stand where a print was seen: the print at 2 s is discarded, the clock
      reopens its bucket, and a bar without trades at the close before it is emitted. */
  lemma FlatBarOverADiscardedPrint()
    ensures var h := Run(START, FLATTENED);
            && AllSafe(START, FLATTENED) && |h.emitted| == 2 && h.emitted[1].prints == []
            && h.emitted[1].bar == EmptyAt(2_000, 1_000, 5.0)
            && Of(h.discarded, 2_000, 1_000) == [At(2_000, 7.0)]
  {
    hide Note;
    hide AcceptedPrints;
    hide TakenBy;
    var three := [Push(At(1_000, 5.0)), Push(At(2_000, 7.0)), FeedInterrupted];
    var h3 := OneBarThenInterrupted();
    var c4, c5 := CloseThrough(2_000, 3_000), CloseThrough(3_000, 3_000);
    RunSnoc(START, three, c4);
    RunSnoc(START, three + [c4], c5);
    assert three + [c4] + [c5] == FLATTENED;
    EnterAgain(h3, 2_000, 3_000);
    EmitFlat(Note(h3, c4));
    assert Init([At(2_000, 7.0)]) == [];
  }

  lemma EmitFlat(h: History)
    requires h.state == START.state.(bucket := Some(2_000), newest := Some(2_000), gaps := 1, lastClose := Some(5.0))
    requires h.current == []
    ensures var r := Note(h, CloseThrough(3_000, 3_000));
            && |r.emitted| == |h.emitted| + 1 && r.discarded == h.discarded
            && r.emitted[|h.emitted|].bar == EmptyAt(2_000, 1_000, 5.0) && r.emitted[|h.emitted|].prints == []
  {
    assert Gap(2_000, 3_000, 3_000, 1_000) == 0;
  }
}
