/** Whole runs of the aggregator: where every print went, and what may be emitted when. */
module AggregatorRuns {
  import opened Common
  import opened Bars
  import opened Aggregator

  datatype Op = Push(trade: Trade) | CloseThrough(now: int, live: int) | FeedInterrupted

  function Step(s: State, op: Op): (State, seq<Bar>)
    requires 0 < s.width
  {
    match op
    case Push(t) => PushTo(s, t)
    case CloseThrough(now, live) => Close(s, now, live)
    case FeedInterrupted => (Interrupt(s), [])
  }

  /** An emitted bar with its provenance: the prints it was built from, the first bucket
      entered since the last interruption, and how far the feed was vouched for. */
  datatype Emission = Emission(bar: Bar, prints: seq<Trade>, session: int, vouched: int)

  /** A run's bookkeeping: the component's state and the fate of every print pushed. */
  datatype History = History(
    state: State, initialClose: Option<real>, emitted: seq<Emission>,
    current: seq<Trade>, entry: Option<int>,
    pushed: seq<Trade>, outOfRange: seq<Trade>, before: seq<Trade>, late: seq<Trade>,
    discarded: seq<Trade>)

  function Begin(s: State): History {
    History(s, s.lastClose, [], [], None, [], [], [], [], [])
  }

  function Tag(out: seq<Bar>, prints: seq<Trade>, session: int, vouched: int): (r: seq<Emission>)
    ensures |r| == |out|
  {
    seq(|out|, k requires 0 <= k < |out| => Emission(out[k], if k == 0 then prints else [], session, vouched))
  }

  function Session(h: History, target: int): int {
    if h.entry.Some? then h.entry.value else target
  }

  predicate Moves(s: State, target: int) {
    s.bucket.Some? && s.bucket.value < target
  }

  /** The bookkeeping of one `advance_to`. */
  function Flow(h: History, target: int, fill: int, vouched: int): History
    requires 0 < h.state.width
  {
    var (s, out) := Advance(h.state, target, fill);
    h.(state := s,
       emitted := h.emitted + Tag(out, h.current, Session(h, target), vouched),
       current := if Moves(h.state, target) then [] else h.current,
       entry := Some(Session(h, target)))
  }

  function Note(h: History, op: Op): History
    requires 0 < h.state.width
  {
    match op
    case Push(t) => NotePush(h, t)
    case CloseThrough(now, live) =>
      var w := h.state.width;
      if !CloseActs(h.state, now) then h
      else Flow(h, BucketStart(now, w), BucketStart(Clamp(live), w), Clamp(live))
    case FeedInterrupted =>
      h.(state := Interrupt(h.state), discarded := h.discarded + h.current, current := [], entry := None)
  }

  function NotePush(h: History, t: Trade): History
    requires 0 < h.state.width
  {
    var s := PushTo(h.state, t).0;
    var h' := h.(pushed := h.pushed + [t]);
    if !InRange(t.time) then h'.(state := s, outOfRange := h.outOfRange + [t])
    else if t.time < h.state.acceptsFrom then h'.(state := s, before := h.before + [t])
    else
      var bucket := BucketStart(t.time, h.state.width);
      if IsLate(h.state, bucket) then h'.(state := s, late := h.late + [t])
      else
        var moved := Flow(h', bucket, bucket, t.time);
        moved.(state := s, current := moved.current + [t])
  }

  function Run(h: History, ops: seq<Op>): (r: History)
    requires 0 < h.state.width
    ensures r.state.width == h.state.width
  {
    if ops == [] then h else Note(Run(h, Init(ops)), Last(ops))
  }

  /** The bookkeeping follows the component: same state, and exactly the bars it returns. */
  lemma NoteFollowsStep(h: History, op: Op)
    requires 0 < h.state.width
    ensures Note(h, op).state == Step(h.state, op).0
    ensures |Note(h, op).emitted| == |h.emitted| + |Step(h.state, op).1|
    ensures forall k :: 0 <= k < |Step(h.state, op).1| ==>
              Note(h, op).emitted[|h.emitted| + k].bar == Step(h.state, op).1[k]
    ensures h.emitted <= Note(h, op).emitted
  {
    hide BucketStart;
  }

  // ---- what a bar of prints is --------------------------------------------------------------

  function SumSize(prints: seq<Trade>): real {
    if prints == [] then 0.0 else SumSize(Init(prints)) + Last(prints).size
  }

  ghost predicate PrintBar(bar: Bar, prints: seq<Trade>, t: int, width: int)
    requires 0 < width
  {
    && prints != []
    && bar.openTime == t && bar.closeTime == t + width - 1
    && bar.open == prints[0].price && bar.close == Last(prints).price
    && (forall j :: 0 <= j < |prints| ==>
          bar.low <= prints[j].price <= bar.high && BucketStart(prints[j].time, width) == t)
    && (exists j :: 0 <= j < |prints| && prints[j].price == bar.high)
    && (exists j :: 0 <= j < |prints| && prints[j].price == bar.low)
    && bar.volume == SumSize(prints)
    && bar.trades == SaturatingAdd(|prints|, 0)
  }

  lemma FirstPrint(t: Trade, bucket: int, width: int)
    requires 0 < width && BucketStart(t.time, width) == bucket
    ensures PrintBar(Fold(EmptyAt(bucket, width, t.price), t), [t], bucket, width)
  {
    hide BucketStart;
    var b := Fold(EmptyAt(bucket, width, t.price), t);
    assert [t][0].price == b.high && [t][0].price == b.low;
    assert Init([t]) == [] && SumSize([]) == 0.0 && SumSize([t]) == t.size;
  }

  lemma NextPrint(bar: Bar, prints: seq<Trade>, t: Trade, bucket: int, width: int)
    requires 0 < width && BucketStart(t.time, width) == bucket
    requires PrintBar(bar, prints, bucket, width)
    ensures PrintBar(Fold(bar, t), prints + [t], bucket, width)
  {
    hide BucketStart;
    var ps, b := prints + [t], Fold(bar, t);
    assert Init(ps) == prints;
    var i :| 0 <= i < |prints| && prints[i].price == bar.high;
    assert ps[i].price == bar.high && ps[|prints|].price == t.price;
    assert exists m :: 0 <= m < |ps| && ps[m].price == b.high;
    var k :| 0 <= k < |prints| && prints[k].price == bar.low;
    assert ps[k].price == bar.low;
    assert exists m :: 0 <= m < |ps| && ps[m].price == b.low;
  }

  // ---- the invariant of every run ------------------------------------------------------------

  ghost predicate Shape(h: History) {
    var s := h.state;
    && 0 < s.width && Aligned(s.acceptsFrom, s.width)
    && (s.bucket.None? ==> h.current == [] && h.entry.None?)
    && (s.bucket.Some? ==>
          && Aligned(s.bucket.value, s.width)
          && s.newest.Some? && s.bucket.value <= s.newest.value
          && h.entry.Some? && s.acceptsFrom <= h.entry.value <= s.bucket.value)
    && (s.newest.Some? ==> InRange(s.newest.value) && Aligned(s.newest.value, s.width))
    && (s.forming.None? <==> h.current == [])
    && (s.forming.Some? ==> PrintBar(s.forming.value, h.current, s.bucket.value, s.width))
  }

  function CloseBefore(initial: Option<real>, es: seq<Emission>, k: nat): Option<real>
    requires k <= |es|
  {
    if k == 0 then initial else Some(es[k - 1].bar.close)
  }

  /** One emitted bar: aligned, one width wide, and either exactly its prints or a flat
      continuation of the bar before it that the feed was vouched for. */
  ghost predicate EmissionOk(h: History, k: nat)
    requires k < |h.emitted| && 0 < h.state.width
  {
    var e, w := h.emitted[k], h.state.width;
    && Aligned(e.bar.openTime, w) && e.bar.closeTime == e.bar.openTime + w - 1
    && h.state.acceptsFrom <= e.session <= e.bar.openTime
    && if e.prints != [] then PrintBar(e.bar, e.prints, e.bar.openTime, w)
       else
         && CloseBefore(h.initialClose, h.emitted, k).Some?
         && e.bar == EmptyAt(e.bar.openTime, w, CloseBefore(h.initialClose, h.emitted, k).value)
         && e.bar.openTime <= e.vouched
  }

  ghost predicate Emissions(h: History) {
    && 0 < h.state.width
    && h.state.lastClose == CloseBefore(h.initialClose, h.emitted, |h.emitted|)
    && forall k :: 0 <= k < |h.emitted| ==> EmissionOk(h, k)
  }

  function PrintsOf(es: seq<Emission>): seq<Trade> {
    if es == [] then [] else PrintsOf(Init(es)) + Last(es).prints
  }

  /** Every print pushed is in exactly one place, and the counters say how many are in each. */
  ghost predicate Conserved(h: History) {
    && multiset(h.pushed) ==
         multiset(h.outOfRange) + multiset(h.before) + multiset(h.late)
         + multiset(PrintsOf(h.emitted) + h.current) + multiset(h.discarded)
    && h.state.outOfRange == |h.outOfRange| && h.state.beforeHistory == |h.before|
    && h.state.late == |h.late|
  }

  // ---- advancing ---------------------------------------------------------------------------------

  lemma GapIsExact(current: int, target: int, fill: int, width: int)
    requires 0 < width && Aligned(current, width) && Aligned(target, width) && Aligned(fill, width)
    ensures var end := if target - width < fill then target - width else fill;
            current + Widths(Gap(current, target, fill, width), width) == end
  {
    hide Widths;
    var end := if target - width < fill then target - width else fill;
    SumOfMultiples(width, width, width);
    SumOfMultiples(target, width, width);
    SumOfMultiples(end, current, width);
    WidthsOfQuotient(end - current, width);
  }

  lemma WidthsOrder(m: int, n: int, width: int)
    requires 0 < width && m <= n
    ensures Widths(m, width) <= Widths(n, width)
    ensures m < n ==> Widths(m, width) + width <= Widths(n, width)
    ensures Widths(m, width) % width == 0
  {
    ProductIsMultiple(m, width);
    MultipleIsFar(n - m, width);
    assert (n - m) * width == n * width - m * width;
  }

  /** Where `advance_to` puts the bars it emits. */
  ghost predicate Placed(out: seq<Bar>, from: int, below: int, width: int) {
    && 0 < width
    && (forall k :: 0 <= k < |out| ==>
          Aligned(out[k].openTime, width) && out[k].closeTime == out[k].openTime + width - 1
          && from <= out[k].openTime < below)
    && (forall j, k :: 0 <= j < k < |out| ==> out[j].openTime < out[k].openTime)
  }

  lemma FlatTime(current: int, gap: int, end: int, width: int, k: nat)
    requires 0 < width && Aligned(current, width) && current + Widths(gap, width) == end && k < gap
    ensures var t := current + Widths(k + 1, width);
            Aligned(t, width) && current + width <= t <= end
  {
    hide Widths;
    WidthsOrder(1, k + 1, width);
    WidthsOrder(k + 1, gap, width);
    WidthsStep(0, width);
    SumOfMultiples(current, Widths(k + 1, width), width);
  }

  lemma FlatsPlaced(current: int, target: int, fill: int, width: int, close: real)
    requires 0 < width && Aligned(current, width) && Aligned(target, width) && Aligned(fill, width)
    ensures var out := Flats(current, width, Gap(current, target, fill, width), close);
            && Placed(out, current + width, target, width)
            && forall k :: 0 <= k < |out| ==>
                 out[k].openTime <= fill && out[k] == EmptyAt(out[k].openTime, width, close)
  {
    hide Widths;
    hide Gap;
    hide Aligned;
    var gap := Gap(current, target, fill, width);
    var out := Flats(current, width, gap, close);
    var end := if target - width < fill then target - width else fill;
    GapIsExact(current, target, fill, width);
    forall k | 0 <= k < |out|
      ensures out[k] == EmptyAt(current + Widths(k + 1, width), width, close)
      ensures Aligned(out[k].openTime, width) && current + width <= out[k].openTime <= end
    {
      FlatTime(current, gap, end, width, k);
    }
    forall j, k | 0 <= j < k < |out| ensures out[j].openTime < out[k].openTime {
      WidthsOrder(j + 1, k + 1, width);
    }
  }

  lemma AdvancePlaced(h: History, target: int, fill: int)
    requires Shape(h) && Moves(h.state, target)
    requires Aligned(target, h.state.width) && Aligned(fill, h.state.width)
    ensures Placed(Advance(h.state, target, fill).1, h.state.bucket.value, target, h.state.width)
    ensures |Advance(h.state, target, fill).1| <= MAX_FILL_BARS + 1
  {
    hide Widths;
    hide BucketStart;
    hide Gap;
    var s := h.state;
    var current := s.bucket.value;
    var head := Head(s, current, fill);
    assert Placed(head, current, target, s.width);
    var close := if s.forming.Some? then Some(s.forming.value.close) else s.lastClose;
    if close.Some? {
      FlatsPlaced(current, target, fill, s.width, close.value);
    }
  }

  /** No call returns more than `MAX_FILL_BARS + 1` bars. */
  lemma CallsAreBounded(h: History, op: Op)
    requires Shape(h)
    ensures |Step(h.state, op).1| <= MAX_FILL_BARS + 1
  {
    hide BucketStart;
    hide Advance;
    var w := h.state.width;
    match op
    case Push(t) =>
      BucketContains(t.time, w);
      StillOrPlaced(h, BucketStart(t.time, w), BucketStart(t.time, w));
    case CloseThrough(now, live) =>
      BucketContains(now, w);
      BucketContains(Clamp(live), w);
      StillOrPlaced(h, BucketStart(now, w), BucketStart(Clamp(live), w));
    case FeedInterrupted =>
  }

  lemma StillOrPlaced(h: History, target: int, fill: int)
    requires Shape(h) && Aligned(target, h.state.width) && Aligned(fill, h.state.width)
    ensures |Advance(h.state, target, fill).1| <= MAX_FILL_BARS + 1
  {
    if Moves(h.state, target) {
      AdvancePlaced(h, target, fill);
    }
  }

  // ---- every step keeps the invariant ----------------------------------------------------------

  ghost predicate Reached(s: State, target: int, fill: int) {
    && 0 < s.width && Aligned(target, s.width) && Aligned(fill, s.width)
    && s.acceptsFrom <= target && InRange(target)
  }

  lemma FlowKeepsShape(h: History, target: int, fill: int, vouched: int)
    requires Shape(h) && Reached(h.state, target, fill)
    ensures Shape(Flow(h, target, fill, vouched))
    ensures Flow(h, target, fill, vouched).state.bucket ==
            Some(if h.state.bucket.Some? then Max(h.state.bucket.value, target) else target)
  {
    hide PrintBar;
    hide Widths;
    hide Gap;
    hide Flats;
  }

  /** What leaving a bucket emits: first its prints or a flat bar, then only flat bars, all
      continuing from one close. */
  lemma AdvanceEmits(h: History, target: int, fill: int)
    requires Shape(h) && Moves(h.state, target) && Reached(h.state, target, fill)
    ensures var s := h.state; var (s', out) := Advance(s, target, fill);
            && (forall k :: 0 <= k < |out| ==> s'.lastClose == Some(out[k].close))
            && (s.forming.Some? ==> out != [] && out[0] == s.forming.value)
            && (out == [] ==> s'.lastClose == s.lastClose)
            && (forall k :: 0 <= k < |out| && (k > 0 || s.forming.None?) ==>
                  && out[k] == EmptyAt(out[k].openTime, s.width, out[k].close)
                  && out[k].openTime <= fill
                  && (k == 0 ==> s.lastClose == Some(out[k].close)))
  {
    hide PrintBar;
    hide Widths;
    hide Gap;
    hide Flats;
    var s := h.state;
    var current := s.bucket.value;
    var close := if s.forming.Some? then Some(s.forming.value.close) else s.lastClose;
    if close.Some? {
      FlatsPlaced(current, target, fill, s.width, close.value);
    }
  }

  lemma FlowKeepsEmissions(h: History, target: int, fill: int, vouched: int)
    requires Shape(h) && Emissions(h) && Reached(h.state, target, fill) && fill <= vouched
    ensures Emissions(Flow(h, target, fill, vouched))
  {
    hide PrintBar;
    hide Advance;
    var r := Flow(h, target, fill, vouched);
    var n := |h.emitted|;
    if !Moves(h.state, target) {
      StillEmits(h, target, fill);
      assert r.emitted == h.emitted;
      forall k | 0 <= k < n ensures EmissionOk(r, k) {
        assert EmissionOk(h, k);
      }
      return;
    }
    AdvanceEmits(h, target, fill);
    AdvancePlaced(h, target, fill);
    AdvanceKeepsFrame(h.state, target, fill);
    forall k | 0 <= k < |r.emitted| ensures EmissionOk(r, k) {
      if k < n {
        assert EmissionOk(h, k);
        assert r.emitted[k] == h.emitted[k];
        assert k > 0 ==> r.emitted[k - 1] == h.emitted[k - 1];
      } else {
        NewEmissionOk(h, target, fill, vouched, k - n);
      }
    }
  }

  lemma StillEmits(h: History, target: int, fill: int)
    requires 0 < h.state.width && !Moves(h.state, target)
    ensures Advance(h.state, target, fill).1 == []
    ensures Advance(h.state, target, fill).0.lastClose == h.state.lastClose
    ensures Advance(h.state, target, fill).0.width == h.state.width
    ensures Advance(h.state, target, fill).0.acceptsFrom == h.state.acceptsFrom
  {
  }

  lemma AdvanceKeepsFrame(s: State, target: int, fill: int)
    requires 0 < s.width
    ensures var s' := Advance(s, target, fill).0;
            && s'.width == s.width && s'.acceptsFrom == s.acceptsFrom
            && s'.outOfRange == s.outOfRange && s'.beforeHistory == s.beforeHistory && s'.late == s.late
  {
    hide Gap;
    hide Flats;
  }

  /** Where the new bars land in the bookkeeping, and which close precedes each. */
  lemma FlowAppends(h: History, target: int, fill: int, vouched: int, j: nat)
    requires Shape(h) && Emissions(h) && Moves(h.state, target) && Reached(h.state, target, fill)
    requires j < |Advance(h.state, target, fill).1|
    ensures var out := Advance(h.state, target, fill).1;
            var r := Flow(h, target, fill, vouched); var n := |h.emitted|;
            && r.emitted[n + j] == Emission(out[j], if j == 0 then h.current else [], h.entry.value, vouched)
            && CloseBefore(r.initialClose, r.emitted, n + j)
               == (if j == 0 then h.state.lastClose else Some(out[j - 1].close))
  {
    hide PrintBar;
    hide Advance;
    hide EmissionOk;
    var r, n := Flow(h, target, fill, vouched), |h.emitted|;
    if j > 0 {
      assert r.emitted[n + j - 1].bar == Advance(h.state, target, fill).1[j - 1];
    } else if n > 0 {
      assert r.emitted[n - 1] == h.emitted[n - 1];
    }
  }

  lemma NewEmissionOk(h: History, target: int, fill: int, vouched: int, j: nat)
    requires Shape(h) && Emissions(h) && Moves(h.state, target) && Reached(h.state, target, fill)
    requires fill <= vouched && j < |Advance(h.state, target, fill).1|
    ensures EmissionOk(Flow(h, target, fill, vouched), |h.emitted| + j)
  {
    hide PrintBar;
    hide Advance;
    hide EmptyAt;
    hide CloseBefore;
    hide Emissions;
    AdvanceEmits(h, target, fill);
    AdvancePlaced(h, target, fill);
    AdvanceKeepsFrame(h.state, target, fill);
    FlowAppends(h, target, fill, vouched, j);
    var out := Advance(h.state, target, fill).1;
    if j > 0 {
      assert Some(out[j].close) == Some(out[j - 1].close);
    } else if h.state.forming.Some? {
      PrintBarOpens(out[0], h.current, h.state.bucket.value, h.state.width);
    }
  }

  lemma PrintBarOpens(bar: Bar, prints: seq<Trade>, t: int, width: int)
    requires 0 < width && PrintBar(bar, prints, t, width)
    ensures bar.openTime == t && prints != []
  {
  }

  lemma {:induction false} PrintsAppend(es: seq<Emission>, more: seq<Emission>)
    requires forall k :: 0 <= k < |more| ==> more[k].prints == []
    ensures PrintsOf(es + more) == PrintsOf(es)
    decreases |more|
  {
    if more == [] {
      assert es + more == es;
    } else {
      PrintsAppend(es, Init(more));
      assert Init(es + more) == es + Init(more);
    }
  }

  lemma TagPrints(es: seq<Emission>, out: seq<Bar>, prints: seq<Trade>, session: int, vouched: int)
    ensures PrintsOf(es + Tag(out, prints, session, vouched)) ==
            PrintsOf(es) + (if out == [] then [] else prints)
  {
    var tags := Tag(out, prints, session, vouched);
    if out == [] {
      assert es + tags == es;
    } else {
      assert Init(es + [tags[0]]) == es;
      PrintsAppend(es + [tags[0]], tags[1..]);
      assert es + tags == es + [tags[0]] + tags[1..];
    }
  }

  lemma FlowConserves(h: History, target: int, fill: int, vouched: int)
    requires Shape(h) && Reached(h.state, target, fill)
    ensures var r := Flow(h, target, fill, vouched);
            PrintsOf(r.emitted) + r.current == PrintsOf(h.emitted) + h.current
  {
    hide PrintBar;
    hide Advance;
    var out := Advance(h.state, target, fill).1;
    TagPrints(h.emitted, out, h.current, Session(h, target), vouched);
    if Moves(h.state, target) {
      AdvanceEmits(h, target, fill);
    } else {
      StillEmits(h, target, fill);
    }
  }

  ghost predicate Good(h: History) {
    Shape(h) && Emissions(h) && Conserved(h)
  }

  lemma TimeReaches(s: State, t: int, live: int)
    requires 0 < s.width && Aligned(s.acceptsFrom, s.width) && s.acceptsFrom <= t
    requires 0 <= s.acceptsFrom && t <= MAX_TIME_MS
    ensures Reached(s, BucketStart(t, s.width), BucketStart(live, s.width))
    ensures BucketStart(live, s.width) <= live
  {
    hide BucketStart;
    BucketContains(t, s.width);
    BucketContains(live, s.width);
    BucketMonotone(s.acceptsFrom, t, s.width);
    BucketUnique(s.acceptsFrom, s.acceptsFrom, s.width);
  }

  /** Bookkeeping fields the emissions do not depend on. */
  lemma EmissionsFrame(h: History, r: History)
    requires Emissions(h)
    requires r.emitted == h.emitted && r.initialClose == h.initialClose
    requires r.state.width == h.state.width && r.state.acceptsFrom == h.state.acceptsFrom
    requires r.state.lastClose == h.state.lastClose
    ensures Emissions(r)
  {
    hide PrintBar;
    forall k | 0 <= k < |r.emitted| ensures EmissionOk(r, k) {
      assert EmissionOk(h, k);
    }
  }

  predicate Accepted(s: State, t: Trade)
    requires 0 < s.width
  {
    InRange(t.time) && s.acceptsFrom <= t.time && !IsLate(s, BucketStart(t.time, s.width))
  }

  lemma PushKeepsGood(h: History, t: Trade)
    requires Good(h) && 0 <= h.state.acceptsFrom
    ensures Good(NotePush(h, t)) && NotePush(h, t).state.acceptsFrom == h.state.acceptsFrom
  {
    hide BucketStart;
    hide PrintBar;
    hide Advance;
    hide Fold;
    hide EmissionOk;
    hide Emissions;
    hide Shape;
    hide Conserved;
    ShapeFacts(h);
    if Accepted(h.state, t) {
      AcceptKeepsGood(h, t);
    } else {
      var r := NotePush(h, t);
      EmissionsFrame(h, r);
      ShapeFrame(h, r);
      RefusedIsConserved(h, t);
    }
  }

  lemma RefusedIsConserved(h: History, t: Trade)
    requires 0 < h.state.width && Conserved(h) && !Accepted(h.state, t)
    ensures Conserved(NotePush(h, t))
  {
    hide BucketStart;
    hide Advance;
    hide PrintsOf;
    hide Flow;
    hide Fold;
    hide EmptyAt;
    MultisetSnoc(h.pushed, t);
    if !InRange(t.time) {
      MultisetSnoc(h.outOfRange, t);
    } else if t.time < h.state.acceptsFrom {
      MultisetSnoc(h.before, t);
    } else {
      MultisetSnoc(h.late, t);
    }
  }

  lemma ShapeFrame(h: History, r: History)
    requires Shape(h) && r.current == h.current && r.entry == h.entry
    requires r.state.width == h.state.width && r.state.acceptsFrom == h.state.acceptsFrom
    requires r.state.bucket == h.state.bucket && r.state.newest == h.state.newest
    requires r.state.forming == h.state.forming
    ensures Shape(r)
  {
    hide PrintBar;
  }

  lemma MultisetSnoc(a: seq<Trade>, t: Trade)
    ensures multiset(a + [t]) == multiset(a) + multiset{t}
  {
  }

  lemma AcceptKeepsGood(h: History, t: Trade)
    requires Good(h) && 0 <= h.state.acceptsFrom && Accepted(h.state, t)
    ensures Good(NotePush(h, t)) && NotePush(h, t).state.acceptsFrom == h.state.acceptsFrom
  {
    hide BucketStart;
    hide PrintBar;
    hide Advance;
    hide Fold;
    hide EmissionOk;
    hide Emissions;
    hide Shape;
    hide Flow;
    hide Conserved;
    hide PrintsOf;
    ShapeFacts(h);
    var s, r := h.state, NotePush(h, t);
    var h' := h.(pushed := h.pushed + [t]);
    EmissionsFrame(h, h');
    ShapeFrame(h, h');
    var bucket := BucketStart(t.time, s.width);
    TimeReaches(s, t.time, t.time);
    var moved := Flow(h', bucket, bucket, t.time);
    FlowFrame(h', bucket, bucket, t.time);
    FlowKeepsShape(h', bucket, bucket, t.time);
    FlowKeepsEmissions(h', bucket, bucket, t.time);
    FlowConserves(h', bucket, bucket, t.time);
    FoldKeepsShape(moved, t);
    EmissionsFrame(moved, r);
    assert PrintsOf(r.emitted) + r.current == PrintsOf(h.emitted) + h.current + [t];
    TakenIsConserved(h, r, t);
  }

  lemma TakenIsConserved(h: History, r: History, t: Trade)
    requires Conserved(h) && r.pushed == h.pushed + [t]
    requires PrintsOf(r.emitted) + r.current == PrintsOf(h.emitted) + h.current + [t]
    requires r.outOfRange == h.outOfRange && r.before == h.before && r.late == h.late && r.discarded == h.discarded
    requires r.state.outOfRange == h.state.outOfRange && r.state.late == h.state.late
    requires r.state.beforeHistory == h.state.beforeHistory
    ensures Conserved(r)
  {
    hide PrintsOf;
    MultisetSnoc(PrintsOf(h.emitted) + h.current, t);
    MultisetSnoc(h.pushed, t);
  }

  lemma ShapeFacts(h: History)
    requires Shape(h)
    ensures 0 < h.state.width && Aligned(h.state.acceptsFrom, h.state.width)
    ensures h.state.bucket.Some? ==> h.state.newest.Some? && h.state.bucket.value <= h.state.newest.value
  {
    hide PrintBar;
  }

  lemma FlowFrame(h: History, target: int, fill: int, vouched: int)
    requires 0 < h.state.width
    ensures var r := Flow(h, target, fill, vouched);
            && r.state == Advance(h.state, target, fill).0
            && r.state.width == h.state.width && r.state.acceptsFrom == h.state.acceptsFrom
            && r.state.outOfRange == h.state.outOfRange && r.state.late == h.state.late
            && r.state.beforeHistory == h.state.beforeHistory
            && r == h.(state := r.state, emitted := r.emitted, current := r.current, entry := r.entry)
  {
    hide Advance;
    AdvanceKeepsFrame(h.state, target, fill);
  }

  lemma MultisetOfSum(a: seq<Trade>, b: seq<Trade>)
    ensures multiset(a + b) == multiset(a) + multiset(b)
  {
  }

  lemma FoldKeepsShape(h: History, t: Trade)
    requires Shape(h) && h.state.bucket == Some(BucketStart(t.time, h.state.width))
    ensures var s := h.state; var bucket := s.bucket.value;
            var bar := if s.forming.Some? then s.forming.value else EmptyAt(bucket, s.width, t.price);
            Shape(h.(state := s.(forming := Some(Fold(bar, t))), current := h.current + [t]))
  {
    hide BucketStart;
    hide PrintBar;
    hide Fold;
    var s := h.state;
    var bucket := s.bucket.value;
    if s.forming.Some? {
      NextPrint(s.forming.value, h.current, t, bucket, s.width);
    } else {
      FirstPrint(t, bucket, s.width);
      assert h.current + [t] == [t];
    }
  }

  lemma CloseKeepsGood(h: History, now: int, live: int)
    requires Good(h) && 0 <= h.state.acceptsFrom && CloseActs(h.state, now)
    ensures var r := Note(h, CloseThrough(now, live));
            Good(r) && r.state.acceptsFrom == h.state.acceptsFrom
  {
    hide BucketStart;
    hide PrintBar;
    hide Advance;
    hide Flow;
    hide EmissionOk;
    hide Emissions;
    hide Shape;
    ShapeFacts(h);
    var s, r := h.state, Note(h, CloseThrough(now, live));
    TimeReaches(s, now, Clamp(live));
    var target, fill := BucketStart(now, s.width), BucketStart(Clamp(live), s.width);
    FlowFrame(h, target, fill, Clamp(live));
    FlowKeepsShape(h, target, fill, Clamp(live));
    FlowKeepsEmissions(h, target, fill, Clamp(live));
    FlowConserves(h, target, fill, Clamp(live));
  }

  lemma StepKeepsGood(h: History, op: Op)
    requires Good(h) && 0 <= h.state.acceptsFrom
    ensures Good(Note(h, op)) && Note(h, op).state.acceptsFrom == h.state.acceptsFrom
  {
    hide BucketStart;
    hide PrintBar;
    hide Advance;
    hide Flow;
    hide EmissionOk;
    hide NotePush;
    match op
    case Push(t) =>
      PushKeepsGood(h, t);
    case CloseThrough(now, live) =>
      if CloseActs(h.state, now) {
        CloseKeepsGood(h, now, live);
      }
    case FeedInterrupted =>
      EmissionsFrame(h, Note(h, op));
      MultisetOfSum(h.discarded, h.current);
      MultisetOfSum(PrintsOf(h.emitted), h.current);
      assert PrintsOf(h.emitted) + [] == PrintsOf(h.emitted);
  }

  /** In every run from a fresh or resumed aggregator: each print pushed is accounted for
      exactly once, every bar with prints is exactly their aggregate, and every bar without
      prints is a flat continuation, inside the current session and not past the vouched feed. */
  lemma {:induction false} EveryRunIsGood(width: int, since: int, lastClose: Option<real>, floor: int, ops: seq<Op>)
    requires 0 < width
    ensures var s := Fresh(width, since).(noHistoryBefore := floor, lastClose := lastClose);
            var h := Run(Begin(s), ops);
            Good(h) && h.state.acceptsFrom == s.acceptsFrom >= 0
    decreases |ops|
  {
    hide BucketStart;
    hide Note;
    var s := Fresh(width, since).(noHistoryBefore := floor, lastClose := lastClose);
    FirstWholeIsAligned(width, since);
    if ops != [] {
      EveryRunIsGood(width, since, lastClose, floor, Init(ops));
      StepKeepsGood(Run(Begin(s), Init(ops)), Last(ops));
    }
  }

  lemma FirstWholeIsAligned(width: int, since: int)
    requires 0 < width
    ensures FirstWholeBucket(width, since) % width == 0
    ensures Clamp(since) <= FirstWholeBucket(width, since) < Clamp(since) + width
  {
    hide BucketStart;
    BucketContains(Clamp(since), width);
    SumOfMultiples(width, width, width);
    SumOfMultiples(BucketStart(Clamp(since), width), width, width);
  }

  // ---- ordering ------------------------------------------------------------------------------------

  ghost predicate Ascending(es: seq<Emission>) {
    forall j, k :: 0 <= j < k < |es| ==> es[j].bar.openTime < es[k].bar.openTime
  }

  ghost predicate AllBelow(es: seq<Emission>, t: int) {
    forall k :: 0 <= k < |es| ==> es[k].bar.openTime < t
  }

  ghost predicate Ordered(h: History) {
    && Ascending(h.emitted)
    && (h.state.bucket.Some? ==> AllBelow(h.emitted, h.state.bucket.value))
    && (h.state.newest.Some? ==> AllBelow(h.emitted, h.state.newest.value))
    && (h.state.newest.None? ==> h.emitted == [])
    && (h.emitted != [] ==> h.state.lastClose.Some?)
  }

  /** The caller's obligation: with no bucket open, never close through an instant whose
      bucket is at or before the last bar it was handed. */
  predicate Safe(h: History, op: Op)
    requires 0 < h.state.width
  {
    op.CloseThrough? && CloseActs(h.state, op.now) && h.state.bucket.None? && h.emitted != [] ==>
      Last(h.emitted).bar.openTime < BucketStart(op.now, h.state.width)
  }

  ghost predicate AllSafe(h: History, ops: seq<Op>)
    requires 0 < h.state.width
  {
    ops != [] ==> AllSafe(h, Init(ops)) && Safe(Run(h, Init(ops)), Last(ops))
  }

  lemma FlowKeepsOrder(h: History, target: int, fill: int, vouched: int)
    requires Shape(h) && Emissions(h) && Ordered(h) && Reached(h.state, target, fill) && fill <= vouched
    requires h.state.bucket.None? ==> AllBelow(h.emitted, target)
    ensures Ordered(Flow(h, target, fill, vouched))
  {
    hide PrintBar;
    hide Advance;
    hide EmissionOk;
    hide Placed;
    var r, out := Flow(h, target, fill, vouched), Advance(h.state, target, fill).1;
    FlowKeepsEmissions(h, target, fill, vouched);
    AdvanceEnters(h.state, target, fill);
    if Moves(h.state, target) {
      AdvancePlaced(h, target, fill);
      PlacedAppends(h.emitted, out, h.current, h.entry.value, vouched, h.state.bucket.value, target, h.state.width);
    } else {
      StillEmits(h, target, fill);
      assert r.emitted == h.emitted;
    }
  }

  lemma PlacedAppends(es: seq<Emission>, out: seq<Bar>, prints: seq<Trade>, session: int, vouched: int,
                      from: int, below: int, width: int)
    requires Ascending(es) && AllBelow(es, from) && from <= below && Placed(out, from, below, width)
    ensures var all := es + Tag(out, prints, session, vouched); Ascending(all) && AllBelow(all, below)
  {
    var tags, n := Tag(out, prints, session, vouched), |es|;
    var all := es + tags;
    assert forall k :: 0 <= k < |out| ==> tags[k].bar == out[k];
    forall j, k | 0 <= j < k < |all| ensures all[j].bar.openTime < all[k].bar.openTime {
      if j >= n {
        assert out[j - n].openTime < out[k - n].openTime;
      } else if k >= n {
        assert from <= out[k - n].openTime;
      }
    }
  }

  lemma AdvanceEnters(s: State, target: int, fill: int)
    requires 0 < s.width
    requires s.bucket.Some? ==> s.newest.Some?
    ensures var s' := Advance(s, target, fill).0;
            && s'.bucket == Some(if s.bucket.Some? then Max(s.bucket.value, target) else target)
            && s'.newest.Some?
            && (s.newest.Some? ==> s.newest.value <= s'.newest.value)
            && (s.bucket.None? || s.bucket.value < target ==>
                  target <= s'.newest.value)
  {
    hide Gap;
    hide Flats;
  }

  lemma StepKeepsOrder(h: History, op: Op)
    requires Good(h) && 0 <= h.state.acceptsFrom && Ordered(h) && Safe(h, op)
    ensures Ordered(Note(h, op))
  {
    hide BucketStart;
    hide PrintBar;
    hide Advance;
    hide EmissionOk;
    hide Conserved;
    var s := h.state;
    match op
    case Push(t) =>
      if InRange(t.time) && s.acceptsFrom <= t.time && !IsLate(s, BucketStart(t.time, s.width)) {
        var bucket := BucketStart(t.time, s.width);
        TimeReaches(s, t.time, t.time);
        var h' := h.(pushed := h.pushed + [t]);
        ShapeFrame(h, h');
        EmissionsFrame(h, h');
        assert AllBelow(h.emitted, bucket);
        FlowKeepsOrder(h', bucket, bucket, t.time);
      }
    case CloseThrough(now, live) =>
      if CloseActs(s, now) {
        TimeReaches(s, now, Clamp(live));
        FlowKeepsOrder(h, BucketStart(now, s.width), BucketStart(Clamp(live), s.width), Clamp(live));
      }
    case FeedInterrupted =>
  }

  /** Over every run in which the caller keeps its obligation, no bucket is emitted twice or
      out of order: the bars of all calls together are strictly ascending. */
  lemma {:induction false} SafeRunsAscend(width: int, since: int, lastClose: Option<real>, floor: int, ops: seq<Op>)
    requires 0 < width
    requires AllSafe(Begin(Fresh(width, since).(noHistoryBefore := floor, lastClose := lastClose)), ops)
    ensures var s := Fresh(width, since).(noHistoryBefore := floor, lastClose := lastClose);
            Ordered(Run(Begin(s), ops))
    decreases |ops|
  {
    hide BucketStart;
    hide Note;
    hide Good;
    var s := Fresh(width, since).(noHistoryBefore := floor, lastClose := lastClose);
    if ops != [] {
      SafeRunsAscend(width, since, lastClose, floor, Init(ops));
      EveryRunIsGood(width, since, lastClose, floor, Init(ops));
      StepKeepsOrder(Run(Begin(s), Init(ops)), Last(ops));
    }
  }

  /** The obligation is exact. After a close with no bucket open, the next live print leaves
      the emitted bars in order if and only if that close was safe. */
  lemma OrderBreaksExactlyWhenUnsafe(h: History, now: int, live: int, price: real, size: real)
    requires Good(h) && 0 <= h.state.acceptsFrom && Ordered(h)
    requires h.state.bucket.None? && h.emitted != [] && CloseActs(h.state, now)
    ensures var next := Push(Trade(h.state.newest.value, price, size));
            var closed := Note(h, CloseThrough(now, live));
            Ascending(Note(closed, next).emitted) <==> Safe(h, CloseThrough(now, live))
  {
    hide BucketStart;
    hide PrintBar;
    hide Conserved;
    hide EmissionOk;
    hide Advance;
    hide Flats;
    var op := CloseThrough(now, live);
    var closed := Note(h, op);
    var s, w := h.state, h.state.width;
    var newest := s.newest.value;
    var next := Push(Trade(newest, price, size));
    StepKeepsGood(h, op);
    StepKeepsGood(closed, next);
    if Safe(h, op) {
      StepKeepsOrder(h, op);
      StepKeepsOrder(closed, next);
    } else {
      UnsafeCloseBreaks(h, now, live, price, size);
    }
  }

  lemma UnsafeCloseBreaks(h: History, now: int, live: int, price: real, size: real)
    requires Good(h) && 0 <= h.state.acceptsFrom && Ordered(h)
    requires h.state.bucket.None? && h.emitted != [] && CloseActs(h.state, now)
    requires !Safe(h, CloseThrough(now, live))
    ensures var next := Push(Trade(h.state.newest.value, price, size));
            var closed := Note(h, CloseThrough(now, live));
            !Ascending(Note(closed, next).emitted)
  {
    hide BucketStart;
    hide PrintBar;
    hide Conserved;
    hide EmissionOk;
    hide Flats;
    hide Gap;
    var s, w := h.state, h.state.width;
    var newest, target := s.newest.value, BucketStart(now, w);
    var t := Trade(newest, price, size);
    var closed := Note(h, CloseThrough(now, live));
    var n := |h.emitted|;
    TimeReaches(s, now, Clamp(live));
    BucketUnique(newest, newest, w);
    assert h.emitted[n - 1].bar.openTime < newest;
    assert target <= h.emitted[n - 1].bar.openTime;
    assert closed.emitted == h.emitted;
    assert closed.state.bucket == Some(target) && closed.state.newest == Some(newest);
    assert closed.state.forming.None? && closed.state.lastClose.Some?;
    LastBarIsAccepted(h);
    var out := Advance(closed.state, newest, newest).1;
    assert out[0] == EmptyAt(target, w, s.lastClose.value);
    var r := Note(closed, Push(t));
    assert r.emitted[n].bar == out[0];
    assert r.emitted[n - 1] == h.emitted[n - 1];
  }

  lemma LastBarIsAccepted(h: History)
    requires Shape(h) && Emissions(h) && h.emitted != []
    ensures h.state.acceptsFrom <= Last(h.emitted).bar.openTime
  {
    hide PrintBar;
    assert EmissionOk(h, |h.emitted| - 1);
  }
}
