/** Exactly which bars the aggregator emits: which buckets it owes, and which prints it refuses. */
module AggregatorFills {
  import opened Common
  import opened Bars
  import opened Aggregator
  import opened AggregatorRuns

  // ---- leaving a bucket ------------------------------------------------------------------------

  /** The bar at `t` is among these. */
  ghost predicate HasBarAt(out: seq<Bar>, t: int) {
    exists k :: 0 <= k < |out| && out[k].openTime == t
  }

  /** The close a flat bar after the open bucket would continue. */
  function KnownClose(s: State): Option<real> {
    if s.forming.Some? then Some(s.forming.value.close) else s.lastClose
  }

  /** The whole bucket at `t` lies after `current`, before `target`, and was vouched for by `v`. */
  predicate Due(t: int, current: int, target: int, v: int, width: int)
    requires 0 < width
  {
    t % width == 0 && current < t < target && t <= v
  }

  /** More whole buckets are due than one call fills: the 10,001st after `current` is. */
  predicate TooManyDue(current: int, target: int, v: int, width: int)
    requires 0 < width
  {
    Due(current + Widths(10_001, width), current, target, v, width)
  }

  /** What leaving `current` for `target` does when the feed is vouched for through `v`: the open
      bucket's own bar if it has prints, or a flat one if it is vouched for; then one flat bar for
      every bucket that is due, unless more are due than one call fills; each at the one close. */
  ghost predicate Leaves(s: State, target: int, v: int, r: State, out: seq<Bar>)
    requires 0 < s.width && s.bucket.Some?
  {
    var current, w, close := s.bucket.value, s.width, KnownClose(s);
    && (forall t :: HasBarAt(out, t) <==>
          || (t == current && (s.forming.Some? || (close.Some? && current <= v)))
          || (close.Some? && !TooManyDue(current, target, v, w) && Due(t, current, target, v, w)))
    && (forall k :: 0 <= k < |out| ==>
          if out[k].openTime == current && s.forming.Some? then out[k] == s.forming.value
          else close.Some? && out[k] == Bar(out[k].openTime, out[k].openTime + w - 1,
                                            close.value, close.value, close.value, close.value, 0.0, 0))
    && (forall j, k :: 0 <= j < k < |out| ==> out[j].openTime < out[k].openTime)
    && r == s.(bucket := Some(target), newest := r.newest, forming := None, lastClose := close,
               skippedFills := s.skippedFills + if close.Some? && TooManyDue(current, target, v, w) then 1 else 0)
    && r.newest == Some(if s.newest.Some? && s.newest.value > target then s.newest.value else target)
  }

  lemma DueReaches(current: int, target: int, v: int, width: int, n: int)
    requires 0 < width && Aligned(current, width) && Aligned(target, width) && 0 < n
    ensures var fill := BucketStart(v, width);
            Due(current + Widths(n, width), current, target, v, width) <==> n <= Gap(current, target, fill, width)
  {
    hide Widths;
    hide BucketStart;
    hide Gap;
    var fill, t := BucketStart(v, width), current + Widths(n, width);
    BucketContains(v, width);
    GapIsExact(current, target, fill, width);
    var gap := Gap(current, target, fill, width);
    WidthsOrder(0, n, width);
    WidthsOrder(n, n, width);
    WidthsStep(0, width);
    SumOfMultiples(current, Widths(n, width), width);
    UpTo(t, v, width);
    BeforeTarget(t, target, width);
    if n <= gap {
      WidthsOrder(n, gap, width);
    } else {
      WidthsOrder(gap, n, width);
    }
  }

  /** An aligned instant is at or before `v` exactly when it is at or before `v`'s bucket. */
  lemma UpTo(t: int, v: int, width: int)
    requires 0 < width && t % width == 0
    ensures t <= v <==> t <= BucketStart(v, width)
  {
    hide BucketStart;
    BucketContains(v, width);
    if t <= v {
      BucketMonotone(t, v, width);
      BucketUnique(t, t, width);
    }
  }

  lemma BeforeTarget(t: int, target: int, width: int)
    requires 0 < width && t % width == 0 && Aligned(target, width)
    ensures t < target <==> t <= target - width
  {
    if t < target && target < t + width {
      MultiplesAreSpaced(t, target, width);
    }
  }

  lemma DueIsAfter(t: int, current: int, target: int, v: int, width: int)
    requires 0 < width && Due(t, current, target, v, width)
    ensures t % width == 0 && current < t
  {
  }

  /** Every due bucket is one of the flat ones, and the flat ones are due. */
  lemma FlatsAreDue(current: int, target: int, v: int, width: int, close: real, t: int)
    requires 0 < width && Aligned(current, width) && Aligned(target, width)
    ensures var out := Flats(current, width, Gap(current, target, BucketStart(v, width), width), close);
            HasBarAt(out, t) <==> Due(t, current, target, v, width)
  {
    hide Widths;
    hide BucketStart;
    hide Gap;
    hide Aligned;
    hide Due;
    var gap := Gap(current, target, BucketStart(v, width), width);
    var out := Flats(current, width, gap, close);
    if HasBarAt(out, t) {
      var k :| 0 <= k < |out| && out[k].openTime == t;
      DueReaches(current, target, v, width, k + 1);
    }
    if Due(t, current, target, v, width) {
      DueIsAfter(t, current, target, v, width);
      var n := WidthsBetween(current, t, width);
      DueReaches(current, target, v, width, n);
      assert out[n - 1].openTime == t;
    }
  }

  lemma WidthsBetween(current: int, t: int, width: int) returns (n: int)
    requires 0 < width && Aligned(current, width) && t % width == 0 && current < t
    ensures 0 < n && current + Widths(n, width) == t
  {
    hide Widths;
    SumOfMultiples(t, current, width);
    n := (t - current) / width;
    WidthsOfQuotient(t - current, width);
    if n <= 0 {
      WidthsOrder(n, 0, width);
      WidthsStep(0, width);
    }
  }

  lemma AppendHasBar(a: seq<Bar>, b: seq<Bar>, t: int)
    ensures HasBarAt(a + b, t) <==> HasBarAt(a, t) || HasBarAt(b, t)
  {
    var all := a + b;
    if HasBarAt(a, t) {
      var k :| 0 <= k < |a| && a[k].openTime == t;
      assert all[k].openTime == t;
    }
    if HasBarAt(b, t) {
      var k :| 0 <= k < |b| && b[k].openTime == t;
      assert all[|a| + k].openTime == t;
    }
  }

  lemma HeadIs(s: State, v: int, t: int)
    requires 0 < s.width && s.bucket.Some? && Aligned(s.bucket.value, s.width)
    requires s.forming.Some? ==> s.forming.value.openTime == s.bucket.value
    ensures var current := s.bucket.value; var head := Head(s, current, BucketStart(v, s.width));
            && |head| <= 1
            && (HasBarAt(head, t) <==>
                  t == current && (s.forming.Some? || (KnownClose(s).Some? && current <= v)))
  {
    hide BucketStart;
    UpTo(s.bucket.value, v, s.width);
    var head := Head(s, s.bucket.value, BucketStart(v, s.width));
    assert head != [] ==> head[0].openTime == s.bucket.value;
  }

  lemma AdvanceSplits(s: State, target: int, fill: int)
    requires 0 < s.width && s.bucket.Some? && s.bucket.value < target
    ensures var (r, out) := Advance(s, target, fill); var current, close := s.bucket.value, KnownClose(s);
            var gap := Gap(current, target, fill, s.width);
            && out == Head(s, current, fill)
                      + (if close.None? || gap > MAX_FILL_BARS then [] else Flats(current, s.width, gap, close.value))
            && r == s.(bucket := Some(target), newest := r.newest, forming := None, lastClose := close,
                       skippedFills := s.skippedFills + if close.Some? && gap > MAX_FILL_BARS then 1 else 0)
            && r.newest == Some(if s.newest.Some? && s.newest.value > target then s.newest.value else target)
  {
    hide Gap;
    hide Flats;
  }

  /** The bars put after the open bucket's own. */
  lemma RestIsDue(s: State, target: int, v: int, rest: seq<Bar>)
    requires 0 < s.width && s.bucket.Some?
    requires Aligned(s.bucket.value, s.width) && Aligned(target, s.width)
    requires var gap := Gap(s.bucket.value, target, BucketStart(v, s.width), s.width);
             rest == if KnownClose(s).None? || gap > MAX_FILL_BARS then []
                     else Flats(s.bucket.value, s.width, gap, KnownClose(s).value)
    ensures var current, w, close := s.bucket.value, s.width, KnownClose(s);
            && (close.Some? ==> (TooManyDue(current, target, v, w)
                                 <==> Gap(current, target, BucketStart(v, w), w) > MAX_FILL_BARS))
            && (forall t :: HasBarAt(rest, t) <==>
                  close.Some? && !TooManyDue(current, target, v, w) && Due(t, current, target, v, w))
            && (forall k :: 0 <= k < |rest| ==>
                  && current < rest[k].openTime && close.Some?
                  && rest[k] == EmptyAt(rest[k].openTime, w, close.value))
            && (forall j, k :: 0 <= j < k < |rest| ==> rest[j].openTime < rest[k].openTime)
  {
    hide Widths;
    hide BucketStart;
    hide Gap;
    hide Flats;
    hide HasBarAt;
    hide Due;
    var current, w, close := s.bucket.value, s.width, KnownClose(s);
    BucketContains(v, w);
    DueReaches(current, target, v, w, 10_001);
    if rest == [] {
      NothingHas();
    }
    if close.Some? {
      FlatsPlaced(current, target, BucketStart(v, w), w, close.value);
      forall t ensures HasBarAt(Flats(current, w, Gap(current, target, BucketStart(v, w), w), close.value), t)
                  <==> Due(t, current, target, v, w) {
        FlatsAreDue(current, target, v, w, close.value, t);
      }
    }
  }

  lemma NothingHas()
    ensures forall t :: !HasBarAt([], t)
  {
  }

  /** Leaving a bucket emits what is owed, neither more nor less. */
  lemma AdvanceLeaves(s: State, target: int, v: int)
    requires 0 < s.width && s.bucket.Some? && s.bucket.value < target
    requires Aligned(s.bucket.value, s.width) && Aligned(target, s.width)
    requires s.forming.Some? ==> s.forming.value.openTime == s.bucket.value
    ensures var (r, out) := Advance(s, target, BucketStart(v, s.width)); Leaves(s, target, v, r, out)
  {
    hide BucketStart;
    hide Advance;
    hide Gap;
    hide Flats;
    hide Head;
    hide HasBarAt;
    hide Due;
    hide TooManyDue;
    var current, w, fill := s.bucket.value, s.width, BucketStart(v, s.width);
    var (r, out) := Advance(s, target, fill);
    var head, close, gap := Head(s, current, fill), KnownClose(s), Gap(current, target, fill, w);
    var rest := if close.None? || gap > MAX_FILL_BARS then [] else Flats(current, w, gap, close.value);
    AdvanceSplits(s, target, fill);
    HeadShape(s, fill);
    RestIsDue(s, target, v, rest);
    forall t ensures HasBarAt(out, t) <==>
        || (t == current && (s.forming.Some? || (close.Some? && current <= v)))
        || HasBarAt(rest, t) {
      HeadIs(s, v, t);
      AppendHasBar(head, rest, t);
    }
  }

  lemma HeadShape(s: State, fill: int)
    requires 0 < s.width && s.bucket.Some?
    requires s.forming.Some? ==> s.forming.value.openTime == s.bucket.value
    ensures var head := Head(s, s.bucket.value, fill);
            && |head| <= 1
            && forall k :: 0 <= k < |head| ==>
                 && head[k].openTime == s.bucket.value && (s.forming.Some? || s.lastClose.Some?)
                 && head[k] == if s.forming.Some? then s.forming.value
                               else EmptyAt(s.bucket.value, s.width, s.lastClose.value)
  {
  }

  // ---- one call ----------------------------------------------------------------------------------

  /** A state whose times are aligned and whose forming bar is the open bucket's. */
  ghost predicate Regular(s: State) {
    && 0 < s.width
    && (s.bucket.Some? ==> s.bucket.value % s.width == 0 && s.newest.Some? && s.bucket.value <= s.newest.value)
    && (s.newest.Some? ==> s.newest.value % s.width == 0)
    && (s.bucket.None? ==> s.forming.None?)
    && (s.forming.Some? ==> s.forming.value.openTime == s.bucket.value)
  }

  /** `b` is the bucket that contains `time`. */
  predicate IsBucketOf(b: int, time: int, width: int)
    requires 0 < width
  {
    b % width == 0 && b <= time < b + width
  }

  predicate OutOfRange(time: int) {
    time < 0 || time > 253_402_300_799_999
  }

  /** Which prints are refused: those out of range, those before the first whole bucket, and
      those older than the newest bucket ever entered. Each is counted once and nothing else
      changes. */
  lemma PushRefuses(s: State, t: Trade)
    requires Regular(s)
    ensures OutOfRange(t.time) ==> PushTo(s, t) == (s.(outOfRange := s.outOfRange + 1), [])
    ensures !OutOfRange(t.time) && t.time < s.acceptsFrom ==>
              PushTo(s, t) == (s.(beforeHistory := s.beforeHistory + 1), [])
    ensures !OutOfRange(t.time) && s.acceptsFrom <= t.time && s.newest.Some? && t.time < s.newest.value ==>
              PushTo(s, t) == (s.(late := s.late + 1), [])
    ensures Accepted(s, t) <==>
              && !OutOfRange(t.time) && s.acceptsFrom <= t.time
              && (s.newest.Some? ==> s.newest.value <= t.time)
  {
    hide BucketStart;
    hide Advance;
    hide Fold;
    if s.newest.Some? {
      UpTo(s.newest.value, t.time, s.width);
    }
  }

  /** The bar of an accepted print: opened by it, or extended by it. */
  predicate Takes(before: Option<Bar>, after: Bar, t: Trade, b: int, width: int) {
    match before
    case None => after == Bar(b, b + width - 1, t.price, t.price, t.price, t.price, t.size, 1)
    case Some(bar) =>
      && after == bar.(high := after.high, low := after.low, close := t.price,
                       volume := bar.volume + t.size, trades := after.trades)
      && after.high == (if bar.high < t.price then t.price else bar.high)
      && after.low == (if t.price < bar.low then t.price else bar.low)
      && after.trades == (if bar.trades < U32_MAX then bar.trades + 1 else U32_MAX)
  }

  /** What an accepted print does: it enters its bucket, leaving an earlier open one, and opens
      or extends the bar of that bucket. */
  lemma PushAccepts(s: State, t: Trade)
    requires Regular(s) && Accepted(s, t)
    ensures var (r, out) := PushTo(s, t); var b := BucketStart(t.time, s.width);
            && IsBucketOf(b, t.time, s.width) && r.bucket == Some(b) && r.forming.Some?
            && (s.bucket.Some? ==> s.bucket.value <= b)
    ensures var (r, out) := PushTo(s, t); var b := BucketStart(t.time, s.width);
            s.bucket == Some(b) ==>
              out == [] && r == s.(forming := r.forming) && Takes(s.forming, r.forming.value, t, b, s.width)
    ensures var (r, out) := PushTo(s, t); var b := BucketStart(t.time, s.width);
            s.bucket.None? ==>
              && out == [] && Takes(None, r.forming.value, t, b, s.width)
              && r == s.(bucket := Some(b), newest := Some(b), forming := r.forming)
    ensures var (r, out) := PushTo(s, t); var b := BucketStart(t.time, s.width);
            s.bucket.Some? && s.bucket.value < b ==>
              Takes(None, r.forming.value, t, b, s.width) && Leaves(s, b, t.time, r.(forming := None), out)
  {
    hide BucketStart;
    hide Leaves;
    var b := BucketStart(t.time, s.width);
    BucketContains(t.time, s.width);
    BucketUnique(b, b, s.width);
    if s.newest.Some? {
      UpTo(s.newest.value, t.time, s.width);
    }
    if s.bucket.Some? && s.bucket.value < b {
      AdvanceLeaves(s, b, t.time);
      LeavesClosed(s, b, t.time, Advance(s, b, b).0, Advance(s, b, b).1);
    }
  }

  lemma LeavesClosed(s: State, target: int, v: int, r: State, out: seq<Bar>)
    requires 0 < s.width && s.bucket.Some? && Leaves(s, target, v, r, out)
    ensures r.forming.None? && r.bucket == Some(target)
  {
    hide HasBarAt;
    hide Due;
  }

  /** A close on the clock acts only between the first whole bucket and the end of time; then it
      enters the clock's bucket, leaving an earlier open one with the feed vouched for through
      `live` and no further. */
  lemma CloseExact(s: State, now: int, live: int)
    requires Regular(s)
    ensures now < s.acceptsFrom || now > 253_402_300_799_999 ==> Close(s, now, live) == (s, [])
    ensures s.acceptsFrom <= now <= 253_402_300_799_999 ==>
              var (r, out) := Close(s, now, live); var b := BucketStart(now, s.width);
              var vouched := if live < 0 then 0 else if live > 253_402_300_799_999 then 253_402_300_799_999 else live;
              && IsBucketOf(b, now, s.width)
              && (s.bucket.None? ==>
                    && out == []
                    && r == s.(bucket := Some(b), newest := r.newest)
                    && r.newest == Some(if s.newest.Some? && s.newest.value > b then s.newest.value else b))
              && (s.bucket.Some? && b <= s.bucket.value ==> r == s && out == [])
              && (s.bucket.Some? && s.bucket.value < b ==> Leaves(s, b, vouched, r, out))
  {
    hide BucketStart;
    hide Leaves;
    BucketContains(now, s.width);
    var b := BucketStart(now, s.width);
    if s.bucket.Some? && s.bucket.value < b {
      AdvanceLeaves(s, b, Clamp(live));
    }
  }

  /** A new aggregator accepts from the first aligned instant at or after it began to listen, the
      clock reading held inside the calendar. */
  lemma AcceptsFromFirstWholeBucket(width: int, since: int)
    requires 0 < width
    ensures var from := if since < 0 then 0 else if since > 253_402_300_799_999 then 253_402_300_799_999 else since;
            var first := Fresh(width, since).acceptsFrom;
            && first % width == 0 && from <= first
            && (forall t :: t % width == 0 && from <= t ==> first <= t)
            && Fresh(width, since).noHistoryBefore == first
  {
    hide BucketStart;
    FirstWholeIsAligned(width, since);
    var first := FirstWholeBucket(width, since);
    forall t | t % width == 0 && Clamp(since) <= t ensures first <= t {
      if t < first {
        MultiplesAreSpaced(t, first, width);
      }
    }
  }

  // ---- whole sessions ------------------------------------------------------------------------------

  lemma GoodIsRegular(h: History)
    requires Good(h)
    ensures Regular(h.state)
  {
    hide Emissions;
    hide Conserved;
    if h.state.forming.Some? {
      PrintBarOpens(h.state.forming.value, h.current, h.state.bucket.value, h.state.width);
    }
  }

  /** How far a call vouches for the feed. */
  function Vouch(op: Op): int {
    match op
    case Push(t) => t.time
    case CloseThrough(_, live) => Clamp(live)
    case FeedInterrupted => 0
  }

  /** This call leaves the bucket at `t` behind. */
  predicate LeavesBehind(s: State, r: State, t: int) {
    s.bucket.Some? && r.bucket.Some? && s.bucket.value <= t < r.bucket.value
  }

  /** Whenever a call leaves `t` behind, it vouches for the feed through `t`. */
  ghost predicate VouchedWhenLeft(h: History, ops: seq<Op>, t: int)
    requires 0 < h.state.width
  {
    ops != [] ==>
      && VouchedWhenLeft(h, Init(ops), t)
      && (LeavesBehind(Run(h, Init(ops)).state, Run(h, ops).state, t) ==> t <= Vouch(Last(ops)))
  }

  ghost predicate Uninterrupted(ops: seq<Op>) {
    forall i :: 0 <= i < |ops| ==> !ops[i].FeedInterrupted?
  }

  /** The run emitted the bar at `t` after the first `n` bars. */
  ghost predicate EmittedAfter(es: seq<Emission>, n: nat, t: int) {
    exists k :: n <= k < |es| && es[k].bar.openTime == t
  }

  /** What one uninterrupted call does to the open bucket and to what was emitted. */
  lemma StepInSession(h: History, op: Op)
    requires Good(h) && 0 <= h.state.acceptsFrom && !op.FeedInterrupted?
    ensures var (r, out) := Step(h.state, op);
            && h.state.skippedFills <= r.skippedFills
            && (h.state.bucket.Some? ==> r.bucket.Some? && h.state.bucket.value <= r.bucket.value)
            && (h.state.bucket.None? || r.bucket == h.state.bucket ==> out == [])
            && (h.state.bucket.Some? && r.bucket.Some? && h.state.bucket.value < r.bucket.value ==>
                  Leaves(h.state, r.bucket.value, Vouch(op), r.(forming := None), out))
  {
    hide BucketStart;
    hide Good;
    hide Leaves;
    hide Advance;
    GoodIsRegular(h);
    var s := h.state;
    match op
    case Push(t) =>
      PushRefuses(s, t);
      if Accepted(s, t) {
        PushAccepts(s, t);
        if s.bucket.Some? && s.bucket.value < BucketStart(t.time, s.width) {
          SkipsOnlyRise(s, BucketStart(t.time, s.width), t.time, PushTo(s, t).0.(forming := None), PushTo(s, t).1);
        }
      }
    case CloseThrough(now, live) =>
      CloseExact(s, now, live);
      if CloseActs(s, now) && s.bucket.Some? && s.bucket.value < BucketStart(now, s.width) {
        SkipsOnlyRise(s, BucketStart(now, s.width), Clamp(live), Close(s, now, live).0, Close(s, now, live).1);
      }
  }

  lemma SkipsOnlyRise(s: State, target: int, v: int, r: State, out: seq<Bar>)
    requires 0 < s.width && s.bucket.Some? && Leaves(s, target, v, r, out)
    ensures s.skippedFills <= r.skippedFills && r.bucket == Some(target) && r.forming.None?
  {
    hide HasBarAt;
    hide Due;
    hide TooManyDue;
  }

  /** The bookkeeping of one call, and where its bars land. */
  lemma NoteAppends(h: History, op: Op, t: int)
    requires 0 < h.state.width
    ensures var (r, out) := Step(h.state, op); var n := |h.emitted|;
            && Note(h, op).state == r
            && |Note(h, op).emitted| == n + |out| && h.emitted <= Note(h, op).emitted
            && (EmittedAfter(Note(h, op).emitted, n, t) <==> HasBarAt(out, t))
  {
    hide Note;
    hide Step;
    NoteFollowsStep(h, op);
    var (r, out) := Step(h.state, op);
    var es, n := Note(h, op).emitted, |h.emitted|;
    if EmittedAfter(es, n, t) {
      var k :| n <= k < |es| && es[k].bar.openTime == t;
      assert es[n + (k - n)].bar == out[k - n];
    }
    if HasBarAt(out, t) {
      var k :| 0 <= k < |out| && out[k].openTime == t;
      assert es[n + k].bar == out[k];
    }
  }

  /** A bar leaves a close behind. */
  lemma BarsKnowAClose(h: History)
    requires Good(h) && h.emitted != []
    ensures h.state.lastClose.Some?
  {
    hide Shape;
    hide EmissionOk;
    hide Conserved;
  }

  lemma LeavesPlaces(s: State, target: int, v: int, r: State, out: seq<Bar>, t: int)
    requires 0 < s.width && s.bucket.Some? && Leaves(s, target, v, r, out) && HasBarAt(out, t)
    ensures s.bucket.value <= t && KnownClose(s).Some?
  {
    hide TooManyDue;
    var k :| 0 <= k < |out| && out[k].openTime == t;
  }

  /** If a close is known, nothing was skipped and the feed is vouched for through `t`, then
      leaving `t` emits a bar for it. */
  lemma LeftIsEmitted(s: State, target: int, v: int, r: State, out: seq<Bar>, t: int)
    requires 0 < s.width && s.bucket.Some? && Leaves(s, target, v, r, out)
    requires KnownClose(s).Some? && r.skippedFills == s.skippedFills
    requires t % s.width == 0 && s.bucket.value <= t < target && t <= v
    ensures HasBarAt(out, t)
  {
    hide HasBarAt;
  }

  lemma EmittedGrows(es: seq<Emission>, more: seq<Emission>, n: nat, t: int)
    requires es <= more && n <= |es|
    ensures EmittedAfter(more, n, t) <==> EmittedAfter(es, n, t) || EmittedAfter(more, |es|, t)
  {
    if EmittedAfter(es, n, t) {
      var k :| n <= k < |es| && es[k].bar.openTime == t;
      assert more[k] == es[k];
    }
    if EmittedAfter(more, n, t) {
      var k :| n <= k < |more| && more[k].bar.openTime == t;
      assert k < |es| ==> more[k] == es[k];
    }
  }

  /** What a stretch of a session keeps track of. */
  lemma {:induction false} StretchGrows(h: History, ops: seq<Op>)
    requires Good(h) && 0 <= h.state.acceptsFrom && Uninterrupted(ops)
    ensures var r := Run(h, ops);
            && Good(r) && r.state.acceptsFrom == h.state.acceptsFrom && h.emitted <= r.emitted
            && h.state.skippedFills <= r.state.skippedFills
            && (h.state.bucket.Some? ==> r.state.bucket.Some? && h.state.bucket.value <= r.state.bucket.value)
            && (r.state.bucket.None? ==> r.emitted == h.emitted)
    decreases |ops|
  {
    hide Good;
    hide Note;
    hide Step;
    hide Leaves;
    GoodIsRegular(h);
    if ops != [] {
      StretchGrows(h, Init(ops));
      var prev, op := Run(h, Init(ops)), ops[|ops| - 1];
      StepKeepsGood(prev, op);
      StepInSession(prev, op);
      NoteAppends(prev, op, 0);
    }
  }

  /** One session has no holes. In any stretch of calls without an interruption in which no fill
      was skipped, every aligned bucket between two emitted bars — and every one after a bar that
      has been left behind — has a bar, provided the feed was vouched for through it when it was
      left. */
  lemma {:induction false} SessionHasNoHoles(h: History, ops: seq<Op>, u: int, t: int)
    requires Good(h) && 0 <= h.state.acceptsFrom && Uninterrupted(ops)
    requires Run(h, ops).state.skippedFills == h.state.skippedFills
    requires EmittedAfter(Run(h, ops).emitted, |h.emitted|, u)
    requires u < t && t % h.state.width == 0 && VouchedWhenLeft(h, ops, t)
    requires Run(h, ops).state.bucket.Some? && t < Run(h, ops).state.bucket.value
    ensures EmittedAfter(Run(h, ops).emitted, |h.emitted|, t)
    decreases |ops|
  {
    hide Good;
    hide Note;
    hide Step;
    hide Leaves;
    hide EmittedAfter;
    hide HasBarAt;
    GoodIsRegular(h);
    if ops == [] {
      NothingAfter(h.emitted, u);
      assert false;
    } else {
      var front, op := Init(ops), ops[|ops| - 1];
      var prev, r, n := Run(h, front), Run(h, ops), |h.emitted|;
      StretchGrows(h, front);
      StepInSession(prev, op);
      NoteAppends(prev, op, u);
      NoteAppends(prev, op, t);
      EmittedGrows(prev.emitted, r.emitted, n, u);
      EmittedGrows(prev.emitted, r.emitted, n, t);
      var s, out := prev.state, Step(prev.state, op).1;
      if EmittedAfter(prev.emitted, n, u) {
        EarlierBar(h, front, prev, u);
        if t < s.bucket.value {
          SessionHasNoHoles(h, front, u, t);
        } else {
          LeftIsEmitted(s, r.state.bucket.value, Vouch(op), r.state.(forming := None), out, t);
        }
      } else {
        SomethingEmitted(out, u);
        LeavesPlaces(s, r.state.bucket.value, Vouch(op), r.state.(forming := None), out, u);
        LeftIsEmitted(s, r.state.bucket.value, Vouch(op), r.state.(forming := None), out, t);
      }
    }
  }

  lemma SomethingEmitted(out: seq<Bar>, t: int)
    requires HasBarAt(out, t)
    ensures out != []
  {
  }

  lemma NothingAfter(es: seq<Emission>, t: int)
    ensures !EmittedAfter(es, |es|, t)
  {
  }

  lemma EarlierBar(h: History, ops: seq<Op>, r: History, u: int)
    requires Good(h) && 0 <= h.state.acceptsFrom && Uninterrupted(ops) && r == Run(h, ops)
    requires EmittedAfter(r.emitted, |h.emitted|, u)
    ensures Good(r) && r.state.bucket.Some? && KnownClose(r.state).Some?
  {
    hide Good;
    hide Run;
    StretchGrows(h, ops);
    BarsKnowAClose(r);
  }
}
