/** The local aggregator: bars built forward from the trades feed. The class below is the
    component; `State` and the functions over it are its specification. */
module Aggregator {
  import opened Common
  import opened Bars
  import I = Intervals

  const MIN_TIME_MS: int := 0
  const MAX_FILL_BARS: int := 10_000

  datatype Trade = Trade(time: int, price: real, size: real)

  datatype State = State(
    width: int, noHistoryBefore: int, acceptsFrom: int,
    bucket: Option<int>, newest: Option<int>, forming: Option<Bar>, lastClose: Option<real>,
    late: nat, beforeHistory: nat, skippedFills: nat, outOfRange: nat, gaps: nat)

  predicate InRange(t: int) {
    MIN_TIME_MS <= t <= MAX_TIME_MS
  }

  function Clamp(t: int): int {
    if t < MIN_TIME_MS then MIN_TIME_MS else if t > MAX_TIME_MS then MAX_TIME_MS else t
  }

  function FirstWholeBucket(width: int, from: int): int
    requires 0 < width
  {
    var start := BucketStart(Clamp(from), width);
    if start == Clamp(from) then start else start + width
  }

  function Fresh(width: int, since: int): State
    requires 0 < width
  {
    var first := FirstWholeBucket(width, since);
    State(width, first, first, None, None, None, None, 0, 0, 0, 0, 0)
  }

  function Enter(s: State, target: int): State {
    s.(bucket := Some(target),
       newest := Some(if s.newest.Some? then Max(s.newest.value, target) else target))
  }

  function Flats(from: int, width: int, n: int, close: real): (r: seq<Bar>)
    ensures |r| == Max(n, 0)
  {
    seq(Max(n, 0), k => EmptyAt(from + Widths(k + 1, width), width, close))
  }

  /** How many whole buckets after `current` may be filled flat. Both ends are aligned, so
      the division is exact. */
  function Gap(current: int, target: int, fill: int, width: int): int
    requires 0 < width
  {
    ((if target - width < fill then target - width else fill) - current) / width
  }

  /** What leaving the current bucket emits for that bucket itself. */
  function Head(s: State, current: int, fill: int): seq<Bar> {
    if s.forming.Some? then [s.forming.value]
    else if s.lastClose.Some? && current <= fill then [EmptyAt(current, s.width, s.lastClose.value)]
    else []
  }

  function Advance(s: State, target: int, fill: int): (State, seq<Bar>)
    requires 0 < s.width
  {
    match s.bucket
    case None => (Enter(s, target), [])
    case Some(current) =>
      if target <= current then (s, [])
      else
        var head := Head(s, current, fill);
        var close := if s.forming.Some? then Some(s.forming.value.close) else s.lastClose;
        var s' := Enter(s, target).(forming := None, lastClose := close);
        if close.None? then (s', head)
        else
          var gap := Gap(current, target, fill, s.width);
          if gap > MAX_FILL_BARS then (s'.(skippedFills := s'.skippedFills + 1), head)
          else (s', head + Flats(current, s.width, gap, close.value))
  }

  function Fold(bar: Bar, t: Trade): Bar {
    bar.(high := MaxReal(bar.high, t.price),
         low := MinReal(bar.low, t.price),
         close := t.price,
         volume := bar.volume + t.size,
         trades := SaturatingAdd(bar.trades, 1))
  }

  predicate IsLate(s: State, bucket: int) {
    s.newest.Some? && bucket < s.newest.value
  }

  function PushTo(s: State, t: Trade): (State, seq<Bar>)
    requires 0 < s.width
  {
    if !InRange(t.time) then (s.(outOfRange := s.outOfRange + 1), [])
    else if t.time < s.acceptsFrom then (s.(beforeHistory := s.beforeHistory + 1), [])
    else
      var bucket := BucketStart(t.time, s.width);
      if IsLate(s, bucket) then (s.(late := s.late + 1), [])
      else
        var (s', out) := Advance(s, bucket, bucket);
        var bar := if s'.forming.Some? then s'.forming.value else EmptyAt(bucket, s.width, t.price);
        (s'.(forming := Some(Fold(bar, t))), out)
  }

  predicate CloseActs(s: State, now: int) {
    s.acceptsFrom <= now <= MAX_TIME_MS
  }

  function Close(s: State, now: int, live: int): (State, seq<Bar>)
    requires 0 < s.width
  {
    if !CloseActs(s, now) then (s, [])
    else Advance(s, BucketStart(now, s.width), BucketStart(Clamp(live), s.width))
  }

  function Interrupt(s: State): State {
    s.(gaps := if s.bucket.Some? || s.forming.Some? then s.gaps + 1 else s.gaps,
       bucket := None, forming := None)
  }

  class LocalAggregator {
    const interval: I.Interval
    var noHistoryBefore: int
    var acceptsFrom: int
    var bucket: Option<int>
    var newest: Option<int>
    var forming: Option<Bar>
    var lastClose: Option<real>
    var late: nat
    var beforeHistory: nat
    var skippedFills: nat
    var outOfRange: nat
    var gaps: nat

    ghost predicate Valid() {
      0 < I.Millis(interval)
    }

    function View(): State
      reads this
    {
      State(I.Millis(interval), noHistoryBefore, acceptsFrom, bucket, newest, forming, lastClose,
            late, beforeHistory, skippedFills, outOfRange, gaps)
    }

    constructor (interval: I.Interval, listeningSince: int)
      requires 0 < I.Millis(interval)
      ensures Valid() && View() == Fresh(I.Millis(interval), listeningSince)
    {
      var first := FirstWholeBucket(I.Millis(interval), listeningSince);
      this.interval := interval;
      noHistoryBefore, acceptsFrom := first, first;
      bucket, newest, forming, lastClose := None, None, None, None;
      late, beforeHistory, skippedFills, outOfRange, gaps := 0, 0, 0, 0, 0;
    }

    constructor Resume(interval: I.Interval, listeningSince: int, noHistoryBefore: int, lastClose: Option<real>)
      requires 0 < I.Millis(interval)
      ensures Valid()
      ensures View() == Fresh(I.Millis(interval), listeningSince)
                        .(noHistoryBefore := noHistoryBefore, lastClose := lastClose)
    {
      this.interval := interval;
      this.noHistoryBefore, this.lastClose := noHistoryBefore, lastClose;
      acceptsFrom := FirstWholeBucket(I.Millis(interval), listeningSince);
      bucket, newest, forming := None, None, None;
      late, beforeHistory, skippedFills, outOfRange, gaps := 0, 0, 0, 0, 0;
    }

    method FeedInterrupted()
      modifies this
      ensures View() == Interrupt(old(View()))
      ensures bucket.None? && forming.None? && newest == old(newest) && lastClose == old(lastClose)
      ensures gaps == old(gaps) + (if old(bucket).Some? || old(forming).Some? then 1 else 0)
    {
      if bucket.Some? || forming.Some? {
        gaps := gaps + 1;
      }
      bucket := None;
      forming := None;
    }

    method EnterBucket(target: int)
      modifies this`bucket, this`newest
      ensures View() == Enter(old(View()), target)
    {
      bucket := Some(target);
      newest := Some(match newest case None => target case Some(n) => Max(n, target));
    }

    method AdvanceTo(target: int, fillThrough: int) returns (out: seq<Bar>)
      requires Valid()
      modifies this`bucket, this`newest, this`forming, this`lastClose, this`skippedFills
      ensures (View(), out) == Advance(old(View()), target, fillThrough)
    {
      hide Widths;
      var width := I.Millis(interval);
      out := [];
      if bucket.None? {
        EnterBucket(target);
        return;
      }
      var current := bucket.value;
      if target <= current {
        return;
      }
      EnterBucket(target);
      if forming.Some? {
        lastClose := Some(forming.value.close);
        out := [forming.value];
        forming := None;
      } else if lastClose.Some? && current <= fillThrough {
        out := [EmptyAt(current, width, lastClose.value)];
      }
      if lastClose.Some? {
        var gap := Gap(current, target, fillThrough, width);
        if gap > MAX_FILL_BARS {
          skippedFills := skippedFills + 1;
        } else {
          ghost var head := out;
          var step := 1;
          while step <= gap
            invariant 1 <= step <= Max(gap, 0) + 1
            invariant out == head + Flats(current, width, gap, lastClose.value)[..step - 1]
          {
            out := out + [EmptyAt(current + Widths(step, width), width, lastClose.value)];
            step := step + 1;
          }
          assert out == head + Flats(current, width, gap, lastClose.value);
        }
      }
    }

    method Push(trade: Trade) returns (closed: seq<Bar>)
      requires Valid()
      modifies this
      ensures (View(), closed) == PushTo(old(View()), trade)
    {
      closed := [];
      if !InRange(trade.time) {
        outOfRange := outOfRange + 1;
        return;
      }
      if trade.time < acceptsFrom {
        beforeHistory := beforeHistory + 1;
        return;
      }
      var target := BucketStart(trade.time, I.Millis(interval));
      if newest.Some? && target < newest.value {
        late := late + 1;
        return;
      }
      closed := AdvanceTo(target, target);
      var bar := if forming.Some? then forming.value
                 else EmptyAt(target, I.Millis(interval), trade.price);
      forming := Some(bar.(
        high := MaxReal(bar.high, trade.price),
        low := MinReal(bar.low, trade.price),
        close := trade.price,
        volume := bar.volume + trade.size,
        trades := SaturatingAdd(bar.trades, 1)));
    }

    method CloseThrough(now: int, feedLiveThrough: int) returns (closed: seq<Bar>)
      requires Valid()
      modifies this
      ensures (View(), closed) == Close(old(View()), now, feedLiveThrough)
    {
      if now < acceptsFrom || now > MAX_TIME_MS {
        return [];
      }
      var target := BucketStart(now, I.Millis(interval));
      var fillThrough := BucketStart(Clamp(feedLiveThrough), I.Millis(interval));
      closed := AdvanceTo(target, fillThrough);
    }
  }
}
