/** The tape is a view: in every reachable chart each tape bar is exactly the aggregate of the
    identities retained in its bucket, and everything stored lies in one bounded window. */
module ChartTape {
  import opened Common
  import opened Bars
  import opened Chart

  // ---- the aggregate of a set of prints ----------------------------------------------------------

  type Prints = map<Key, WsTrade>

  ghost function Pick(m: Prints): (k: Key)
    requires m != map[]
    ensures k in m
  {
    var k :| k in m;
    k
  }

  ghost function SumSz(m: Prints): real {
    if m == map[] then 0.0 else m[Pick(m)].sz + SumSz(m - {Pick(m)})
  }

  lemma {:induction false} SumRemove(m: Prints, k: Key)
    requires k in m
    ensures SumSz(m) == m[k].sz + SumSz(m - {k})
    decreases |m|
  {
    var p := Pick(m);
    if p != k {
      SumRemove(m - {p}, k);
      SumRemove(m - {k}, p);
      assert m - {p} - {k} == m - {k} - {p};
    }
  }

  lemma SumInsert(m: Prints, k: Key, t: WsTrade)
    requires k !in m
    ensures SumSz(m[k := t]) == SumSz(m) + t.sz
  {
    SumRemove(m[k := t], k);
    assert m[k := t] - {k} == m;
  }

  /** `b` is the bar of the prints `m`: open and close by least and greatest `(time, tid)`,
      extremes, total size and count; an end is ambiguous when two prices share its instant. */
  ghost predicate TapeOf(b: TapeBar, m: Prints, bucket: int, width: int) {
    && b.bar.openTime == bucket && b.bar.closeTime == bucket + width - 1
    && b.first in m && m[b.first].px == b.bar.open && (forall k :: k in m ==> !Before(k, b.first))
    && b.last in m && m[b.last].px == b.bar.close && (forall k :: k in m ==> !Before(b.last, k))
    && (forall k :: k in m ==> b.bar.low <= m[k].px <= b.bar.high)
    && (exists k :: k in m && m[k].px == b.bar.high)
    && (exists k :: k in m && m[k].px == b.bar.low)
    && b.bar.volume == SumSz(m)
    && b.bar.trades == |m|
    && (b.firstAmbiguous <==> exists k :: k in m && k.time == b.first.time && m[k].px != b.bar.open)
    && (b.lastAmbiguous <==> exists k :: k in m && k.time == b.last.time && m[k].px != b.bar.close)
  }

  lemma FirstPrintIsTape(t: WsTrade, bucket: int, width: int, at: nat)
    ensures TapeOf(FoldPrint(NewTapeBar(t, bucket, width, at), t, at), map[KeyOf(t) := t], bucket, width)
  {
    var m := map[KeyOf(t) := t];
    SumInsert(map[], KeyOf(t), t);
    assert map[][KeyOf(t) := t] == m;
    assert KeyOf(t) in m && m[KeyOf(t)].px == t.px;
    assert m.Keys == {KeyOf(t)};
  }

  lemma FoldExtremes(b: TapeBar, m: Prints, t: WsTrade, at: nat, bucket: int, width: int)
    requires TapeOf(b, m, bucket, width) && KeyOf(t) !in m && |m| < U32_MAX
    ensures var r, n := FoldPrint(b, t, at), m[KeyOf(t) := t];
            && (exists k :: k in n && n[k].px == r.bar.high)
            && (exists k :: k in n && n[k].px == r.bar.low)
            && r.bar.volume == SumSz(n) && r.bar.trades == |n|
  {
    var n, key, r := m[KeyOf(t) := t], KeyOf(t), FoldPrint(b, t, at);
    SumInsert(m, key, t);
    var i :| i in m && m[i].px == b.bar.high;
    assert i in n && n[i].px == b.bar.high && key in n && n[key].px == t.px;
    assert exists k :: k in n && n[k].px == r.bar.high;
    var j :| j in m && m[j].px == b.bar.low;
    assert j in n && n[j].px == b.bar.low;
    assert exists k :: k in n && n[k].px == r.bar.low;
  }

  lemma FoldFirst(b: TapeBar, m: Prints, t: WsTrade, at: nat, bucket: int, width: int)
    requires TapeOf(b, m, bucket, width) && KeyOf(t) !in m
    ensures var r, n := FoldPrint(b, t, at), m[KeyOf(t) := t];
            && r.first in n && n[r.first].px == r.bar.open && (forall k :: k in n ==> !Before(k, r.first))
            && (r.firstAmbiguous <==> exists k :: k in n && k.time == r.first.time && n[k].px != r.bar.open)
  {
    hide SumSz;
    var n, key, r := m[KeyOf(t) := t], KeyOf(t), FoldPrint(b, t, at);
    assert key in n && n[key] == t;
    if b.firstAmbiguous {
      var k :| k in m && k.time == b.first.time && m[k].px != b.bar.open;
      assert k in n && n[k] == m[k];
    }
    assert b.first in n && n[b.first] == m[b.first];
  }

  lemma FoldLast(b: TapeBar, m: Prints, t: WsTrade, at: nat, bucket: int, width: int)
    requires TapeOf(b, m, bucket, width) && KeyOf(t) !in m
    ensures var r, n := FoldPrint(b, t, at), m[KeyOf(t) := t];
            && r.last in n && n[r.last].px == r.bar.close && (forall k :: k in n ==> !Before(r.last, k))
            && (r.lastAmbiguous <==> exists k :: k in n && k.time == r.last.time && n[k].px != r.bar.close)
  {
    hide SumSz;
    var n, key, r := m[KeyOf(t) := t], KeyOf(t), FoldPrint(b, t, at);
    assert key in n && n[key] == t;
    if b.lastAmbiguous {
      var k :| k in m && k.time == b.last.time && m[k].px != b.bar.close;
      assert k in n && n[k] == m[k];
    }
    assert b.last in n && n[b.last] == m[b.last];
  }

  /** Folding in a new print is inserting it into the set, in whatever order prints arrive. */
  lemma FoldIsInsert(b: TapeBar, m: Prints, t: WsTrade, at: nat, bucket: int, width: int)
    requires TapeOf(b, m, bucket, width) && KeyOf(t) !in m && |m| < U32_MAX
    ensures TapeOf(FoldPrint(b, t, at), m[KeyOf(t) := t], bucket, width)
  {
    FoldExtremes(b, m, t, at, bucket, width);
    FoldFirst(b, m, t, at, bucket, width);
    FoldLast(b, m, t, at, bucket, width);
  }

  /** The prints determine the bar, up to when it was last received. */
  lemma TapeUnique(a: TapeBar, b: TapeBar, m: Prints, bucket: int, width: int)
    requires TapeOf(a, m, bucket, width) && TapeOf(b, m, bucket, width)
    ensures a.(received := 0) == b.(received := 0)
  {
    hide SumSz;
    assert !Before(a.first, b.first) && !Before(b.first, a.first);
    assert a.first == b.first;
    assert !Before(a.last, b.last) && !Before(b.last, a.last);
    assert a.last == b.last;
    var i :| i in m && m[i].px == a.bar.high;
    var j :| j in m && m[j].px == b.bar.high;
    assert a.bar.high == b.bar.high;
    var p :| p in m && m[p].px == a.bar.low;
    var q :| q in m && m[q].px == b.bar.low;
    assert a.bar.low == b.bar.low;
  }

  // ---- the chart's invariant -----------------------------------------------------------------------

  /** The retained prints of one bucket. */
  ghost function InBucket(ids: Prints, bucket: int, width: int): Prints
    requires 0 < width
  {
    map k | k in ids && BucketStart(k.time, width) == bucket :: ids[k]
  }

  ghost predicate InWindow(c: Chart, k: int)
    requires 0 < Width(c)
  {
    Aligned(k, Width(c)) && c.floor <= k <= c.floor + Widths(HISTORY_BARS - 1, Width(c))
  }

  ghost predicate Window(c: Chart) {
    && 0 < Width(c) && 0 <= c.floor && Aligned(c.floor, Width(c))
    && (forall k :: k in c.venue ==> InWindow(c, k) && c.venue[k].bar.openTime == k)
    && (forall k :: k in c.tape ==> InWindow(c, k))
  }

  ghost predicate Ids(c: Chart) {
    && 0 < Width(c)
    && (forall k :: k in c.identities ==>
          && KeyOf(c.identities[k]) == k && c.floor <= k.time
          && BucketStart(k.time, Width(c)) in c.tape)
    && |c.identities| <= MAX_IDENTITIES
  }

  ghost predicate Tape(c: Chart) {
    && 0 < Width(c)
    && forall k :: k in c.tape ==> TapeOf(c.tape[k], InBucket(c.identities, k, Width(c)), k, Width(c))
  }

  ghost predicate Inv(c: Chart) {
    Window(c) && Ids(c) && Tape(c) && (Frozen(c) && c.marker.Some? ==> c.marker.value.shown.priceAmbiguous)
  }

  lemma SubsetSize<T>(a: set<T>, b: set<T>)
    requires a <= b
    ensures |a| <= |b|
    decreases |a|
  {
    if a != {} {
      var x :| x in a;
      SubsetSize(a - {x}, b - {x});
    }
  }

  /** Everything the tape invariant reads is unchanged. */
  ghost predicate SameTape(c: Chart, r: Chart) {
    r.interval == c.interval && r.floor == c.floor && r.tape == c.tape && r.identities == c.identities
  }

  lemma TapeFrame(c: Chart, r: Chart)
    requires SameTape(c, r)
    ensures Ids(c) <==> Ids(r)
    ensures Tape(c) <==> Tape(r)
    ensures Window(c) && r.venue == c.venue ==> Window(r)
  {
    hide TapeOf;
    hide BucketStart;
    hide Widths;
    hide Aligned;
  }

  lemma FloorStep(floor: int, bucket: int, width: int)
    requires 0 < width && Aligned(floor, width) && Aligned(bucket, width) && 0 <= floor
    ensures var next := Max(floor, bucket - Widths(HISTORY_BARS - 1, width));
            && Aligned(next, width) && floor <= next && bucket <= next + Widths(HISTORY_BARS - 1, width)
            && (floor <= bucket ==> next <= bucket)
  {
    ProductIsMultiple(HISTORY_BARS - 1, width);
    SumOfMultiples(bucket, Widths(HISTORY_BARS - 1, width), width);
  }

  lemma FloorKeepsWindow(c: Chart, bucket: int)
    requires Window(c) && Aligned(bucket, Width(c))
    ensures var r := AdvanceFloor(c, bucket);
            && Window(r) && c.floor <= r.floor && r.interval == c.interval
            && bucket <= r.floor + Widths(HISTORY_BARS - 1, Width(c))
            && (c.floor <= bucket ==> InWindow(r, bucket))
  {
    hide Widths;
    hide Aligned;
    FloorStep(c.floor, bucket, Width(c));
  }

  /** Advancing the floor keeps exactly what is at or above it. */
  lemma FloorRetains(c: Chart, bucket: int)
    requires Window(c) && Ids(c)
    ensures var r := AdvanceFloor(c, bucket);
            && (forall k :: k in r.identities <==> k in c.identities && r.floor <= k.time)
            && (forall k :: k in r.identities ==> r.identities[k] == c.identities[k])
            && (forall k :: k in r.tape <==> k in c.tape && r.floor <= k)
            && (forall k :: k in r.tape ==> r.tape[k] == c.tape[k])
            && (forall k :: k in r.venue <==> k in c.venue && r.floor <= k)
            && (forall k :: k in r.venue ==> r.venue[k] == c.venue[k])
  {
    hide Widths;
    hide Aligned;
    hide BucketStart;
  }

  lemma FloorKeepsTape(c: Chart, bucket: int)
    requires Window(c) && Ids(c) && Tape(c) && Aligned(bucket, Width(c))
    ensures var r := AdvanceFloor(c, bucket); Ids(r) && Tape(r)
  {
    hide AdvanceFloor;
    hide Aligned;
    hide BucketStart;
    hide TapeOf;
    hide InWindow;
    hide InBucket;
    var r, w := AdvanceFloor(c, bucket), Width(c);
    FloorKeepsWindow(c, bucket);
    FloorRetains(c, bucket);
    SubsetSize(r.identities.Keys, c.identities.Keys);
    forall k | k in r.identities ensures BucketStart(k.time, w) in r.tape {
      AlignedFloorKeepsBucket(r.floor, k.time, w);
    }
    forall k | k in r.tape
      ensures TapeOf(r.tape[k], InBucket(r.identities, k, w), k, w)
    {
      SameBucketAboveFloor(c.identities, r.identities, r.floor, k, w);
    }
  }

  lemma SameBucketAboveFloor(all: Prints, kept: Prints, floor: int, bucket: int, width: int)
    requires 0 < width && floor <= bucket
    requires forall k :: k in kept <==> k in all && floor <= k.time
    requires forall k :: k in kept ==> kept[k] == all[k]
    ensures InBucket(kept, bucket, width) == InBucket(all, bucket, width)
  {
    hide BucketStart;
    forall k | k in all && BucketStart(k.time, width) == bucket ensures floor <= k.time {
      BucketContains(k.time, width);
    }
  }

  lemma AlignedFloorKeepsBucket(floor: int, t: int, width: int)
    requires 0 < width && Aligned(floor, width) && floor <= t
    ensures floor <= BucketStart(t, width)
  {
    BucketMonotone(floor, t, width);
    BucketUnique(floor, floor, width);
  }

  /** A fresh print lands in its bucket's bar and nowhere else. */
  lemma AcceptKeepsTape(c: Chart, t: WsTrade, at: nat)
    requires Window(c) && Ids(c) && Tape(c)
    requires KeyOf(t) !in c.identities && |c.identities| < MAX_IDENTITIES
    requires c.floor <= t.time && InWindow(c, TradeBucket(c, t))
    ensures var r := Accept(c, t, TradeBucket(c, t), at); Window(r) && Ids(r) && Tape(r)
  {
    hide Widths;
    hide Aligned;
    hide BucketStart;
    hide TapeOf;
    hide FoldPrint;
    hide NewTapeBar;
    hide MarkWith;
    var w, b, key := Width(c), TradeBucket(c, t), KeyOf(t);
    var r := Accept(c, t, b, at);
    assert r.identities == c.identities[key := t] && r.floor == c.floor && r.venue == c.venue;
    forall k | k in r.tape
      ensures TapeOf(r.tape[k], InBucket(r.identities, k, w), k, w)
    {
      if k != b {
        assert InBucket(r.identities, k, w) == InBucket(c.identities, k, w);
        assert r.tape[k] == c.tape[k];
      } else {
        AcceptedBar(c, t, at);
      }
    }
  }

  lemma AcceptedBar(c: Chart, t: WsTrade, at: nat)
    requires Window(c) && Ids(c) && Tape(c)
    requires KeyOf(t) !in c.identities
    ensures var b, w := TradeBucket(c, t), Width(c);
            var base := if b in c.tape then c.tape[b] else NewTapeBar(t, b, w, at);
            TapeOf(FoldPrint(base, t, at), InBucket(c.identities[KeyOf(t) := t], b, w), b, w)
  {
    hide Widths;
    hide Aligned;
    hide BucketStart;
    hide TapeOf;
    hide FoldPrint;
    hide NewTapeBar;
    var w, b, key := Width(c), TradeBucket(c, t), KeyOf(t);
    var prior := InBucket(c.identities, b, w);
    assert InBucket(c.identities[key := t], b, w) == prior[key := t];
    if b in c.tape {
      SubsetSize(prior.Keys, c.identities.Keys);
      FoldIsInsert(c.tape[b], prior, t, at, b, w);
    } else {
      assert prior == map[];
      assert prior[key := t] == map[key := t];
      FirstPrintIsTape(t, b, w, at);
    }
  }

  // ---- every row keeps the invariant -----------------------------------------------------------------

  lemma FreezeKeepsInv(c: Chart, status: TapeStatus, detail: Notice)
    requires Window(c) && Ids(c) && Tape(c)
    ensures Inv(Freeze(c, status, detail)) && SameTape(c, Freeze(c, status, detail))
  {
    hide Window;
    hide Ids;
    hide Tape;
    TapeFrame(c, Freeze(c, status, detail));
  }

  /** What each verdict tells us about the row. */
  lemma JudgeFacts(c: Chart, t: WsTrade, at: nat)
    requires 0 < Width(c)
    ensures var v := Judge(c, t, at); var b := TradeBucket(c, t);
            && (!v.Malformed? ==> TimeInRange(t) && WellFormed(c, t))
            && (!v.Malformed? && !v.Skewed? ==> t.time <= at + MAX_CLOCK_SKEW_MS)
            && (v.Skewed? ==> t.time > at + MAX_CLOCK_SKEW_MS)
            && (v.Stale? ==> b < c.floor)
            && (v.Conflicting? ==> KeyOf(t) in c.identities && c.identities[KeyOf(t)] != t)
            && (v.Replayed? ==> KeyOf(t) in c.identities && c.identities[KeyOf(t)] == t)
            && (v.Conflicting? || v.Replayed? ==> c.floor <= b)
            && (v.NoRoom? || v.Overflow? || v.Fresh? ==> c.floor <= b && KeyOf(t) !in c.identities)
            && (v.Fresh? ==> |AdvanceFloor(c, b).identities| < MAX_IDENTITIES)
  {
    hide BucketStart;
    hide AdvanceFloor;
  }

  lemma RowKeepsInv(c: Chart, t: WsTrade, at: nat)
    requires Inv(c) && !Frozen(c)
    ensures var (r, stop) := ObserveRow(c, t, at); Inv(r) && stop == Frozen(r)
    ensures c.floor <= ObserveRow(c, t, at).0.floor
  {
    hide Window;
    hide Ids;
    hide Tape;
    hide Judge;
    hide BucketStart;
    hide AdvanceFloor;
    hide Accept;
    WindowFacts(c);
    var r := ObserveRow(c, t, at).0;
    var v, b := Judge(c, t, at), TradeBucket(c, t);
    BucketContains(t.time, Width(c));
    JudgeFacts(c, t, at);
    match v
    case Malformed(d) => FreezeKeepsInv(c, InvalidObservation, d);
    case Skewed => TapeFrame(c, r);
    case Stale =>
    case Conflicting => FreezeKeepsInv(c, InvalidObservation, IdentityConflict);
    case Replayed => TapeFrame(c, r);
    case NoRoom => RefusedAfterFloor(c, b, CapacityExceeded, IdentityCapacity);
    case Overflow => RefusedAfterFloor(c, b, InvalidObservation, VolumeOverflow);
    case Fresh =>
      FreshKeepsInv(c, t, at);
      FloorKeepsWindow(c, b);
  }

  lemma RefusedAfterFloor(c: Chart, b: int, status: TapeStatus, detail: Notice)
    requires Window(c) && Ids(c) && Tape(c) && Aligned(b, Width(c)) && c.floor <= b
    ensures var r := Freeze(AdvanceFloor(c, b), status, detail); Inv(r) && c.floor <= r.floor
  {
    hide Window;
    hide Ids;
    hide Tape;
    hide AdvanceFloor;
    FloorKeepsWindow(c, b);
    FloorKeepsTape(c, b);
    FreezeKeepsInv(AdvanceFloor(c, b), status, detail);
  }

  lemma WindowFacts(c: Chart)
    requires Window(c)
    ensures 0 < Width(c) && 0 <= c.floor && Aligned(c.floor, Width(c))
  {
  }

  lemma RowAdvances(c: Chart, t: WsTrade, at: nat)
    requires 0 < Width(c)
    ensures var r := AdvanceFloor(c, TradeBucket(c, t));
            r.transportError == c.transportError && r.status == c.status && r.marker == c.marker
  {
    hide BucketStart;
    hide Widths;
  }

  lemma FreshKeepsInv(c: Chart, t: WsTrade, at: nat)
    requires Inv(c) && !Frozen(c) && Judge(c, t, at).Fresh?
    ensures var r := ObserveRow(c, t, at).0; Inv(r) && !Frozen(r)
    ensures ObserveRow(c, t, at).0.floor == AdvanceFloor(c, TradeBucket(c, t)).floor
  {
    hide Ids;
    hide Tape;
    hide BucketStart;
    hide AdvanceFloor;
    hide FoldPrint;
    hide NewTapeBar;
    hide MarkWith;
    hide InWindow;
    hide Judge;
    var b := TradeBucket(c, t);
    var moved := AdvanceFloor(c, b);
    JudgeFacts(c, t, at);
    BucketContains(t.time, Width(c));
    FloorKeepsWindow(c, b);
    FloorRetains(c, b);
    FloorKeepsTape(c, b);
    RowAdvances(c, t, at);
    FloorBelowBucket(moved, b);
    AcceptKeepsTape(moved, t, at);
  }

  lemma FloorBelowBucket(c: Chart, b: int)
    requires 0 < Width(c) && InWindow(c, b)
    ensures c.floor <= b
  {
  }
}
