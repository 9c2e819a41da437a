/** What resampling means: group the source bars by target bucket and summarise each group,
    refusing holes rather than absorbing them. */
module GroupBy {
  import opened Common
  import opened Bars

  datatype ResampleError =
    | NotCoarser(from: string, to: string)
    | NotAMultiple(from: string, to: string)
    | Misaligned(from: string, openTime: int)
    | OutOfOrder(openTime: int)
    | IncompleteBucket(openTime: int, got: int, want: int)

  // ---- the declarative specification -------------------------------------------------------

  function Bucket(b: Bar, width: int): int
    requires 0 < width
  {
    BucketStart(b.openTime, width)
  }

  /** The bars that fall in the target bucket `[t, t + width)`, in order. */
  function Group(bars: seq<Bar>, width: int, t: int): seq<Bar>
    requires 0 < width
  {
    if bars == [] then []
    else Group(Init(bars), width, t) + (if Bucket(Last(bars), width) == t then [Last(bars)] else [])
  }

  ghost predicate GoodInput(bars: seq<Bar>, source: int)
    requires 0 < source
  {
    && (forall i :: 0 <= i < |bars| ==> bars[i].openTime % source == 0)
    && (forall i, j :: 0 <= i < j < |bars| ==> bars[i].openTime < bars[j].openTime)
  }

  /** An unbroken run of source bars from the bucket's own start. */
  ghost predicate Unbroken(g: seq<Bar>, t: int, source: int) {
    && g != [] && g[0].openTime == t
    && forall j :: 1 <= j < |g| ==> g[j].openTime == g[j - 1].openTime + source
  }

  /** Every slot of the bucket is present. */
  ghost predicate Full(g: seq<Bar>, t: int, source: int, target: int) {
    Unbroken(g, t, source) && Last(g).openTime + source == t + target
  }

  /** The leading bucket, when the window began part-way through it. */
  predicate Dropped(bars: seq<Bar>, target: int, t: int)
    requires 0 < target
  {
    bars != [] && t == Bucket(bars[0], target) && bars[0].openTime != t
  }

  ghost predicate BucketOk(bars: seq<Bar>, source: int, target: int, t: int)
    requires 0 < source && 0 < target && bars != []
  {
    || Dropped(bars, target, t)
    || if t == Bucket(Last(bars), target)
       then Unbroken(Group(bars, target, t), t, source)
       else Full(Group(bars, target, t), t, source, target)
  }

  /** What `resample` accepts: a coarser multiple, aligned ascending bars, and no hole in
      any bucket other than a leading one that began off its boundary. */
  ghost predicate Accepts(bars: seq<Bar>, source: int, target: int)
    requires 0 < source && 0 < target
  {
    && source < target && target % source == 0
    && GoodInput(bars, source)
    && forall i :: 0 <= i < |bars| ==> BucketOk(bars, source, target, Bucket(bars[i], target))
  }

  /** `out` is the group-by: ascending, one summary per non-empty bucket that is not dropped. */
  ghost predicate IsGroupBy(out: seq<Bar>, bars: seq<Bar>, target: int)
    requires 0 < target
  {
    && (forall p, q :: 0 <= p < q < |out| ==> out[p].openTime < out[q].openTime)
    && (forall p :: 0 <= p < |out| ==>
          && Summarises(out[p], Group(bars, target, out[p].openTime), out[p].openTime, target)
          && !Dropped(bars, target, out[p].openTime))
    && (forall i :: 0 <= i < |bars| && !Dropped(bars, target, Bucket(bars[i], target)) ==>
          exists p :: 0 <= p < |out| && out[p].openTime == Bucket(bars[i], target))
  }

  // ---- the pass without its checks -------------------------------------------------------

  /** A target bucket under construction. */
  datatype Pending = Pending(bar: Bar, got: int, openedOnBoundary: bool, lastOpen: int)

  function Start(b: Bar, target: int): Pending
    requires 0 < target
  {
    var t := Bucket(b, target);
    Pending(OpenedBy(b, t, target), 1, b.openTime == t, b.openTime)
  }

  function Extend(p: Pending, b: Bar): Pending {
    Pending(Absorb(p.bar, b), p.got + 1, p.openedOnBoundary, b.openTime)
  }

  function AddTo(cells: seq<Pending>, b: Bar, target: int): seq<Pending>
    requires 0 < target
  {
    if cells != [] && Last(cells).bar.openTime == Bucket(b, target)
    then Init(cells) + [Extend(Last(cells), b)]
    else cells + [Start(b, target)]
  }

  /** Every target bucket the bars open, left to right, whatever its completeness. */
  function Cells(bars: seq<Bar>, target: int): seq<Pending>
    requires 0 < target
  {
    if bars == [] then [] else AddTo(Cells(Init(bars), target), Last(bars), target)
  }

  function BarsOf(cells: seq<Pending>): (r: seq<Bar>)
    ensures |r| == |cells| && forall k :: 0 <= k < |r| ==> r[k] == cells[k].bar
  {
    seq(|cells|, k requires 0 <= k < |cells| => cells[k].bar)
  }

  function DropLeading(cells: seq<Pending>): seq<Pending> {
    if cells != [] && !cells[0].openedOnBoundary then cells[1..] else cells
  }

  /** What a successful resample returns. */
  function Kept(bars: seq<Bar>, target: int): seq<Bar>
    requires 0 < target
  {
    BarsOf(DropLeading(Cells(bars, target)))
  }

  // ---- cells are groups --------------------------------------------------------------------

  ghost predicate CellOf(c: Pending, g: seq<Bar>, target: int) {
    && Summarises(c.bar, g, c.bar.openTime, target)
    && c.got == |g|
    && c.openedOnBoundary == (g[0].openTime == c.bar.openTime)
    && c.lastOpen == Last(g).openTime
  }

  ghost predicate CellsOf(cells: seq<Pending>, bars: seq<Bar>, target: int)
    requires 0 < target
  {
    && (forall j, k :: 0 <= j < k < |cells| ==> cells[j].bar.openTime < cells[k].bar.openTime)
    && (forall k :: 0 <= k < |cells| ==>
          CellOf(cells[k], Group(bars, target, cells[k].bar.openTime), target))
    && (forall i :: 0 <= i < |bars| ==>
          exists k :: 0 <= k < |cells| && cells[k].bar.openTime == Bucket(bars[i], target))
    && (bars != [] ==>
          && cells != []
          && cells[0].bar.openTime == Bucket(bars[0], target)
          && cells[0].openedOnBoundary == (bars[0].openTime == Bucket(bars[0], target))
          && Last(cells).bar.openTime == Bucket(Last(bars), target))
  }

  lemma {:induction false} GroupMembers(bars: seq<Bar>, width: int, t: int)
    requires 0 < width
    ensures forall j :: 0 <= j < |Group(bars, width, t)| ==>
              && Group(bars, width, t)[j] in bars
              && Bucket(Group(bars, width, t)[j], width) == t
    ensures forall i :: 0 <= i < |bars| && Bucket(bars[i], width) == t ==>
              bars[i] in Group(bars, width, t)
    ensures (exists i :: 0 <= i < |bars| && Bucket(bars[i], width) == t) <==> Group(bars, width, t) != []
  {
    hide BucketStart;
    if bars != [] {
      GroupMembers(Init(bars), width, t);
      assert bars == Init(bars) + [Last(bars)];
      forall i | 0 <= i < |bars| && Bucket(bars[i], width) == t
        ensures bars[i] in Group(bars, width, t)
      {
        if i < |bars| - 1 {
          assert Init(bars)[i] == bars[i];
          assert bars[i] in Group(Init(bars), width, t);
        }
      }
    }
  }

  lemma GoodInit(bars: seq<Bar>, source: int)
    requires 0 < source && bars != [] && GoodInput(bars, source)
    ensures GoodInput(Init(bars), source)
  {
  }

  lemma {:induction false} CellsAreGroups(bars: seq<Bar>, source: int, target: int)
    requires 0 < source && 0 < target && GoodInput(bars, source)
    ensures CellsOf(Cells(bars, target), bars, target)
  {
    hide BucketStart;
    hide CellOf;
    hide Group;
    if bars != [] {
      var front, b := Init(bars), Last(bars);
      GoodInit(bars, source);
      CellsAreGroups(front, source, target);
      var cells := Cells(front, target);
      if front != [] {
        assert Last(front).openTime < b.openTime;
        BucketMonotone(Last(front).openTime, b.openTime, target);
      }
      if cells != [] && Last(cells).bar.openTime == Bucket(b, target) {
        ExtendCells(cells, bars, target);
      } else {
        StartCell(cells, bars, target);
      }
    }
  }

  lemma GroupStep(bars: seq<Bar>, target: int, t: int)
    requires 0 < target && bars != []
    ensures Group(bars, target, t) ==
            if Bucket(Last(bars), target) == t
            then Group(Init(bars), target, t) + [Last(bars)] else Group(Init(bars), target, t)
  {
    hide BucketStart;
  }

  lemma ExtendCell(c: Pending, g: seq<Bar>, b: Bar, target: int)
    requires CellOf(c, g, target)
    ensures CellOf(Extend(c, b), g + [b], target)
  {
    AbsorbSummarises(c.bar, g, b, c.bar.openTime, target);
  }

  lemma StartIsCell(b: Bar, target: int)
    requires 0 < target
    ensures CellOf(Start(b, target), [b], target)
  {
    hide BucketStart;
    OpenedBySummarises(b, Bucket(b, target), target);
  }

  lemma ExtendCells(cells: seq<Pending>, bars: seq<Bar>, target: int)
    requires 0 < target && |bars| > 1 && CellsOf(cells, Init(bars), target)
    requires cells != [] && Last(cells).bar.openTime == Bucket(Last(bars), target)
    ensures CellsOf(Init(cells) + [Extend(Last(cells), Last(bars))], bars, target)
  {
    hide BucketStart;
    hide CellOf;
    hide Group;
    var front, b, n := Init(bars), Last(bars), |cells| - 1;
    var r := Init(cells) + [Extend(cells[n], b)];
    assert forall k :: 0 <= k < |r| ==> r[k].bar.openTime == cells[k].bar.openTime;
    forall k | 0 <= k < |r|
      ensures CellOf(r[k], Group(bars, target, r[k].bar.openTime), target)
    {
      var t := cells[k].bar.openTime;
      GroupStep(bars, target, t);
      if k == n {
        ExtendCell(cells[n], Group(front, target, t), b, target);
      } else {
        assert r[k] == cells[k] && t < cells[n].bar.openTime;
      }
    }
    CellsCover(cells, r, bars, target);
    assert bars[0] == front[0];
    assert r[0].openedOnBoundary == cells[0].openedOnBoundary;
  }

  lemma StartCell(cells: seq<Pending>, bars: seq<Bar>, target: int)
    requires 0 < target && bars != [] && CellsOf(cells, Init(bars), target)
    requires cells != [] ==> Last(cells).bar.openTime < Bucket(Last(bars), target)
    requires Init(bars) == [] ==> cells == []
    ensures CellsOf(cells + [Start(Last(bars), target)], bars, target)
  {
    hide BucketStart;
    hide CellOf;
    hide Group;
    var front, b := Init(bars), Last(bars);
    var r := cells + [Start(b, target)];
    forall k | 0 <= k < |r|
      ensures CellOf(r[k], Group(bars, target, r[k].bar.openTime), target)
    {
      var t := r[k].bar.openTime;
      GroupStep(bars, target, t);
      if k == |cells| {
        FreshBucketIsEmpty(cells, front, target, t);
        assert Group(bars, target, t) == [b];
        StartIsCell(b, target);
      } else {
        assert t <= Last(cells).bar.openTime;
      }
    }
    assert forall k :: 0 <= k < |cells| ==> r[k].bar.openTime == cells[k].bar.openTime;
    CellsCover(cells, r, bars, target);
    if front != [] {
      assert bars[0] == front[0] && r[0] == cells[0];
    }
  }

  lemma FreshBucketIsEmpty(cells: seq<Pending>, bars: seq<Bar>, target: int, t: int)
    requires 0 < target && CellsOf(cells, bars, target)
    requires cells != [] ==> Last(cells).bar.openTime < t
    ensures Group(bars, target, t) == []
  {
    hide BucketStart;
    hide CellOf;
    hide Group;
    GroupMembers(bars, target, t);
    forall i | 0 <= i < |bars| ensures Bucket(bars[i], target) != t {
      var m :| 0 <= m < |cells| && cells[m].bar.openTime == Bucket(bars[i], target);
      assert cells[m].bar.openTime <= Last(cells).bar.openTime;
    }
  }

  lemma CellsCover(cells: seq<Pending>, r: seq<Pending>, bars: seq<Bar>, target: int)
    requires 0 < target && bars != [] && |cells| <= |r|
    requires forall i :: 0 <= i < |Init(bars)| ==>
               exists k :: 0 <= k < |cells| && cells[k].bar.openTime == Bucket(Init(bars)[i], target)
    requires forall k :: 0 <= k < |cells| ==> r[k].bar.openTime == cells[k].bar.openTime
    requires r != [] && Last(r).bar.openTime == Bucket(Last(bars), target)
    ensures forall i :: 0 <= i < |bars| ==>
              exists k :: 0 <= k < |r| && r[k].bar.openTime == Bucket(bars[i], target)
  {
    hide BucketStart;
    forall i | 0 <= i < |bars|
      ensures exists k :: 0 <= k < |r| && r[k].bar.openTime == Bucket(bars[i], target)
    {
      if i < |bars| - 1 {
        assert Init(bars)[i] == bars[i];
        var k :| 0 <= k < |cells| && cells[k].bar.openTime == Bucket(Init(bars)[i], target);
        assert r[k].bar.openTime == Bucket(bars[i], target);
      } else {
        assert r[|r| - 1].bar.openTime == Bucket(bars[i], target);
      }
    }
  }

  // ---- counting slots ------------------------------------------------------------------------

  lemma {:induction false} GroupIsGood(bars: seq<Bar>, source: int, target: int, t: int)
    requires 0 < source && 0 < target && GoodInput(bars, source)
    ensures GoodInput(Group(bars, target, t), source)
    ensures forall j :: 0 <= j < |Group(bars, target, t)| ==>
              t <= Group(bars, target, t)[j].openTime < t + target
    decreases |bars|
  {
    hide BucketStart;
    if bars != [] {
      GoodInit(bars, source);
      var front, b := Group(Init(bars), target, t), Last(bars);
      GroupIsGood(Init(bars), source, target, t);
      forall j | 0 <= j < |front| ensures front[j].openTime < b.openTime {
        GroupMembers(Init(bars), target, t);
        var i :| 0 <= i < |Init(bars)| && Init(bars)[i] == front[j];
        assert bars[i] == front[j];
      }
      BucketContains(b.openTime, target);
      GroupStep(bars, target, t);
    }
  }

  /** Aligned ascending bars are at least one width apart, so a run of `n` spans `(n - 1)`
      widths exactly when it is unbroken. */
  lemma {:induction false} SpanCounts(g: seq<Bar>, source: int)
    requires 0 < source && g != [] && GoodInput(g, source)
    ensures Widths(|g| - 1, source) <= Last(g).openTime - g[0].openTime
    ensures Widths(|g| - 1, source) == Last(g).openTime - g[0].openTime
       <==> Unbroken(g, g[0].openTime, source)
    decreases |g|
  {
    hide Widths;
    WidthsStep(|g| - 2, source);
    if |g| > 1 {
      var f := Init(g);
      GoodInit(g, source);
      SpanCounts(f, source);
      NextSlot(g, |g| - 1, source);
      UnbrokenStep(g, source);
    } else {
      WidthsStep(0, source);
    }
  }

  lemma NextSlot(g: seq<Bar>, i: nat, source: int)
    requires 0 < source && GoodInput(g, source) && 0 < i < |g|
    ensures g[i - 1].openTime + source <= g[i].openTime
  {
    var x, y := g[i - 1].openTime, g[i].openTime;
    if y < x + source {
      MultiplesAreSpaced(x, y, source);
    }
  }

  lemma UnbrokenStep(g: seq<Bar>, source: int)
    requires |g| > 1
    ensures Unbroken(g, g[0].openTime, source)
       <==> && Unbroken(Init(g), g[0].openTime, source)
            && Last(g).openTime == Last(Init(g)).openTime + source
  {
    var f := Init(g);
    if Unbroken(f, g[0].openTime, source) && Last(g).openTime == Last(f).openTime + source {
      forall j | 1 <= j < |g| ensures g[j].openTime == g[j - 1].openTime + source {
        if j < |g| - 1 {
          assert f[j].openTime == f[j - 1].openTime + source;
        }
      }
    }
    if Unbroken(g, g[0].openTime, source) {
      forall j | 1 <= j < |f| ensures f[j].openTime == f[j - 1].openTime + source {
        assert g[j].openTime == g[j - 1].openTime + source;
      }
    }
  }

  /** `got == want` and `is_contiguous_prefix` decide exactly "full" and "unbroken". */
  lemma CountDecidesFull(g: seq<Bar>, t: int, source: int, target: int)
    requires 0 < source < target && target % source == 0 && t % target == 0
    requires g != [] && GoodInput(g, source)
    requires forall j :: 0 <= j < |g| ==> t <= g[j].openTime < t + target
    ensures |g| == target / source <==> Full(g, t, source, target)
    ensures Last(g).openTime == t + Widths(|g| - 1, source) <==> Unbroken(g, t, source)
  {
    hide Widths;
    SpanCounts(g, source);
    var want := target / source;
    WidthsOfQuotient(target, source);
    WidthsStep(want - 1, source);
    LastSlot(Last(g).openTime, t, source, target);
    if Full(g, t, source, target) {
      WidthsInjective(|g| - 1, want - 1, source);
    }
  }

  lemma LastSlot(last: int, t: int, source: int, target: int)
    requires 0 < source && 0 < target && target % source == 0 && t % target == 0
    requires last % source == 0 && last < t + target
    ensures last + source <= t + target
  {
    MultipleOfMultiple(source, target, t);
    SumOfMultiples(t, target, source);
    if t + target < last + source {
      MultiplesAreSpaced(last, t + target, source);
    }
  }

  // ---- the pass is the group-by --------------------------------------------------------------

  lemma CellsOfNothing(target: int)
    requires 0 < target
    ensures Cells([], target) == []
  {
  }

  /** A successful resample is exactly the group-by. */
  lemma KeptIsGroupBy(bars: seq<Bar>, source: int, target: int)
    requires 0 < source && 0 < target && GoodInput(bars, source)
    ensures IsGroupBy(Kept(bars, target), bars, target)
  {
    hide BucketStart;
    hide Group;
    hide Cells;
    hide CellOf;
    hide Summarises;
    hide CellsOf;
    if bars == [] {
      CellsOfNothing(target);
      return;
    }
    var cells := Cells(bars, target);
    CellsAreGroups(bars, source, target);
    var out := Kept(bars, target);
    forall p | 0 <= p < |out|
      ensures Summarises(out[p], Group(bars, target, out[p].openTime), out[p].openTime, target)
      ensures !Dropped(bars, target, out[p].openTime)
    {
      CellSummarises(cells, bars, target, p + Skipped(cells));
    }
    CellsAscend(cells, bars, target);
    forall i | 0 <= i < |bars| && !Dropped(bars, target, Bucket(bars[i], target))
      ensures exists p :: 0 <= p < |out| && out[p].openTime == Bucket(bars[i], target)
    {
      KeptCovers(cells, bars, target, i);
    }
    KeptAscends(cells);
  }

  function Skipped(cells: seq<Pending>): nat {
    if cells != [] && !cells[0].openedOnBoundary then 1 else 0
  }

  lemma KeptAscends(cells: seq<Pending>)
    requires forall j, k :: 0 <= j < k < |cells| ==> cells[j].bar.openTime < cells[k].bar.openTime
    ensures var out := BarsOf(DropLeading(cells));
            forall p, q :: 0 <= p < q < |out| ==> out[p].openTime < out[q].openTime
  {
    var out, d := BarsOf(DropLeading(cells)), Skipped(cells);
    forall p, q | 0 <= p < q < |out| ensures out[p].openTime < out[q].openTime {
      assert cells[p + d].bar.openTime < cells[q + d].bar.openTime;
    }
  }

  lemma CellsAscend(cells: seq<Pending>, bars: seq<Bar>, target: int)
    requires 0 < target && CellsOf(cells, bars, target)
    ensures forall j, k :: 0 <= j < k < |cells| ==> cells[j].bar.openTime < cells[k].bar.openTime
  {
    hide BucketStart;
    hide CellOf;
    hide Group;
  }

  lemma KeptCovers(cells: seq<Pending>, bars: seq<Bar>, target: int, i: nat)
    requires 0 < target && CellsOf(cells, bars, target) && i < |bars|
    requires !Dropped(bars, target, Bucket(bars[i], target))
    ensures var out := BarsOf(DropLeading(cells));
            exists p :: 0 <= p < |out| && out[p].openTime == Bucket(bars[i], target)
  {
    hide BucketStart;
    hide Group;
    hide CellOf;
    var out, d := BarsOf(DropLeading(cells)), Skipped(cells);
    var k :| 0 <= k < |cells| && cells[k].bar.openTime == Bucket(bars[i], target);
    assert out[k - d].openTime == Bucket(bars[i], target);
  }

  lemma CellSummarises(cells: seq<Pending>, bars: seq<Bar>, target: int, k: nat)
    requires 0 < target && CellsOf(cells, bars, target) && k < |cells| && bars != []
    ensures var t := cells[k].bar.openTime; Summarises(cells[k].bar, Group(bars, target, t), t, target)
    ensures Dropped(bars, target, cells[k].bar.openTime) <==> k == 0 && !cells[0].openedOnBoundary
  {
    hide BucketStart;
    hide Group;
    hide Summarises;
    assert CellOf(cells[k], Group(bars, target, cells[k].bar.openTime), target);
    if k > 0 {
      assert cells[0].bar.openTime < cells[k].bar.openTime;
    }
  }

  function Times(out: seq<Bar>): (r: seq<int>)
    ensures |r| == |out| && forall p :: 0 <= p < |r| ==> r[p] == out[p].openTime
  {
    seq(|out|, p requires 0 <= p < |out| => out[p].openTime)
  }

  /** The group-by determines its output: nothing else satisfies the specification. */
  lemma GroupByUnique(out1: seq<Bar>, out2: seq<Bar>, bars: seq<Bar>, target: int)
    requires 0 < target
    requires IsGroupBy(out1, bars, target) && IsGroupBy(out2, bars, target)
    ensures out1 == out2
  {
    hide BucketStart;
    hide Group;
    hide Summarises;
    var a, b := Times(out1), Times(out2);
    forall p | 0 <= p < |a| ensures a[p] in b {
      SameBuckets(out1, out2, bars, target, p);
    }
    forall p | 0 <= p < |b| ensures b[p] in a {
      SameBuckets(out2, out1, bars, target, p);
    }
    AscendingSameElements(a, b);
    forall p | 0 <= p < |out1| ensures out1[p] == out2[p] {
      assert a[p] == b[p];
      SummaryUnique(out1[p], out2[p], Group(bars, target, a[p]), a[p], target);
    }
  }

  lemma SameBuckets(out1: seq<Bar>, out2: seq<Bar>, bars: seq<Bar>, target: int, p: nat)
    requires 0 < target && p < |out1|
    requires IsGroupBy(out1, bars, target) && IsGroupBy(out2, bars, target)
    ensures out1[p].openTime in Times(out2)
  {
    hide BucketStart;
    hide Group;
    hide Summarises;
    var t := out1[p].openTime;
    GroupMembers(bars, target, t);
    SummaryNonEmpty(out1[p], Group(bars, target, t), t, target);
    var i :| 0 <= i < |bars| && Bucket(bars[i], target) == t;
    var q :| 0 <= q < |out2| && out2[q].openTime == t;
    assert Times(out2)[q] == t;
  }

  lemma SummaryNonEmpty(o: Bar, g: seq<Bar>, t: int, width: int)
    requires Summarises(o, g, t, width)
    ensures g != []
  {
  }

  lemma SummaryUnique(o1: Bar, o2: Bar, g: seq<Bar>, t: int, width: int)
    requires Summarises(o1, g, t, width) && Summarises(o2, g, t, width)
    ensures o1 == o2
  {
    var j :| 0 <= j < |g| && g[j].high == o1.high;
    var k :| 0 <= k < |g| && g[k].low == o1.low;
    var j' :| 0 <= j' < |g| && g[j'].high == o2.high;
    var k' :| 0 <= k' < |g| && g[k'].low == o2.low;
    assert o1.high <= o2.high && o2.high <= o1.high;
    assert o1.low <= o2.low && o2.low <= o1.low;
  }

  ghost predicate Ascending(s: seq<int>) {
    forall p, q :: 0 <= p < q < |s| ==> s[p] < s[q]
  }

  lemma {:induction false} AscendingSameElements(a: seq<int>, b: seq<int>)
    requires Ascending(a) && Ascending(b)
    requires forall x :: x in a <==> x in b
    ensures a == b
    decreases |a|
  {
    assert a != [] ==> a[0] in a && a[0] in b;
    assert b != [] ==> b[0] in b && b[0] in a;
    if a != [] && b != [] {
      assert Last(a) in b && Last(b) in a;
      assert Last(a) == Last(b);
      LastIsGreatest(a);
      LastIsGreatest(b);
      AscendingSameElements(Init(a), Init(b));
      assert a == Init(a) + [Last(a)] && b == Init(b) + [Last(b)];
    }
  }

  lemma LastIsGreatest(a: seq<int>)
    requires a != [] && Ascending(a)
    ensures Ascending(Init(a))
    ensures forall x :: x in Init(a) <==> x in a && x < Last(a)
  {
    assert a == Init(a) + [Last(a)];
  }
}
