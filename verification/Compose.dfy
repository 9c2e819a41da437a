/** Resampling composes: going through an intermediate interval changes nothing. */
module Compose {
  import opened Common
  import opened Bars
  import opened GroupBy

  // ---- the aggregation itself is associative ---------------------------------------------------

  function FoldInto(out: seq<Bar>, x: Bar, width: int): seq<Bar>
    requires 0 < width
  {
    if out != [] && Last(out).openTime == Bucket(x, width)
    then Init(out) + [Absorb(Last(out), x)]
    else out + [OpenedBy(x, Bucket(x, width), width)]
  }

  /** The bar of every bucket the input opens, whatever its completeness. */
  function Sums(bars: seq<Bar>, width: int): seq<Bar>
    requires 0 < width
  {
    if bars == [] then [] else FoldInto(Sums(Init(bars), width), Last(bars), width)
  }

  lemma {:induction false} CellsSum(bars: seq<Bar>, width: int)
    requires 0 < width
    ensures BarsOf(Cells(bars, width)) == Sums(bars, width)
  {
    hide BucketStart;
    if bars != [] {
      CellsSum(Init(bars), width);
    }
  }

  lemma NestedBucket(t: int, b: int, c: int)
    requires 0 < b && 0 < c && c % b == 0
    ensures BucketStart(BucketStart(t, b), c) == BucketStart(t, c)
  {
    hide BucketStart;
    var u, v := BucketStart(t, b), BucketStart(t, c);
    BucketContains(t, b);
    BucketContains(t, c);
    MultipleOfMultiple(b, c, v);
    if u < v {
      MultiplesAreSpaced(u, v, b);
    }
    BucketUnique(u, v, c);
  }

  lemma AbsorbAssociates(o: Bar, l: Bar, x: Bar)
    ensures Absorb(o, Absorb(l, x)) == Absorb(Absorb(o, l), x)
  {
  }

  lemma FoldMerged(out: seq<Bar>, l: Bar, x: Bar, b: int, c: int)
    requires 0 < b && 0 < c && c % b == 0 && l.openTime == Bucket(x, b)
    ensures FoldInto(out, Absorb(l, x), c) == FoldInto(FoldInto(out, l, c), x, c)
  {
    hide BucketStart;
    NestedBucket(x.openTime, b, c);
    if out != [] {
      AbsorbAssociates(Last(out), l, x);
    }
  }

  lemma FoldOpened(out: seq<Bar>, x: Bar, b: int, c: int)
    requires 0 < b && 0 < c && c % b == 0
    ensures FoldInto(out, OpenedBy(x, Bucket(x, b), b), c) == FoldInto(out, x, c)
  {
    hide BucketStart;
    NestedBucket(x.openTime, b, c);
  }

  lemma {:induction false} SumsCompose(bars: seq<Bar>, b: int, c: int)
    requires 0 < b && 0 < c && c % b == 0
    ensures Sums(Sums(bars, b), c) == Sums(bars, c)
  {
    hide BucketStart;
    if bars != [] {
      var front, x := Init(bars), Last(bars);
      SumsCompose(front, b, c);
      var s := Sums(front, b);
      if s != [] && Last(s).openTime == Bucket(x, b) {
        var merged := Init(s) + [Absorb(Last(s), x)];
        assert Init(merged) == Init(s);
        FoldMerged(Sums(Init(s), c), Last(s), x, b, c);
      } else {
        var extended := s + [OpenedBy(x, Bucket(x, b), b)];
        assert Init(extended) == s;
        FoldOpened(Sums(s, c), x, b, c);
      }
    }
  }

  // ---- covering the slots of a bucket ----------------------------------------------------------

  ghost predicate HasBar(bars: seq<Bar>, t: int) {
    exists i :: 0 <= i < |bars| && bars[i].openTime == t
  }

  /** Some bar falls in the bucket `[t, t + width)`. */
  ghost predicate Occupied(bars: seq<Bar>, width: int, t: int)
    requires 0 < width
  {
    exists i :: 0 <= i < |bars| && Bucket(bars[i], width) == t
  }

  /** If every slot up to a group's last bar is occupied, the group is an unbroken run. */
  lemma SlotsMakeRun(bars: seq<Bar>, source: int, width: int, t: int)
    requires 0 < source && 0 < width && width % source == 0 && t % width == 0
    requires GoodInput(bars, source) && Group(bars, width, t) != []
    requires forall u :: u % source == 0 && t <= u <= Last(Group(bars, width, t)).openTime ==> HasBar(bars, u)
    ensures Unbroken(Group(bars, width, t), t, source)
  {
    hide BucketStart;
    hide Group;
    var g := Group(bars, width, t);
    GroupIsGood(bars, source, width, t);
    MultipleOfMultiple(source, width, t);
    SlotInGroup(bars, source, width, t, t);
    var k :| 0 <= k < |g| && g[k].openTime == t;
    forall j | 1 <= j < |g| ensures g[j].openTime == g[j - 1].openTime + source {
      NextSlot(g, j, source);
      var u := g[j - 1].openTime + source;
      if u < g[j].openTime {
        SumOfMultiples(g[j - 1].openTime, source, source);
        SlotInGroup(bars, source, width, t, u);
        assert false;
      }
    }
  }

  lemma SlotInGroup(bars: seq<Bar>, source: int, width: int, t: int, u: int)
    requires 0 < source && 0 < width && t % width == 0
    requires t <= u < t + width && HasBar(bars, u)
    ensures HasBar(Group(bars, width, t), u)
  {
    hide BucketStart;
    hide Group;
    var i :| 0 <= i < |bars| && bars[i].openTime == u;
    BucketUnique(u, t, width);
    GroupMembers(bars, width, t);
    var g := Group(bars, width, t);
    var m :| 0 <= m < |g| && g[m] == bars[i];
  }

  lemma {:induction false} RunCovers(g: seq<Bar>, t: int, source: int, u: int)
    requires 0 < source && Unbroken(g, t, source) && t % source == 0
    requires u % source == 0 && t <= u <= Last(g).openTime
    ensures HasBar(g, u)
    decreases |g|
  {
    if |g| == 1 || u == Last(g).openTime {
      assert g[|g| - 1].openTime == Last(g).openTime && g[0].openTime == t;
    } else {
      var f := Init(g);
      UnbrokenStep(g, source);
      UnbrokenAligned(f, t, source);
      if Last(f).openTime < u {
        MultiplesAreSpaced(u, Last(f).openTime, source);
      }
      RunCovers(f, t, source, u);
      var i :| 0 <= i < |f| && f[i].openTime == u;
      assert g[i].openTime == u;
    }
  }

  lemma {:induction false} UnbrokenAligned(g: seq<Bar>, t: int, source: int)
    requires 0 < source && Unbroken(g, t, source) && t % source == 0
    ensures GoodInput(g, source)
    decreases |g|
  {
    if |g| > 1 {
      var f := Init(g);
      UnbrokenStep(g, source);
      UnbrokenAligned(f, t, source);
      SumOfMultiples(Last(f).openTime, source, source);
      assert forall i :: 0 <= i < |f| ==> g[i] == f[i];
      forall i | 0 <= i < |f| ensures g[i].openTime < Last(g).openTime {
        assert f[i].openTime <= Last(f).openTime;
      }
    }
  }

  // ---- a gap-free run is always accepted -----------------------------------------------------

  ghost predicate GapFree(bars: seq<Bar>, source: int)
    requires 0 < source
  {
    bars != [] ==> bars[0].openTime % source == 0 && Unbroken(bars, bars[0].openTime, source)
  }

  lemma GapFreeIsAccepted(bars: seq<Bar>, source: int, target: int)
    requires 0 < source < target && target % source == 0 && GapFree(bars, source)
    ensures Accepts(bars, source, target)
  {
    hide BucketStart;
    hide Group;
    if bars != [] {
      UnbrokenAligned(bars, bars[0].openTime, source);
      forall i | 0 <= i < |bars|
        ensures BucketOk(bars, source, target, Bucket(bars[i], target))
      {
        GapFreeBucket(bars, source, target, i);
      }
    }
  }

  lemma GapFreeBucket(bars: seq<Bar>, source: int, target: int, i: nat)
    requires 0 < source < target && target % source == 0
    requires i < |bars| && GapFree(bars, source) && GoodInput(bars, source)
    ensures BucketOk(bars, source, target, Bucket(bars[i], target))
  {
    hide BucketStart;
    hide Group;
    var t := Bucket(bars[i], target);
    if !Dropped(bars, target, t) {
      BucketContains(bars[i].openTime, target);
      assert bars[0].openTime <= t by {
        assert bars[0].openTime <= bars[i].openTime;
        if t < bars[0].openTime {
          BucketUnique(bars[0].openTime, t, target);
        }
      }
      GapFreeRun(bars, source, target, t, i);
      if t != Bucket(Last(bars), target) {
        GapFreeFull(bars, source, target, t, i);
      }
    }
  }

  lemma GapFreeRun(bars: seq<Bar>, source: int, target: int, t: int, i: nat)
    requires 0 < source < target && target % source == 0 && t % target == 0
    requires i < |bars| && GapFree(bars, source) && GoodInput(bars, source)
    requires Bucket(bars[i], target) == t && bars[0].openTime <= t
    ensures Unbroken(Group(bars, target, t), t, source)
  {
    hide BucketStart;
    hide Group;
    GroupMembers(bars, target, t);
    GroupTimes(bars, source, target, t, Last(bars).openTime);
    var g := Group(bars, target, t);
    forall u | u % source == 0 && t <= u <= Last(g).openTime ensures HasBar(bars, u) {
      RunCovers(bars, bars[0].openTime, source, u);
    }
    SlotsMakeRun(bars, source, target, t);
  }

  lemma GapFreeFull(bars: seq<Bar>, source: int, target: int, t: int, i: nat)
    requires 0 < source < target && target % source == 0 && t % target == 0
    requires i < |bars| && GapFree(bars, source) && GoodInput(bars, source)
    requires Bucket(bars[i], target) == t && bars[0].openTime <= t
    requires Unbroken(Group(bars, target, t), t, source) && t != Bucket(Last(bars), target)
    ensures Full(Group(bars, target, t), t, source, target)
  {
    hide BucketStart;
    hide Group;
    var g, last, u := Group(bars, target, t), Last(bars).openTime, t + target - source;
    MultipleOfMultiple(source, target, t);
    SumOfMultiples(t, target, source);
    SumOfMultiples(t + target, source, source);
    BucketContains(bars[i].openTime, target);
    assert bars[i].openTime <= last;
    if last < t + target {
      BucketUnique(last, t, target);
    }
    RunCovers(bars, bars[0].openTime, source, u);
    SlotInGroup(bars, source, target, t, u);
    GroupIsGood(bars, source, target, t);
    var m :| 0 <= m < |g| && g[m].openTime == u;
    LastSlot(Last(g).openTime, t, source, target);
  }

  lemma GroupTimes(bars: seq<Bar>, source: int, target: int, t: int, hi: int)
    requires 0 < source && 0 < target && GoodInput(bars, source)
    requires bars != [] ==> Last(bars).openTime <= hi
    ensures forall j :: 0 <= j < |Group(bars, target, t)| ==> Group(bars, target, t)[j].openTime <= hi
  {
    hide BucketStart;
    hide Group;
    GroupMembers(bars, target, t);
    var g := Group(bars, target, t);
    forall j | 0 <= j < |g| ensures g[j].openTime <= hi {
      var i :| 0 <= i < |bars| && bars[i] == g[j];
    }
  }

  // ---- composition -------------------------------------------------------------------------------

  /** Everything the composition proof needs to know about the intermediate bars `y`. */
  ghost predicate Between(bars: seq<Bar>, y: seq<Bar>, a: int, b: int)
    requires 0 < a && 0 < b
  {
    && GoodInput(bars, a) && GoodInput(y, b)
    && (forall p :: 0 <= p < |y| ==>
          && !Dropped(bars, b, y[p].openTime)
          && Occupied(bars, b, y[p].openTime))
    && (forall j :: 0 <= j < |bars| && !Dropped(bars, b, Bucket(bars[j], b)) ==>
          HasBar(y, Bucket(bars[j], b)))
  }

  lemma KeptIsBetween(bars: seq<Bar>, a: int, b: int)
    requires 0 < a && 0 < b && GoodInput(bars, a)
    ensures Between(bars, Kept(bars, b), a, b)
  {
    hide BucketStart;
    hide Group;
    hide Summarises;
    hide Kept;
    hide GoodInput;
    hide Dropped;
    var y := Kept(bars, b);
    KeptIsGroupBy(bars, a, b);
    forall p | 0 <= p < |y|
      ensures y[p].openTime % b == 0
      ensures Occupied(bars, b, y[p].openTime)
    {
      SummaryInGrid(y[p], bars, b);
    }
    AscendingIsGood(y, b);
    forall j | 0 <= j < |bars| && !Dropped(bars, b, Bucket(bars[j], b))
      ensures HasBar(y, Bucket(bars[j], b))
    {
      var p :| 0 <= p < |y| && y[p].openTime == Bucket(bars[j], b);
    }
  }

  lemma AscendingIsGood(y: seq<Bar>, b: int)
    requires 0 < b && forall p :: 0 <= p < |y| ==> y[p].openTime % b == 0
    requires forall p, q :: 0 <= p < q < |y| ==> y[p].openTime < y[q].openTime
    ensures GoodInput(y, b)
  {
  }

  lemma SummaryInGrid(o: Bar, bars: seq<Bar>, b: int)
    requires 0 < b && Summarises(o, Group(bars, b, o.openTime), o.openTime, b)
    ensures o.openTime % b == 0
    ensures Occupied(bars, b, o.openTime)
  {
    hide BucketStart;
    hide Group;
    hide Summarises;
    SummaryNonEmpty(o, Group(bars, b, o.openTime), o.openTime, b);
    GroupMembers(bars, b, o.openTime);
    var j :| 0 <= j < |bars| && Bucket(bars[j], b) == o.openTime;
    BucketContains(bars[j].openTime, b);
  }

  /** A coarse bucket that the direct resample keeps: it starts with a bar on its boundary. */
  lemma KeptBucketStarts(bars: seq<Bar>, a: int, c: int, t: int)
    requires 0 < a && 0 < c && Accepts(bars, a, c) && !Dropped(bars, c, t)
    requires Occupied(bars, c, t)
    ensures bars != [] && Unbroken(Group(bars, c, t), t, a) && HasBar(bars, t) && t % c == 0
    ensures bars[0].openTime <= t
    ensures t != Bucket(Last(bars), c) ==> Full(Group(bars, c, t), t, a, c)
  {
    hide BucketStart;
    hide Group;
    var j :| 0 <= j < |bars| && Bucket(bars[j], c) == t;
    BucketContains(bars[j].openTime, c);
    assert BucketOk(bars, a, c, t);
    var g := Group(bars, c, t);
    GroupMembers(bars, c, t);
    assert g[0] in bars;
    var i :| 0 <= i < |bars| && bars[i] == g[0];
    assert bars[i].openTime == t;
  }

  /** No fine bucket inside a kept coarse bucket was dropped from the intermediate bars. */
  lemma InsideIsKept(bars: seq<Bar>, y: seq<Bar>, a: int, b: int, c: int, t: int, j: nat)
    requires 0 < a && 0 < b && 0 < c && c % b == 0 && Between(bars, y, a, b)
    requires j < |bars| && Bucket(bars[j], c) == t && HasBar(bars, t) && t % c == 0
    ensures HasBar(y, Bucket(bars[j], b))
    ensures t <= Bucket(bars[j], b) < t + c
  {
    hide BucketStart;
    var u := Bucket(bars[j], b);
    BucketContains(bars[j].openTime, b);
    BucketContains(bars[j].openTime, c);
    NestedBucket(bars[j].openTime, b, c);
    BucketContains(u, c);
    BucketContains(bars[0].openTime, b);
    var i :| 0 <= i < |bars| && bars[i].openTime == t;
    assert bars[0].openTime <= t;
  }

  /** The direct resample's kept buckets are exactly the ones the second stage keeps. */
  lemma SameDrops(bars: seq<Bar>, y: seq<Bar>, a: int, b: int, c: int, i: nat)
    requires 0 < a && 0 < b && 0 < c && c % b == 0 && Between(bars, y, a, b)
    requires Accepts(bars, a, c) && i < |y|
    ensures var t := Bucket(y[i], c);
            && (Dropped(y, c, t) <==> Dropped(bars, c, t))
            && Occupied(bars, c, t)
  {
    hide BucketStart;
    hide Group;
    hide Accepts;
    var t := Bucket(y[i], c);
    var j :| 0 <= j < |bars| && Bucket(bars[j], b) == y[i].openTime;
    NestedBucket(bars[j].openTime, b, c);
    if Dropped(bars, c, t) {
      DroppedInY(bars, y, a, b, c, i);
    } else {
      KeptBucketStarts(bars, a, c, t);
      KeptStartsInY(bars, y, a, b, c, t);
      BoundaryBarIsFirst(y, b, c, t);
    }
  }

  lemma BoundaryBarIsFirst(y: seq<Bar>, b: int, c: int, t: int)
    requires 0 < b && 0 < c && GoodInput(y, b) && HasBar(y, t)
    ensures !Dropped(y, c, t)
  {
    hide BucketStart;
    var k :| 0 <= k < |y| && y[k].openTime == t;
    assert y[0].openTime <= t;
    BucketContains(y[0].openTime, c);
  }

  lemma KeptStartsInY(bars: seq<Bar>, y: seq<Bar>, a: int, b: int, c: int, t: int)
    requires 0 < a && 0 < b && 0 < c && c % b == 0 && Between(bars, y, a, b)
    requires HasBar(bars, t) && t % c == 0
    ensures HasBar(y, t)
  {
    hide BucketStart;
    var k :| 0 <= k < |bars| && bars[k].openTime == t;
    MultipleOfMultiple(b, c, t);
    BucketUnique(t, t, b);
    BucketUnique(t, t, c);
    InsideIsKept(bars, y, a, b, c, t, k);
  }

  lemma DroppedInY(bars: seq<Bar>, y: seq<Bar>, a: int, b: int, c: int, i: nat)
    requires 0 < a && 0 < b && 0 < c && c % b == 0 && Between(bars, y, a, b)
    requires i < |y|
    requires Dropped(bars, c, Bucket(y[i], c))
    ensures Dropped(y, c, Bucket(y[i], c))
  {
    hide BucketStart;
    var m :| 0 <= m < |bars| && Bucket(bars[m], b) == y[0].openTime;
    var t, first := Bucket(y[i], c), bars[0].openTime;
    var u := BucketStart(first, b);
    BucketContains(first, b);
    BucketContains(first, c);
    BucketContains(y[i].openTime, c);
    NestedBucket(first, b, c);
    BucketContains(u, c);
    BucketMonotone(first, bars[m].openTime, b);
    assert t <= u <= y[0].openTime <= y[i].openTime;
    BucketUnique(y[0].openTime, t, c);
    assert !Dropped(bars, b, y[0].openTime);
  }

  lemma SecondStageRun(bars: seq<Bar>, y: seq<Bar>, a: int, b: int, c: int, t: int)
    requires 0 < a < b < c && b % a == 0 && c % b == 0 && Between(bars, y, a, b)
    requires Accepts(bars, a, c) && !Dropped(bars, c, t)
    requires Occupied(y, c, t)
    requires Occupied(bars, c, t)
    ensures y != [] && Unbroken(Group(y, c, t), t, b)
    ensures t != Bucket(Last(y), c) ==> Full(Group(y, c, t), t, b, c)
  {
    hide BucketStart;
    hide Group;
    KeptBucketStarts(bars, a, c, t);
    var g := Group(y, c, t);
    GroupMembers(y, c, t);
    GroupIsGood(y, b, c, t);
    forall u | u % b == 0 && t <= u <= Last(g).openTime ensures HasBar(y, u) {
      SlotInSecondStage(bars, y, a, b, c, t, u);
    }
    SlotsMakeRun(y, b, c, t);
    if t != Bucket(Last(y), c) {
      SecondStageFull(bars, y, a, b, c, t);
    }
  }

  /** A fine slot below the group's last bar is occupied because the source run covers it. */
  lemma SlotInSecondStage(bars: seq<Bar>, y: seq<Bar>, a: int, b: int, c: int, t: int, u: int)
    requires 0 < a && 0 < b && 0 < c && b % a == 0 && c % b == 0 && Between(bars, y, a, b)
    requires t % c == 0 && HasBar(bars, t) && Unbroken(Group(bars, c, t), t, a)
    requires Group(y, c, t) != [] && u % b == 0 && t <= u <= Last(Group(y, c, t)).openTime
    ensures HasBar(y, u)
  {
    hide BucketStart;
    hide Group;
    hide Between;
    var big := Group(bars, c, t);
    LastFineBarIsCovered(bars, y, a, b, c, t);
    MultipleOfMultiple(a, b, u);
    MultipleOfMultiple(b, c, t);
    MultipleOfMultiple(a, b, t);
    RunCovers(big, t, a, u);
    var k :| 0 <= k < |big| && big[k].openTime == u;
    GroupMembers(bars, c, t);
    var m :| 0 <= m < |bars| && bars[m] == big[k];
    InsideIsKept(bars, y, a, b, c, t, m);
    BucketUnique(u, u, b);
  }

  lemma LastFineBarIsCovered(bars: seq<Bar>, y: seq<Bar>, a: int, b: int, c: int, t: int)
    requires 0 < a && 0 < b && 0 < c && c % b == 0 && Between(bars, y, a, b)
    requires Group(y, c, t) != []
    ensures Group(bars, c, t) != []
    ensures Last(Group(y, c, t)).openTime <= Last(Group(bars, c, t)).openTime
  {
    hide BucketStart;
    hide Group;
    hide Between;
    var g := Group(y, c, t);
    GroupMembers(y, c, t);
    var n := |g| - 1;
    assert Bucket(g[n], c) == t;
    var q :| 0 <= q < |y| && y[q] == g[n];
    assert BucketStart(y[q].openTime, c) == t;
    BetweenIsGood(bars, y, a, b);
    var j := FineBarSource(bars, y, a, b, q);
    BucketContains(bars[j].openTime, b);
    NestedBucket(bars[j].openTime, b, c);
    assert Bucket(bars[j], c) == Bucket(y[q], c);
    LastOfGroup(bars, a, c, t, j);
  }

  lemma FineBarSource(bars: seq<Bar>, y: seq<Bar>, a: int, b: int, q: nat) returns (j: nat)
    requires 0 < a && 0 < b && Between(bars, y, a, b) && q < |y|
    ensures j < |bars| && Bucket(bars[j], b) == y[q].openTime
  {
    hide BucketStart;
    assert Occupied(bars, b, y[q].openTime);
    j :| 0 <= j < |bars| && Bucket(bars[j], b) == y[q].openTime;
  }

  lemma LastOfGroup(bars: seq<Bar>, source: int, width: int, t: int, j: nat)
    requires 0 < source && 0 < width && GoodInput(bars, source)
    requires j < |bars| && Bucket(bars[j], width) == t
    ensures Group(bars, width, t) != [] && bars[j].openTime <= Last(Group(bars, width, t)).openTime
  {
    hide BucketStart;
    hide Group;
    var g := Group(bars, width, t);
    GroupMembers(bars, width, t);
    GroupIsGood(bars, source, width, t);
    var k :| 0 <= k < |g| && g[k] == bars[j];
  }

  lemma SecondStageFull(bars: seq<Bar>, y: seq<Bar>, a: int, b: int, c: int, t: int)
    requires 0 < a < b < c && c % b == 0 && Between(bars, y, a, b)
    requires t % c == 0 && HasBar(bars, t) && bars != []
    requires t != Bucket(Last(bars), c) ==> Full(Group(bars, c, t), t, a, c)
    requires y != [] && Unbroken(Group(y, c, t), t, b) && t != Bucket(Last(y), c)
    ensures Full(Group(y, c, t), t, b, c)
  {
    hide BucketStart;
    hide Group;
    hide Between;
    if t == Bucket(Last(bars), c) {
      LastBucketsAgree(bars, y, a, b, c, t);
    }
    var u := t + c - b;
    LastSlotInSecondStage(bars, y, a, b, c, t);
    BetweenIsGood(bars, y, a, b);
    GroupIsGood(y, b, c, t);
    SlotInGroup(y, b, c, t, u);
    var g := Group(y, c, t);
    var m :| 0 <= m < |g| && g[m].openTime == u;
    LastSlot(Last(g).openTime, t, b, c);
  }

  lemma BetweenIsGood(bars: seq<Bar>, y: seq<Bar>, a: int, b: int)
    requires 0 < a && 0 < b && Between(bars, y, a, b)
    ensures GoodInput(bars, a) && GoodInput(y, b)
  {
  }

  lemma LastSlotInSecondStage(bars: seq<Bar>, y: seq<Bar>, a: int, b: int, c: int, t: int)
    requires 0 < a < b < c && c % b == 0 && Between(bars, y, a, b)
    requires t % c == 0 && HasBar(bars, t)
    requires Full(Group(bars, c, t), t, a, c)
    ensures HasBar(y, t + c - b)
  {
    hide BucketStart;
    hide Group;
    var big, u := Group(bars, c, t), t + c - b;
    GroupMembers(bars, c, t);
    assert Last(big) in bars;
    var j :| 0 <= j < |bars| && bars[j] == Last(big);
    MultipleOfMultiple(b, c, t);
    SumOfMultiples(t, c, b);
    SumOfMultiples(t + c, b, b);
    BucketUnique(bars[j].openTime, u, b);
    assert Bucket(big[|big| - 1], c) == t;
    InsideIsKept(bars, y, a, b, c, t, j);
  }

  lemma LastBucketsAgree(bars: seq<Bar>, y: seq<Bar>, a: int, b: int, c: int, t: int)
    requires 0 < a && 0 < b && 0 < c && c % b == 0 && Between(bars, y, a, b)
    requires bars != [] && y != [] && t == Bucket(Last(bars), c) && HasBar(bars, t) && t % c == 0
    ensures t == Bucket(Last(y), c)
  {
    hide BucketStart;
    var n := |bars| - 1;
    InsideIsKept(bars, y, a, b, c, t, n);
    var u := Bucket(bars[n], b);
    var k :| 0 <= k < |y| && y[k].openTime == u;
    var j :| 0 <= j < |bars| && Bucket(bars[j], b) == y[|y| - 1].openTime;
    BucketMonotone(bars[j].openTime, bars[n].openTime, b);
    NestedBucket(bars[n].openTime, b, c);
  }

  /** The intermediate bars, kept or not, sum to the same coarse bars. */
  lemma SecondStageSummary(bars: seq<Bar>, a: int, b: int, c: int, t: int, o: Bar)
    requires 0 < a && 0 < b && 0 < c && b % a == 0 && c % b == 0
    requires GoodInput(bars, a) && !Dropped(bars, c, t)
    requires Summarises(o, Group(bars, c, t), t, c)
    ensures Summarises(o, Group(Kept(bars, b), c, t), t, c)
  {
    hide BucketStart;
    hide Group;
    hide Cells;
    hide Summarises;
    hide CellOf;
    var all := BarsOf(Cells(bars, b));
    SummaryNonEmpty(o, Group(bars, c, t), t, c);
    GroupMembers(bars, c, t);
    CellsAreGroups(bars, a, b);
    CellsAreGroups(bars, a, c);
    AllCellsGood(bars, a, b);
    CellsAreGroups(all, b, c);
    CellsSum(bars, b);
    CellsSum(bars, c);
    CellsSum(all, c);
    SumsCompose(bars, b, c);
    var direct, staged := Cells(bars, c), Cells(all, c);
    var j :| 0 <= j < |bars| && Bucket(bars[j], c) == t;
    var k :| 0 <= k < |direct| && direct[k].bar.openTime == t;
    CellSummarises(direct, bars, c, k);
    SummaryUnique(o, direct[k].bar, Group(bars, c, t), t, c);
    assert BarsOf(staged)[k] == BarsOf(direct)[k];
    CellSummarises(staged, all, c, k);
    SkippedHeadElsewhere(bars, a, b, c, t);
  }

  lemma AllCellsGood(bars: seq<Bar>, a: int, b: int)
    requires 0 < a && 0 < b && GoodInput(bars, a)
    ensures GoodInput(BarsOf(Cells(bars, b)), b)
    ensures bars != [] ==> Cells(bars, b) != []
  {
    hide BucketStart;
    hide Group;
    hide Cells;
    hide Summarises;
    var cells := Cells(bars, b);
    if bars == [] {
      CellsOfNothing(b);
      return;
    }
    CellsAreGroups(bars, a, b);
    forall k | 0 <= k < |cells| ensures cells[k].bar.openTime % b == 0 {
      CellSummarises(cells, bars, b, k);
      SummaryInGrid(cells[k].bar, bars, b);
    }
  }

  /** Dropping the leading fine bar does not touch a coarse bucket that is kept. */
  lemma SkippedHeadElsewhere(bars: seq<Bar>, a: int, b: int, c: int, t: int)
    requires 0 < a && 0 < b && 0 < c && c % b == 0
    requires GoodInput(bars, a) && !Dropped(bars, c, t)
    ensures Group(Kept(bars, b), c, t) == Group(BarsOf(Cells(bars, b)), c, t)
  {
    hide BucketStart;
    hide Group;
    hide Cells;
    hide CellOf;
    var cells := Cells(bars, b);
    if cells != [] && !cells[0].openedOnBoundary {
      var all := BarsOf(cells);
      if bars == [] {
        CellsOfNothing(b);
      }
      CellsAreGroups(bars, a, b);
      var first := bars[0].openTime;
      NestedBucket(first, b, c);
      BucketContains(first, c);
      if first == BucketStart(first, c) {
        MultipleOfMultiple(b, c, first);
        BucketUnique(first, first, b);
      }
      assert BarsOf(cells[1..]) == all[1..];
      GroupOfTail(all, c, t);
    }
  }

  lemma {:induction false} GroupOfTail(bars: seq<Bar>, width: int, t: int)
    requires 0 < width && bars != [] && Bucket(bars[0], width) != t
    ensures Group(bars[1..], width, t) == Group(bars, width, t)
    decreases |bars|
  {
    hide BucketStart;
    if |bars| == 1 {
      assert Init(bars) == [];
    } else {
      GroupOfTail(Init(bars), width, t);
      assert Init(bars)[1..] == Init(bars[1..]);
    }
  }

  /** Resampling composes. Whenever the direct resample `a -> c` and the first stage `a -> b`
      both succeed, resampling the intermediate bars `b -> c` succeeds with exactly the bars
      of the direct one: the dropped leading bucket and the still-forming one included. */
  lemma ResamplingComposes(bars: seq<Bar>, a: int, b: int, c: int)
    requires 0 < a < b < c && b % a == 0 && c % b == 0
    requires Accepts(bars, a, b) && Accepts(bars, a, c)
    ensures Accepts(Kept(bars, b), b, c)
    ensures Kept(Kept(bars, b), c) == Kept(bars, c)
  {
    hide BucketStart;
    hide Group;
    hide Kept;
    hide Summarises;
    var y, x := Kept(bars, b), Kept(bars, c);
    KeptIsBetween(bars, a, b);
    KeptIsGroupBy(bars, a, c);
    forall i | 0 <= i < |y| ensures BucketOk(y, b, c, Bucket(y[i], c)) {
      SameDrops(bars, y, a, b, c, i);
      if !Dropped(y, c, Bucket(y[i], c)) {
        SecondStageRun(bars, y, a, b, c, Bucket(y[i], c));
      }
    }
    StagedIsGroupBy(bars, a, b, c);
    KeptIsGroupBy(y, b, c);
    GroupByUnique(Kept(y, c), x, y, c);
  }

  lemma StagedIsGroupBy(bars: seq<Bar>, a: int, b: int, c: int)
    requires 0 < a < b < c && b % a == 0 && c % b == 0 && Accepts(bars, a, c)
    ensures IsGroupBy(Kept(bars, c), Kept(bars, b), c)
  {
    hide BucketStart;
    hide Group;
    hide Kept;
    hide Summarises;
    hide Accepts;
    var y, x := Kept(bars, b), Kept(bars, c);
    AcceptedIsGood(bars, a, c);
    KeptIsBetween(bars, a, b);
    KeptIsGroupBy(bars, a, c);
    forall p | 0 <= p < |x|
      ensures Summarises(x[p], Group(y, c, x[p].openTime), x[p].openTime, c)
      ensures !Dropped(y, c, x[p].openTime)
    {
      var t := x[p].openTime;
      SecondStageSummary(bars, a, b, c, t, x[p]);
      SummaryNonEmpty(x[p], Group(y, c, t), t, c);
      GroupMembers(y, c, t);
      var i :| 0 <= i < |y| && Bucket(y[i], c) == t;
      SameDrops(bars, y, a, b, c, i);
    }
    forall i | 0 <= i < |y| && !Dropped(y, c, Bucket(y[i], c))
      ensures exists p :: 0 <= p < |x| && x[p].openTime == Bucket(y[i], c)
    {
      SameDrops(bars, y, a, b, c, i);
      var j :| 0 <= j < |bars| && Bucket(bars[j], c) == Bucket(y[i], c);
    }
  }

  lemma AcceptedIsGood(bars: seq<Bar>, a: int, c: int)
    requires 0 < a && 0 < c && Accepts(bars, a, c)
    ensures GoodInput(bars, a)
  {
  }

  /** On every gap-free aligned run all three resamples succeed and agree. */
  lemma GapFreeRunsCompose(bars: seq<Bar>, a: int, b: int, c: int)
    requires 0 < a < b < c && b % a == 0 && c % b == 0 && GapFree(bars, a)
    ensures Accepts(bars, a, b) && Accepts(bars, a, c) && Accepts(Kept(bars, b), b, c)
    ensures Kept(Kept(bars, b), c) == Kept(bars, c)
  {
    GapFreeIsAccepted(bars, a, b);
    MultipleOfMultiple(a, b, c);
    GapFreeIsAccepted(bars, a, c);
    ResamplingComposes(bars, a, b, c);
  }
}
