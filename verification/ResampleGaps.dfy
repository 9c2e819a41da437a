/** When the output of a successful resample has no gaps. The pass seals only the bucket it
    leaves behind, so a target bucket without a single source bar goes unnoticed. */
module ResampleGaps {
  import opened Common
  import opened Bars
  import opened GroupBy
  import opened Compose
  import opened ComposeExact
  import I = Intervals

  /** How many leading bars, from `i` on, lie in a dropped leading bucket. */
  function LeadFrom(bars: seq<Bar>, c: int, i: nat): (n: nat)
    requires 0 < c && i <= |bars|
    ensures i <= n <= |bars|
    ensures forall k :: i <= k < n ==> Dropped(bars, c, Bucket(bars[k], c))
    ensures n < |bars| ==> !Dropped(bars, c, Bucket(bars[n], c))
    decreases |bars| - i
  {
    if i < |bars| && Dropped(bars, c, Bucket(bars[i], c)) then LeadFrom(bars, c, i + 1) else i
  }

  /** The source bars the output is made of: all but those of a dropped leading bucket. */
  function Counted(bars: seq<Bar>, c: int): seq<Bar>
    requires 0 < c
  {
    bars[LeadFrom(bars, c, 0)..]
  }

  lemma NoneDroppedAfterLead(bars: seq<Bar>, a: int, c: int, j: nat)
    requires 0 < a && 0 < c && GoodInput(bars, a)
    requires j < |bars|
    ensures LeadFrom(bars, c, 0) <= j <==> !Dropped(bars, c, Bucket(bars[j], c))
  {
    hide BucketStart;
    var n := LeadFrom(bars, c, 0);
    if n <= j {
      assert bars[0].openTime <= bars[n].openTime <= bars[j].openTime;
      BucketMonotone(bars[0].openTime, bars[n].openTime, c);
      BucketMonotone(bars[n].openTime, bars[j].openTime, c);
    }
  }

  /** The first counted bar starts its bucket, and that bucket is the first one kept. */
  lemma CountedStarts(bars: seq<Bar>, y: seq<Bar>, a: int, c: int)
    requires 0 < a < c && c % a == 0 && Accepts(bars, a, c) && Between(bars, y, a, c)
    requires Counted(bars, c) != []
    ensures y != [] && Counted(bars, c)[0].openTime == y[0].openTime
  {
    hide BucketStart;
    hide Group;
    hide Accepts;
    var n := LeadFrom(bars, c, 0);
    var t := Bucket(bars[n], c);
    assert Occupied(bars, c, t);
    KeptBucketStarts(bars, a, c, t);
    BetweenIsGood(bars, y, a, c);
    var m :| 0 <= m < |bars| && bars[m].openTime == t;
    BucketUnique(t, t, c);
    NoneDroppedAfterLead(bars, a, c, m);
    BucketContains(bars[n].openTime, c);
    assert m == n;
    var k :| 0 <= k < |y| && y[k].openTime == t;
    var j :| 0 <= j < |bars| && Bucket(bars[j], c) == y[0].openTime;
    NoneDroppedAfterLead(bars, a, c, j);
    BucketMonotone(bars[n].openTime, bars[j].openTime, c);
  }

  lemma CountedIsGood(bars: seq<Bar>, a: int, c: int)
    requires 0 < a && 0 < c && GoodInput(bars, a)
    ensures GoodInput(Counted(bars, c), a)
  {
  }

  lemma KeptMeansCounted(bars: seq<Bar>, y: seq<Bar>, a: int, c: int)
    requires 0 < a && 0 < c && Between(bars, y, a, c)
    ensures y != [] <==> Counted(bars, c) != []
  {
    hide BucketStart;
    var n := LeadFrom(bars, c, 0);
    if y != [] {
      assert Occupied(bars, c, y[0].openTime);
      var j :| 0 <= j < |bars| && Bucket(bars[j], c) == y[0].openTime;
      NoneDroppedAfterLead(bars, a, c, j);
    }
    if n < |bars| {
      assert HasBar(y, Bucket(bars[n], c));
    }
  }

  /** Between two neighbours of an ascending run there is nothing. */
  lemma NeighboursAreAdjacent(g: seq<Bar>, a: int, p: nat, u: int)
    requires 0 < a && GoodInput(g, a) && p + 1 < |g|
    requires HasBar(g, u) && g[p].openTime < u <= g[p + 1].openTime
    ensures u == g[p + 1].openTime
  {
    var k :| 0 <= k < |g| && g[k].openTime == u;
  }

  /** No two neighbours skip a slot if every slot between the ends is present. */
  lemma SlotsMakeGapFree(g: seq<Bar>, a: int)
    requires 0 < a && g != [] && GoodInput(g, a)
    requires forall u :: u % a == 0 && g[0].openTime <= u <= Last(g).openTime ==> HasBar(g, u)
    ensures GapFree(g, a)
  {
    forall j | 1 <= j < |g| ensures g[j].openTime == g[j - 1].openTime + a {
      NextSlot(g, j, a);
      var u := g[j - 1].openTime + a;
      SumOfMultiples(g[j - 1].openTime, a, a);
      assert g[0].openTime <= g[j - 1].openTime && g[j].openTime <= Last(g).openTime;
      assert HasBar(g, u);
      NeighboursAreAdjacent(g, a, j - 1, u);
    }
  }

  /** The newest bar's bucket is kept, if anything is. */
  lemma NewestIsKept(bars: seq<Bar>, y: seq<Bar>, a: int, c: int)
    requires 0 < a && 0 < c && Between(bars, y, a, c) && Counted(bars, c) != []
    ensures bars != [] && y != [] && Bucket(Last(bars), c) <= Last(y).openTime
  {
    hide BucketStart;
    var last := |bars| - 1;
    NoneDroppedAfterLead(bars, a, c, last);
    assert HasBar(y, Bucket(bars[last], c));
    var q :| 0 <= q < |y| && y[q].openTime == Bucket(bars[last], c);
    assert y[q].openTime <= y[|y| - 1].openTime;
  }

  lemma GapFreeOutputHas(bars: seq<Bar>, y: seq<Bar>, a: int, c: int, u: int)
    requires 0 < a < c && c % a == 0 && Accepts(bars, a, c) && Between(bars, y, a, c)
    requires GapFree(y, c) && Counted(bars, c) != []
    requires Counted(bars, c)[0].openTime <= u <= Last(bars).openTime
    ensures HasBar(y, BucketStart(u, c))
  {
    hide BucketStart;
    hide Accepts;
    hide Between;
    hide Counted;
    CountedStarts(bars, y, a, c);
    BetweenIsGood(bars, y, a, c);
    BucketContains(u, c);
    BucketMonotone(y[0].openTime, u, c);
    BucketUnique(y[0].openTime, y[0].openTime, c);
    NewestIsKept(bars, y, a, c);
    BucketMonotone(u, Last(bars).openTime, c);
    RunCovers(y, y[0].openTime, c, BucketStart(u, c));
  }

  lemma GapFreeOutputCovers(bars: seq<Bar>, y: seq<Bar>, a: int, c: int, u: int)
    requires 0 < a < c && c % a == 0 && Accepts(bars, a, c) && Between(bars, y, a, c)
    requires GapFree(y, c) && Counted(bars, c) != []
    requires u % a == 0 && Counted(bars, c)[0].openTime <= u <= Last(bars).openTime
    ensures HasBar(Counted(bars, c), u)
  {
    hide BucketStart;
    hide Accepts;
    hide Between;
    hide GapFree;
    hide LeadFrom;
    GapFreeOutputHas(bars, y, a, c, u);
    SlotInFineBucket(bars, y, a, c, u);
    BetweenIsGood(bars, y, a, c);
    var n := LeadFrom(bars, c, 0);
    var i :| 0 <= i < |bars| && bars[i].openTime == u;
    assert bars[n].openTime <= bars[i].openTime;
    assert n <= i;
    assert Counted(bars, c)[i - n].openTime == u;
  }

  /** A counted bar on a target boundary opens a kept bucket. */
  lemma BoundaryIsKept(bars: seq<Bar>, y: seq<Bar>, a: int, c: int, u: int)
    requires 0 < a && 0 < c && Between(bars, y, a, c)
    requires HasBar(Counted(bars, c), u) && u % c == 0
    ensures HasBar(y, u)
  {
    hide BucketStart;
    var g, n := Counted(bars, c), LeadFrom(bars, c, 0);
    var i :| 0 <= i < |g| && g[i].openTime == u;
    assert bars[n + i] == g[i];
    NoneDroppedAfterLead(bars, a, c, n + i);
    BucketUnique(u, u, c);
  }

  /** Every kept bucket holds a counted bar. */
  lemma KeptIsReached(bars: seq<Bar>, y: seq<Bar>, a: int, c: int, p: nat)
    requires 0 < a && 0 < c && Between(bars, y, a, c) && p < |y|
    ensures Counted(bars, c) != [] && y[p].openTime <= Last(Counted(bars, c)).openTime
  {
    hide BucketStart;
    hide Between;
    hide LeadFrom;
    BetweenIsGood(bars, y, a, c);
    var j := FineBarSource(bars, y, a, c, p);
    assert !Dropped(bars, c, Bucket(bars[j], c)) by {
      KeptIsNotDropped(bars, y, a, c, p);
    }
    BucketContains(bars[j].openTime, c);
    NoneDroppedAfterLead(bars, a, c, j);
    assert bars[j].openTime <= bars[|bars| - 1].openTime;
  }

  lemma KeptIsNotDropped(bars: seq<Bar>, y: seq<Bar>, a: int, c: int, p: nat)
    requires 0 < a && 0 < c && Between(bars, y, a, c) && p < |y|
    ensures !Dropped(bars, c, y[p].openTime)
  {
  }

  /** A gap-free source has a bar at the end of every kept bucket but the last. */
  lemma GapFreeSourceStep(bars: seq<Bar>, y: seq<Bar>, a: int, c: int, p: nat)
    requires 0 < a < c && c % a == 0 && Accepts(bars, a, c) && Between(bars, y, a, c)
    requires GapFree(Counted(bars, c), a) && p + 1 < |y|
    ensures y[p + 1].openTime == y[p].openTime + c
  {
    hide BucketStart;
    hide Accepts;
    hide Between;
    hide Counted;
    var g, u := Counted(bars, c), y[p].openTime + c;
    BetweenIsGood(bars, y, a, c);
    NextSlot(y, p + 1, c);
    KeptIsReached(bars, y, a, c, p + 1);
    CountedStarts(bars, y, a, c);
    assert y[0].openTime <= y[p].openTime;
    SumOfMultiples(y[p].openTime, c, c);
    MultipleOfMultiple(a, c, u);
    RunCovers(g, g[0].openTime, a, u);
    BoundaryIsKept(bars, y, a, c, u);
    NeighboursAreAdjacent(y, c, p, u);
  }

  /** The output of a successful resample is gap-free if and only if the source bars it is made
      of are: all of them, or all past a dropped leading bucket. */
  lemma OutputIsGapFreeExactlyWhenInputIs(bars: seq<Bar>, a: int, c: int)
    requires 0 < a && 0 < c && Accepts(bars, a, c)
    ensures GapFree(Kept(bars, c), c) <==> GapFree(Counted(bars, c), a)
  {
    hide BucketStart;
    hide Group;
    hide Kept;
    hide BucketOk;
    var y, g := Kept(bars, c), Counted(bars, c);
    KeptIsBetween(bars, a, c);
    KeptMeansCounted(bars, y, a, c);
    BetweenIsGood(bars, y, a, c);
    CountedIsGood(bars, a, c);
    if GapFree(y, c) && g != [] {
      forall u | u % a == 0 && g[0].openTime <= u <= Last(g).openTime ensures HasBar(g, u) {
        GapFreeOutputCovers(bars, y, a, c, u);
      }
      SlotsMakeGapFree(g, a);
    }
    if GapFree(g, a) && y != [] {
      forall p | 1 <= p < |y| ensures y[p].openTime == y[p - 1].openTime + c {
        GapFreeSourceStep(bars, y, a, c, p - 1);
      }
    }
  }

  // ---- an input whose output has a gap ---------------------------------------------------------

  const SECONDS: seq<Bar> := [Tick(0), Tick(1_000), Tick(6_000), Tick(7_000)]

  lemma SecondsPrefixes()
    ensures Init(SECONDS) == [Tick(0), Tick(1_000), Tick(6_000)] && Last(SECONDS) == Tick(7_000)
    ensures Init([Tick(0), Tick(1_000), Tick(6_000)]) == [Tick(0), Tick(1_000)]
    ensures Init([Tick(0), Tick(1_000)]) == [Tick(0)] && Init([Tick(0)]) == []
  {
  }

  lemma SecondsGroups()
    ensures Group(SECONDS, 2_000, 0) == [Tick(0), Tick(1_000)]
    ensures Group(SECONDS, 2_000, 6_000) == [Tick(6_000), Tick(7_000)]
  {
    hide BucketStart;
    SecondsBuckets();
    SecondsPrefixes();
  }

  lemma SecondsBuckets()
    ensures Bucket(Tick(0), 2_000) == 0 && Bucket(Tick(1_000), 2_000) == 0
    ensures Bucket(Tick(6_000), 2_000) == 6_000 && Bucket(Tick(7_000), 2_000) == 6_000
  {
    hide BucketStart;
    BucketUnique(0, 0, 2_000);
    BucketUnique(1_000, 0, 2_000);
    BucketUnique(6_000, 6_000, 2_000);
    BucketUnique(7_000, 6_000, 2_000);
  }

  lemma SecondsKept()
    ensures var y := Kept(SECONDS, 2_000);
            |y| == 2 && y[0].openTime == 0 && y[1].openTime == 6_000
  {
    hide BucketStart;
    hide Kept;
    hide Group;
    var y := Kept(SECONDS, 2_000);
    SecondsBuckets();
    KeptIsBetween(SECONDS, 1_000, 2_000);
    forall p | 0 <= p < |y| ensures y[p].openTime == 0 || y[p].openTime == 6_000 {
      var j := FineBarSource(SECONDS, y, 1_000, 2_000, p);
    }
    assert HasBar(y, Bucket(SECONDS[0], 2_000)) && HasBar(y, Bucket(SECONDS[2], 2_000));
    AscendingSameElements(Times(y), [0, 6_000]);
  }

  lemma SecondsAccepted()
    ensures Accepts(SECONDS, 1_000, 2_000)
  {
    hide Group;
    hide BucketStart;
    SecondsBuckets();
    SecondsGroups();
    var g0, g6 := Group(SECONDS, 2_000, 0), Group(SECONDS, 2_000, 6_000);
    assert Full(g0, 0, 1_000, 2_000) && Full(g6, 6_000, 1_000, 2_000);
  }

  /** One-second bars at 0, 1, 6 and 7 s resample into two-second bars at 0 and 6 s: two target
      buckets are missing from the output and nothing is refused. */
  lemma ResampleCanSkipBuckets()
    ensures var source, target := I.Millis(I.Interval(1, I.Second)), I.Millis(I.Interval(2, I.Second));
            && Accepts(SECONDS, source, target)
            && |Kept(SECONDS, target)| == 2
            && Kept(SECONDS, target)[0].openTime == 0 && Kept(SECONDS, target)[1].openTime == 6_000
            && !GapFree(Kept(SECONDS, target), target)
  {
    hide Kept;
    hide Accepts;
    SecondsAccepted();
    SecondsKept();
  }
}
