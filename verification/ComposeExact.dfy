/** Exactly when resampling in two stages accepts what resampling at once accepts. */
module ComposeExact {
  import opened Common
  import opened Bars
  import opened GroupBy
  import opened Compose
  import I = Intervals

  /** The first intermediate bar lies in the first bar's own coarse bucket, or starts one. */
  predicate SameLead(bars: seq<Bar>, y: seq<Bar>, c: int)
    requires 0 < c
  {
    bars == [] || y == [] || Bucket(y[0], c) == Bucket(bars[0], c) || y[0].openTime == Bucket(y[0], c)
  }

  lemma DirectHasSameLead(bars: seq<Bar>, y: seq<Bar>, a: int, b: int, c: int)
    requires 0 < a < b < c && b % a == 0 && c % b == 0 && Between(bars, y, a, b)
    requires Accepts(bars, a, c)
    ensures SameLead(bars, y, c)
  {
    hide BucketStart;
    hide Group;
    hide Accepts;
    if bars != [] && y != [] && Bucket(y[0], c) != Bucket(bars[0], c) {
      var t := Bucket(y[0], c);
      SameDrops(bars, y, a, b, c, 0);
      KeptBucketStarts(bars, a, c, t);
      KeptStartsInY(bars, y, a, b, c, t);
      var k :| 0 <= k < |y| && y[k].openTime == t;
      BucketContains(y[0].openTime, c);
    }
  }

  /** A bar outside a dropped coarse bucket is in a fine bucket the first stage keeps. */
  lemma KeptBarIsInY(bars: seq<Bar>, y: seq<Bar>, a: int, b: int, c: int, i: nat)
    requires 0 < a < b < c && c % b == 0 && Between(bars, y, a, b)
    requires i < |bars| && !Dropped(bars, c, Bucket(bars[i], c))
    ensures HasBar(y, Bucket(bars[i], b)) && BucketStart(Bucket(bars[i], b), c) == Bucket(bars[i], c)
    ensures Occupied(y, c, Bucket(bars[i], c))
  {
    hide BucketStart;
    NestedBucket(bars[i].openTime, b, c);
    NestedBucket(bars[0].openTime, b, c);
    BucketContains(bars[0].openTime, b);
    BucketContains(BucketStart(bars[0].openTime, b), c);
    var k :| 0 <= k < |y| && y[k].openTime == Bucket(bars[i], b);
    assert Bucket(y[k], c) == Bucket(bars[i], c);
  }

  /** With the same lead, the second stage drops no bucket the direct resample keeps. */
  lemma NotDroppedInY(bars: seq<Bar>, y: seq<Bar>, a: int, b: int, c: int, t: int)
    requires 0 < a < b < c && c % b == 0 && Between(bars, y, a, b)
    requires bars != [] && SameLead(bars, y, c) && !Dropped(bars, c, t) && t % c == 0
    ensures !Dropped(y, c, t)
  {
    hide BucketStart;
    if Dropped(y, c, t) {
      assert bars[0].openTime == t;
      assert HasBar(bars, t);
      KeptStartsInY(bars, y, a, b, c, t);
      BoundaryBarIsFirst(y, b, c, t);
    }
  }

  lemma HasBarInGroup(bars: seq<Bar>, width: int, t: int, s: int)
    requires 0 < width && HasBar(Group(bars, width, t), s)
    ensures HasBar(bars, s)
  {
    hide Group;
    var g := Group(bars, width, t);
    var k :| 0 <= k < |g| && g[k].openTime == s;
    GroupMembers(bars, width, t);
    assert g[k] in bars;
    var i :| 0 <= i < |bars| && bars[i] == g[k];
  }

  /** Inside a fine bucket the first stage kept, every slot up to the newest bar is present. */
  lemma SlotInFineBucket(bars: seq<Bar>, y: seq<Bar>, a: int, b: int, s: int)
    requires 0 < a < b && b % a == 0 && Between(bars, y, a, b) && Accepts(bars, a, b)
    requires bars != [] && s % a == 0 && HasBar(y, BucketStart(s, b))
    requires s <= Last(bars).openTime || BucketStart(s, b) != Bucket(Last(bars), b)
    ensures HasBar(bars, s)
  {
    hide BucketStart;
    hide Group;
    hide Accepts;
    var v := BucketStart(s, b);
    BucketContains(s, b);
    var q :| 0 <= q < |y| && y[q].openTime == v;
    KeptBucketStarts(bars, a, b, v);
    MultipleOfMultiple(a, b, v);
    if v == Bucket(Last(bars), b) {
      LastOfGroup(bars, a, b, v, |bars| - 1);
    } else {
      LastSlot(s, v, a, b);
    }
    RunCovers(Group(bars, b, v), v, a, s);
    HasBarInGroup(bars, b, v, s);
  }

  /** A slot of a kept coarse bucket up to its newest bar is present in the source. */
  lemma SlotInDirect(bars: seq<Bar>, y: seq<Bar>, a: int, b: int, c: int, t: int, s: int)
    requires 0 < a < b < c && b % a == 0 && c % b == 0 && Between(bars, y, a, b) && Accepts(bars, a, b)
    requires t % c == 0 && !Dropped(bars, c, t) && Group(bars, c, t) != []
    requires Unbroken(Group(y, c, t), t, b)
    requires s % a == 0 && t <= s <= Last(Group(bars, c, t)).openTime
    ensures HasBar(bars, s)
  {
    hide BucketStart;
    hide Group;
    hide Accepts;
    hide Between;
    hide Dropped;
    hide Unbroken;
    var big := Group(bars, c, t);
    BetweenIsGood(bars, y, a, b);
    var j := NewestOf(bars, a, c, t);
    var v := BucketStart(s, b);
    BucketContains(s, b);
    MultipleOfMultiple(b, c, t);
    BucketUnique(t, t, b);
    BucketMonotone(t, s, b);
    BucketMonotone(s, bars[j].openTime, b);
    KeptBarIsInY(bars, y, a, b, c, j);
    var w := Bucket(bars[j], b);
    var k :| 0 <= k < |y| && y[k].openTime == w;
    LastOfGroup(y, b, c, t, k);
    RunCovers(Group(y, c, t), t, b, v);
    HasBarInGroup(y, c, t, v);
    SlotInFineBucket(bars, y, a, b, s);
  }

  lemma NewestOf(bars: seq<Bar>, a: int, c: int, t: int) returns (j: nat)
    requires 0 < a && 0 < c && GoodInput(bars, a) && Group(bars, c, t) != []
    ensures j < |bars| && bars[j] == Last(Group(bars, c, t)) && Bucket(bars[j], c) == t
    ensures bars[j].openTime <= Last(bars).openTime
  {
    hide BucketStart;
    hide Group;
    var big := Group(bars, c, t);
    GroupMembers(bars, c, t);
    var n := |big| - 1;
    assert big[n] in bars && Bucket(big[n], c) == t;
    j :| 0 <= j < |bars| && bars[j] == big[n];
  }

  /** A coarse bucket before the newest one: full in the second stage, so full in the source. */
  lemma DirectFull(bars: seq<Bar>, y: seq<Bar>, a: int, b: int, c: int, t: int)
    requires 0 < a < b < c && b % a == 0 && c % b == 0 && c % a == 0
    requires Between(bars, y, a, b) && Accepts(bars, a, b)
    requires bars != [] && t % c == 0 && t + c <= Last(bars).openTime
    requires Unbroken(Group(bars, c, t), t, a) && Full(Group(y, c, t), t, b, c)
    ensures Full(Group(bars, c, t), t, a, c)
  {
    hide BucketStart;
    hide Group;
    hide Accepts;
    hide Between;
    BetweenIsGood(bars, y, a, b);
    var s, v := t + c - a, t + c - b;
    MultipleOfMultiple(a, c, t);
    SumOfMultiples(t, c, a);
    SumOfMultiples(t + c, a, a);
    MultipleOfMultiple(b, c, t);
    SumOfMultiples(t, c, b);
    SumOfMultiples(t + c, b, b);
    BucketUnique(s, v, b);
    var g := Group(y, c, t);
    assert g[|g| - 1].openTime == v;
    HasBarInGroup(y, c, t, v);
    SlotInFineBucket(bars, y, a, b, s);
    SlotInGroup(bars, a, c, t, s);
    GroupIsGood(bars, a, c, t);
    var big := Group(bars, c, t);
    var m :| 0 <= m < |big| && big[m].openTime == s;
    LastSlot(Last(big).openTime, t, a, c);
  }

  /** If the newest bar is past a coarse bucket, so is the newest intermediate bar. */
  lemma NewestIsPast(bars: seq<Bar>, y: seq<Bar>, a: int, b: int, c: int, t: int, i: nat)
    requires 0 < a < b < c && c % b == 0 && Between(bars, y, a, b)
    requires i < |bars| && t == Bucket(bars[i], c) != Bucket(Last(bars), c) && t % c == 0
    ensures t + c <= Last(bars).openTime && y != [] && t != Bucket(Last(y), c)
  {
    hide BucketStart;
    var n := |bars| - 1;
    var last := bars[n].openTime;
    BucketContains(bars[i].openTime, c);
    BucketContains(last, c);
    assert bars[i].openTime <= last;
    if last < t + c {
      BucketUnique(last, t, c);
    }
    BucketMonotone(bars[0].openTime, bars[i].openTime, c);
    BucketMonotone(bars[i].openTime, last, c);
    KeptBarIsInY(bars, y, a, b, c, n);
    var w := Bucket(bars[n], b);
    var k :| 0 <= k < |y| && y[k].openTime == w;
    assert y[k].openTime <= Last(y).openTime;
    BucketMonotone(w, Last(y).openTime, c);
  }

  /** One coarse bucket of the direct resample, given that both stages accept. */
  lemma DirectBucket(bars: seq<Bar>, y: seq<Bar>, a: int, b: int, c: int, i: nat)
    requires 0 < a < b < c && b % a == 0 && c % b == 0 && c % a == 0
    requires Between(bars, y, a, b) && Accepts(bars, a, b) && Accepts(y, b, c)
    requires SameLead(bars, y, c) && i < |bars|
    ensures BucketOk(bars, a, c, Bucket(bars[i], c))
  {
    hide BucketStart;
    hide Group;
    hide Accepts;
    hide Between;
    hide Dropped;
    hide SameLead;
    hide Unbroken;
    hide Full;
    var t := Bucket(bars[i], c);
    if !Dropped(bars, c, t) {
      BucketContains(bars[i].openTime, c);
      BetweenIsGood(bars, y, a, b);
      KeptBarIsInY(bars, y, a, b, c, i);
      NotDroppedInY(bars, y, a, b, c, t);
      KeptBucketStarts(y, b, c, t);
      LastOfGroup(bars, a, c, t, i);
      forall s | s % a == 0 && t <= s <= Last(Group(bars, c, t)).openTime ensures HasBar(bars, s) {
        SlotInDirect(bars, y, a, b, c, t, s);
      }
      SlotsMakeRun(bars, a, c, t);
      if t != Bucket(Last(bars), c) {
        NewestIsPast(bars, y, a, b, c, t, i);
        DirectFull(bars, y, a, b, c, t);
      }
    }
  }

  /** Once the first stage succeeds, the direct resample succeeds if and only if the second
      stage does and the first bar it is given lies in the first bar's own coarse bucket or
      starts a coarse bucket; and then the two results are equal. */
  lemma StagedMatchesDirectExactlyWhen(bars: seq<Bar>, a: int, b: int, c: int)
    requires 0 < a < b < c && b % a == 0 && c % b == 0 && Accepts(bars, a, b)
    ensures var y := Kept(bars, b);
            && (Accepts(bars, a, c) <==> Accepts(y, b, c) && SameLead(bars, y, c))
            && (Accepts(bars, a, c) ==> Kept(y, c) == Kept(bars, c))
  {
    hide BucketStart;
    hide Group;
    hide Kept;
    hide SameLead;
    hide BucketOk;
    var y := Kept(bars, b);
    MultipleOfMultiple(a, b, c);
    KeptIsBetween(bars, a, b);
    if Accepts(bars, a, c) {
      ResamplingComposes(bars, a, b, c);
      DirectHasSameLead(bars, y, a, b, c);
    } else if Accepts(y, b, c) && SameLead(bars, y, c) {
      forall i | 0 <= i < |bars| ensures BucketOk(bars, a, c, Bucket(bars[i], c)) {
        DirectBucket(bars, y, a, b, c, i);
      }
      assert false;
    }
  }

  // ---- an input on which the two disagree --------------------------------------------------------

  /** A one-second bar. */
  function Tick(t: int): Bar {
    Bar(t, t + 999, 1.0, 1.0, 1.0, 1.0, 0.0, 0)
  }

  const HOLED: seq<Bar> := [Tick(1_000), Tick(6_000), Tick(7_000)]

  lemma HoledPrefixes()
    ensures Init(HOLED) == [Tick(1_000), Tick(6_000)] && Last(HOLED) == Tick(7_000)
    ensures Init([Tick(1_000), Tick(6_000)]) == [Tick(1_000)] && Init([Tick(1_000)]) == []
  {
  }

  lemma FirstStageAccepts()
    ensures Accepts(HOLED, 1_000, 2_000)
  {
    HoledPrefixes();
    assert Group(HOLED, 2_000, 6_000) == [Tick(6_000), Tick(7_000)];
  }

  lemma DirectRefuses()
    ensures !Accepts(HOLED, 1_000, 4_000)
  {
    HoledPrefixes();
    assert Group(HOLED, 4_000, 4_000) == [Tick(6_000), Tick(7_000)];
    assert !BucketOk(HOLED, 1_000, 4_000, Bucket(HOLED[1], 4_000));
  }

  lemma HoledBuckets()
    ensures Bucket(Tick(1_000), 2_000) == 0
    ensures Bucket(Tick(6_000), 2_000) == 6_000 && Bucket(Tick(7_000), 2_000) == 6_000
  {
    hide BucketStart;
    BucketUnique(1_000, 0, 2_000);
    BucketUnique(6_000, 6_000, 2_000);
    BucketUnique(7_000, 6_000, 2_000);
  }

  lemma FirstStageKeeps()
    ensures var y := Kept(HOLED, 2_000); |y| == 1 && y[0].openTime == 6_000
  {
    hide BucketStart;
    hide Kept;
    hide Group;
    var y := Kept(HOLED, 2_000);
    HoledBuckets();
    KeptIsBetween(HOLED, 1_000, 2_000);
    forall p | 0 <= p < |y| ensures y[p].openTime == 6_000 {
      var j := FineBarSource(HOLED, y, 1_000, 2_000, p);
    }
    assert HasBar(y, Bucket(HOLED[1], 2_000));
    AscendingSameElements(Times(y), [6_000]);
  }

  lemma SecondStageAccepts()
    ensures Accepts(Kept(HOLED, 2_000), 2_000, 4_000)
  {
    hide Kept;
    hide Cells;
    FirstStageKeeps();
  }

  /** The lead condition is needed: a hole between the leading bucket and the next one is
      refused by the direct resample, but the first stage hides it from the second. */
  lemma StagingCanHideAHole()
    ensures var one, two, four := I.Millis(I.Interval(1, I.Second)), I.Millis(I.Interval(2, I.Second)),
                                  I.Millis(I.Interval(4, I.Second));
            Accepts(HOLED, one, two) && !Accepts(HOLED, one, four) && Accepts(Kept(HOLED, two), two, four)
  {
    hide Accepts;
    hide Kept;
    FirstStageAccepts();
    DirectRefuses();
    SecondStageAccepts();
  }
}
