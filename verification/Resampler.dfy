/** The resampling pass itself, proved against the group-by of module `GroupBy`. */
module Resampler {
  import opened Common
  import opened Bars
  import opened GroupBy
  import I = Intervals

  /** How many source bars a whole target bucket holds. */
  function Want(source: int, target: int): int
    requires 0 < source
  {
    target / source
  }

  predicate IsContiguousPrefix(p: Pending, source: int) {
    p.lastOpen == p.bar.openTime + Widths(p.got - 1, source)
  }

  /** Decide a bucket that has been left behind; `None` means it is dropped silently. */
  function Seal(p: Pending, want: int, leadingResolved: bool): Result<Option<Bar>, ResampleError> {
    if p.got == want then Ok(Some(p.bar))
    else if !leadingResolved && !p.openedOnBoundary then Ok(None)
    else Err(IncompleteBucket(p.bar.openTime, p.got, want))
  }

  predicate CellOk(cells: seq<Pending>, k: nat, source: int, want: int)
    requires k < |cells|
  {
    || (k == 0 && !cells[0].openedOnBoundary)
    || if k == |cells| - 1 then IsContiguousPrefix(cells[k], source) else cells[k].got == want
  }

  // ---- which refusal ---------------------------------------------------------------------------

  /** The first `n` bars are aligned and ascending, and every bucket they leave behind is fine. */
  ghost predicate Clean(bars: seq<Bar>, n: nat, source: int, target: int)
    requires 0 < source && 0 < target && n <= |bars|
  {
    && GoodInput(bars[..n], source)
    && forall i :: 0 <= i < n && Bucket(bars[i], target) != Bucket(bars[n - 1], target) ==>
         BucketOk(bars[..n], source, target, Bucket(bars[i], target))
  }

  /** Bar `n` is the first one off its boundary, with nothing wrong before it. */
  ghost predicate BreaksGrid(bars: seq<Bar>, n: nat, source: int, target: int)
    requires 0 < source && 0 < target && n < |bars|
  {
    Clean(bars, n, source, target) && bars[n].openTime % source != 0
  }

  /** Bar `n` is aligned but not after its predecessor, with nothing wrong before it. */
  ghost predicate BreaksOrder(bars: seq<Bar>, n: nat, source: int, target: int)
    requires 0 < source && 0 < target && 0 < n < |bars|
  {
    && Clean(bars, n, source, target) && bars[n].openTime % source == 0
    && bars[n].openTime <= bars[n - 1].openTime
  }

  /** The bucket of bar `n - 1` is over, because bar `n` opens another one or there is no bar
      `n`, and it is not fine; with nothing wrong before it. */
  ghost predicate BreaksBucket(bars: seq<Bar>, n: nat, source: int, target: int)
    requires 0 < source && 0 < target && 0 < n <= |bars|
  {
    && Clean(bars, n, source, target)
    && if n == |bars| then !BucketOk(bars, source, target, Bucket(bars[n - 1], target))
       else && GoodInput(bars[..n + 1], source)
            && Bucket(bars[n], target) != Bucket(bars[n - 1], target)
            && !BucketOk(bars[..n + 1], source, target, Bucket(bars[n - 1], target))
  }

  /** What each refusal means: the first rule broken, reading the widths and then the bars from
      left to right. */
  ghost predicate Explains(e: ResampleError, bars: seq<Bar>, from: string, to: string, source: int, target: int)
    requires 0 < source && 0 < target
  {
    match e
    case NotCoarser(f, t) => f == from && t == to && target <= source
    case NotAMultiple(f, t) => f == from && t == to && source < target && !Aligned(target, source)
    case Misaligned(f, t) =>
      && f == from && source < target && Aligned(target, source)
      && exists n :: 0 <= n < |bars| && BreaksGrid(bars, n, source, target) && t == bars[n].openTime
    case OutOfOrder(t) =>
      && source < target && Aligned(target, source)
      && exists n :: 0 < n < |bars| && BreaksOrder(bars, n, source, target) && t == bars[n].openTime
    case IncompleteBucket(t, got, want) =>
      && source < target && Aligned(target, source) && want == Want(source, target)
      && exists n :: 0 < n <= |bars| && BreaksBucket(bars, n, source, target)
                     && t == Bucket(bars[n - 1], target) && got == |Group(bars[..n], target, t)|
  }

  /** Everything is in order up to `n` bars and no further. */
  ghost predicate StopsAt(bars: seq<Bar>, n: nat, source: int, target: int)
    requires 0 < source && 0 < target && n <= |bars|
  {
    Clean(bars, n, source, target) && (n < |bars| ==> !Clean(bars, n + 1, source, target))
  }

  /** A clean prefix has only clean prefixes. */
  lemma CleanShrinks(bars: seq<Bar>, n: nat, source: int, target: int)
    requires 0 < source && 0 < target && n < |bars| && Clean(bars, n + 1, source, target)
    ensures Clean(bars, n, source, target)
  {
    hide BucketStart;
    hide Group;
    var longer := bars[..n + 1];
    assert longer[..n] == bars[..n];
    forall i | 0 <= i < n && Bucket(bars[i], target) != Bucket(bars[n - 1], target)
      ensures BucketOk(bars[..n], source, target, Bucket(bars[i], target))
    {
      var t := Bucket(bars[i], target);
      assert longer[i].openTime <= longer[n - 1].openTime < longer[n].openTime;
      BucketMonotone(bars[i].openTime, bars[n - 1].openTime, target);
      BucketMonotone(bars[n - 1].openTime, bars[n].openTime, target);
      LeftBehindIsFinal(longer, n, source, target, t);
      assert BucketOk(longer, source, target, t);
      assert longer[0] == bars[..n][0] && Last(longer) == bars[n];
    }
  }

  lemma {:induction false} StopIsUnique(bars: seq<Bar>, m: nat, n: nat, source: int, target: int)
    requires 0 < source && 0 < target && m <= n <= |bars|
    requires StopsAt(bars, m, source, target) && Clean(bars, n, source, target)
    ensures m == n
    decreases n
  {
    hide Clean;
    if m < n {
      CleanShrinks(bars, n - 1, source, target);
      if m < n - 1 {
        StopIsUnique(bars, m, n - 1, source, target);
      }
    }
  }

  lemma BreakStops(bars: seq<Bar>, n: nat, source: int, target: int)
    requires 0 < source && 0 < target && n <= |bars|
    requires (n < |bars| && BreaksGrid(bars, n, source, target))
          || (0 < n < |bars| && BreaksOrder(bars, n, source, target))
          || (0 < n && BreaksBucket(bars, n, source, target))
    ensures StopsAt(bars, n, source, target)
  {
    hide BucketStart;
    hide Group;
    hide BucketOk;
    if n < |bars| {
      var longer := bars[..n + 1];
      assert longer[n] == bars[n] && (0 < n ==> longer[n - 1] == bars[n - 1]);
    }
  }

  /** Two breaks are at the same place, and are the same break. */
  lemma BreaksAgree(bars: seq<Bar>, m: nat, n: nat, source: int, target: int)
    requires 0 < source && 0 < target && m <= |bars| && n <= |bars|
    requires StopsAt(bars, m, source, target) && StopsAt(bars, n, source, target)
    ensures m == n
  {
    hide Clean;
    if m <= n {
      StopIsUnique(bars, m, n, source, target);
    } else {
      StopIsUnique(bars, n, m, source, target);
    }
  }

  /** Where a pass stops. */
  lemma ExplainedStop(e: ResampleError, bars: seq<Bar>, from: string, to: string, source: int, target: int)
    returns (n: nat)
    requires 0 < source < target && Aligned(target, source) && Explains(e, bars, from, to, source, target)
    ensures n <= |bars| && StopsAt(bars, n, source, target)
    ensures e.Misaligned? || e.OutOfOrder? || e.IncompleteBucket?
    ensures e.Misaligned? ==>
              && n < |bars| && BreaksGrid(bars, n, source, target)
              && e == Misaligned(from, bars[n].openTime)
    ensures e.OutOfOrder? ==>
              && 0 < n < |bars| && BreaksOrder(bars, n, source, target)
              && e == OutOfOrder(bars[n].openTime)
    ensures e.IncompleteBucket? ==>
              && 0 < n && BreaksBucket(bars, n, source, target)
              && e == IncompleteBucket(Bucket(bars[n - 1], target),
                                       |Group(bars[..n], target, Bucket(bars[n - 1], target))|,
                                       Want(source, target))
  {
    hide BucketStart;
    hide Group;
    hide BreaksGrid;
    hide BreaksOrder;
    hide BreaksBucket;
    hide StopsAt;
    match e {
      case Misaligned(f, t) =>
        n :| 0 <= n < |bars| && BreaksGrid(bars, n, source, target) && t == bars[n].openTime;
      case OutOfOrder(t) =>
        n :| 0 < n < |bars| && BreaksOrder(bars, n, source, target) && t == bars[n].openTime;
      case IncompleteBucket(t, got, want) =>
        n :| 0 < n <= |bars| && BreaksBucket(bars, n, source, target)
             && t == Bucket(bars[n - 1], target) && got == |Group(bars[..n], target, t)|;
    }
    BreakStops(bars, n, source, target);
  }

  /** The input alone fixes the refusal, however many rules it breaks. */
  lemma RefusalIsUnique(e: ResampleError, f: ResampleError, bars: seq<Bar>,
                        from: string, to: string, source: int, target: int)
    requires 0 < source && 0 < target
    requires Explains(e, bars, from, to, source, target) && Explains(f, bars, from, to, source, target)
    ensures e == f
  {
    hide BucketStart;
    hide Group;
    hide Clean;
    hide BucketOk;
    if source < target && Aligned(target, source) {
      var m := ExplainedStop(e, bars, from, to, source, target);
      var n := ExplainedStop(f, bars, from, to, source, target);
      BreaksAgree(bars, m, n, source, target);
      if n < |bars| {
        BreaksExclude(bars, n, source, target);
      }
    }
  }

  lemma BreaksExclude(bars: seq<Bar>, n: nat, source: int, target: int)
    requires 0 < source && 0 < target && n < |bars|
    ensures BreaksGrid(bars, n, source, target) ==> n == 0 || !BreaksOrder(bars, n, source, target)
    ensures 0 < n && BreaksBucket(bars, n, source, target) ==>
              !BreaksGrid(bars, n, source, target) && !BreaksOrder(bars, n, source, target)
  {
    hide BucketStart;
    hide Clean;
    hide BucketOk;
    var longer := bars[..n + 1];
    assert longer[n] == bars[n] && (0 < n ==> longer[n - 1] == bars[n - 1]);
  }

  // ---- a cell's two counters decide its bucket ---------------------------------------------

  lemma CellDecides(bars: seq<Bar>, source: int, target: int, k: nat)
    requires 0 < source < target && Aligned(target, source)
    requires bars != [] && GoodInput(bars, source) && k < |Cells(bars, target)|
    ensures var cells := Cells(bars, target); var t := cells[k].bar.openTime;
            && (CellOk(cells, k, source, Want(source, target)) <==> BucketOk(bars, source, target, t))
            && (cells[k].got == Want(source, target) ==> cells[k].openedOnBoundary)
            && cells[k].got == |Group(bars, target, t)| > 0
            && (exists i :: 0 <= i < |bars| && Bucket(bars[i], target) == t)
  {
    hide BucketStart;
    hide Group;
    hide Cells;
    hide Widths;
    hide Summarises;
    var cells := Cells(bars, target);
    CellsAreGroups(bars, source, target);
    var t := cells[k].bar.openTime;
    var g := Group(bars, target, t);
    assert CellOf(cells[k], g, target);
    SummaryNonEmpty(cells[k].bar, g, t, target);
    GroupMembers(bars, target, t);
    GroupIsGood(bars, source, target, t);
    BucketContains(g[0].openTime, target);
    CountDecidesFull(g, t, source, target);
    CellSummarises(cells, bars, target, k);
    if k < |cells| - 1 {
      assert t < cells[|cells| - 1].bar.openTime;
    }
  }

  lemma CellsDecide(bars: seq<Bar>, source: int, target: int)
    requires 0 < source < target && Aligned(target, source) && GoodInput(bars, source)
    ensures Accepts(bars, source, target)
       <==> forall k :: 0 <= k < |Cells(bars, target)| ==>
              CellOk(Cells(bars, target), k, source, Want(source, target))
  {
    hide BucketStart;
    hide Group;
    hide Cells;
    hide BucketOk;
    hide CellOk;
    hide CellOf;
    var cells := Cells(bars, target);
    if bars == [] {
      CellsOfNothing(target);
      return;
    }
    CellsAreGroups(bars, source, target);
    forall k | 0 <= k < |cells|
      ensures CellOk(cells, k, source, Want(source, target))
         <==> BucketOk(bars, source, target, cells[k].bar.openTime)
      ensures exists i :: 0 <= i < |bars| && Bucket(bars[i], target) == cells[k].bar.openTime
    {
      CellDecides(bars, source, target, k);
    }
    if forall k :: 0 <= k < |cells| ==> CellOk(cells, k, source, Want(source, target)) {
      forall i | 0 <= i < |bars| ensures BucketOk(bars, source, target, Bucket(bars[i], target)) {
        var k :| 0 <= k < |cells| && cells[k].bar.openTime == Bucket(bars[i], target);
      }
    }
  }

  /** A left-behind bucket is final: later bars cannot change its group. */
  lemma {:induction false} LeftBehindIsFinal(bars: seq<Bar>, n: nat, source: int, target: int, t: int)
    requires 0 < source && 0 < target && 0 < n <= |bars|
    requires GoodInput(bars, source) && t < Bucket(bars[n - 1], target)
    ensures Group(bars, target, t) == Group(bars[..n], target, t)
    ensures t < Bucket(Last(bars), target)
    decreases |bars|
  {
    hide BucketStart;
    BucketMonotone(bars[n - 1].openTime, Last(bars).openTime, target);
    if n == |bars| {
      assert bars[..n] == bars;
    } else {
      GoodInit(bars, source);
      LeftBehindIsFinal(Init(bars), n, source, target, t);
      assert Init(bars)[..n] == bars[..n];
      GroupStep(bars, target, t);
    }
  }

  lemma PrefixViolation(bars: seq<Bar>, n: nat, source: int, target: int, t: int)
    requires 0 < source && 0 < target && 0 < n <= |bars|
    requires t < Bucket(bars[n - 1], target)
    requires !BucketOk(bars[..n], source, target, t)
    requires exists i :: 0 <= i < n && Bucket(bars[i], target) == t
    ensures !Accepts(bars, source, target)
  {
    hide BucketStart;
    hide Group;
    if GoodInput(bars, source) {
      LeftBehindIsFinal(bars, n, source, target, t);
      assert bars[..n][0] == bars[0] && Last(bars[..n]) == bars[n - 1];
      var i :| 0 <= i < n && Bucket(bars[i], target) == t;
      assert !BucketOk(bars, source, target, Bucket(bars[i], target));
    }
  }

  // ---- the pass --------------------------------------------------------------------------------

  lemma SnocPrefix(bars: seq<Bar>, i: nat, target: int)
    requires 0 < target && i < |bars|
    ensures Init(bars[..i + 1]) == bars[..i] && Last(bars[..i + 1]) == bars[i]
    ensures Cells(bars[..i + 1], target) == AddTo(Cells(bars[..i], target), bars[i], target)
  {
    hide BucketStart;
    assert Init(bars[..i + 1]) == bars[..i];
  }

  lemma GoodSnoc(bars: seq<Bar>, i: nat, source: int)
    requires 0 < source && i < |bars| && GoodInput(bars[..i], source)
    requires Aligned(bars[i].openTime, source)
    requires i > 0 ==> bars[i - 1].openTime < bars[i].openTime
    ensures GoodInput(bars[..i + 1], source)
  {
    var p := bars[..i + 1];
    forall j, k | 0 <= j < k < |p| ensures p[j].openTime < p[k].openTime {
      if k == i && j < i - 1 {
        assert bars[..i][j].openTime < bars[..i][i - 1].openTime;
      } else if k < i {
        assert bars[..i][j].openTime < bars[..i][k].openTime;
      }
    }
    forall j | 0 <= j < |p| ensures p[j].openTime % source == 0 {
      if j < i {
        assert bars[..i][j].openTime % source == 0;
      }
    }
  }

  /** Sealing the bucket left behind: kept in full, dropped when leading, or a violation. */
  lemma SealDecides(bars: seq<Bar>, i: nat, source: int, target: int, done: seq<Pending>, p: Pending,
                    from: string, to: string)
    requires 0 < source < target && Aligned(target, source)
    requires 0 < i < |bars| && GoodInput(bars[..i + 1], source) && Clean(bars, i, source, target)
    requires Cells(bars[..i], target) == done + [p]
    requires p.bar.openTime != Bucket(bars[i], target)
    ensures p.got == Want(source, target) ==> p.openedOnBoundary
    ensures p.got != Want(source, target) && (done != [] || p.openedOnBoundary) ==>
              && Explains(IncompleteBucket(p.bar.openTime, p.got, Want(source, target)), bars, from, to, source, target)
              && !Accepts(bars, source, target)
  {
    hide BucketStart;
    hide Group;
    hide Cells;
    hide BucketOk;
    hide Clean;
    var n := i + 1;
    var cells := Cells(bars[..n], target);
    SnocPrefix(bars, i, target);
    assert cells == done + [p] + [Start(bars[i], target)];
    var k := |done|;
    assert cells[k] == p;
    CellDecides(bars[..n], source, target, k);
    CellsAreGroups(bars[..n], source, target);
    assert cells[k].bar.openTime < cells[k + 1].bar.openTime;
    if p.got != Want(source, target) && (done != [] || p.openedOnBoundary) {
      assert !CellOk(cells, k, source, Want(source, target));
      var j :| 0 <= j < n && Bucket(bars[..n][j], target) == p.bar.openTime;
      assert Bucket(bars[j], target) == p.bar.openTime;
      PrefixViolation(bars, n, source, target, p.bar.openTime);
      PendingIsLast(bars, i, source, target, done, p);
      assert BreaksBucket(bars, i, source, target);
    }
  }

  /** The bucket under construction is that of the newest bar, and counts its group. */
  lemma PendingIsLast(bars: seq<Bar>, i: nat, source: int, target: int, done: seq<Pending>, p: Pending)
    requires 0 < source < target && Aligned(target, source)
    requires 0 < i <= |bars| && GoodInput(bars[..i], source)
    requires Cells(bars[..i], target) == done + [p]
    ensures p.bar.openTime == Bucket(bars[i - 1], target)
    ensures p.got == |Group(bars[..i], target, p.bar.openTime)|
  {
    hide BucketStart;
    hide Group;
    hide BucketOk;
    hide Cells;
    assert Cells(bars[..i], target)[|done|] == p;
    CellDecides(bars[..i], source, target, |done|);
    SnocPrefix(bars, i - 1, target);
    assert bars[..i] == bars[..i - 1 + 1];
    LastCell(Cells(bars[..i - 1], target), bars[i - 1], target);
  }

  lemma LastCell(cells: seq<Pending>, b: Bar, target: int)
    requires 0 < target
    ensures var r := AddTo(cells, b, target); r != [] && Last(r).bar.openTime == Bucket(b, target)
  {
    hide BucketStart;
  }

  method Resample(bars: seq<Bar>, source: I.Interval, target: I.Interval)
    returns (r: Result<seq<Bar>, ResampleError>)
    requires 0 < I.Millis(source) && 0 < I.Millis(target)
    ensures r.Ok? <==> Accepts(bars, I.Millis(source), I.Millis(target))
    ensures r.Ok? ==> r.value == Kept(bars, I.Millis(target))
    ensures r.Ok? ==> IsGroupBy(r.value, bars, I.Millis(target))
    ensures r.Err? ==>
              Explains(r.error, bars, I.Print(source), I.Print(target), I.Millis(source), I.Millis(target))
  {
    var sourceMs, targetMs := I.Millis(source), I.Millis(target);
    if targetMs <= sourceMs {
      return Err(NotCoarser(I.Print(source), I.Print(target)));
    }
    if !Aligned(targetMs, sourceMs) {
      return Err(NotAMultiple(I.Print(source), I.Print(target)));
    }
    r := ResamplePass(bars, I.Print(source), I.Print(target), sourceMs, targetMs, Want(sourceMs, targetMs));
  }

  ghost predicate AllSealed(done: seq<Pending>, want: int) {
    forall k :: 0 <= k < |done| ==> (k == 0 && !done[0].openedOnBoundary) || done[k].got == want
  }

  lemma SealedSnoc(done: seq<Pending>, p: Pending, want: int)
    requires AllSealed(done, want)
    requires p.got == want || (done == [] && !p.openedOnBoundary)
    ensures AllSealed(done + [p], want)
  {
  }

  lemma KeepSnoc(done: seq<Pending>, p: Pending)
    ensures BarsOf(DropLeading(done + [p])) ==
            if done == [] && !p.openedOnBoundary then []
            else BarsOf(DropLeading(done)) + [p.bar]
  {
    if done != [] {
      assert DropLeading(done + [p]) == DropLeading(done) + [p];
    }
  }

  /** The loop's local variables. */
  datatype Locals = Locals(
    out: seq<Bar>, pending: Option<Pending>, previousOpen: Option<int>, leadingResolved: bool)

  /** After `i` bars: the buckets left behind are `done`, all sealed, and `v` reflects them. */
  ghost predicate Scanned(bars: seq<Bar>, i: nat, source: int, target: int, v: Locals, done: seq<Pending>)
    requires 0 < source && 0 < target
  {
    && i <= |bars| && GoodInput(bars[..i], source)
    && (v.pending.None? <==> i == 0)
    && (i == 0 ==> done == [])
    && Cells(bars[..i], target) == (if i == 0 then [] else done + [v.pending.value])
    && v.previousOpen == (if i == 0 then None else Some(bars[i - 1].openTime))
    && v.leadingResolved == (done != [])
    && AllSealed(done, Want(source, target))
    && v.out == BarsOf(DropLeading(done))
  }

  lemma ScanNothing(bars: seq<Bar>, source: int, target: int)
    requires 0 < source && 0 < target
    ensures Scanned(bars, 0, source, target, Locals([], None, None, false), [])
  {
  }

  /** Sealed cells are clean buckets. */
  lemma ScannedIsClean(bars: seq<Bar>, i: nat, source: int, target: int, v: Locals, done: seq<Pending>)
    requires 0 < source < target && Aligned(target, source) && Scanned(bars, i, source, target, v, done)
    ensures i <= |bars| && Clean(bars, i, source, target)
  {
    hide BucketStart;
    hide Group;
    hide BucketOk;
    hide Cells;
    hide CellOf;
    if i > 0 {
      var p, cells := bars[..i], Cells(bars[..i], target);
      CellsAreGroups(p, source, target);
      PendingIsLast(bars, i, source, target, done, v.pending.value);
      forall j | 0 <= j < i && Bucket(bars[j], target) != Bucket(bars[i - 1], target)
        ensures BucketOk(p, source, target, Bucket(bars[j], target))
      {
        assert p[j] == bars[j];
        var k :| 0 <= k < |cells| && cells[k].bar.openTime == Bucket(p[j], target);
        CellDecides(p, source, target, k);
        assert k < |done| && cells[k] == done[k];
      }
    }
  }

  lemma ScanRefuses(bars: seq<Bar>, i: nat, source: int, target: int, v: Locals, done: seq<Pending>,
                    from: string, to: string)
    requires 0 < source < target && Aligned(target, source)
    requires Scanned(bars, i, source, target, v, done) && i < |bars|
    ensures !Aligned(bars[i].openTime, source) ==>
              && !Accepts(bars, source, target)
              && Explains(Misaligned(from, bars[i].openTime), bars, from, to, source, target)
    ensures Aligned(bars[i].openTime, source)
            && v.previousOpen.Some? && bars[i].openTime <= v.previousOpen.value ==>
              && !Accepts(bars, source, target)
              && Explains(OutOfOrder(bars[i].openTime), bars, from, to, source, target)
  {
    hide BucketStart;
    hide Cells;
    hide Group;
    hide Clean;
    ScannedIsClean(bars, i, source, target, v, done);
    if !Aligned(bars[i].openTime, source) {
      assert BreaksGrid(bars, i, source, target);
    } else if v.previousOpen.Some? && bars[i].openTime <= v.previousOpen.value {
      assert BreaksOrder(bars, i, source, target);
    }
  }

  predicate InOrder(bars: seq<Bar>, i: nat, source: int, v: Locals)
    requires 0 < source && i < |bars|
  {
    && Aligned(bars[i].openTime, source)
    && (v.previousOpen.Some? ==> v.previousOpen.value < bars[i].openTime)
  }

  lemma ScanFirst(bars: seq<Bar>, source: int, target: int, v: Locals)
    requires 0 < source && 0 < target && Scanned(bars, 0, source, target, v, [])
    requires 0 < |bars| && InOrder(bars, 0, source, v)
    ensures Scanned(bars, 1, source, target,
                    v.(pending := Some(Start(bars[0], target)), previousOpen := Some(bars[0].openTime)), [])
  {
    hide BucketStart;
    hide Cells;
    SnocPrefix(bars, 0, target);
    assert bars[..0] == [];
  }

  lemma ScanExtend(bars: seq<Bar>, i: nat, source: int, target: int, v: Locals, done: seq<Pending>)
    requires 0 < source && 0 < target && Scanned(bars, i, source, target, v, done)
    requires 0 < i < |bars| && InOrder(bars, i, source, v)
    requires v.pending.value.bar.openTime == Bucket(bars[i], target)
    ensures Scanned(bars, i + 1, source, target,
                    v.(pending := Some(Extend(v.pending.value, bars[i])),
                       previousOpen := Some(bars[i].openTime)), done)
  {
    hide BucketStart;
    hide Cells;
    SnocPrefix(bars, i, target);
    GoodSnoc(bars, i, source);
    assert Init(done + [v.pending.value]) == done;
  }

  lemma ScanSeal(bars: seq<Bar>, i: nat, source: int, target: int, v: Locals, done: seq<Pending>,
                 from: string, to: string)
    requires 0 < source < target && Aligned(target, source) && Scanned(bars, i, source, target, v, done)
    requires 0 < i < |bars| && InOrder(bars, i, source, v)
    requires v.pending.value.bar.openTime != Bucket(bars[i], target)
    ensures match Seal(v.pending.value, Want(source, target), v.leadingResolved)
            case Err(e) => Explains(e, bars, from, to, source, target) && !Accepts(bars, source, target)
            case Ok(kept) =>
              Scanned(bars, i + 1, source, target,
                      Locals(if kept.Some? then v.out + [kept.value] else v.out,
                             Some(Start(bars[i], target)), Some(bars[i].openTime), true),
                      done + [v.pending.value])
  {
    hide BucketStart;
    hide Cells;
    hide GoodInput;
    hide Accepts;
    hide Explains;
    hide AllSealed;
    hide Want;
    hide Clean;
    var p := v.pending.value;
    SnocPrefix(bars, i, target);
    GoodSnoc(bars, i, source);
    ScannedIsClean(bars, i, source, target, v, done);
    SealDecides(bars, i, source, target, done, p, from, to);
    KeepSnoc(done, p);
    if Seal(p, Want(source, target), v.leadingResolved).Ok? {
      SealedSnoc(done, p, Want(source, target));
    }
  }

  method ResamplePass(bars: seq<Bar>, from: string, to: string, source: int, target: int, want: int)
    returns (r: Result<seq<Bar>, ResampleError>)
    requires 0 < source < target && Aligned(target, source) && want == Want(source, target)
    ensures r.Ok? <==> Accepts(bars, source, target)
    ensures r.Ok? ==> r.value == Kept(bars, target)
    ensures r.Ok? ==> IsGroupBy(r.value, bars, target)
    ensures r.Err? ==> Explains(r.error, bars, from, to, source, target)
  {
    hide *;
    var out: seq<Bar> := [];
    var pending: Option<Pending> := None;
    var previousOpen: Option<int> := None;
    var leadingResolved := false;
    ghost var done: seq<Pending> := [];
    ScanNothing(bars, source, target);
    var i := 0;
    while i < |bars|
      invariant 0 <= i <= |bars|
      invariant Scanned(bars, i, source, target, Locals(out, pending, previousOpen, leadingResolved), done)
      invariant pending.None? <==> i == 0
      invariant i == 0 ==> done == []
    {
      var bar := bars[i];
      ghost var v := Locals(out, pending, previousOpen, leadingResolved);
      ScanRefuses(bars, i, source, target, v, done, from, to);
      if !Aligned(bar.openTime, source) {
        return Err(Misaligned(from, bar.openTime));
      }
      if previousOpen.Some? && bar.openTime <= previousOpen.value {
        return Err(OutOfOrder(bar.openTime));
      }
      assert InOrder(bars, i, source, v) by { OrderHolds(bars, i, source, v); }
      previousOpen := Some(bar.openTime);
      if pending.None? {
        ScanFirst(bars, source, target, v);
        pending := Some(Start(bar, target));
      } else if pending.value.bar.openTime == Bucket(bar, target) {
        ScanExtend(bars, i, source, target, v, done);
        ExtendIs(pending.value, bar);
        var p := pending.value;
        pending := Some(Pending(
          p.bar.(close := bar.close,
                 high := MaxReal(p.bar.high, bar.high),
                 low := MinReal(p.bar.low, bar.low),
                 volume := p.bar.volume + bar.volume,
                 trades := SaturatingAdd(p.bar.trades, bar.trades)),
          p.got + 1, p.openedOnBoundary, bar.openTime));
      } else {
        ScanSeal(bars, i, source, target, v, done, from, to);
        var sealed := Seal(pending.value, want, leadingResolved);
        if sealed.Err? {
          return Err(sealed.error);
        }
        if sealed.value.Some? {
          out := out + [sealed.value.value];
        }
        leadingResolved := true;
        done := done + [pending.value];
        pending := Some(Start(bar, target));
      }
      i := i + 1;
    }
    if pending.None? {
      ScannedNothing(bars, source, target, Locals(out, pending, previousOpen, leadingResolved));
    } else {
      var last := pending.value;
      Finish(bars, source, target, Locals(out, pending, previousOpen, leadingResolved), done, from, to);
      if leadingResolved || last.openedOnBoundary {
        if !IsContiguousPrefix(last, source) {
          return Err(IncompleteBucket(last.bar.openTime, last.got, want));
        }
        out := out + [last.bar];
      }
    }
    r := Ok(out);
  }

  lemma OrderHolds(bars: seq<Bar>, i: nat, source: int, v: Locals)
    requires 0 < source && i < |bars| && Aligned(bars[i].openTime, source)
    requires !(v.previousOpen.Some? && bars[i].openTime <= v.previousOpen.value)
    ensures InOrder(bars, i, source, v)
  {
  }

  lemma ExtendIs(p: Pending, b: Bar)
    ensures Extend(p, b) == Pending(
      p.bar.(close := b.close,
             high := MaxReal(p.bar.high, b.high),
             low := MinReal(p.bar.low, b.low),
             volume := p.bar.volume + b.volume,
             trades := SaturatingAdd(p.bar.trades, b.trades)),
      p.got + 1, p.openedOnBoundary, b.openTime)
  {
  }

  lemma ScannedNothing(bars: seq<Bar>, source: int, target: int, v: Locals)
    requires 0 < source < target && Aligned(target, source) && bars == []
    requires Scanned(bars, 0, source, target, v, [])
    ensures Accepts(bars, source, target) && Kept(bars, target) == v.out
    ensures IsGroupBy(v.out, bars, target)
  {
  }

  /** With every bucket left behind sealed, the trailing one decides the outcome. */
  lemma Finish(bars: seq<Bar>, source: int, target: int, v: Locals, done: seq<Pending>, from: string, to: string)
    requires 0 < source < target && Aligned(target, source) && bars != []
    requires Scanned(bars, |bars|, source, target, v, done)
    ensures var last := v.pending.value; var dropped := !v.leadingResolved && !last.openedOnBoundary;
            && (Accepts(bars, source, target) <==> dropped || IsContiguousPrefix(last, source))
            && Kept(bars, target) == (if dropped then v.out else v.out + [last.bar])
            && IsGroupBy(Kept(bars, target), bars, target)
            && (!Accepts(bars, source, target) ==>
                  Explains(IncompleteBucket(last.bar.openTime, last.got, Want(source, target)), bars, from, to, source, target))
  {
    hide BucketStart;
    hide Group;
    hide Cells;
    hide Widths;
    hide Accepts;
    hide Explains;
    hide IsGroupBy;
    hide Clean;
    hide BucketOk;
    assert bars[..|bars|] == bars;
    var cells, n, last := Cells(bars, target), |done|, v.pending.value;
    KeepSnoc(done, last);
    KeptIsGroupBy(bars, source, target);
    CellDecides(bars, source, target, n);
    CellsDecide(bars, source, target);
    assert forall k :: 0 <= k < n ==> cells[k] == done[k];
    assert cells[n] == last;
    assert done == [] ==> v.out == [];
    assert (forall k :: 0 <= k < |cells| ==> CellOk(cells, k, source, Want(source, target)))
      <==> CellOk(cells, n, source, Want(source, target));
    if !CellOk(cells, n, source, Want(source, target)) {
      TrailingExplained(bars, source, target, v, done, from, to);
    }
  }

  lemma TrailingExplained(bars: seq<Bar>, source: int, target: int, v: Locals, done: seq<Pending>, from: string, to: string)
    requires 0 < source < target && Aligned(target, source) && bars != []
    requires Scanned(bars, |bars|, source, target, v, done)
    requires !BucketOk(bars, source, target, v.pending.value.bar.openTime)
    ensures var last := v.pending.value;
            Explains(IncompleteBucket(last.bar.openTime, last.got, Want(source, target)), bars, from, to, source, target)
  {
    hide BucketStart;
    hide Group;
    hide Cells;
    hide Clean;
    hide BucketOk;
    var n := |bars|;
    assert bars[..n] == bars;
    ScannedIsClean(bars, n, source, target, v, done);
    PendingIsLast(bars, n, source, target, done, v.pending.value);
    assert BreaksBucket(bars, n, source, target);
  }
}
