/** Chart intervals: parsing, canonical form, printing and resolution against the venue menu. */
module Intervals {
  import opened Common
  import Decimal

  datatype TimeUnit = Second | Minute | Hour | Day | Week | Month

  const SECOND_MS: int := 1_000
  const MONTH_MS: int := 2_592_000_000
  const MAX_INTERVAL_MS: int := MONTH_MS
  const VENUE_HISTORY_INTERVALS: nat := 5_000

  function UnitMillis(u: TimeUnit): int {
    match u
    case Second => 1_000
    case Minute => 60_000
    case Hour => 3_600_000
    case Day => 86_400_000
    case Week => 604_800_000
    case Month => 2_592_000_000
  }

  function Suffix(u: TimeUnit): char {
    match u
    case Second => 's'
    case Minute => 'm'
    case Hour => 'h'
    case Day => 'd'
    case Week => 'w'
    case Month => 'M'
  }

  function FromSuffix(c: char): Option<TimeUnit> {
    if c == 's' then Some(Second)
    else if c == 'm' then Some(Minute)
    else if c == 'h' then Some(Hour)
    else if c == 'd' then Some(Day)
    else if c == 'w' then Some(Week)
    else if c == 'M' then Some(Month)
    else None
  }

  datatype Interval = Interval(count: nat, unit: TimeUnit)

  function Millis(i: Interval): int {
    i.count * UnitMillis(i.unit)
  }

  /** In range, and spelled in the coarsest unit that divides the width exactly. */
  ghost predicate Canonical(i: Interval) {
    && 0 < Millis(i) <= MAX_INTERVAL_MS
    && forall u :: UnitMillis(i.unit) < UnitMillis(u) ==> Millis(i) % UnitMillis(u) != 0
  }

  datatype IntervalError =
    | Empty
    | MissingCount(input: string)
    | NotAnInteger(digits: string)
    | UnknownUnit(unit: char)
    | Zero
    | TooLarge(input: string)

  function Parse(input: string): Result<Interval, IntervalError> {
    if input == [] then Err(Empty)
    else
      var suffix := input[|input| - 1];
      var digits := input[..|input| - 1];
      match FromSuffix(suffix)
      case None => Err(UnknownUnit(suffix))
      case Some(unit) =>
        if digits == [] then Err(MissingCount(input))
        else if !Decimal.AllDigits(digits) then Err(NotAnInteger(digits))
        else
          var count := Decimal.Value(digits);
          if count > U32_MAX then Err(TooLarge(input))
          else if count == 0 then Err(Zero)
          else if count * UnitMillis(unit) > MAX_INTERVAL_MS then Err(TooLarge(input))
          else Ok(CanonicalOf(count * UnitMillis(unit)))
  }

  function CanonicalOf(millis: int): Interval
    requires 0 <= millis
  {
    if millis % UnitMillis(Month) == 0 then Interval(millis / UnitMillis(Month), Month)
    else if millis % UnitMillis(Week) == 0 then Interval(millis / UnitMillis(Week), Week)
    else if millis % UnitMillis(Day) == 0 then Interval(millis / UnitMillis(Day), Day)
    else if millis % UnitMillis(Hour) == 0 then Interval(millis / UnitMillis(Hour), Hour)
    else if millis % UnitMillis(Minute) == 0 then Interval(millis / UnitMillis(Minute), Minute)
    else Interval(millis / SECOND_MS, Second)
  }

  /** The canonical wire string. */
  function Print(i: Interval): string {
    Decimal.Print(i.count) + [Suffix(i.unit)]
  }

  /** What an interval string spells, before canonicalisation. */
  predicate Spells(input: string, count: nat, unit: TimeUnit) {
    && |input| >= 2
    && FromSuffix(input[|input| - 1]) == Some(unit)
    && Decimal.AllDigits(input[..|input| - 1])
    && Decimal.Value(input[..|input| - 1]) == count
  }

  // ---- parsing and printing ------------------------------------------------------------

  lemma UnitDividesItsMultiples(count: nat, unit: TimeUnit)
    ensures (count * UnitMillis(unit)) % SECOND_MS == 0
  {
    var seconds := match unit
      case Second => 1
      case Minute => 60
      case Hour => 3_600
      case Day => 86_400
      case Week => 604_800
      case Month => 2_592_000;
    assert UnitMillis(unit) == seconds * SECOND_MS;
    assert count * (seconds * SECOND_MS) == (count * seconds) * SECOND_MS;
    ProductIsMultiple(count * seconds, SECOND_MS);
  }

  lemma CanonicalOfIsCanonical(millis: int)
    requires 0 < millis <= MAX_INTERVAL_MS && millis % SECOND_MS == 0
    ensures Millis(CanonicalOf(millis)) == millis && Canonical(CanonicalOf(millis))
  {
    var i := CanonicalOf(millis);
    forall u | UnitMillis(i.unit) < UnitMillis(u)
      ensures millis % UnitMillis(u) != 0
    {
      match u case Second => case Minute => case Hour => case Day => case Week => case Month =>
    }
  }

  /** Parsing accepts exactly the strings that spell a width in `(0, 1M]`, keeps that width,
      and returns it in canonical form; of the others, a zero is told from an excess. */
  lemma ParseExact(input: string, count: nat, unit: TimeUnit)
    requires Spells(input, count, unit)
    ensures Parse(input).Ok? <==> 0 < count * UnitMillis(unit) <= MAX_INTERVAL_MS
    ensures Parse(input).Ok? ==>
              && Millis(Parse(input).value) == count * UnitMillis(unit)
              && Canonical(Parse(input).value)
    ensures Parse(input).Err? ==> Parse(input).error == if count == 0 then Zero else TooLarge(input)
  {
    if 0 < count * UnitMillis(unit) <= MAX_INTERVAL_MS {
      UnitDividesItsMultiples(count, unit);
      CanonicalOfIsCanonical(count * UnitMillis(unit));
      match unit case Second => case Minute => case Hour => case Day => case Week => case Month =>
    } else {
      match unit case Second => case Minute => case Hour => case Day => case Week => case Month =>
    }
  }

  /** Every other string is refused, for the first of these reasons that applies: nothing there,
      no such unit, no count, a count that is not a number. */
  lemma ParseRefusesTheRest(input: string)
    requires forall count, unit :: !Spells(input, count, unit)
    ensures Parse(input).Err?
    ensures Parse(input).error == Empty <==> input == []
    ensures input != [] ==>
              var c := input[|input| - 1];
              && (Parse(input).error.UnknownUnit? <==> FromSuffix(c).None?)
              && (Parse(input).error.UnknownUnit? ==> Parse(input).error.unit == c)
              && (FromSuffix(c).Some? ==>
                    Parse(input).error ==
                      if |input| == 1 then MissingCount(input) else NotAnInteger(input[..|input| - 1]))
  {
    if |input| > 1 && FromSuffix(input[|input| - 1]).Some? && Decimal.AllDigits(input[..|input| - 1]) {
      assert Spells(input, Decimal.Value(input[..|input| - 1]), FromSuffix(input[|input| - 1]).value);
    }
  }

  /** The letters and what they stand for: case matters, `m` is a minute and `M` thirty days. */
  lemma SpelledWidth(digits: string, c: char)
    requires digits != [] && Decimal.AllDigits(digits)
    ensures var r := Parse(digits + [c]);
            r.Err? && r.error.UnknownUnit? <==> c !in ['s', 'm', 'h', 'd', 'w', 'M']
    ensures var r := Parse(digits + [c]);
            r.Ok? ==>
              var unit := if c == 's' then 1_000 else if c == 'm' then 60_000 else if c == 'h' then 3_600_000
                          else if c == 'd' then 86_400_000 else if c == 'w' then 604_800_000
                          else 2_592_000_000;
              Millis(r.value) == Decimal.Value(digits) * unit
  {
    var input := digits + [c];
    assert input[..|input| - 1] == digits;
    if FromSuffix(c).Some? {
      ParseExact(input, Decimal.Value(digits), FromSuffix(c).value);
    }
  }

  lemma CanonicalUnique(i: Interval, j: Interval)
    requires Canonical(i) && Canonical(j) && Millis(i) == Millis(j)
    ensures i == j
  {
    WholeUnits(i);
    WholeUnits(j);
    if UnitMillis(i.unit) < UnitMillis(j.unit) {
      assert false;
    } else if UnitMillis(j.unit) < UnitMillis(i.unit) {
      assert false;
    }
    assert i.unit == j.unit;
    match i.unit case Second => case Minute => case Hour => case Day => case Week => case Month =>
  }

  lemma WholeUnits(i: Interval)
    ensures Millis(i) % UnitMillis(i.unit) == 0
  {
    match i.unit case Second => case Minute => case Hour => case Day => case Week => case Month =>
  }

  /** Equality of canonical intervals is equality of widths, so ordering by width agrees with it. */
  lemma EqualExactlyWhenSameWidth(i: Interval, j: Interval)
    requires Canonical(i) && Canonical(j)
    ensures i == j <==> Millis(i) == Millis(j)
  {
    if Millis(i) == Millis(j) {
      CanonicalUnique(i, j);
    }
  }

  /** Printing then parsing is the identity on canonical intervals. */
  lemma PrintParseRoundTrip(i: Interval)
    requires Canonical(i)
    ensures Parse(Print(i)) == Ok(i)
  {
    var s := Print(i);
    var digits := Decimal.Print(i.count);
    assert s[..|s| - 1] == digits && s[|s| - 1] == Suffix(i.unit);
    Decimal.ValuePrint(i.count);
    assert Spells(s, i.count, i.unit);
    ParseExact(s, i.count, i.unit);
    CanonicalUnique(Parse(s).value, i);
  }

  // ---- resolution ----------------------------------------------------------------------

  datatype Horizon = Full | Rolling(intervals: nat)
  datatype LocalReason = SubMinute | NotAMultipleOfAnyNative
  datatype Resolution =
    | Native
    | Resampled(from: Interval, sourceHistory: Horizon)
    | Local(reason: LocalReason)

  /** The venue's fixed menu, ascending by width. */
  const NATIVE_INTERVALS: seq<Interval> := [
    Interval(1, Minute), Interval(3, Minute), Interval(5, Minute), Interval(15, Minute),
    Interval(30, Minute), Interval(1, Hour), Interval(2, Hour), Interval(4, Hour),
    Interval(8, Hour), Interval(12, Hour), Interval(1, Day), Interval(3, Day),
    Interval(1, Week), Interval(1, Month)]

  function VenueHistory(i: Interval): Horizon {
    if Millis(i) >= UnitMillis(Day) then Full else Rolling(VENUE_HISTORY_INTERVALS)
  }

  predicate Divides(n: Interval, millis: int) {
    0 < Millis(n) < millis && millis % Millis(n) == 0
  }

  /** Walks the first `k` entries of the menu backwards for a strictly narrower divisor. */
  function LargestDivisor(menu: seq<Interval>, millis: int): Option<Interval> {
    if menu == [] then None
    else if Divides(menu[|menu| - 1], millis) then Some(menu[|menu| - 1])
    else LargestDivisor(menu[..|menu| - 1], millis)
  }

  function Resolve(i: Interval): Resolution {
    if i in NATIVE_INTERVALS then Native
    else if Millis(i) < UnitMillis(Minute) then Local(SubMinute)
    else match LargestDivisor(NATIVE_INTERVALS, Millis(i))
      case Some(n) => Resampled(n, VenueHistory(n))
      case None => Local(NotAMultipleOfAnyNative)
  }

  ghost predicate Ascending(menu: seq<Interval>) {
    forall p, q :: 0 <= p < q < |menu| ==> Millis(menu[p]) < Millis(menu[q])
  }

  lemma {:induction false} LargestDivisorIsLargest(menu: seq<Interval>, millis: int)
    requires Ascending(menu)
    ensures match LargestDivisor(menu, millis)
            case Some(n) => n in menu && Divides(n, millis)
                            && forall m :: m in menu && Divides(m, millis) ==> Millis(m) <= Millis(n)
            case None => forall m :: m in menu ==> !Divides(m, millis)
  {
    if menu != [] {
      var rest := menu[..|menu| - 1];
      LargestDivisorIsLargest(rest, millis);
      assert menu == rest + [menu[|menu| - 1]];
    }
  }

  lemma {:induction false} NeighboursAscend(menu: seq<Interval>)
    requires forall k :: 1 <= k < |menu| ==> Millis(menu[k - 1]) < Millis(menu[k])
    ensures Ascending(menu)
  {
    hide Millis;
    if |menu| > 1 {
      var front := menu[..|menu| - 1];
      NeighboursAscend(front);
      forall p, q | 0 <= p < q < |menu| ensures Millis(menu[p]) < Millis(menu[q]) {
        assert p < |front| - 1 ==> Millis(front[p]) < Millis(front[|front| - 1]);
        assert q < |front| ==> Millis(front[p]) < Millis(front[q]);
      }
    }
  }

  lemma MenuIsAscending()
    ensures Ascending(NATIVE_INTERVALS)
  {
    hide Ascending;
    NeighboursAscend(NATIVE_INTERVALS);
  }

  /** The menu: 1, 3, 5, 15 and 30 minutes, 1, 2, 4, 8 and 12 hours, 1 and 3 days, a week, a month. */
  lemma MenuWidths()
    ensures |NATIVE_INTERVALS| == 14
    ensures forall k :: 0 <= k < 14 ==>
              Millis(NATIVE_INTERVALS[k]) == 60_000 *
                [1, 3, 5, 15, 30, 60, 120, 240, 480, 720, 1_440, 4_320, 10_080, 43_200][k]
  {
  }

  /** `resolve` picks the largest strictly narrower native divisor for every non-native
      whole-minute width, is local for every other non-native width, and its source always
      passes `resample`'s two width checks. The source's history is full exactly from one day
      up, and the last 5,000 bars below. */
  lemma ResolveExact(i: Interval)
    requires Canonical(i)
    ensures Resolve(i) == Native <==> i in NATIVE_INTERVALS
    ensures Resolve(i).Resampled? <==> i !in NATIVE_INTERVALS && Millis(i) % UnitMillis(Minute) == 0
    ensures Resolve(i).Resampled? ==>
              var from := Resolve(i).from;
              && from in NATIVE_INTERVALS
              && Millis(from) < Millis(i) && Millis(i) % Millis(from) == 0
              && Resolve(i).sourceHistory == (if 86_400_000 <= Millis(from) then Full else Rolling(5_000))
              && forall n :: n in NATIVE_INTERVALS && Divides(n, Millis(i)) ==> Millis(n) <= Millis(from)
    ensures Resolve(i).Local? ==>
              (Resolve(i).reason == SubMinute <==> Millis(i) < UnitMillis(Minute))
  {
    MenuIsAscending();
    LargestDivisorIsLargest(NATIVE_INTERVALS, Millis(i));
    if i !in NATIVE_INTERVALS && Millis(i) % UnitMillis(Minute) == 0 {
      NativeMinuteDivides(i);
    }
    if Resolve(i).Resampled? {
      MenuIsWholeMinutes(Resolve(i).from, Millis(i));
    }
  }

  lemma NativeMinuteDivides(i: Interval)
    requires Canonical(i) && i !in NATIVE_INTERVALS && Millis(i) % UnitMillis(Minute) == 0
    ensures Divides(Interval(1, Minute), Millis(i))
  {
    var minute := NATIVE_INTERVALS[0];
    if Millis(i) == UnitMillis(Minute) {
      assert Canonical(minute) by {
        forall u | UnitMillis(Minute) < UnitMillis(u)
          ensures 60_000 % UnitMillis(u) != 0
        {
          match u case Second => case Minute => case Hour => case Day => case Week => case Month =>
        }
      }
      CanonicalUnique(i, minute);
    }
  }

  lemma MenuIsWholeMinutes(n: Interval, millis: int)
    requires n in NATIVE_INTERVALS && Divides(n, millis)
    ensures millis % UnitMillis(Minute) == 0
  {
    assert Millis(n) % 60_000 == 0;
    MultipleOfMultiple(60_000, Millis(n), millis);
  }
}
