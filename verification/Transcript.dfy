/** Turns recognised speech segments, timed in seconds, into transcript segments in whole milliseconds. */
module Transcript {
  import opened BitStrings
  import opened Doubles

  /** What the recogniser returns for a time: an int, a finite float, one that is not finite, or something else. */
  datatype Time = Whole(n: int) | Double(x: real) | NotFinite | NotNumber

  datatype Text = Str(chars: string) | NotString

  datatype Item = Item(start: Time, end: Time, text: Text)

  datatype Segment = Segment(id: nat, startMs: int, endMs: int, text: string)

  /** Overflow is the error that a number too large for a float raises; it is not one of the two value errors. */
  datatype Result = Ok(segments: seq<Segment>) | InvalidTranscript | EmptyTranscript | Overflow

  /** The characters that strip() removes. */
  predicate IsSpace(c: char) {
    || '\U{9}' <= c <= '\U{D}' || '\U{1C}' <= c <= ' ' || c == '\U{85}' || c == '\U{A0}' || c == '\U{1680}'
    || '\U{2000}' <= c <= '\U{200A}' || c == '\U{2028}' || c == '\U{2029}' || c == '\U{202F}' || c == '\U{205F}'
    || c == '\U{3000}'
  }

  predicate Blank(s: string) {
    forall i :: 0 <= i < |s| ==> IsSpace(s[i])
  }

  // ----- what is accepted

  /** The exact number of milliseconds. */
  function Exact(t: Time): real {
    match t
    case Whole(n) => (n * 1000) as real
    case Double(x) => x * 1000.0
    case _ => 0.0
  }

  /** The product as it is computed: exact for an int, rounded for a float. */
  function Product(round: real -> real, t: Time): real {
    if t.Double? then round(t.x * 1000.0) else Exact(t)
  }

  /** math.isfinite raises for an int that no float can hold, math.floor and math.ceil for a float product that is infinite. */
  predicate IsFiniteRaises(round: real -> real, t: Time) {
    t.Whole? && IsInfinite(round(t.n as real))
  }

  predicate ProductRaises(round: real -> real, t: Time) {
    t.Double? && IsInfinite(Product(round, t))
  }

  predicate IsNumber(t: Time) {
    !t.NotNumber?
  }

  /** The times of an item cannot be put in milliseconds for being too large, and this comes out before anything else. */
  predicate Raises(round: real -> real, item: Item) {
    && IsNumber(item.start) && IsNumber(item.end) && !item.start.NotFinite?
    && (IsFiniteRaises(round, item.start)
        || (!item.end.NotFinite?
            && (IsFiniteRaises(round, item.end) || ProductRaises(round, item.start) || ProductRaises(round, item.end))))
  }

  predicate IsTimed(item: Item) {
    IsNumber(item.start) && IsNumber(item.end) && !item.start.NotFinite? && !item.end.NotFinite?
  }

  function StartMs(round: real -> real, item: Item): int {
    Floor(Product(round, item.start))
  }

  function EndMs(round: real -> real, item: Item): int {
    Ceil(Product(round, item.end))
  }

  /** An item that is acceptable by itself. */
  predicate WellFormed(round: real -> real, item: Item) {
    && IsTimed(item) && !Raises(round, item)
    && item.text.Str? && !Blank(item.text.chars) && |item.text.chars| <= 2000
    && StartMs(round, item) < EndMs(round, item)
  }

  function SegmentOf(round: real -> real, item: Item, id: nat): Segment
    requires item.text.Str?
  {
    Segment(id, StartMs(round, item), EndMs(round, item), item.text.chars)
  }

  predicate AllWellFormed(round: real -> real, items: seq<Item>) {
    forall i :: 0 <= i < |items| ==> WellFormed(round, items[i])
  }

  /** The segments of well-formed items, numbered from one. */
  function SegmentsOf(round: real -> real, items: seq<Item>): (segments: seq<Segment>)
    requires AllWellFormed(round, items)
    ensures |segments| == |items|
  {
    seq(|items|, i requires 0 <= i < |items| => SegmentOf(round, items[i], i + 1))
  }

  /** The segments are pairwise disjoint, in order and within the recording. */
  predicate Ordered(segments: seq<Segment>, durationMs: int) {
    && (forall i :: 0 <= i < |segments| ==> 0 <= segments[i].startMs < segments[i].endMs <= durationMs)
    && (forall i, j :: 0 <= i < j < |segments| ==> segments[i].endMs <= segments[j].startMs)
  }

  function TextLength(segments: seq<Segment>): nat {
    if segments == [] then 0
    else TextLength(segments[..|segments| - 1]) + |segments[|segments| - 1].text|
  }

  /** The items from which a transcript can be made. */
  predicate Acceptable(round: real -> real, items: seq<Item>, durationMs: int) {
    && |items| <= 64 && AllWellFormed(round, items)
    && Ordered(SegmentsOf(round, items), durationMs)
    && TextLength(SegmentsOf(round, items)) <= 16000
  }

  // ----- the loop

  lemma AcceptableIsPrefixClosed(round: real -> real, items: seq<Item>, n: nat, durationMs: int)
    requires n <= |items| && Acceptable(round, items, durationMs)
    ensures Acceptable(round, items[..n], durationMs)
  {
    var all := SegmentsOf(round, items);
    assert AllWellFormed(round, items[..n]);
    hide WellFormed, SegmentOf;
    assert SegmentsOf(round, items[..n]) == all[..n];
    TextGrows(all, n);
    OrderedPrefix(all, n, durationMs);
  }

  lemma OrderedPrefix(segments: seq<Segment>, n: nat, durationMs: int)
    requires n <= |segments| && Ordered(segments, durationMs)
    ensures Ordered(segments[..n], durationMs)
  {
  }

  lemma {:induction false} TextGrows(segments: seq<Segment>, n: nat)
    requires n <= |segments|
    ensures TextLength(segments[..n]) <= TextLength(segments)
  {
    var last := |segments| - 1;
    if n == |segments| {
      assert segments[..n] == segments;
    } else {
      TextGrows(segments[..last], n);
      assert segments[..last][..n] == segments[..n];
    }
  }

  /** What the loop tests about one more item. */
  predicate Fits(round: real -> real, item: Item, n: nat, previous: int, total: nat, durationMs: int) {
    && n < 64 && WellFormed(round, item)
    && previous <= StartMs(round, item) && EndMs(round, item) <= durationMs
    && total + |item.text.chars| <= 16000
  }

  lemma OneMore(round: real -> real, items: seq<Item>, n: nat, durationMs: int)
    requires n < |items| && Acceptable(round, items[..n], durationMs)
    ensures var before := SegmentsOf(round, items[..n]);
            Acceptable(round, items[..n + 1], durationMs) <==>
              Fits(round, items[n], n, if n == 0 then 0 else before[n - 1].endMs, TextLength(before), durationMs)
    ensures WellFormed(round, items[n]) ==>
            && AllWellFormed(round, items[..n + 1])
            && var before, s := SegmentsOf(round, items[..n]), SegmentOf(round, items[n], n + 1);
               && SegmentsOf(round, items[..n + 1]) == before + [s]
               && TextLength(before + [s]) == TextLength(before) + |s.text|
  {
    hide Blank, TextLength, Ordered, StartMs, EndMs, Raises;
    var before, upTo := items[..n], items[..n + 1];
    assert upTo == before + [items[n]];
    if WellFormed(round, items[n]) {
      var s := SegmentOf(round, items[n], n + 1);
      assert SegmentsOf(round, upTo) == SegmentsOf(round, before) + [s];
      OrderedAppend(SegmentsOf(round, before), s, durationMs);
      TextAppend(SegmentsOf(round, before), s);
    } else {
      assert upTo[n] == items[n];
    }
  }

  /** The loop goes on exactly if the item fits. */
  lemma LoopGoesOn(round: real -> real, items: seq<Item>, n: nat, output: seq<Segment>, previous: int, durationMs: int)
    requires n < |items| && Acceptable(round, items[..n], durationMs) && output == SegmentsOf(round, items[..n])
    requires previous == if n == 0 then 0 else output[n - 1].endMs
    ensures Acceptable(round, items[..n + 1], durationMs) <==> Fits(round, items[n], n, previous, TextLength(output), durationMs)
    ensures Fits(round, items[n], n, previous, TextLength(output), durationMs) ==>
            && items[n].text.Str? && AllWellFormed(round, items[..n + 1])
            && var s := Segment(n + 1, StartMs(round, items[n]), EndMs(round, items[n]), items[n].text.chars);
               && SegmentsOf(round, items[..n + 1]) == output + [s]
               && TextLength(output + [s]) == TextLength(output) + |items[n].text.chars|
  {
    OneMore(round, items, n, durationMs);
    hide TextLength, SegmentsOf, StartMs, EndMs, Raises, Blank, Ordered;
  }

  lemma TextAppend(segments: seq<Segment>, s: Segment)
    ensures TextLength(segments + [s]) == TextLength(segments) + |s.text|
  {
    assert (segments + [s])[..|segments|] == segments;
  }

  /** Comparing with the previous end is enough to keep all segments disjoint. */
  lemma OrderedAppend(segments: seq<Segment>, s: Segment, durationMs: int)
    requires Ordered(segments, durationMs) && s.startMs < s.endMs
    ensures Ordered(segments + [s], durationMs) <==>
            && (if segments == [] then 0 else segments[|segments| - 1].endMs) <= s.startMs
            && s.endMs <= durationMs
  {
    var n, all := |segments|, segments + [s];
    assert all[n] == s;
    if n > 0 {
      assert all[n - 1] == segments[n - 1];
    }
  }

  /** The item at n raises an overflow, all before it being fine. */
  predicate RaisesAt(round: real -> real, items: seq<Item>, n: nat, durationMs: int) {
    n < |items| && n < 64 && Acceptable(round, items[..n], durationMs) && Raises(round, items[n])
  }

  /** Some item raises an overflow before any is refused. */
  ghost predicate Overflows(round: real -> real, items: seq<Item>, durationMs: int) {
    exists n: nat :: RaisesAt(round, items, n, durationMs)
  }

  /** Where the items stop being acceptable, the loop ends, and nothing behind matters. */
  lemma Stops(round: real -> real, items: seq<Item>, n: nat, durationMs: int)
    requires n < |items| && Acceptable(round, items[..n], durationMs) && !Acceptable(round, items[..n + 1], durationMs)
    ensures !Acceptable(round, items, durationMs)
    ensures Overflows(round, items, durationMs) <==> RaisesAt(round, items, n, durationMs)
  {
    hide Acceptable, Raises;
    if Acceptable(round, items, durationMs) {
      AcceptableIsPrefixClosed(round, items, n + 1, durationMs);
    }
    forall m: nat | RaisesAt(round, items, m, durationMs)
      ensures m == n
    {
      if m < n {
        NoneRaises(round, items[..n], m, durationMs);
      } else if m > n {
        assert m > n ==> items[..m][..n + 1] == items[..n + 1];
        AcceptableIsPrefixClosed(round, items[..m], n + 1, durationMs);
      }
    }
  }

  lemma StopsHere(round: real -> real, items: seq<Item>, n: nat, durationMs: int)
    requires n < |items| && Acceptable(round, items[..n], durationMs) && !Acceptable(round, items[..n + 1], durationMs)
    ensures !Acceptable(round, items, durationMs)
    ensures Overflows(round, items, durationMs) <==> n < 64 && Raises(round, items[n])
  {
    Stops(round, items, n, durationMs);
    hide Acceptable, Raises, Overflows;
  }

  lemma NoneRaises(round: real -> real, items: seq<Item>, m: nat, durationMs: int)
    requires m < |items| && Acceptable(round, items, durationMs)
    ensures !Raises(round, items[m])
  {
  }

  lemma Nothing(round: real -> real, durationMs: int)
    ensures Acceptable(round, [], durationMs) && SegmentsOf(round, []) == [] && TextLength([]) == 0
  {
  }

  datatype Examined = Good(startMs: int, endMs: int) | Refused | TooLarge

  /** One pass of the loop, up to what it appends. */
  method Examine(round: real -> real, item: Item, ordinal: nat, previous: int, total: nat, durationMs: int)
    returns (r: Examined)
    ensures r.Good? <==> Fits(round, item, ordinal, previous, total, durationMs)
    ensures r.Good? ==> r.startMs == StartMs(round, item) && r.endMs == EndMs(round, item)
    ensures r.TooLarge? <==> ordinal < 64 && Raises(round, item)
  {
    hide Blank, IsInfinite, Product;
    if ordinal >= 64 || item.start.NotNumber? || item.end.NotNumber? {
      return Refused;
    }
    if IsFiniteRaises(round, item.start) {
      return TooLarge;
    }
    if item.start.NotFinite? {
      return Refused;
    }
    if IsFiniteRaises(round, item.end) {
      return TooLarge;
    }
    if item.end.NotFinite? {
      return Refused;
    }
    if ProductRaises(round, item.start) || ProductRaises(round, item.end) {
      return TooLarge;
    }
    var startMs, endMs := Floor(Product(round, item.start)), Ceil(Product(round, item.end));
    hide Floor, Ceil;
    if !(previous <= startMs < endMs <= durationMs) || !item.text.Str? || Blank(item.text.chars)
       || |item.text.chars| > 2000 || total + |item.text.chars| > 16000 {
      return Refused;
    }
    return Good(startMs, endMs);
  }

  /** normalize_segments; round is how the hardware rounds a product. */
  method NormalizeSegments(round: real -> real, items: seq<Item>, durationMs: int) returns (r: Result)
    ensures r.Ok? <==> items != [] && Acceptable(round, items, durationMs)
    ensures r.Ok? ==> r.segments == SegmentsOf(round, items)
    ensures r.EmptyTranscript? <==> items == []
    ensures r.Overflow? <==> Overflows(round, items, durationMs)
  {
    hide *;
    var output: seq<Segment> := [];
    var previous, total := 0, 0;
    Nothing(round, durationMs);
    assert items[..0] == [];
    for ordinal := 0 to |items|
      invariant Acceptable(round, items[..ordinal], durationMs)
      invariant AllWellFormed(round, items[..ordinal]) && output == SegmentsOf(round, items[..ordinal])
      invariant previous == if ordinal == 0 then 0 else output[ordinal - 1].endMs
      invariant total == TextLength(output)
    {
      LoopGoesOn(round, items, ordinal, output, previous, durationMs);
      if !Acceptable(round, items[..ordinal + 1], durationMs) {
        StopsHere(round, items, ordinal, durationMs);
      }
      var examined := Examine(round, items[ordinal], ordinal, previous, total, durationMs);
      if examined.TooLarge? {
        return Overflow;
      } else if examined.Refused? {
        return InvalidTranscript;
      }
      var text := items[ordinal].text.chars;
      total := total + |text|;
      output := output + [Segment(ordinal + 1, examined.startMs, examined.endMs, text)];
      previous := examined.endMs;
    }
    assert items[..|items|] == items;
    if output == [] {
      NothingOverflows(round, durationMs);
      return EmptyTranscript;
    }
    AcceptableRaisesNothing(round, items, durationMs);
    return Ok(output);
  }

  lemma NothingOverflows(round: real -> real, durationMs: int)
    ensures !Overflows(round, [], durationMs)
  {
  }

  lemma AcceptableRaisesNothing(round: real -> real, items: seq<Item>, durationMs: int)
    requires Acceptable(round, items, durationMs)
    ensures !Overflows(round, items, durationMs)
  {
  }

  // ----- what a transcript promises

  /** The product has not been rounded up to the next whole millisecond. */
  predicate NotRoundedUp(round: real -> real, t: Time) {
    Product(round, t) < (Floor(Exact(t)) + 1) as real
  }

  /** The product has not been rounded down to the whole millisecond before. */
  predicate NotRoundedDown(round: real -> real, t: Time) {
    Product(round, t) > (Ceil(Exact(t)) - 1) as real
  }

  /** A segment contains the start and the end it was made from exactly if the products were not rounded past a whole one. */
  lemma SegmentContainsItem(round: real -> real, item: Item, id: nat)
    requires item.text.Str?
    ensures SegmentOf(round, item, id).startMs as real <= Exact(item.start) <==> NotRoundedUp(round, item.start)
    ensures Exact(item.end) <= SegmentOf(round, item, id).endMs as real <==> NotRoundedDown(round, item.end)
    ensures item.start.Whole? ==> NotRoundedUp(round, item.start)
    ensures item.end.Whole? ==> NotRoundedDown(round, item.end)
  {
    FloorAtMost(Product(round, item.start), Exact(item.start));
    CeilAtLeast(Product(round, item.end), Exact(item.end));
    hide Floor, Ceil, Blank, Raises, WellFormed;
    if item.start.Whole? {
      ExactIsNotRounded(round, item.start);
    }
    if item.end.Whole? {
      ExactIsNotRounded(round, item.end);
    }
  }

  lemma ExactIsNotRounded(round: real -> real, t: Time)
    requires Product(round, t) == Exact(t)
    ensures NotRoundedUp(round, t) && NotRoundedDown(round, t)
  {
  }

  /** Either way, it is never off by a millisecond. */
  lemma SegmentIsClose(round: real -> real, item: Item, id: nat)
    requires IsRounding(round) && IsTimed(item) && item.text.Str?
    requires -WHOLE as real <= Exact(item.start) <= WHOLE as real && -WHOLE as real <= Exact(item.end) <= WHOLE as real
    ensures Distance(SegmentOf(round, item, id).startMs as real, Exact(item.start)) < 1.0
    ensures Distance(SegmentOf(round, item, id).endMs as real, Exact(item.end)) < 1.0
  {
    ProductStaysBetween(round, item.start);
    ProductStaysBetween(round, item.end);
    FloorIsClose(Product(round, item.start), Exact(item.start));
    CeilIsClose(Product(round, item.end), Exact(item.end));
    hide *;
  }

  lemma ProductStaysBetween(round: real -> real, t: Time)
    requires IsRounding(round) && -WHOLE as real <= Exact(t) <= WHOLE as real
    ensures Floor(Exact(t)) as real <= Product(round, t) <= Ceil(Exact(t)) as real
  {
    RoundingStaysBetween(round, Exact(t));
    hide IsRounding;
  }

  /** The double nearest to one thousandth. */
  const ONE_MS: real := 1152921504606847.0 / 1152921504606846976.0

  /** It is more than a millisecond, but the product is rounded down to one, and the segment ends before its input. */
  lemma SegmentCanEndEarly(round: real -> real, item: Item)
    requires IsRounding(round) && item == Item(Double(0.0), Double(ONE_MS), Str("a"))
    ensures IsDouble(ONE_MS) && Acceptable(round, [item], 1)
    ensures EndMs(round, item) == 1 && Exact(item.end) > 1.0
  {
    OneMsIsDouble();
    RoundsDownToOne(round);
    hide IsRounding, IsDouble;
    CeilIs(1.0, 1);
    StartOfFirst(round, item);
    OneSegment(round, item, 1);
  }

  lemma OneMsIsDouble()
    ensures IsDouble(ONE_MS)
  {
    LargerPow2Values();
    hide Pow2;
    assert Represents(ONE_MS, 1152921504606847, 60, false);
  }

  lemma RoundsDownToOne(round: real -> real)
    requires IsRounding(round)
    ensures round(ONE_MS * 1000.0) == 1.0
  {
    var x := ONE_MS * 1000.0;
    WholeIsDouble(1);
    RoundingIsMonotone(round, 1.0, x);
    RoundingKeepsWhole(round, 1);
    assert IsNearest(x, round(x));
    hide IsRounding;
    if round(x) > 1.0 {
      NoDoubleJustAboveOne(round(x));
    }
  }

  /** Two segments that touch, one ending at the time the next one starts, are in order only on a whole millisecond. */
  lemma TouchingFitsExactlyOnWholeMs(round: real -> real, x: Item, y: Item)
    requires x.end == y.start
    ensures EndMs(round, x) <= StartMs(round, y) <==> Product(round, x.end) == Floor(Product(round, x.end)) as real
  {
  }

  /** The double nearest to 4.02, and the one that its product with 1000 is rounded to or below, which is less than 4020. */
  const FOUR_02: real := 1131529406376837.0 / 281474976710656.0
  const BELOW_4020: real := 8840073487319039.0 / 2199023255552.0

  lemma FourIsDouble()
    ensures IsDouble(FOUR_02) && IsDouble(BELOW_4020)
  {
    LargerPow2Values();
    hide Pow2;
    assert Represents(FOUR_02, 1131529406376837, 48, false);
    assert Represents(BELOW_4020, 8840073487319039, 41, false);
  }

  lemma NearerThan4020(x: real)
    requires x == FOUR_02 * 1000.0
    ensures 4019.0 <= x && Distance(x, BELOW_4020) < 4020.0 - x
  {
  }

  lemma RoundsBelow4020(round: real -> real)
    requires IsRounding(round)
    ensures 4019.0 <= round(FOUR_02 * 1000.0) < 4020.0
  {
    var x := FOUR_02 * 1000.0;
    FourIsDouble();
    NearerThan4020(x);
    hide FOUR_02, BELOW_4020;
    RoundingKeepsWhole(round, 4019);
    RoundingIsMonotone(round, 4019.0, x);
    assert IsNearest(x, round(x));
    hide IsRounding, IsDouble;
  }

  /** So the product of 4.02 with 1000 lies between two milliseconds, and segments that touch there are refused. */
  lemma TouchingCanBeRefused(round: real -> real, x: Item, y: Item, durationMs: int)
    requires IsRounding(round) && x.end == y.start == Double(FOUR_02)
    ensures IsDouble(FOUR_02) && !Acceptable(round, [x, y], durationMs)
    ensures x == Item(Double(0.0), Double(FOUR_02), Str("a")) && durationMs >= 4020 ==> Acceptable(round, [x], durationMs)
  {
    FourIsDouble();
    RoundsBelow4020(round);
    hide FOUR_02, BELOW_4020, IsDouble;
    FloorIs(round(FOUR_02 * 1000.0), 4019);
    CeilIs(round(FOUR_02 * 1000.0), 4020);
    if Acceptable(round, [x, y], durationMs) {
      NextStartsLater(round, x, y, durationMs);
      TouchingFitsExactlyOnWholeMs(round, x, y);
    }
    if x == Item(Double(0.0), Double(FOUR_02), Str("a")) && durationMs >= 4020 {
      StartOfFirst(round, x);
      OneSegment(round, x, durationMs);
    }
  }

  lemma NextStartsLater(round: real -> real, x: Item, y: Item, durationMs: int)
    requires Acceptable(round, [x, y], durationMs)
    ensures EndMs(round, x) <= StartMs(round, y)
  {
    var s := SegmentsOf(round, [x, y]);
    assert s[0].endMs <= s[1].startMs;
    hide EndMs, StartMs, WellFormed;
  }

  /** From zero to a time that no rounding brings to zero or to infinity. */
  lemma StartOfFirst(round: real -> real, item: Item)
    requires IsRounding(round) && item.start == Double(0.0) && item.end.Double? && item.text == Str("a")
    requires 0.0 < Product(round, item.end) <= WHOLE as real
    ensures WellFormed(round, item) && StartMs(round, item) == 0
  {
    hide IsRounding, IsInfinite, Floor, Ceil, Blank;
    RoundingKeepsWhole(round, 0);
    FloorIs(0.0, 0);
    CeilIsPositive(Product(round, item.end));
    WholeIsFinite(0.0);
    WholeIsFinite(Product(round, item.end));
    LetterIsNotBlank();
  }

  lemma LetterIsNotBlank()
    ensures !Blank("a")
  {
    assert "a"[0] == 'a';
  }

  lemma OneSegment(round: real -> real, item: Item, durationMs: int)
    requires WellFormed(round, item) && 0 <= StartMs(round, item) && EndMs(round, item) <= durationMs
    ensures Acceptable(round, [item], durationMs)
  {
    var s := SegmentOf(round, item, 1);
    assert SegmentsOf(round, [item]) == [s];
    TextAppend([], s);
    assert [] + [s] == [s];
    hide WellFormed;
  }

  function CoveredTime(segments: seq<Segment>): int {
    if segments == [] then 0
    else
      var last := |segments| - 1;
      CoveredTime(segments[..last]) + segments[last].endMs - segments[last].startMs
  }

  lemma {:induction false} CoveredUpToEnd(segments: seq<Segment>, durationMs: int)
    requires segments != [] && Ordered(segments, durationMs)
    ensures CoveredTime(segments) <= segments[|segments| - 1].endMs
  {
    var last := |segments| - 1;
    if last > 0 {
      OrderedPrefix(segments, last, durationMs);
      CoveredUpToEnd(segments[..last], durationMs);
    }
  }

  /** An accepted transcript covers no more time than the recording lasts. */
  lemma CoverageFits(round: real -> real, items: seq<Item>, durationMs: int)
    requires items != [] && Acceptable(round, items, durationMs)
    ensures CoveredTime(SegmentsOf(round, items)) <= durationMs
  {
    CoveredUpToEnd(SegmentsOf(round, items), durationMs);
  }
}
