/** Finding the 1024-character window of a law text that a citation's span identifier was minted from. */
module LawCitation {
  import opened BitStrings
  import opened LawHash
  import opened Numerals
  import opened SecureHashStandard

  const WINDOW := 1024

  /** Characters that String.prototype.trim removes. */
  predicate IsSpace(c: char) {
    || '\U{9}' <= c <= '\U{D}' || c == ' ' || c == '\U{A0}' || c == '\U{1680}' || '\U{2000}' <= c <= '\U{200A}'
    || c == '\U{2028}' || c == '\U{2029}' || c == '\U{202F}' || c == '\U{205F}' || c == '\U{3000}' || c == '\U{FEFF}'
  }

  predicate Blank(s: string) {
    forall i :: 0 <= i < |s| ==> IsSpace(s[i])
  }

  predicate Ascii(s: string) {
    forall i :: 0 <= i < |s| ==> s[i] < '\U{80}'
  }

  /** UTF-8 of ASCII text is one byte per character. */
  function Utf8(s: string): (b: seq<Byte>)
    requires Ascii(s)
    ensures |b| == |s|
  {
    seq(|s|, i requires 0 <= i < |s| => s[i] as int)
  }

  /** The text that is hashed into the identifier of the window starting at a position. */
  function SpanName(version: string, start: nat): (s: string)
    requires Ascii(version)
    ensures Ascii(s) && |s| <= |version| + start + 2
  {
    version + "|" + Numeral(start)
  }

  /** The hashed text is the version, a bar and the shortest numeral of the start, so the windows of a version have different texts. */
  lemma SpanNameReads(version: string, start: nat, other: nat)
    requires Ascii(version)
    ensures var name := SpanName(version, start);
            && |name| > |version| + 1 && name[..|version|] == version && name[|version|] == '|'
            && var digits := name[|version| + 1..];
               AllDigits(digits) && NumberOf(digits) == start && (digits[0] == '0' ==> digits == "0")
    ensures SpanName(version, start) == SpanName(version, other) ==> start == other
  {
    NumeralReads(start);
    NumeralReads(other);
    hide Numeral, NumberOf;
    assert SpanName(version, start)[|version| + 1..] == Numeral(start);
    assert SpanName(version, other)[|version| + 1..] == Numeral(other);
  }

  /** The end of the identifier: half of the SHA-256 digest in hexadecimal. */
  function SpanSuffix(version: string, start: nat): string
    requires Ascii(version) && |version| + start + 2 < 0x2000_0000
  {
    Sha256Hex(BitsOfBytes(Utf8(SpanName(version, start))))[..32]
  }

  function Window(points: string, start: nat): string {
    if start >= |points| then ""
    else if start + WINDOW <= |points| then points[start..start + WINDOW]
    else points[start..]
  }

  /** A window that starts at a multiple of 1024, is not blank and has the cited identifier. */
  predicate Cited(points: string, version: string, suffix: string, start: nat)
    requires Ascii(version) && |version| + |points| + 2 < 0x2000_0000
  {
    && start < |points| && start % WINDOW == 0
    && !Blank(Window(points, start))
    && SpanSuffix(version, start) == suffix
  }

  datatype Result = Found(start: nat, end: nat) | Invalid

  ghost predicate OnlyCited(points: string, version: string, suffix: string, start: nat)
    requires Ascii(version) && |version| + |points| + 2 < 0x2000_0000
  {
    && Cited(points, version, suffix, start)
    && forall other: nat :: Cited(points, version, suffix, other) ==> other == start
  }

  /** The matches are the cited windows before a position, in order. */
  ghost predicate Collected(points: string, version: string, suffix: string, matches: seq<nat>, upTo: nat)
    requires Ascii(version) && |version| + |points| + 2 < 0x2000_0000
  {
    && (forall i :: 0 <= i < |matches| ==> matches[i] < upTo && Cited(points, version, suffix, matches[i]))
    && (forall i, j :: 0 <= i < j < |matches| ==> matches[i] < matches[j])
    && (forall s: nat :: Cited(points, version, suffix, s) && s < upTo ==> s in matches)
  }

  lemma OneMatchIsOnly(points: string, version: string, suffix: string, matches: seq<nat>, upTo: nat)
    requires Ascii(version) && |version| + |points| + 2 < 0x2000_0000
    requires upTo >= |points| && Collected(points, version, suffix, matches, upTo)
    ensures forall s: nat :: OnlyCited(points, version, suffix, s) <==> |matches| == 1 && matches[0] == s
  {
    hide SpanSuffix, Window, Blank;
    if |matches| >= 2 {
      assert matches[0] < matches[1];
    }
  }

  lemma MultiplesAreApart(s: nat, start: nat)
    requires s % WINDOW == 0 && start % WINDOW == 0 && start <= s < start + WINDOW
    ensures s == start
  {
  }

  lemma NothingCollected(points: string, version: string, suffix: string)
    requires Ascii(version) && |version| + |points| + 2 < 0x2000_0000
    ensures Collected(points, version, suffix, [], 0)
  {
    hide SpanSuffix, Window, Blank;
  }

  lemma CollectedStep(points: string, version: string, suffix: string, matches: seq<nat>, start: nat)
    requires Ascii(version) && |version| + |points| + 2 < 0x2000_0000
    requires start < |points| && start % WINDOW == 0 && Collected(points, version, suffix, matches, start)
    ensures Collected(points, version, suffix, if Cited(points, version, suffix, start) then matches + [start] else matches,
                      start + WINDOW)
  {
    hide SpanSuffix, Window, Blank;
    forall s: nat | Cited(points, version, suffix, s) && start <= s < start + WINDOW
      ensures s == start
    {
      MultiplesAreApart(s, start);
    }
  }

  method ComputeSuffix(version: string, start: nat) returns (suffix: string)
    requires Ascii(version) && |version| + start + 2 < 0x2000_0000
    ensures suffix == SpanSuffix(version, start)
  {
    hide Sha256Hex, BitsOfBytes, HashOfPadding, HexOfWords, SpanName, Utf8;
    var digest := LawSha256(Utf8(SpanName(version, start)));
    suffix := if |digest| <= 32 then digest else digest[..32];
  }

  /** One pass of the search: the window is kept when its identifier matches and it is not blank. */
  method Search(points: string, version: string, suffix: string, matches: seq<nat>, start: nat) returns (next: seq<nat>)
    requires Ascii(version) && |version| + |points| + 2 < 0x2000_0000
    requires start < |points| && start % WINDOW == 0 && Collected(points, version, suffix, matches, start)
    ensures Collected(points, version, suffix, next, start + WINDOW)
  {
    CollectedStep(points, version, suffix, matches, start);
    hide SpanSuffix, Blank, Window, Collected;
    var prefix := ComputeSuffix(version, start);
    next := matches;
    if prefix == suffix && !Blank(Window(points, start)) {
      next := matches + [start];
    }
  }

  method AllMatches(points: string, version: string, suffix: string) returns (matches: seq<nat>, start: nat)
    requires Ascii(version) && |version| + |points| + 2 < 0x2000_0000
    ensures start >= |points| && Collected(points, version, suffix, matches, start)
  {
    hide Ascii, Collected;
    matches, start := [], 0;
    NothingCollected(points, version, suffix);
    while start < |points|
      invariant start % WINDOW == 0
      invariant Collected(points, version, suffix, matches, start)
    {
      matches := Search(points, version, suffix, matches, start);
      start := start + WINDOW;
    }
  }

  /** getOpenLawCitation, from the verified text to the window. */
  method FindWindow(points: string, version: string, suffix: string) returns (r: Result)
    requires Ascii(version) && |version| + |points| + 2 < 0x2000_0000
    ensures forall s: nat :: OnlyCited(points, version, suffix, s) <==> r.Found? && r.start == s
    ensures r.Found? ==> r.end == (if r.start + WINDOW <= |points| then r.start + WINDOW else |points|)
  {
    hide Ascii, Collected, OnlyCited;
    var matches, start := AllMatches(points, version, suffix);
    OneMatchIsOnly(points, version, suffix, matches, start);
    r := if |matches| != 1 then Invalid
         else Found(matches[0], if matches[0] + WINDOW <= |points| then matches[0] + WINDOW else |points|);
  }

  /** No two windows of the text share an identifier. */
  ghost predicate DistinctSpans(points: string, version: string)
    requires Ascii(version) && |version| + |points| + 2 < 0x2000_0000
  {
    forall s: nat, t: nat | s < |points| && t < |points| && s % WINDOW == 0 && t % WINDOW == 0 ::
      SpanSuffix(version, s) == SpanSuffix(version, t) ==> s == t
  }

  /** Unless identifiers collide, a citation minted from a window that is not blank finds exactly that window. */
  lemma MintedWindowIsFound(points: string, version: string, start: nat)
    requires Ascii(version) && |version| + |points| + 2 < 0x2000_0000
    requires start < |points| && start % WINDOW == 0 && !Blank(Window(points, start))
    requires DistinctSpans(points, version)
    ensures OnlyCited(points, version, SpanSuffix(version, start), start)
  {
    hide SpanSuffix, Window, Blank;
  }
}
