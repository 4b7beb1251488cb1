/** The text of a connection's models: separated by lines or commas, trimmed, without repetitions. */
module LogicalModels {

  predicate IsSeparator(c: char) {
    c == '\n' || c == ','
  }

  predicate IsSpace(c: char) {
    c == ' ' || c == '\t' || c == '\n' || c == '\r'
  }

  function Split(text: string): (pieces: seq<string>)
    ensures pieces != []
  {
    if text == [] then [[]]
    else
      var rest := Split(text[1..]);
      if IsSeparator(text[0]) then [[]] + rest else [[text[0]] + rest[0]] + rest[1..]
  }

  function TrimStart(s: string): (t: string)
    ensures t == [] || !IsSpace(t[0])
    ensures forall c :: c in t ==> c in s
  {
    if s != [] && IsSpace(s[0]) then TrimStart(s[1..]) else s
  }

  function TrimEnd(s: string): (t: string)
    ensures t <= s && (t == [] || !IsSpace(t[|t| - 1]))
    ensures forall c :: c in t ==> c in s
  {
    if s != [] && IsSpace(s[|s| - 1]) then TrimEnd(s[..|s| - 1]) else s
  }

  function Trim(s: string): string {
    TrimEnd(TrimStart(s))
  }

  function NonEmpty(pieces: seq<string>): seq<string> {
    if pieces == [] then []
    else (if Trim(pieces[0]) == [] then [] else [Trim(pieces[0])]) + NonEmpty(pieces[1..])
  }

  /** First occurrences, in order. */
  function Distinct(list: seq<string>): seq<string> {
    if list == [] then []
    else
      var before := Distinct(list[..|list| - 1]);
      if list[|list| - 1] in before then before else before + [list[|list| - 1]]
  }

  /** normalizedLogicalModels */
  function Normalized(text: string): seq<string> {
    Distinct(NonEmpty(Split(text)))
  }

  /** How draftFromConnection writes the models of a connection. */
  function Lines(models: seq<string>): string {
    if models == [] then ""
    else if |models| == 1 then models[0]
    else models[0] + "\n" + Lines(models[1..])
  }

  // ----- what normalizing gives

  predicate IsModel(m: string) {
    m != [] && !IsSpace(m[0]) && !IsSpace(m[|m| - 1]) && Unseparated(m)
  }

  predicate AreModels(models: seq<string>) {
    && (forall i :: 0 <= i < |models| ==> IsModel(models[i]))
    && (forall i, j :: 0 <= i < j < |models| ==> models[i] != models[j])
  }

  predicate Unseparated(s: string) {
    forall c :: c in s ==> !IsSeparator(c)
  }

  lemma {:induction false} SplitSeparates(text: string)
    ensures forall i :: 0 <= i < |Split(text)| ==> Unseparated(Split(text)[i])
  {
    if text != [] {
      SplitSeparates(text[1..]);
      var rest := Split(text[1..]);
      if !IsSeparator(text[0]) {
        assert Unseparated([text[0]] + rest[0]);
      } else {
        assert Unseparated([]);
      }
    }
  }

  lemma TrimmedIsModel(piece: string)
    requires Unseparated(piece) && Trim(piece) != []
    ensures IsModel(Trim(piece))
  {
  }

  lemma {:induction false} NonEmptyGivesModels(pieces: seq<string>)
    requires forall i :: 0 <= i < |pieces| ==> Unseparated(pieces[i])
    ensures forall m :: m in NonEmpty(pieces) ==> IsModel(m)
  {
    if pieces != [] {
      NonEmptyGivesModels(pieces[1..]);
      if Trim(pieces[0]) != [] {
        TrimmedIsModel(pieces[0]);
      }
      hide Trim, IsModel;
    }
  }

  lemma {:induction false} DistinctKeeps(list: seq<string>)
    ensures forall m :: m in Distinct(list) <==> m in list
    ensures forall i, j :: 0 <= i < j < |Distinct(list)| ==> Distinct(list)[i] != Distinct(list)[j]
  {
    if list != [] {
      DistinctKeeps(list[..|list| - 1]);
      assert list == list[..|list| - 1] + [list[|list| - 1]];
    }
  }

  /** Main result: trimmed, non-empty, without separators, and each only once. */
  lemma NormalizedGivesModels(text: string)
    ensures AreModels(Normalized(text))
  {
    SplitSeparates(text);
    NonEmptyGivesModels(Split(text));
    DistinctKeeps(NonEmpty(Split(text)));
    hide NonEmpty, Distinct, Split;
    assert forall i :: 0 <= i < |Normalized(text)| ==> Normalized(text)[i] in Normalized(text);
  }

  // ----- the round trip

  lemma {:induction false} SplitAtLine(m: string, rest: string)
    requires Unseparated(m)
    ensures Split(m) == [m] && Split(m + "\n" + rest) == [m] + Split(rest)
    decreases |m|
  {
    if m == [] {
      assert (m + "\n" + rest)[1..] == rest;
    } else {
      SplitAtLine(m[1..], rest);
      assert (m + "\n" + rest)[1..] == m[1..] + "\n" + rest;
      assert [m[0]] + m[1..] == m;
    }
  }

  lemma {:induction false} SplitLines(models: seq<string>)
    requires models != [] && forall i :: 0 <= i < |models| ==> IsModel(models[i])
    ensures Split(Lines(models)) == models
  {
    if |models| == 1 {
      SplitAtLine(models[0], "");
      assert models == [models[0]];
    } else {
      SplitLines(models[1..]);
      SplitAtLine(models[0], Lines(models[1..]));
      assert models == [models[0]] + models[1..];
    }
  }

  lemma {:induction false} ModelsAreKept(models: seq<string>)
    requires forall i :: 0 <= i < |models| ==> IsModel(models[i])
    ensures NonEmpty(models) == models
  {
    if models != [] {
      ModelsAreKept(models[1..]);
      assert Trim(models[0]) == models[0];
      assert models == [models[0]] + models[1..];
    }
  }

  lemma {:induction false} DistinctStays(list: seq<string>)
    requires forall i, j :: 0 <= i < j < |list| ==> list[i] != list[j]
    ensures Distinct(list) == list
  {
    if list != [] {
      var last := |list| - 1;
      DistinctStays(list[..last]);
      assert list == list[..last] + [list[last]];
      assert list[last] !in list[..last];
    }
  }

  /** Main result: what a connection's models are written as reads back as exactly those models. */
  lemma LinesReadBack(models: seq<string>)
    requires AreModels(models)
    ensures Normalized(Lines(models)) == models
  {
    if models == [] {
      assert Split("") == [""];
      assert NonEmpty([""]) == [];
    } else {
      SplitLines(models);
      ModelsAreKept(models);
      DistinctStays(models);
    }
  }

  // ----- what a text is normalized to

  lemma SplitFirst(c: char, rest: string)
    ensures var pieces := Split(rest);
            Split([c] + rest) == if IsSeparator(c) then [""] + pieces else [[c] + pieces[0]] + pieces[1..]
  {
    hide IsSeparator;
    assert ([c] + rest)[1..] == rest;
  }

  lemma {:induction false} SplitConcatenates(a: string, separator: char, b: string)
    requires IsSeparator(separator)
    ensures Split(a + [separator] + b) == Split(a) + Split(b)
    decreases |a|
  {
    hide Split;
    if a == "" {
      SplitFirst(separator, b);
      assert a + [separator] + b == [separator] + b;
      SplitNothing();
    } else {
      var rest := a[1..] + [separator] + b;
      SplitConcatenates(a[1..], separator, b);
      SplitFirst(a[0], a[1..]);
      SplitFirst(a[0], rest);
      assert [a[0]] + a[1..] == a;
      assert [a[0]] + rest == a + [separator] + b;
      PiecesJoin(a[0], Split(a[1..]), Split(b));
    }
  }

  lemma SplitNothing()
    ensures Split("") == [""]
  {
  }

  lemma PiecesJoin(c: char, left: seq<string>, right: seq<string>)
    requires left != []
    ensures (left + right)[0] == left[0] && (left + right)[1..] == left[1..] + right
    ensures [""] + (left + right) == ([""] + left) + right
    ensures [[c] + left[0]] + (left[1..] + right) == ([[c] + left[0]] + left[1..]) + right
  {
  }

  lemma {:induction false} NonEmptyConcatenates(a: seq<string>, b: seq<string>)
    ensures NonEmpty(a + b) == NonEmpty(a) + NonEmpty(b)
    decreases |a|
  {
    hide *;
    if a == [] {
      assert a + b == b;
      NothingIsEmpty();
    } else {
      NonEmptyConcatenates(a[1..], b);
      NonEmptyFirst(a);
      NonEmptyFirst(a + b);
      assert (a + b)[1..] == a[1..] + b;
    }
  }

  function Piece(piece: string): seq<string> {
    if Trim(piece) == [] then [] else [Trim(piece)]
  }

  lemma NothingIsEmpty()
    ensures NonEmpty([]) == []
  {
  }

  lemma NonEmptyFirst(pieces: seq<string>)
    requires pieces != []
    ensures NonEmpty(pieces) == Piece(pieces[0]) + NonEmpty(pieces[1..])
  {
    hide Trim;
  }

  lemma DistinctStep(list: seq<string>, m: string)
    ensures Distinct(list + [m]) == if m in list then Distinct(list) else Distinct(list) + [m]
  {
    DistinctKeeps(list);
    assert (list + [m])[..|list|] == list;
  }

  lemma {:induction false} DistinctOfBoth(a: seq<string>, b: seq<string>)
    ensures Distinct(Distinct(a) + Distinct(b)) == Distinct(a + b)
    decreases |b|
  {
    hide *;
    if b == [] {
      DistinctOfOne(a);
      assert a + b == a;
    } else {
      var before, m := b[..|b| - 1], b[|b| - 1];
      DistinctOfBoth(a, before);
      assert b == before + [m] && a + b == (a + before) + [m];
      DistinctOfOneMore(a, before, m);
    }
  }

  lemma DistinctOfOne(a: seq<string>)
    ensures Distinct(Distinct(a) + Distinct([])) == Distinct(a)
  {
    DistinctKeeps(a);
    DistinctStays(Distinct(a));
    assert Distinct(a) + [] == Distinct(a);
  }

  lemma DistinctOfOneMore(a: seq<string>, before: seq<string>, m: string)
    requires Distinct(Distinct(a) + Distinct(before)) == Distinct(a + before)
    ensures Distinct(Distinct(a) + Distinct(before + [m])) == Distinct((a + before) + [m])
  {
    hide Distinct;
    var both := Distinct(a) + Distinct(before);
    DistinctKeeps(a);
    DistinctKeeps(before);
    DistinctStep(before, m);
    DistinctStep(a + before, m);
    DistinctStep(both, m);
    assert m in both <==> m in a + before;
    assert Distinct(a) + (Distinct(before) + [m]) == both + [m];
  }

  /** Main result: around a comma or a line end both sides are read by themselves, and what the left has is not listed again. */
  lemma SidesAreReadAlone(a: string, b: string)
    ensures Normalized(a + "," + b) == Normalized(a + "\n" + b) == Distinct(Normalized(a) + Normalized(b))
  {
    SplitConcatenates(a, ',', b);
    SplitConcatenates(a, '\n', b);
    NonEmptyConcatenates(Split(a), Split(b));
    DistinctOfBoth(NonEmpty(Split(a)), NonEmpty(Split(b)));
  }

  /** Blank characters that separate nothing. */
  predicate IsBlank(s: string) {
    forall i :: 0 <= i < |s| ==> s[i] == ' ' || s[i] == '\t' || s[i] == '\r'
  }

  lemma {:induction false} TrimStartDrops(lead: string, m: string)
    requires IsBlank(lead) && (m != [] ==> !IsSpace(m[0]))
    ensures TrimStart(lead + m) == m
  {
    if lead == "" {
      assert lead + m == m;
    } else {
      TrimStartDrops(lead[1..], m);
      assert (lead + m)[1..] == lead[1..] + m;
    }
  }

  lemma {:induction false} TrimEndDrops(m: string, trail: string)
    requires IsBlank(trail) && (m != [] ==> !IsSpace(m[|m| - 1]))
    ensures TrimEnd(m + trail) == m
  {
    if trail == "" {
      assert m + trail == m;
    } else {
      var last := |trail| - 1;
      TrimEndDrops(m, trail[..last]);
      assert (m + trail)[..|m| + last] == m + trail[..last];
    }
  }

  /** Without a separator, a text is read as what stands between its leading and trailing blanks, or as nothing. */
  lemma OnePiece(lead: string, m: string, trail: string)
    requires IsBlank(lead) && IsBlank(trail) && (m == [] || IsModel(m))
    ensures Normalized(lead + m + trail) == if m == [] then [] else [m]
  {
    var text := lead + m + trail;
    SplitAtLine(text, "");
    assert lead + m + trail == lead + (m + trail);
    if m == [] {
      TrimStartDrops(lead + trail, "");
      assert lead + trail + "" == text;
    } else {
      TrimStartDrops(lead, m + trail);
      TrimEndDrops(m, trail);
    }
    assert Trim(text) == m;
    hide Trim, Split;
    assert NonEmpty([text]) == if m == [] then [] else [m];
    DistinctStays(NonEmpty([text]));
  }

  /** A draft whose models are written from its own normal form has not changed. */
  lemma NormalizingAgainChangesNothing(text: string)
    ensures Normalized(Lines(Normalized(text))) == Normalized(text)
  {
    NormalizedGivesModels(text);
    LinesReadBack(Normalized(text));
  }
}
