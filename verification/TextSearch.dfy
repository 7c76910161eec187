/** The text helpers of the database layer: LIKE patterns and comma-separated id lists. */
module TextSearch {
  import opened Identity
  import opened Orders

  // ---- LIKE -------------------------------------------------------------------------------

  /** SQLite folds ASCII letters only. */
  function Fold(c: char): char {
    if 'A' <= c <= 'Z' then (c as int + 32) as char else c
  }

  /** Two characters are alike exactly when they are the same, or one is an ASCII capital and the other its small
      letter, 32 further on. */
  lemma FoldMeans(a: char, b: char)
    ensures Fold(a) == Fold(b)
       <==> a == b || ('A' <= a <= 'Z' && b as int == a as int + 32) || ('A' <= b <= 'Z' && a as int == b as int + 32)
  {
  }

  predicate SameFolded(a: string, b: string) {
    |a| == |b| && forall i :: 0 <= i < |a| ==> Fold(a[i]) == Fold(b[i])
  }

  /** text LIKE pattern ESCAPE '\'. */
  ghost predicate Like(pattern: string, text: string)
    decreases |pattern|
  {
    if pattern == [] then text == []
    else if pattern[0] == '%' then exists k :: 0 <= k <= |text| && Like(pattern[1..], text[k..])
    else if pattern[0] == '_' then text != [] && Like(pattern[1..], text[1..])
    else if pattern[0] == '\\' then
      |pattern| >= 2 && text != [] && Fold(pattern[1]) == Fold(text[0]) && Like(pattern[2..], text[1..])
    else text != [] && Fold(pattern[0]) == Fold(text[0]) && Like(pattern[1..], text[1..])
  }

  predicate ContainsFolded(text: string, search: string) {
    exists k :: 0 <= k <= |text| && FoundAt(text, search, k)
  }

  predicate FoundAt(text: string, search: string, k: int) {
    0 <= k && k + |search| <= |text| && SameFolded(text[k..k + |search|], search)
  }

  function EscapedChar(c: char): string {
    if c == '%' || c == '_' || c == '\\' then ['\\', c] else [c]
  }

  function Escape(s: string): string {
    if s == [] then [] else EscapedChar(s[0]) + Escape(s[1..])
  }

  lemma {:induction false} EscapeAppend(a: string, b: string)
    ensures Escape(a + b) == Escape(a) + Escape(b)
    decreases |a|
  {
    if a == [] {
      assert a + b == b;
    } else {
      assert (a + b)[1..] == a[1..] + b;
      EscapeAppend(a[1..], b);
      Concat(EscapedChar(a[0]), Escape(a[1..]), Escape(b));
    }
  }

  method EscapeLikePattern(value: string) returns (escaped: string)
    ensures escaped == Escape(value)
  {
    escaped := [];
    for i := 0 to |value|
      invariant escaped == Escape(value[..i])
    {
      var ch := value[i];
      assert value[..i + 1] == value[..i] + [ch];
      EscapeAppend(value[..i], [ch]);
      assert [ch][1..] == [];
      if ch == '%' || ch == '_' || ch == '\\' {
        escaped := escaped + ['\\'];
      }
      escaped := escaped + [ch];
    }
    assert value[..|value|] == value;
  }

  lemma LikeChar(c: char, rest: string, text: string)
    ensures Like(EscapedChar(c) + rest, text) <==> text != [] && Fold(c) == Fold(text[0]) && Like(rest, text[1..])
  {
    hide Fold;
    var pattern := EscapedChar(c) + rest;
    assert pattern[|EscapedChar(c)|..] == rest;
  }

  lemma EscapeChar(s: string, rest: string)
    requires s != []
    ensures Escape(s) + rest == EscapedChar(s[0]) + (Escape(s[1..]) + rest)
  {
  }

  lemma PercentMatchesAll(text: string)
    ensures Like(Escape("") + "%", text)
  {
    assert "%"[1..] == [] && Escape("") + "%" == "%";
    assert Like("%"[1..], text[|text|..]);
  }

  /** An escaped string followed by % matches the texts that begin with the string. */
  lemma {:induction false} EscapedPrefix(s: string, text: string)
    ensures Like(Escape(s) + "%", text) <==> |s| <= |text| && SameFolded(text[..|s|], s)
    decreases |s|
  {
    if s == [] {
      PercentMatchesAll(text);
    } else {
      hide Like, Escape, EscapedChar, Fold, SameFolded;
      EscapeChar(s, "%");
      LikeChar(s[0], Escape(s[1..]) + "%", text);
      if text != [] {
        EscapedPrefix(s[1..], text[1..]);
        if |s| <= |text| {
          assert text[1..][..|s| - 1] == text[..|s|][1..];
          FoldedHead(text[..|s|], s);
        }
      }
    }
  }

  lemma FoldedHead(a: string, b: string)
    requires |a| == |b| > 0
    ensures SameFolded(a, b) <==> Fold(a[0]) == Fold(b[0]) && SameFolded(a[1..], b[1..])
  {
    if Fold(a[0]) == Fold(b[0]) && SameFolded(a[1..], b[1..]) {
      forall i | 0 <= i < |a|
        ensures Fold(a[i]) == Fold(b[i])
      {
        if i > 0 {
          assert a[i] == a[1..][i - 1] && b[i] == b[1..][i - 1];
        }
      }
    }
  }

  /** Without the %, it matches the string itself. */
  lemma {:induction false} EscapedWhole(s: string, text: string)
    ensures Like(Escape(s), text) <==> SameFolded(text, s)
    decreases |s|
  {
    if s != [] {
      hide Like, Escape, EscapedChar, Fold, SameFolded;
      EscapeChar(s, "");
      assert Escape(s) + "" == Escape(s) && Escape(s[1..]) + "" == Escape(s[1..]);
      LikeChar(s[0], Escape(s[1..]), text);
      SameLength(text, s);
      if text != [] {
        EscapedWhole(s[1..], text[1..]);
        SameLength(text[1..], s[1..]);
        if |s| == |text| {
          FoldedHead(text, s);
        }
      }
    }
  }

  lemma SameLength(a: string, b: string)
    ensures SameFolded(a, b) ==> |a| == |b|
  {
  }

  /** A search pattern finds exactly the texts that contain the search string, whatever wildcard or escape characters
      it holds, up to ASCII case. */
  lemma SearchMeansSubstring(search: string, text: string)
    ensures Like("%" + Escape(search) + "%", text) <==> ContainsFolded(text, search)
  {
    hide Like, Escape, FoundAt, SameFolded;
    var rest := Escape(search) + "%";
    assert "%" + Escape(search) + "%" == "%" + rest;
    LikeAnywhere(rest, text);
    forall k | 0 <= k <= |text|
      ensures Like(rest, text[k..]) <==> FoundAt(text, search, k)
    {
      PrefixAt(search, text, k);
    }
  }

  predicate EndsFolded(text: string, end: string) {
    |end| <= |text| && SameFolded(text[|text| - |end|..], end)
  }

  /** What a search finds. The pattern is cut at a NUL character like everything that is bound, and loses its last %
      with that. */
  predicate Finds(text: string, search: string) {
    if NoNul(search) then ContainsFolded(text, search) else EndsFolded(text, Stored(search))
  }

  lemma {:induction false} EscapeStored(search: string, rest: string)
    ensures NoNul(search) && NoNul(rest) ==> Stored(Escape(search) + rest) == Escape(search) + rest
    ensures !NoNul(search) ==> Stored(Escape(search) + rest) == Escape(Stored(search))
    decreases |search|
  {
    if search == "" {
      assert NoNul("") && Escape("") + rest == rest;
    } else {
      hide Stored, NoNul, Escape;
      var c, tail := search[0], Escape(search[1..]) + rest;
      EscapeStored(search[1..], rest);
      assert search == [c] + search[1..];
      EscapeHead(c, search[1..], rest);
      EscapeHead(c, Stored(search[1..]), "");
      StoredHead(c, search[1..]);
      StoredHead(c, tail);
      StoredHead('\\', [c] + tail);
      assert Escape([c] + Stored(search[1..])) + "" == Escape([c] + Stored(search[1..]));
      assert Escape(Stored(search[1..])) + "" == Escape(Stored(search[1..]));
      EscapeNothing();
    }
  }

  lemma EscapeNothing()
    ensures Escape("") == ""
  {
  }

  lemma EscapeHead(c: char, s: string, rest: string)
    ensures var tail := Escape(s) + rest;
            Escape([c] + s) + rest == if c == '%' || c == '_' || c == '\\' then ['\\'] + ([c] + tail) else [c] + tail
  {
    assert ([c] + s)[1..] == s;
  }

  /** The dashboard's search finds what the pattern that reaches the database matches. */
  lemma SearchFinds(search: string, text: string)
    ensures Like(Stored("%" + Escape(search) + "%"), text) <==> Finds(text, search)
  {
    var rest := Escape(search) + "%";
    assert "%" + Escape(search) + "%" == "%" + rest;
    assert Stored("%" + rest) == "%" + Stored(rest);
    EscapeStored(search, "%");
    hide Like, Escape, ContainsFolded, Stored, SameFolded;
    if NoNul(search) {
      SearchMeansSubstring(search, text);
    } else {
      var end := Stored(search);
      LikeAnywhere(Escape(end), text);
      forall k | 0 <= k <= |text|
        ensures Like(Escape(end), text[k..]) <==> SameFolded(text[k..], end)
      {
        EscapedWhole(end, text[k..]);
      }
      EndsWhere(text, end);
    }
  }

  lemma EndsWhere(text: string, end: string)
    ensures (exists k :: 0 <= k <= |text| && SameFolded(text[k..], end)) <==> EndsFolded(text, end)
  {
    if |end| <= |text| {
      assert text[|text| - |end|..] == text[|text| - |end|..];
    }
  }

  lemma PrefixAt(search: string, text: string, k: nat)
    requires k <= |text|
    ensures Like(Escape(search) + "%", text[k..]) <==> FoundAt(text, search, k)
  {
    hide Like, Escape, SameFolded;
    EscapedPrefix(search, text[k..]);
    if k + |search| <= |text| {
      assert text[k..][..|search|] == text[k..k + |search|];
    }
  }

  lemma LikeAnywhere(rest: string, text: string)
    ensures Like("%" + rest, text) <==> exists k :: 0 <= k <= |text| && Like(rest, text[k..])
  {
    assert ("%" + rest)[1..] == rest;
  }

  // ---- comma-separated ids ----------------------------------------------------------------

  /** GROUP_CONCAT. */
  function Join(ids: seq<string>): string {
    if ids == [] then "" else if |ids| == 1 then ids[0] else ids[0] + "," + Join(ids[1..])
  }

  /** string::find(','), or the length when there is none. */
  function Comma(s: string): (i: nat)
    ensures i <= |s| && ',' !in s[..i] && (i < |s| ==> s[i] == ',')
  {
    if s == [] || s[0] == ',' then 0
    else
      var i := 1 + Comma(s[1..]);
      assert s[..i] == [s[0]] + s[1..][..i - 1];
      i
  }

  lemma {:induction false} CommaIsFirst(s: string, i: nat)
    requires i <= |s| && ',' !in s[..i] && (i < |s| ==> s[i] == ',')
    ensures Comma(s) == i
    decreases i
  {
    if i > 0 {
      assert s[0] in s[..i];
      assert s[1..][..i - 1] == s[..i][1..];
      CommaIsFirst(s[1..], i - 1);
    }
  }

  function Fields(s: string): seq<string>
    decreases |s|
  {
    var i := Comma(s);
    if i == |s| then [s] else [s[..i]] + Fields(s[i + 1..])
  }

  function NonEmpty(fields: seq<string>): seq<string> {
    if fields == [] then [] else (if fields[0] == "" then [] else [fields[0]]) + NonEmpty(fields[1..])
  }

  lemma {:induction false} NonEmptyAppend(a: seq<string>, b: seq<string>)
    ensures NonEmpty(a + b) == NonEmpty(a) + NonEmpty(b)
    decreases |a|
  {
    if a == [] {
      assert a + b == b;
    } else {
      assert (a + b)[1..] == a[1..] + b;
      NonEmptyAppend(a[1..], b);
      var head := if a[0] == "" then [] else [a[0]];
      assert NonEmpty(a + b) == head + (NonEmpty(a[1..]) + NonEmpty(b));
      Concat(head, NonEmpty(a[1..]), NonEmpty(b));
    }
  }

  lemma NonEmptyNone()
    ensures NonEmpty([]) == []
  {
  }

  lemma NonEmptyOne(done: seq<string>, item: string)
    ensures NonEmpty(done + [item]) == NonEmpty(done) + if item == "" then [] else [item]
  {
    NonEmptyAppend(done, [item]);
    assert [item][1..] == [];
  }

  lemma FieldsStep(value: string, start: nat, end: nat)
    requires start <= |value| && end == start + Comma(value[start..])
    ensures end <= |value|
    ensures Fields(value[start..]) == if end == |value| then [value[start..end]]
                                      else [value[start..end]] + Fields(value[end + 1..])
  {
    var rest, i := value[start..], end - start;
    FieldsUnfold(rest);
    hide Fields, Comma;
    assert rest[..i] == value[start..end];
    if end == |value| {
      assert rest[..i] == rest;
    } else {
      assert rest[i + 1..] == value[end + 1..];
    }
  }

  lemma FieldsUnfold(s: string)
    ensures Fields(s) == if Comma(s) == |s| then [s] else [s[..Comma(s)]] + Fields(s[Comma(s) + 1..])
  {
  }

  lemma {:induction false} NonEmptyMembers(fields: seq<string>)
    ensures forall x :: x in NonEmpty(fields) <==> x in fields && x != ""
  {
    if fields != [] {
      NonEmptyMembers(fields[1..]);
      assert fields == [fields[0]] + fields[1..];
    }
  }

  function SplitIds(s: string): seq<string> {
    SortUnique(NonEmpty(Fields(s)), ByText())
  }

  method SplitCommaSeparatedIds(value: string) returns (result: seq<string>)
    ensures result == SplitIds(value)
  {
    hide Fields, NonEmpty, SortUnique, ByText;
    NonEmptyNone();
    assert value[0..] == value;
    result := [];
    ghost var done: seq<string> := [];
    var start := 0;
    while start <= |value|
      invariant 0 <= start <= |value| && result == NonEmpty(done)
      invariant done + Fields(value[start..]) == Fields(value)
      decreases |value| - start
    {
      var end := start + Comma(value[start..]);
      var item := value[start..end];
      FieldsStep(value, start, end);
      NonEmptyOne(done, item);
      if item != "" {
        result := result + [item];
      }
      ghost var rest := if end == |value| then [] else Fields(value[end + 1..]);
      assert done + ([item] + rest) == done + [item] + rest;
      done := done + [item];
      if end == |value| {
        break;
      }
      start := end + 1;
    }
    assert result == NonEmpty(Fields(value));
    result := SortUnique(result, ByText());
  }

  lemma {:induction false} FieldsHaveNoNul(s: string)
    requires NoNul(s)
    ensures forall x :: x in Fields(s) ==> NoNul(x)
    decreases |s|
  {
    var i := Comma(s);
    if i < |s| {
      FieldsHaveNoNul(s[i + 1..]);
    }
  }

  lemma {:induction false} JoinHasNoNul(ids: seq<string>)
    requires forall x :: x in ids ==> NoNul(x)
    ensures NoNul(Join(ids))
  {
    if ids != [] {
      assert ids[0] in ids;
      JoinHasNoNul(ids[1..]);
    }
  }

  /** Texts that hold no NUL character are split into pieces that hold none. */
  lemma SplitHasNoNul(ids: seq<string>)
    requires forall x :: x in ids ==> NoNul(x)
    ensures forall x :: x in SplitIds(Join(ids)) ==> NoNul(x)
  {
    hide NoNul, Join, Fields;
    JoinHasNoNul(ids);
    FieldsHaveNoNul(Join(ids));
    ByTextOrders();
    SortUniqueSorts(NonEmpty(Fields(Join(ids))), ByText());
    NonEmptyMembers(Fields(Join(ids)));
  }

  predicate CleanId(id: string) {
    id != "" && ',' !in id
  }

  lemma JoinHead(ids: seq<string>)
    requires |ids| > 1
    ensures var s, n := Join(ids), |ids[0]|;
            n < |s| && s[..n] == ids[0] && s[n] == ',' && s[n + 1..] == Join(ids[1..])
  {
  }

  lemma FieldsHead(s: string, i: nat)
    requires i < |s| && ',' !in s[..i] && s[i] == ','
    ensures Fields(s) == [s[..i]] + Fields(s[i + 1..])
  {
    FieldsUnfold(s);
    hide Fields;
    CommaIsFirst(s, i);
  }

  lemma FieldsAlone(s: string)
    requires ',' !in s
    ensures Fields(s) == [s]
  {
    FieldsUnfold(s);
    hide Fields;
    assert s[..|s|] == s;
    CommaIsFirst(s, |s|);
  }

  lemma {:induction false} FieldsOfJoin(ids: seq<string>)
    requires ids != [] && forall i :: 0 <= i < |ids| ==> CleanId(ids[i])
    ensures Fields(Join(ids)) == ids
    decreases |ids|
  {
    if |ids| == 1 {
      FieldsAlone(ids[0]);
      assert ids == [ids[0]];
    } else {
      JoinHead(ids);
      FieldsHead(Join(ids), |ids[0]|);
      hide Join, CleanId, Fields;
      FieldsOfJoin(ids[1..]);
      assert ids == [ids[0]] + ids[1..];
    }
  }

  lemma {:induction false} FieldsHaveNoComma(s: string)
    ensures forall x :: x in Fields(s) ==> ',' !in x
    decreases |s|
  {
    var i := Comma(s);
    if i < |s| {
      FieldsHaveNoComma(s[i + 1..]);
    } else {
      assert s[..i] == s;
    }
  }

  /** A stretch of the text without a comma, between two commas or the ends. */
  predicate IsFieldAt(s: string, x: string, i: nat) {
    && i + |x| <= |s| && (forall m :: i <= m < i + |x| ==> s[m] == x[m - i] && s[m] != ',')
    && (i == 0 || s[i - 1] == ',') && (i + |x| == |s| || s[i + |x|] == ',')
  }

  lemma FirstField(s: string, x: string)
    ensures IsFieldAt(s, x, 0) <==> x == s[..Comma(s)]
  {
    hide Comma;
    if IsFieldAt(s, x, 0) {
      assert s[..|x|] == x;
      CommaIsFirst(s, |x|);
    }
  }

  lemma FieldShifts(s: string, n: nat, x: string, i: nat)
    requires 0 < n <= |s| && s[n - 1] == ','
    ensures IsFieldAt(s, x, n + i) <==> IsFieldAt(s[n..], x, i)
  {
    var rest := s[n..];
    if IsFieldAt(rest, x, i) {
      forall m | n + i <= m < n + i + |x|
        ensures s[m] == x[m - (n + i)] && s[m] != ','
      {
        assert rest[m - n] == s[m];
      }
    }
    if IsFieldAt(s, x, n + i) {
      forall m | i <= m < i + |x|
        ensures rest[m] == x[m - i] && rest[m] != ','
      {
        assert s[n + m] == x[n + m - (n + i)];
      }
    }
  }

  /** No field begins inside the first one. */
  lemma NoFieldInside(s: string, x: string, i: nat)
    requires IsFieldAt(s, x, i) && 0 < i
    ensures Comma(s) < i
  {
    hide Comma;
    assert forall m :: 0 <= m < Comma(s) ==> s[..Comma(s)][m] == s[m];
  }

  lemma {:induction false} FieldsMean(s: string, x: string)
    ensures x in Fields(s) <==> exists i: nat :: IsFieldAt(s, x, i)
    decreases |s|
  {
    hide IsFieldAt;
    var n := Comma(s) + 1;
    FirstField(s, x);
    if n <= |s| {
      FieldsMean(s[n..], x);
      if i: nat :| IsFieldAt(s[n..], x, i) {
        FieldShifts(s, n, x, i);
      }
    } else {
      assert s[..Comma(s)] == s;
    }
    if i: nat :| IsFieldAt(s, x, i) {
      if i > 0 {
        NoFieldInside(s, x, i);
        if n <= |s| {
          FieldShifts(s, n, x, i - n);
        } else {
          FieldEnds(s, x, i);
        }
      }
    }
  }

  lemma FieldEnds(s: string, x: string, i: nat)
    requires IsFieldAt(s, x, i)
    ensures i <= |s|
  {
  }

  ghost predicate InTextOrder(ids: seq<string>) {
    forall i, j :: 0 <= i < j < |ids| ==> Precedes(ids[i], ids[j])
  }

  /** The split of any text: its non-empty fields, each once, in the order of their first differing characters. */
  lemma SplitMeans(s: string)
    ensures forall x :: x in SplitIds(s) <==> x != "" && exists i: nat :: IsFieldAt(s, x, i)
    ensures InTextOrder(SplitIds(s))
  {
    hide IsFieldAt, Fields, NonEmpty, SortUnique, StringLess, Precedes;
    ByTextOrders();
    SortUniqueSorts(NonEmpty(Fields(s)), ByText());
    NonEmptyMembers(Fields(s));
    forall x
      ensures x in Fields(s) <==> exists i: nat :: IsFieldAt(s, x, i)
    {
      FieldsMean(s, x);
    }
    var ids := SplitIds(s);
    forall i, j | 0 <= i < j < |ids|
      ensures Precedes(ids[i], ids[j])
    {
      assert ByText()(ids[i], ids[j]);
      StringLessMeans(ids[i], ids[j]);
    }
  }

  /** Whatever was joined, the pieces are non-empty, comma-free, sorted and without repeats. */
  lemma SplitIsClean(s: string)
    ensures StrictlySorted(SplitIds(s), ByText())
    ensures forall x :: x in SplitIds(s) ==> CleanId(x)
  {
    ByTextOrders();
    SortUniqueSorts(NonEmpty(Fields(s)), ByText());
    NonEmptyMembers(Fields(s));
    FieldsHaveNoComma(s);
  }

  /** Splitting a join gives back exactly the ids, sorted, precisely when all of them are non-empty and comma-free. */
  lemma SplitOfJoin(ids: seq<string>)
    ensures (forall x :: x in SplitIds(Join(ids)) <==> x in ids) <==> (forall id :: id in ids ==> CleanId(id))
    ensures StrictlySorted(SplitIds(Join(ids)), ByText())
  {
    SplitIsClean(Join(ids));
    if forall id :: id in ids ==> CleanId(id) {
      ByTextOrders();
      SortUniqueSorts(NonEmpty(Fields(Join(ids))), ByText());
      NonEmptyMembers(Fields(Join(ids)));
      if ids == [] {
        assert Fields("") == [""];
      } else {
        forall i | 0 <= i < |ids|
          ensures CleanId(ids[i])
        {
          assert ids[i] in ids;
        }
        FieldsOfJoin(ids);
      }
    }
  }
}
