/**
 Quoted strings as the game prints them (internal/util/util.go): doubled quotes, arrays of
 three quoted strings, and exactly which strings survive the way through such an array.
 */
module Quotes {
  import V1Rows

  const QUOTE := '"'

  // ---- quotes ----

  function TrimLeft(s: string): string { if s != "" && s[0] == QUOTE then TrimLeft(s[1..]) else s }

  function TrimRight(s: string): string {
    if s != "" && s[|s| - 1] == QUOTE then TrimRight(s[..|s| - 1]) else s
  }

  /** TrimQuotes: no quote is left at either end. */
  function TrimQuotes(s: string): string { TrimRight(TrimLeft(s)) }

  /** FixEscapeQuotes: two quotes become one, from left to right. */
  function FixEscapeQuotes(s: string): string {
    if |s| < 2 then s
    else if s[0] == QUOTE && s[1] == QUOTE then [QUOTE] + FixEscapeQuotes(s[2..])
    else [s[0]] + FixEscapeQuotes(s[1..])
  }

  /** What the game writes for one character of a string. */
  function DoubleOne(c: char): string { if c == QUOTE then [QUOTE, QUOTE] else [c] }

  function Double(s: string): string { if s == "" then "" else DoubleOne(s[0]) + Double(s[1..]) }

  /** Doubling is undone for every string. */
  lemma {:induction false} FixUndoesDouble(s: string)
    ensures FixEscapeQuotes(Double(s)) == s
  {
    if s != "" {
      FixUndoesDouble(s[1..]);
      assert s == [s[0]] + s[1..];
      if s[0] == QUOTE {
        assert Double(s)[2..] == Double(s[1..]);
      } else {
        assert Double(s)[1..] == Double(s[1..]);
      }
    }
  }

  // ---- fields ----

  /** No quote at either end. */
  predicate Bare(s: string) { s != "" ==> s[0] != QUOTE && s[|s| - 1] != QUOTE }

  function Unquote(s: string): string { FixEscapeQuotes(TrimQuotes(s)) }

  lemma FixKeepsEnds(s: string)
    requires Bare(s)
    ensures Bare(FixEscapeQuotes(s))
  {
    if |s| >= 2 {
      FixEnds(s);
    }
  }

  lemma {:induction false} FixEnds(s: string)
    requires s != ""
    ensures var r := FixEscapeQuotes(s); r != "" && r[0] == s[0] && r[|r| - 1] == s[|s| - 1]
  {
    if |s| >= 2 {
      if s[0] == QUOTE && s[1] == QUOTE {
        if |s| > 2 {
          FixEnds(s[2..]);
        }
      } else {
        FixEnds(s[1..]);
      }
    }
  }

  lemma {:induction false} TrimLeftStart(s: string)
    ensures var r := TrimLeft(s); r != "" ==> r[0] != QUOTE
  {
    if s != "" && s[0] == QUOTE {
      TrimLeftStart(s[1..]);
    }
  }

  lemma {:induction false} TrimRightEnds(s: string)
    requires s != "" ==> s[0] != QUOTE
    ensures Bare(TrimRight(s))
  {
    if s != "" && s[|s| - 1] == QUOTE {
      TrimRightEnds(s[..|s| - 1]);
    }
  }

  lemma TrimmedIsBare(s: string)
    ensures Bare(TrimQuotes(s))
  {
    TrimLeftStart(s);
    TrimRightEnds(TrimLeft(s));
  }

  lemma {:induction false} DoubleEnds(s: string)
    requires s != ""
    ensures var d := Double(s); d != "" && d[0] == s[0] && d[|d| - 1] == s[|s| - 1]
  {
    if |s| > 1 {
      DoubleEnds(s[1..]);
    }
  }

  /** At most one quote, before or after a field. */
  predicate Fence(s: string) { s == "" || s == [QUOTE] }

  lemma {:induction false} TrimOnlyQuotes(s: string)
    requires forall i :: 0 <= i < |s| ==> s[i] == QUOTE
    ensures TrimLeft(s) == ""
  {
    if s != "" {
      TrimOnlyQuotes(s[1..]);
    }
  }

  lemma TrimLeftFence(pre: string, t: string)
    requires Fence(pre) && t != "" && t[0] != QUOTE
    ensures TrimLeft(pre + t) == t
  {
    if pre == "" {
      assert pre + t == t;
    } else {
      assert (pre + t)[1..] == t;
    }
  }

  lemma TrimRightFence(t: string, post: string)
    requires Fence(post) && t != "" && t[|t| - 1] != QUOTE
    ensures TrimRight(t + post) == t
  {
    if post == "" {
      assert t + post == t;
    } else {
      assert (t + post)[..|t|] == t;
    }
  }

  lemma TrimFenced(pre: string, a: string, post: string)
    requires Fence(pre) && Fence(post) && Bare(a)
    ensures TrimQuotes(pre + Double(a) + post) == Double(a)
  {
    var d := Double(a);
    if a == "" {
      TrimOnlyQuotes(pre + d + post);
    } else {
      DoubleEnds(a);
      assert pre + d + post == pre + (d + post);
      TrimLeftFence(pre, d + post);
      TrimRightFence(d, post);
    }
  }

  /** A printed field is recovered exactly when it is bare, whatever quotes are left around it. */
  lemma FieldExact(pre: string, a: string, post: string)
    requires Fence(pre) && Fence(post)
    ensures Unquote(pre + Double(a) + post) == a <==> Bare(a)
  {
    if Bare(a) {
      TrimFenced(pre, a, post);
      FixUndoesDouble(a);
    } else {
      TrimmedIsBare(pre + Double(a) + post);
      FixKeepsEnds(TrimQuotes(pre + Double(a) + post));
    }
  }

  // ---- separators ----

  const SEPARATOR := [QUOTE, ',', QUOTE]

  predicate SeparatorAt(s: string, i: nat) {
    i + 3 <= |s| && s[i] == QUOTE && s[i + 1] == ',' && s[i + 2] == QUOTE
  }

  /** The place of the first separator, or the length of s when there is none. */
  function FindSeparator(s: string): (i: nat)
    ensures i == |s| || SeparatorAt(s, i)
    ensures forall j: nat :: j < i ==> !SeparatorAt(s, j)
  {
    if s == "" || SeparatorAt(s, 0) then 0
    else
      var i := FindSeparator(s[1..]) + 1;
      assert forall j: nat :: 0 < j < i ==> (SeparatorAt(s, j) <==> SeparatorAt(s[1..], j - 1));
      i
  }

  /** At most n parts, split at the first separators. */
  function SplitN(s: string, n: nat): seq<string> {
    var i := FindSeparator(s);
    if n <= 1 || i == |s| then [s] else [s[..i]] + SplitN(s[i + 3..], n - 1)
  }

  lemma FirstSeparator(s: string, i: nat)
    requires SeparatorAt(s, i) && forall j: nat :: j < i ==> !SeparatorAt(s, j)
    ensures FindSeparator(s) == i
  {
    assert !(FindSeparator(s) < i);
    assert !(i < FindSeparator(s));
  }

  // ---- commas ----

  function Commas(s: string): nat { if s == "" then 0 else Commas(s[1..]) + if s[0] == ',' then 1 else 0 }

  lemma {:induction false} CommasConcat(s: string, t: string)
    ensures Commas(s + t) == Commas(s) + Commas(t)
  {
    if s == "" {
      assert s + t == t;
    } else {
      assert (s + t)[1..] == s[1..] + t;
      CommasConcat(s[1..], t);
    }
  }

  lemma {:induction false} CommasTrimLeft(s: string)
    ensures Commas(TrimLeft(s)) == Commas(s)
  {
    if s != "" && s[0] == QUOTE {
      CommasTrimLeft(s[1..]);
    }
  }

  lemma {:induction false} CommasTrimRight(s: string)
    ensures Commas(TrimRight(s)) == Commas(s)
  {
    if s != "" && s[|s| - 1] == QUOTE {
      var n := |s| - 1;
      assert s == s[..n] + [QUOTE];
      CommasConcat(s[..n], [QUOTE]);
      assert [QUOTE][1..] == "";
      CommasTrimRight(s[..n]);
    }
  }

  lemma {:induction false} CommasFix(s: string)
    ensures Commas(FixEscapeQuotes(s)) == Commas(s)
  {
    if |s| >= 2 {
      if s[0] == QUOTE && s[1] == QUOTE {
        CommasFix(s[2..]);
        assert s[1..][1..] == s[2..];
      } else {
        CommasFix(s[1..]);
      }
    }
  }

  lemma CommasUnquote(s: string)
    ensures Commas(Unquote(s)) == Commas(s)
  {
    CommasTrimLeft(s);
    CommasTrimRight(TrimLeft(s));
    CommasFix(TrimQuotes(s));
  }

  // ---- where a printed field is cut ----

  /** A quote, or the end of the field: in the text a quote follows either way. */
  predicate QuoteFollows(a: string, i: nat) { i + 1 >= |a| || a[i + 1] == QUOTE }

  /** left tells whether the text before the field ends in a quote. */
  predicate QuotePrecedes(left: bool, a: string, i: nat)
    requires i < |a|
  {
    if i == 0 then left else a[i - 1] == QUOTE
  }

  /** A comma of the field that reads as a separator once the field is printed. */
  predicate Cut(left: bool, a: string) {
    exists i: nat :: i < |a| && a[i] == ',' && QuotePrecedes(left, a, i) && QuoteFollows(a, i)
  }

  lemma CutUnfold(left: bool, a: string)
    requires a != ""
    ensures Cut(left, a) <==> (left && a[0] == ',' && QuoteFollows(a, 0)) || Cut(a[0] == QUOTE, a[1..])
  {
    var rest := a[1..];
    if Cut(left, a) {
      var i: nat :| i < |a| && a[i] == ',' && QuotePrecedes(left, a, i) && QuoteFollows(a, i);
      if i > 0 {
        assert rest[i - 1] == ',' && QuotePrecedes(a[0] == QUOTE, rest, i - 1) && QuoteFollows(rest, i - 1);
      }
    }
    if Cut(a[0] == QUOTE, rest) {
      var i: nat :| i < |rest| && rest[i] == ',' && QuotePrecedes(a[0] == QUOTE, rest, i) && QuoteFollows(rest, i);
      assert a[i + 1] == ',' && QuotePrecedes(left, a, i + 1) && QuoteFollows(a, i + 1);
    }
    if left && a[0] == ',' && QuoteFollows(a, 0) {
      assert QuotePrecedes(left, a, 0);
    }
  }

  function Opening(left: bool): string { if left then [QUOTE] else "" }

  /** A printed field up to the separator behind it, and what follows. */
  function FieldText(left: bool, a: string, rest: string): string { Opening(left) + Double(a) + SEPARATOR + rest }

  /** Where the separator behind the field is. */
  function FieldEnd(left: bool, a: string): nat { |Opening(left)| + |Double(a)| }

  /** The text is searched from its second character on when it does not start with a separator. */
  lemma SearchOn(c: char, t: string)
    requires !SeparatorAt([c] + t, 0)
    ensures FindSeparator([c] + t) == FindSeparator(t) + 1
    ensures Commas(([c] + t)[..FindSeparator(t) + 1])
         == Commas(t[..FindSeparator(t)]) + if c == ',' then 1 else 0
  {
    assert ([c] + t)[1..] == t;
    var k := FindSeparator(t);
    assert ([c] + t)[..k + 1] == [c] + t[..k];
    assert ([c] + t[..k])[1..] == t[..k];
  }

  /** How the field's text starts. */
  lemma FieldTextHead(left: bool, a: string, rest: string)
    ensures left ==> FieldText(left, a, rest) == [QUOTE] + FieldText(false, a, rest)
    ensures a != "" && a[0] == QUOTE ==> FieldText(false, a, rest) == [QUOTE] + FieldText(true, a[1..], rest)
    ensures a != "" && a[0] != QUOTE ==> FieldText(false, a, rest) == [a[0]] + FieldText(false, a[1..], rest)
    ensures a == "" ==> FieldText(false, a, rest) == SEPARATOR + rest
  {
    Without(Double(a), rest);
    if left {
      Split([QUOTE], Double(a), rest);
    }
    if a != "" {
      var d := Double(a[1..]);
      Without(d, rest);
      if a[0] == QUOTE {
        assert Double(a) == [QUOTE] + ([QUOTE] + d);
        Split([QUOTE], [QUOTE] + d, rest);
      } else {
        Split([a[0]], d, rest);
      }
    }
  }

  lemma Without(d: string, rest: string)
    ensures "" + d + SEPARATOR + rest == d + SEPARATOR + rest
  {
    assert "" + d == d;
  }

  lemma Split(p: string, d: string, rest: string)
    ensures p + d + SEPARATOR + rest == p + (d + SEPARATOR + rest)
  {
  }

  lemma FieldTextFirst(a: string, rest: string)
    ensures |FieldText(false, a, rest)| >= 3
    ensures FieldText(false, a, rest)[0] == if a == "" then QUOTE else a[0]
  {
    FieldTextHead(false, a, rest);
  }

  /**
   The first separator of a printed field is the one behind it, unless the field is cut: then
   it comes earlier, and fewer commas than the field has are in front of it.
   */
  ghost predicate FoundWhereExpected(left: bool, a: string, rest: string) {
    var t, k := FieldText(left, a, rest), FindSeparator(FieldText(left, a, rest));
    && k < |t|
    && (!Cut(left, a) ==> k == FieldEnd(left, a))
    && (Cut(left, a) ==> Commas(t[..k]) < Commas(a))
  }

  /** The opening quote and a comma at the start of the field read as a separator. */
  predicate CutAtStart(a: string) { a != "" && a[0] == ',' && QuoteFollows(a, 0) }

  lemma CutBehindOpening(a: string)
    ensures Cut(true, a) <==> CutAtStart(a) || Cut(false, a)
  {
    if a != "" {
      CutUnfold(true, a);
      CutUnfold(false, a);
    }
  }

  lemma CommaThenQuote(a: string, rest: string)
    requires a != "" && a[0] == ','
    ensures FieldText(false, a, rest)[1..] == FieldText(false, a[1..], rest)
    ensures FieldText(false, a[1..], rest) != ""
    ensures FieldText(false, a[1..], rest)[0] == QUOTE <==> QuoteFollows(a, 0)
  {
    FieldTextHead(false, a, rest);
    FieldTextFirst(a[1..], rest);
  }

  lemma SeparatorAtOpening(a: string, rest: string)
    ensures SeparatorAt([QUOTE] + FieldText(false, a, rest), 0) <==> CutAtStart(a)
  {
    var t := FieldText(false, a, rest);
    FieldTextFirst(a, rest);
    assert ([QUOTE] + t)[1] == t[0] && ([QUOTE] + t)[2] == t[1];
    if a != "" && a[0] == ',' {
      CommaThenQuote(a, rest);
      assert t[1] == t[1..][0];
    }
  }

  lemma FieldCutAtStart(a: string, rest: string)
    requires CutAtStart(a)
    ensures FoundWhereExpected(true, a, rest)
  {
    FieldTextHead(true, a, rest);
    SeparatorAtOpening(a, rest);
    CutBehindOpening(a);
    FirstSeparator(FieldText(true, a, rest), 0);
  }

  lemma FieldOpening(a: string, rest: string)
    requires FoundWhereExpected(false, a, rest)
    ensures FoundWhereExpected(true, a, rest)
  {
    if CutAtStart(a) {
      FieldCutAtStart(a, rest);
    } else {
      FieldTextHead(true, a, rest);
      SeparatorAtOpening(a, rest);
      CutBehindOpening(a);
      SearchOn(QUOTE, FieldText(false, a, rest));
    }
  }

  lemma FieldQuote(a: string, rest: string)
    requires a != "" && a[0] == QUOTE && FoundWhereExpected(true, a[1..], rest)
    ensures FoundWhereExpected(false, a, rest)
  {
    var t := FieldText(true, a[1..], rest);
    FieldTextHead(false, a, rest);
    FieldTextHead(true, a[1..], rest);
    CutUnfold(false, a);
    assert ([QUOTE] + t)[1] == t[0] == QUOTE;
    SearchOn(QUOTE, t);
  }

  lemma FieldPlain(a: string, rest: string)
    requires a != "" && a[0] != QUOTE && FoundWhereExpected(false, a[1..], rest)
    ensures FoundWhereExpected(false, a, rest)
  {
    FieldTextHead(false, a, rest);
    CutUnfold(false, a);
    SearchOn(a[0], FieldText(false, a[1..], rest));
  }

  lemma {:induction false} FieldFound(left: bool, a: string, rest: string)
    ensures FoundWhereExpected(left, a, rest)
    decreases |a|, left
  {
    if left {
      FieldFound(false, a, rest);
      FieldOpening(a, rest);
    } else if a == "" {
      FieldTextHead(false, a, rest);
      FirstSeparator(FieldText(false, a, rest), 0);
    } else if a[0] == QUOTE {
      FieldFound(true, a[1..], rest);
      FieldQuote(a, rest);
    } else {
      FieldFound(false, a[1..], rest);
      FieldPlain(a, rest);
    }
  }

  // ---- arrays of three strings ----

  /** unicode.IsSpace */
  predicate IsSpace(c: char) {
    var n := c as int;
    (9 <= n <= 13) || n == 0x20 || n == 0x85 || n == 0xA0 || n == 0x1680 || (0x2000 <= n <= 0x200A)
    || n == 0x2028 || n == 0x2029 || n == 0x202F || n == 0x205F || n == 0x3000
  }

  function TrimSpace(s: string): string {
    if s == "" then s
    else if IsSpace(s[0]) then TrimSpace(s[1..])
    else if IsSpace(s[|s| - 1]) then TrimSpace(s[..|s| - 1])
    else s
  }

  /** Vehicle, weapon and magazine; text that is no array of three is taken for the weapon. */
  function ParseSQFStringArray(text: string): (string, string, string) {
    var s := TrimSpace(text);
    if |s| < 2 || s[0] != '[' || s[|s| - 1] != ']' then ("", s, "")
    else
      var parts := SplitN(s[1..|s| - 1], 3);
      if |parts| != 3 then ("", s, "")
      else (Unquote(parts[0]), Unquote(parts[1]), Unquote(parts[2]))
  }

  predicate Spaces(s: string) { forall k :: 0 <= k < |s| ==> IsSpace(s[k]) }

  /** Only spaces are taken away, and only at the ends; none is left there. */
  lemma {:induction false} TrimSpaceMeans(s: string) returns (left: string, right: string)
    ensures s == left + TrimSpace(s) + right && Spaces(left) && Spaces(right)
    ensures TrimSpace(s) != "" ==> !IsSpace(TrimSpace(s)[0]) && !IsSpace(TrimSpace(s)[|TrimSpace(s)| - 1])
  {
    left, right := "", "";
    if s != "" {
      var n := |s| - 1;
      if IsSpace(s[0]) {
        left, right := TrimSpaceMeans(s[1..]);
        OneLeft(s, left, TrimSpace(s), right);
        left := [s[0]] + left;
      } else if IsSpace(s[n]) {
        left, right := TrimSpaceMeans(s[..n]);
        OneRight(s, left, TrimSpace(s), right);
        right := right + [s[n]];
      }
    }
  }

  lemma OneLeft(s: string, left: string, r: string, right: string)
    requires s != "" && s[1..] == left + r + right
    ensures s == [s[0]] + left + r + right
  {
    assert s == [s[0]] + s[1..];
  }

  lemma OneRight(s: string, left: string, r: string, right: string)
    requires s != "" && s[..|s| - 1] == left + r + right
    ensures s == left + r + (right + [s[|s| - 1]])
  {
    assert s == s[..|s| - 1] + [s[|s| - 1]];
  }

  /** Two separators, one behind the other. */
  ghost predicate TwoSeparators(s: string) {
    exists i: nat, j: nat :: i + 3 <= j && SeparatorAt(s, i) && SeparatorAt(s, j)
  }

  /** Text that is no bracketed list with two separators is taken for the weapon, without the spaces around it. */
  lemma OtherTextIsWeapon(text: string)
    ensures var s := TrimSpace(text);
      !(|s| >= 2 && s[0] == '[' && s[|s| - 1] == ']' && TwoSeparators(s[1..|s| - 1])) ==>
        ParseSQFStringArray(text) == ("", s, "")
  {
    var s := TrimSpace(text);
    if |s| >= 2 && s[0] == '[' && s[|s| - 1] == ']' {
      var fields := s[1..|s| - 1];
      if |SplitN(fields, 3)| == 3 {
        ThreeParts(fields);
      }
    }
  }

  lemma ThreeParts(s: string)
    requires |SplitN(s, 3)| == 3
    ensures TwoSeparators(s)
  {
    var i := FindSeparator(s);
    var rest := s[i + 3..];
    var j := FindSeparator(rest);
    assert |SplitN(rest, 2)| == 2;
    assert SeparatorAt(rest, j);
    assert SeparatorAt(s, i + 3 + j);
  }

  /** The three fields between the brackets of a printed array. */
  function PrintFields(a: string, b: string, c: string): string {
    FieldText(true, a, FieldText(false, b, Double(c) + [QUOTE]))
  }

  /** How the game prints an array of three strings. */
  function PrintArray(a: string, b: string, c: string): string { "[" + PrintFields(a, b, c) + "]" }

  /** The fields that survive: bare ones, and no comma that reads as a separator. */
  ghost predicate Recoverable(a: string, b: string, c: string) {
    Bare(a) && Bare(b) && Bare(c) && !Cut(true, a) && !Cut(false, b)
  }

  lemma SplitFirst(s: string, n: nat)
    requires n > 1 && FindSeparator(s) < |s|
    ensures var k, parts := FindSeparator(s), SplitN(s, n);
      k + 3 <= |s| && parts == [s[..k]] + SplitN(s[k + 3..], n - 1)
  {
  }

  lemma ArrayFields(a: string, b: string, c: string)
    ensures ParseSQFStringArray(PrintArray(a, b, c))
         == var parts := SplitN(PrintFields(a, b, c), 3);
            if |parts| != 3 then ("", PrintArray(a, b, c), "")
            else (Unquote(parts[0]), Unquote(parts[1]), Unquote(parts[2]))
  {
    var s, fields := PrintArray(a, b, c), PrintFields(a, b, c);
    assert s[0] == '[' && s[|s| - 1] == ']' && |s| >= 2;
    assert TrimSpace(s) == s;
    assert s[1..|s| - 1] == fields;
  }

  /** The text of an uncut field, taken apart. */
  lemma UncutField(left: bool, a: string, rest: string)
    requires !Cut(left, a)
    ensures var t := FieldText(left, a, rest); var k := FindSeparator(t);
      k + 3 <= |t| && t[..k] == Opening(left) + Double(a) && t[k + 3..] == rest
  {
    FieldFound(left, a, rest);
    var t, field := FieldText(left, a, rest), Opening(left) + Double(a);
    assert t == field + (SEPARATOR + rest);
    assert t[..|field|] == field;
    assert t[|field| + 3..] == rest;
  }

  /** Cut at the wrong place, a field comes back with fewer commas. */
  lemma CutField(left: bool, a: string, rest: string)
    requires Cut(left, a)
    ensures var t := FieldText(left, a, rest); var k := FindSeparator(t);
      k < |t| && Unquote(t[..k]) != a && a != ""
  {
    FieldFound(left, a, rest);
    var t := FieldText(left, a, rest);
    CommasUnquote(t[..FindSeparator(t)]);
  }

  /** The first part of a field's text is the field exactly when it is bare and not cut. */
  lemma FieldBack(left: bool, a: string, rest: string)
    ensures var t := FieldText(left, a, rest); var k := FindSeparator(t);
      && k < |t| && k + 3 <= |t|
      && (Unquote(t[..k]) == a <==> Bare(a) && !Cut(left, a))
      && (Cut(left, a) ==> a != "")
      && (!Cut(left, a) ==> t[k + 3..] == rest)
  {
    FieldFound(left, a, rest);
    if Cut(left, a) {
      CutField(left, a, rest);
    } else {
      UncutField(left, a, rest);
      FieldExact(Opening(left), a, "");
      assert Opening(left) + Double(a) + "" == Opening(left) + Double(a);
    }
  }

  lemma LastField(c: string)
    ensures Unquote(Double(c) + [QUOTE]) == c <==> Bare(c)
  {
    FieldExact("", c, [QUOTE]);
    assert "" + Double(c) == Double(c);
  }

  /** The middle and the last field, once the first one is found. */
  lemma LastTwo(b: string, c: string, t: string)
    requires t == FieldText(false, b, Double(c) + [QUOTE])
    ensures var parts := SplitN(t, 2);
      && |parts| == 2
      && (Unquote(parts[0]) == b && Unquote(parts[1]) == c <==> Bare(b) && Bare(c) && !Cut(false, b))
  {
    FieldBack(false, b, Double(c) + [QUOTE]);
    SplitFirst(t, 2);
    LastField(c);
  }

  /**
   Printing three strings and parsing the array gives the three strings back if and only if no
   field starts or ends with a quote and no comma of the first two reads as a separator.
   */
  lemma RoundTripExact(a: string, b: string, c: string)
    ensures ParseSQFStringArray(PrintArray(a, b, c)) == (a, b, c) <==> Recoverable(a, b, c)
  {
    var rest := FieldText(false, b, Double(c) + [QUOTE]);
    ArrayFields(a, b, c);
    FieldBack(true, a, rest);
    SplitFirst(PrintFields(a, b, c), 3);
    LastTwo(b, c, rest);
  }

  /** No quote next to a comma. */
  ghost predicate CommasApart(a: string) {
    forall i :: 0 < i < |a| ==> !(a[i - 1] == QUOTE && a[i] == ',') && !(a[i - 1] == ',' && a[i] == QUOTE)
  }

  /** A simpler condition that is enough. */
  lemma PlainFieldsRoundTrip(a: string, b: string, c: string)
    requires Bare(a) && Bare(b) && Bare(c)
    requires CommasApart(a) && CommasApart(b) && (a != "" ==> a[0] != ',')
    ensures ParseSQFStringArray(PrintArray(a, b, c)) == (a, b, c)
  {
    RoundTripExact(a, b, c);
  }

  // ---- weapon text ----

  /** FormatWeaponText: empty parts are left out. */
  method FormatWeaponText(vehicle: string, weapon: string, magazine: string) returns (b: string)
    ensures b == V1Rows.WeaponText(vehicle, weapon, magazine)
  {
    b := "";
    if vehicle != "" {
      b := b + vehicle;
      if weapon != "" {
        b := b + ": ";
      }
    }
    b := b + weapon;
    if magazine != "" {
      b := b + " [";
      b := b + magazine;
      b := b + "]";
    }
    assert "" + vehicle == vehicle;
  }
}
