/** Splitting and joining text, decimal counts, and whitespace-separated fields. */
module Text {
  import opened Base
  import opened Models

  // ---- separators -------------------------------------------------------------------------------

  /** Position of the first c, or the length when there is none. */
  function IndexOf(s: string, c: char): (i: nat)
    ensures i <= |s| && (i < |s| ==> s[i] == c) && forall k :: 0 <= k < i ==> s[k] != c
  {
    if s == "" || s[0] == c then 0 else 1 + IndexOf(s[1..], c)
  }

  function Split(s: string, c: char): (parts: seq<string>)
    ensures parts != []
  {
    var i := IndexOf(s, c);
    if i == |s| then [s] else [s[..i]] + Split(s[i + 1..], c)
  }

  function Join(parts: seq<string>, c: char): string {
    if parts == [] then "" else if |parts| == 1 then parts[0] else parts[0] + [c] + Join(parts[1..], c)
  }

  lemma IndexOfFirst(a: string, c: char, b: string)
    requires c !in a
    ensures IndexOf(a + [c] + b, c) == |a|
  {
    var s := a + [c] + b;
    assert s[|a|] == c;
    assert forall k :: 0 <= k < |a| ==> s[k] == a[k];
  }

  lemma {:induction false} SplitUndoesJoin(parts: seq<string>, c: char)
    requires parts != [] && forall i :: 0 <= i < |parts| ==> c !in parts[i]
    ensures Split(Join(parts, c), c) == parts
  {
    if |parts| > 1 {
      var rest := Join(parts[1..], c);
      IndexOfFirst(parts[0], c, rest);
      SplitUndoesJoin(parts[1..], c);
      var s := parts[0] + [c] + rest;
      assert s[..|parts[0]|] == parts[0] && s[|parts[0]| + 1..] == rest;
    }
  }

  lemma {:induction false} JoinUndoesSplit(s: string, c: char)
    ensures Join(Split(s, c), c) == s
    decreases |s|
  {
    hide Split, Join, IndexOf;
    var i := IndexOf(s, c);
    SplitStep(s, c);
    JoinOne(s, c);
    if i < |s| {
      JoinUndoesSplit(s[i + 1..], c);
      JoinStep(s[..i], Split(s[i + 1..], c), c);
      assert s == s[..i] + [c] + s[i + 1..];
    }
  }

  lemma SplitStep(s: string, c: char)
    ensures var i := IndexOf(s, c);
      Split(s, c) == if i == |s| then [s] else [s[..i]] + Split(s[i + 1..], c)
  {
    hide IndexOf;
  }

  lemma JoinOne(s: string, c: char)
    ensures Join([s], c) == s
  {
  }

  lemma JoinStep(part: string, rest: seq<string>, c: char)
    requires rest != []
    ensures Join([part] + rest, c) == part + [c] + Join(rest, c)
  {
    assert ([part] + rest)[1..] == rest;
  }

  // ---- decimal counts ---------------------------------------------------------------------------

  /** The language 0|[1-9][0-9]* of canonical counts. */
  predicate IsCount(s: string) {
    s == "0" || (s != "" && s[0] != '0' && AllDigits(s))
  }

  predicate Digits(s: string) {
    s != "" && forall i :: 0 <= i < |s| ==> '0' <= s[i] <= '9'
  }

  function DigitValue(c: char): int {
    c as int - '0' as int
  }

  function ToNat(s: string): nat
    requires AllDigits(s)
  {
    if s == "" then 0 else ToNat(Init(s)) * 10 + DigitValue(Last(s))
  }

  function Decimal(n: nat): string {
    if n < 10 then ["0123456789"[n]] else Decimal(n / 10) + ["0123456789"[n % 10]]
  }

  lemma {:induction false} CountOfDecimal(n: nat)
    ensures IsCount(Decimal(n)) && ToNat(Decimal(n)) == n
  {
    if n >= 10 {
      CountOfDecimal(n / 10);
      assert Init(Decimal(n)) == Decimal(n / 10);
    }
  }

  lemma {:induction false} DecimalOfCount(s: string)
    requires IsCount(s)
    ensures Decimal(ToNat(s)) == s && (s != "0" ==> ToNat(s) > 0)
  {
    if |s| > 1 {
      DecimalOfCount(Init(s));
      assert s == Init(s) + [Last(s)];
    } else {
      assert Init(s) == "";
    }
  }

  // ---- fields separated by ASCII whitespace -----------------------------------------------------

  predicate IsSpace(c: char) {
    c in " \t\n\r" || c as int == 0x0b || c as int == 0x0c
  }

  lemma SpaceDecided(c: char)
    ensures IsSpace(c) <==> 9 <= c as int <= 13 || c as int == 32
  {
  }

  predicate Word(s: string) {
    s != "" && forall i :: 0 <= i < |s| ==> !IsSpace(s[i])
  }

  predicate Blank(s: string) {
    forall i :: 0 <= i < |s| ==> IsSpace(s[i])
  }

  /** Length of the longest prefix whose characters are all spaces, or all not. */
  function Span(s: string, space: bool): (n: nat)
    ensures n <= |s| && (forall k :: 0 <= k < n ==> IsSpace(s[k]) == space) && (n < |s| ==> IsSpace(s[n]) != space)
  {
    if s == "" || IsSpace(s[0]) != space then 0 else 1 + Span(s[1..], space)
  }

  /** The words of a text that starts with one. */
  function Words(s: string): seq<string> {
    if s == "" || IsSpace(s[0]) then []
    else
      var n := Span(s, false);
      var rest := s[n..];
      [s[..n]] + Words(rest[Span(rest, true)..])
  }

  /** The expression (\S+)\s+ ... \s+(\S+)\s* with one group per word. */
  ghost predicate Spaced(s: string, words: seq<string>)
    decreases |words|
  {
    && words != [] && Word(words[0])
    && if |words| == 1 then exists blank :: Blank(blank) && s == words[0] + blank
       else exists blank, rest ::
         Blank(blank) && blank != "" && s == words[0] + blank + rest && Spaced(rest, words[1..])
  }

  lemma SpanOf(a: string, b: string, space: bool)
    requires forall k :: 0 <= k < |a| ==> IsSpace(a[k]) == space
    requires b == "" || IsSpace(b[0]) != space
    ensures Span(a + b, space) == |a|
  {
    var s := a + b;
    assert forall k :: 0 <= k < |a| ==> s[k] == a[k];
    if b != "" {
      assert s[|a|] == b[0];
    }
  }

  lemma WordsStep(word: string, blank: string, rest: string)
    requires Word(word) && Blank(blank) && (blank == "" ==> rest == "") && (rest == "" || !IsSpace(rest[0]))
    ensures Words(word + blank + rest) == [word] + Words(rest)
  {
    var s := word + (blank + rest);
    assert word + blank + rest == s;
    SpanOf(word, blank + rest, false);
    assert s[..|word|] == word && s[|word|..] == blank + rest && s[0] == word[0];
    SpanOf(blank, rest, true);
    assert (blank + rest)[|blank|..] == rest;
  }

  lemma {:induction false} SpacedHasWords(s: string, words: seq<string>)
    requires Spaced(s, words)
    ensures Words(s) == words
    decreases |words|
  {
    if |words| == 1 {
      var blank :| Blank(blank) && s == words[0] + blank;
      WordsStep(words[0], blank, "");
      assert words[0] + blank + "" == s && Words("") == [];
    } else {
      var blank, rest :| Blank(blank) && blank != "" && s == words[0] + blank + rest && Spaced(rest, words[1..]);
      SpacedStarts(rest, words[1..]);
      SpacedHasWords(rest, words[1..]);
      WordsStep(words[0], blank, rest);
      assert words == [words[0]] + words[1..];
    }
  }

  lemma SpacedStarts(s: string, words: seq<string>)
    requires Spaced(s, words)
    ensures s != "" && !IsSpace(s[0])
  {
    if |words| == 1 {
      var blank :| Blank(blank) && s == words[0] + blank;
    } else {
      var blank, rest :| Blank(blank) && blank != "" && s == words[0] + blank + rest && Spaced(rest, words[1..]);
      assert s[0] == words[0][0];
    }
  }

  /** A text with words is its first one, the blanks behind it, and the text of the others. */
  lemma FirstWord(s: string) returns (blank: string, rest: string)
    requires Words(s) != []
    ensures s == Words(s)[0] + blank + rest && Words(s)[1..] == Words(rest) && |rest| < |s|
    ensures Word(Words(s)[0]) && Blank(blank) && (rest == "" <==> Words(rest) == [])
    ensures rest != "" ==> blank != ""
  {
    hide Span, IsSpace;
    var n := Span(s, false);
    var tail := s[n..];
    var m := Span(tail, true);
    blank, rest := tail[..m], tail[m..];
    assert s == s[..n] + blank + rest;
    assert Words(s) == [s[..n]] + Words(rest);
  }

  lemma {:induction false} WordsMakeSpaced(s: string)
    requires Words(s) != []
    ensures Spaced(s, Words(s))
    decreases |s|
  {
    var blank, rest := FirstWord(s);
    if rest != "" {
      WordsMakeSpaced(rest);
    } else {
      assert s == Words(s)[0] + blank;
    }
  }

  /** Taking a text apart into words accepts exactly what the expression accepts, with the same groups. */
  lemma WordsAreSpaced(s: string, words: seq<string>)
    ensures Spaced(s, words) <==> words != [] && Words(s) == words
  {
    hide Words;
    if Spaced(s, words) {
      SpacedHasWords(s, words);
    }
    if words != [] && Words(s) == words {
      WordsMakeSpaced(s);
    }
  }
}
