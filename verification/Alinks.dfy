/** RPT_ALINKS, the list of adjacent links (vnext/observation.py, parse_alinks), its parser and its printer. */
module Alinks {
  import opened Base
  import opened Models
  import opened Text

  /** One entry; a list of them with distinct names is the ordered map that the parser fills. */
  datatype Alink = Alink(name: string, mode: Mode, keyed: bool)

  const TRUNCATED := "000000"

  /** Up to 64 characters without white space, commas and control characters; never the truncation sentinel. */
  predicate SafeName(name: string) {
    && 1 <= |name| <= 64 && name != "000000"
    && forall i :: 0 <= i < |name| ==> name[i] as int > 0x20 && name[i] as int != 0x7f && name[i] != ','
  }

  function ModeOf(c: char): Option<Mode> {
    if c == 'T' then Some(T) else if c == 'R' then Some(R)
    else if c == 'L' then Some(L) else if c == 'C' then Some(C) else None
  }

  function ModeChar(m: Mode): char
    requires m != UnknownMode
  {
    match m
    case T => 'T'
    case R => 'R'
    case L => 'L'
    case C => 'C'
  }

  ghost predicate DistinctLinks(m: seq<Alink>) {
    forall i, j :: 0 <= i < j < |m| ==> m[i].name != m[j].name
  }

  predicate Unsafe(c: char) {
    IsSpace(c) || c == ',' || c as int <= 0x1f || c as int == 0x7f
  }

  /** The maps that RPT_ALINKS can express. */
  ghost predicate Expressible(m: seq<Alink>) {
    DistinctLinks(m) && forall i :: 0 <= i < |m| ==> SafeName(m[i].name) && m[i].mode != UnknownMode
  }

  // ---- printing ---------------------------------------------------------------------------------

  function Token(a: Alink): string
    requires a.mode != UnknownMode
  {
    a.name + [ModeChar(a.mode), if a.keyed then 'K' else 'U']
  }

  ghost function Tokens(m: seq<Alink>): seq<string>
    requires Expressible(m)
  {
    seq(|m|, i requires 0 <= i < |m| => Token(m[i]))
  }

  ghost function Value(m: seq<Alink>): string
    requires Expressible(m)
  {
    if m == [] then "" else Join([Decimal(|m|)] + Tokens(m), ',')
  }

  // ---- parsing ----------------------------------------------------------------------------------

  predicate Contains(m: seq<Alink>, name: string) {
    exists i :: 0 <= i < |m| && m[i].name == name
  }

  function CheckName(name: string): (r: Result<string>)
    ensures r.Ok? <==> SafeName(name)
    ensures r.Ok? ==> r.value == name
  {
    assert forall i :: 0 <= i < |name| ==> name[i] in name;
    if name == "" || |name| > 64 || (exists c | c in name :: Unsafe(c)) then
      Err(Raised("Malformed adjacent-link identifier"))
    else if name == TRUNCATED then Err(Raised("Truncation sentinel in adjacent-link evidence"))
    else Ok(name)
  }

  function ParseToken(token: string): Result<Alink> {
    if |token| < 3 then Err(Raised("Malformed ALINKS entry"))
    else
      var mode, keyed := ModeOf(token[|token| - 2]), token[|token| - 1];
      var name :- CheckName(token[..|token| - 2]);
      if mode.None? || keyed !in "KU" then Err(Raised("Malformed ALINKS mode/key state"))
      else Ok(Alink(name, mode.value, keyed == 'K'))
  }

  /** Parsing token after token into a map that already holds some entries. */
  function ParseTokens(tokens: seq<string>, done: seq<Alink>): Result<seq<Alink>> {
    if tokens == [] then Ok(done)
    else
      var a :- ParseToken(tokens[0]);
      if Contains(done, a.name) then Err(Raised("Duplicate ALINKS entry"))
      else ParseTokens(tokens[1..], done + [a])
  }

  function Parse(value: string, count: string): Result<seq<Alink>> {
    if !IsCount(count) then Err(Raised("Malformed ALINKS count"))
    else if ToNat(count) == 0 then
      if value != "" then Err(Raised("ALINKS count/value mismatch")) else Ok([])
    else
      var tokens := Split(value, ',');
      if tokens[0] != count || |tokens| != ToNat(count) + 1 then Err(Raised("Truncated or inconsistent ALINKS"))
      else ParseTokens(tokens[1..], [])
  }

  /** The parser's own loop over the tokens, filling the map and leaving early on the first error. */
  method ParseAlinks(value: string, count: string) returns (r: Result<seq<Alink>>)
    ensures r == Parse(value, count)
  {
    if !IsCount(count) {
      return Err(Raised("Malformed ALINKS count"));
    }
    var expected := ToNat(count);
    if expected == 0 {
      return if value != "" then Err(Raised("ALINKS count/value mismatch")) else Ok([]);
    }
    var tokens := Split(value, ',');
    if tokens[0] != count || |tokens| != expected + 1 {
      return Err(Raised("Truncated or inconsistent ALINKS"));
    }
    var result: seq<Alink> := [];
    var i := 1;
    while i < |tokens|
      invariant 1 <= i <= |tokens|
      invariant ParseTokens(tokens[1..], []) == ParseTokens(tokens[i..], result)
    {
      assert tokens[i..][1..] == tokens[i + 1..];
      var entry := ParseToken(tokens[i]);
      if entry.Err? {
        return Err(entry.error);
      }
      if Contains(result, entry.value.name) {
        return Err(Raised("Duplicate ALINKS entry"));
      }
      result := result + [entry.value];
      i := i + 1;
    }
    return Ok(result);
  }

  // ---- two-way inverse --------------------------------------------------------------------------

  /** The name, a letter for the mode, and one for keyed or not. */
  predicate TokenText(token: string, a: Alink) {
    match a.mode
    case T => token == a.name + if a.keyed then "TK" else "TU"
    case R => token == a.name + if a.keyed then "RK" else "RU"
    case L => token == a.name + if a.keyed then "LK" else "LU"
    case C => token == a.name + if a.keyed then "CK" else "CU"
    case UnknownMode => false
  }

  lemma TokenRoundTrip(token: string, a: Alink)
    ensures ParseToken(token) == Ok(a) <==> SafeName(a.name) && a.mode != UnknownMode && token == Token(a)
    ensures ParseToken(token) == Ok(a) <==> SafeName(a.name) && TokenText(token, a)
  {
    if |token| >= 3 {
      assert token == token[..|token| - 2] + [token[|token| - 2], token[|token| - 1]];
    }
  }

  lemma {:induction false} ParseTokensAccepts(m: seq<Alink>, tokens: seq<string>, k: nat)
    requires Expressible(m) && k <= |m| == |tokens|
    requires forall i :: k <= i < |m| ==> tokens[i] == Token(m[i])
    ensures ParseTokens(tokens[k..], m[..k]) == Ok(m)
    decreases |m| - k
  {
    if k < |m| {
      TokenRoundTrip(tokens[k], m[k]);
      assert tokens[k..][1..] == tokens[k + 1..] && m[..k] + [m[k]] == m[..k + 1];
      ParseTokensAccepts(m, tokens, k + 1);
    } else {
      assert m[..k] == m;
    }
  }

  lemma {:induction false} ParseTokensSound(tokens: seq<string>, done: seq<Alink>)
    requires ParseTokens(tokens, done).Ok? && Expressible(done)
    ensures var m := ParseTokens(tokens, done).value;
      && Expressible(m) && |m| == |done| + |tokens| && done <= m
      && forall i :: 0 <= i < |tokens| ==> tokens[i] == Token(m[|done| + i])
    decreases |tokens|
  {
    if tokens != [] {
      var a := ParseToken(tokens[0]).value;
      TokenRoundTrip(tokens[0], a);
      ParseTokensSound(tokens[1..], done + [a]);
      var m := ParseTokens(tokens, done).value;
      forall i | 0 <= i < |tokens| ensures tokens[i] == Token(m[|done| + i]) {
        if i > 0 {
          assert tokens[i] == tokens[1..][i - 1];
        }
      }
    }
  }

  lemma DecimalHasNoComma(n: nat)
    ensures ',' !in Decimal(n)
  {
    CountOfDecimal(n);
  }

  lemma ValueSplits(m: seq<Alink>)
    requires Expressible(m) && m != []
    ensures Split(Value(m), ',') == [Decimal(|m|)] + Tokens(m)
  {
    hide Decimal, Tokens, Split, Join, Expressible;
    DecimalHasNoComma(|m|);
    TokensHaveNoComma(m);
    SplitUndoesJoin([Decimal(|m|)] + Tokens(m), ',');
  }

  lemma TokensHaveNoComma(m: seq<Alink>)
    requires Expressible(m)
    ensures forall i :: 0 <= i < |Tokens(m)| ==> ',' !in Tokens(m)[i]
  {
    hide Token;
    forall i | 0 <= i < |m| ensures ',' !in Tokens(m)[i] {
      TokenHasNoComma(m[i]);
    }
  }

  /** Every expressible map is parsed back from its printed value and count. */
  lemma ParseUndoesPrint(m: seq<Alink>)
    requires Expressible(m)
    ensures Parse(Value(m), Decimal(|m|)) == Ok(m)
  {
    hide Decimal, Token, ToNat, IsCount, ParseTokens, Split;
    CountOfDecimal(|m|);
    if m != [] {
      ValueSplits(m);
      var parts := [Decimal(|m|)] + Tokens(m);
      assert parts[1..] == Tokens(m) && Tokens(m)[0..] == Tokens(m) && m[..0] == [];
      ParseTokensAccepts(m, Tokens(m), 0);
    }
  }

  lemma TokenHasNoComma(a: Alink)
    requires SafeName(a.name) && a.mode != UnknownMode
    ensures ',' !in Token(a)
  {
  }

  /** Whatever is accepted is an expressible map, and printing that map gives the accepted text back. */
  lemma PrintUndoesParse(value: string, count: string)
    requires Parse(value, count).Ok?
    ensures var m := Parse(value, count).value;
      Expressible(m) && value == Value(m) && count == Decimal(|m|)
  {
    DecimalOfCount(count);
    var m := Parse(value, count).value;
    if ToNat(count) > 0 {
      var tokens := Split(value, ',');
      ParseTokensSound(tokens[1..], []);
      JoinUndoesSplit(value, ',');
      assert tokens[1..] == Tokens(m);
      assert tokens == [tokens[0]] + tokens[1..];
    }
  }
}
