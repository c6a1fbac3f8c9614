/**
  The canonical text under which an idempotency key is bound (vnext/ledger.py, Ledger.canonical): compact
  JSON with sorted members and ASCII-only escapes, in the string syntax of section 7 of RFC 8259.
 */
module CanonicalJson {
  import opened Base
  import opened Models

  type Pairs = seq<(string, string)>

  function HexDigit(n: nat): char
    requires n < 16
  {
    "0123456789abcdef"[n]
  }

  function UnicodeEscape(n: nat): string
    requires n < 0x1_0000
  {
    ['\\', 'u', HexDigit(n / 0x1000), HexDigit(n / 0x100 % 16), HexDigit(n / 16 % 16), HexDigit(n % 16)]
  }

  /** The two-character escapes; the second character, or a blank where there is none. */
  function Short(c: char): char {
    if c == '\"' then '\"'
    else if c == '\\' then '\\'
    else if c == '\n' then 'n'
    else if c == '\r' then 'r'
    else if c == '\t' then 't'
    else if c as int == 0x0c then 'f'
    else if c as int == 0x08 then 'b'
    else ' '
  }

  function Escape(c: char): string {
    if Short(c) != ' ' then ['\\', Short(c)]
    else if ' ' <= c <= '~' then [c]
    else if (c as int) < 0x1_0000 then UnicodeEscape(c as int)
    else UnicodeEscape(0xd800 + (c as int - 0x1_0000) / 0x400) + UnicodeEscape(0xdc00 + (c as int - 0x1_0000) % 0x400)
  }

  /** The characters of a JSON string after its opening quote. */
  function Quoted(s: string): string {
    if s == "" then "\"" else Escape(s[0]) + Quoted(s[1..])
  }

  function Text(s: string): string {
    "\"" + Quoted(s)
  }

  /** The members of an object after its opening brace. */
  function Members(ps: Pairs): string
    decreases |ps|, 1
  {
    if ps == [] then "}" else Member(ps[0]) + Rest(ps)
  }

  function Member(p: (string, string)): string {
    Text(p.0) + ":" + Text(p.1)
  }

  function Rest(ps: Pairs): string
    requires ps != []
    decreases |ps|, 0
  {
    if |ps| == 1 then "}" else "," + Members(ps[1..])
  }

  // ---- member order -----------------------------------------------------------------------------

  /** Python's order on strings: by code point, a proper prefix first. */
  predicate AtMost(a: string, b: string) {
    a == "" || (b != "" && (a[0] < b[0] || (a[0] == b[0] && AtMost(a[1..], b[1..]))))
  }

  lemma {:induction false} AtMostTotal(a: string, b: string)
    ensures AtMost(a, b) || AtMost(b, a)
    ensures AtMost(a, b) && AtMost(b, a) ==> a == b
  {
    if a != "" && b != "" && a[0] == b[0] {
      AtMostTotal(a[1..], b[1..]);
      assert a == [a[0]] + a[1..] && b == [b[0]] + b[1..];
    }
  }

  lemma {:induction false} AtMostTransitive(a: string, b: string, c: string)
    requires AtMost(a, b) && AtMost(b, c)
    ensures AtMost(a, c)
  {
    if a != "" && a[0] == b[0] == c[0] {
      AtMostTransitive(a[1..], b[1..], c[1..]);
    }
  }

  predicate IsFirst(keys: set<string>, k: string) {
    k in keys && forall o :: o in keys ==> AtMost(k, o)
  }

  lemma {:induction false} FirstExists(keys: set<string>)
    requires keys != {}
    ensures exists k :: IsFirst(keys, k)
    decreases |keys|
  {
    var x :| x in keys;
    var rest := keys - {x};
    AtMostTotal(x, x);
    if rest == {} {
      assert keys == {x};
      assert IsFirst(keys, x);
    } else {
      FirstExists(rest);
      var y :| IsFirst(rest, y);
      AtMostTotal(x, y);
      var k := if AtMost(x, y) then x else y;
      forall o | o in keys ensures AtMost(k, o) {
        if o in rest && k == x {
          AtMostTransitive(x, y, o);
        }
      }
      assert IsFirst(keys, k);
    }
  }

  function FirstKey(keys: set<string>): (k: string)
    requires keys != {}
    ensures IsFirst(keys, k)
  {
    FirstExists(keys);
    assert forall a, b :: IsFirst(keys, a) && IsFirst(keys, b) ==> a == b by {
      forall a, b | IsFirst(keys, a) && IsFirst(keys, b) ensures a == b {
        AtMostTotal(a, b);
      }
    }
    var k :| k in keys && IsFirst(keys, k);
    k
  }

  function SortedPairs(m: Request): Pairs
    decreases |m|
  {
    if m == map[] then []
    else
      var k := FirstKey(m.Keys);
      assert |m - {k}| < |m| by { assert (m - {k}).Keys == m.Keys - {k}; }
      [(k, m[k])] + SortedPairs(m - {k})
  }

  function KindText(kind: Kind): string {
    match kind
    case LinkNode => "link_node"
    case UnlinkNode => "unlink_node"
    case UnlinkAll => "unlink_all"
    case Announce => "announce"
  }

  function Canonical(kind: Kind, request: Request): string {
    "{\"kind\":" + Text(KindText(kind)) + ",\"request\":{" + (Members(SortedPairs(request)) + "}")
  }

  // ---- unique readability -----------------------------------------------------------------------

  /** Both texts begin alike, so what follows the common part is equal too. */
  function HexValue(c: char): int {
    if '0' <= c <= '9' then c as int - 48 else c as int - 87
  }

  lemma DigitReadable(n: nat)
    requires n < 16
    ensures HexValue(HexDigit(n)) == n
  {
  }

  lemma HexSplits(n: nat)
    requires n < 0x1_0000
    ensures n / 0x1000 < 16
    ensures n == n / 0x1000 * 0x1000 + n / 0x100 % 16 * 0x100 + n / 16 % 16 * 16 + n % 16
  {
    assert n / 16 == n / 0x100 * 16 + n / 16 % 16;
    assert n / 0x100 == n / 0x1000 * 16 + n / 0x100 % 16;
  }

  lemma HexReadable(n: nat)
    requires n < 0x1_0000
    ensures var e := UnicodeEscape(n);
      n == HexValue(e[2]) * 0x1000 + HexValue(e[3]) * 0x100 + HexValue(e[4]) * 16 + HexValue(e[5])
  {
    hide HexValue, HexDigit;
    HexSplits(n);
    DigitReadable(n / 0x1000);
    DigitReadable(n / 0x100 % 16);
    DigitReadable(n / 16 % 16);
    DigitReadable(n % 16);
  }

  /** The code point that an escape at the start of a text stands for, and how long the escape is. */
  ghost function Unescape(t: string): (int, int)
    requires t != ""
  {
    if t[0] != '\\' then (t[0] as int, 1)
    else if |t| < 2 then (-1, 0)
    else if t[1] == 'n' then (0x0a, 2)
    else if t[1] == 'r' then (0x0d, 2)
    else if t[1] == 't' then (0x09, 2)
    else if t[1] == 'f' then (0x0c, 2)
    else if t[1] == 'b' then (0x08, 2)
    else if t[1] != 'u' || |t| < 6 then (t[1] as int, 2)
    else
      var unit := HexValue(t[2]) * 0x1000 + HexValue(t[3]) * 0x100 + HexValue(t[4]) * 16 + HexValue(t[5]);
      if !(0xd800 <= unit < 0xdc00) || |t| < 12 then (unit, 6)
      else
        var low := HexValue(t[8]) * 0x1000 + HexValue(t[9]) * 0x100 + HexValue(t[10]) * 16 + HexValue(t[11]);
        (0x1_0000 + (unit - 0xd800) * 0x400 + (low - 0xdc00), 12)
  }

  lemma UnitReadable(n: nat, x: string)
    requires n < 0x1_0000 && !(0xd800 <= n < 0xdc00)
    ensures Unescape(UnicodeEscape(n) + x) == (n, 6)
  {
    var e, t := UnicodeEscape(n), UnicodeEscape(n) + x;
    HexReadable(n);
    assert t[0] == '\\' && t[1] == 'u' && t[2] == e[2] && t[3] == e[3] && t[4] == e[4] && t[5] == e[5];
  }

  lemma PairReadable(high: nat, low: nat, x: string)
    requires 0xd800 <= high < 0xdc00 && low < 0x1_0000
    ensures Unescape(UnicodeEscape(high) + UnicodeEscape(low) + x)
      == (0x1_0000 + (high - 0xd800) * 0x400 + (low - 0xdc00), 12)
  {
    var e, f, t := UnicodeEscape(high), UnicodeEscape(low), UnicodeEscape(high) + UnicodeEscape(low) + x;
    HexReadable(high);
    HexReadable(low);
    assert t[0] == '\\' && t[1] == 'u' && t[2] == e[2] && t[3] == e[3] && t[4] == e[4] && t[5] == e[5];
    assert t[8] == f[2] && t[9] == f[3] && t[10] == f[4] && t[11] == f[5];
  }

  lemma ShortReadable(c: char, x: string)
    requires Short(c) != ' '
    ensures Unescape(['\\', Short(c)] + x) == (c as int, 2)
  {
    var t := ['\\', Short(c)] + x;
    assert t[0] == '\\' && t[1] == Short(c);
  }

  lemma EscapeReadable(c: char, x: string)
    ensures Unescape(Escape(c) + x) == (c as int, |Escape(c)|)
    ensures Escape(c) != "" && Escape(c)[0] != '\"'
  {
    var n := c as int;
    if Short(c) != ' ' {
      ShortReadable(c, x);
    } else if ' ' <= c <= '~' {
    } else if n < 0x1_0000 {
      UnitReadable(n, x);
    } else {
      var offset := n - 0x1_0000;
      PairReadable(0xd800 + offset / 0x400, 0xdc00 + offset % 0x400, x);
      assert offset / 0x400 * 0x400 + offset % 0x400 == offset;
    }
  }

  lemma OnlyEmptyEnds(b: string, x: string, y: string)
    requires Quoted("") + x == Quoted(b) + y
    ensures b == "" && x == y
  {
    hide Escape, Unescape;
    assert (Quoted(b) + y)[0] == '\"';
    if b == "" {
      Cancel("\"", x, y);
    } else {
      EscapeReadable(b[0], "");
    }
  }

  lemma {:induction false} QuotedReadable(a: string, b: string, x: string, y: string)
    requires Quoted(a) + x == Quoted(b) + y
    ensures a == b && x == y
    decreases |a|
  {
    hide Escape, Unescape;
    if a == "" {
      OnlyEmptyEnds(b, x, y);
    } else if b == "" {
      OnlyEmptyEnds(a, y, x);
    } else {
      var ra, rb := Quoted(a[1..]) + x, Quoted(b[1..]) + y;
      assert Quoted(a) + x == Escape(a[0]) + ra && Quoted(b) + y == Escape(b[0]) + rb;
      EscapeReadable(a[0], ra);
      EscapeReadable(b[0], rb);
      assert a[0] == b[0];
      Cancel(Escape(a[0]), ra, rb);
      QuotedReadable(a[1..], b[1..], x, y);
      assert a == [a[0]] + a[1..] && b == [b[0]] + b[1..];
    }
  }

  lemma TextReadable(a: string, b: string, x: string, y: string)
    requires Text(a) + x == Text(b) + y
    ensures a == b && x == y
  {
    Regroup("\"", Quoted(a), x);
    Regroup("\"", Quoted(b), y);
    Cancel("\"", Quoted(a) + x, Quoted(b) + y);
    QuotedReadable(a, b, x, y);
  }

  lemma MemberReadable(p: (string, string), q: (string, string), x: string, y: string)
    requires Member(p) + x == Member(q) + y
    ensures p == q && x == y
  {
    assert Member(p) + x == Text(p.0) + (":" + (Text(p.1) + x)) by {
      Regroup(Text(p.0) + ":", Text(p.1), x);
      Regroup(Text(p.0), ":", Text(p.1) + x);
    }
    assert Member(q) + y == Text(q.0) + (":" + (Text(q.1) + y)) by {
      Regroup(Text(q.0) + ":", Text(q.1), y);
      Regroup(Text(q.0), ":", Text(q.1) + y);
    }
    TextReadable(p.0, q.0, ":" + (Text(p.1) + x), ":" + (Text(q.1) + y));
    Cancel(":", Text(p.1) + x, Text(q.1) + y);
    TextReadable(p.1, q.1, x, y);
  }

  lemma {:induction false} MembersReadable(p: Pairs, q: Pairs, x: string, y: string)
    requires Members(p) + x == Members(q) + y
    ensures p == q && x == y
    decreases |p|
  {
    assert (Members(p) + x)[0] == (Members(q) + y)[0];
    if p == [] || q == [] {
      assert p == [] && q == [];
      Cancel("}", x, y);
    } else {
      Regroup(Member(p[0]), Rest(p), x);
      Regroup(Member(q[0]), Rest(q), y);
      MemberReadable(p[0], q[0], Rest(p) + x, Rest(q) + y);
      assert (Rest(p) + x)[0] == (Rest(q) + y)[0];
      if |p| == 1 {
        Cancel("}", x, y);
      } else {
        Regroup(",", Members(p[1..]), x);
        Regroup(",", Members(q[1..]), y);
        Cancel(",", Members(p[1..]) + x, Members(q[1..]) + y);
        MembersReadable(p[1..], q[1..], x, y);
      }
      assert p == [p[0]] + p[1..] && q == [q[0]] + q[1..];
    }
  }

  ghost function FromPairs(ps: Pairs): Request {
    if ps == [] then map[] else FromPairs(ps[1..])[ps[0].0 := ps[0].1]
  }

  lemma {:induction false} SortedPairsRestore(m: Request)
    ensures FromPairs(SortedPairs(m)) == m
    decreases |m|
  {
    if m != map[] {
      var k := FirstKey(m.Keys);
      assert (m - {k}).Keys == m.Keys - {k};
      SortedPairsRestore(m - {k});
      assert SortedPairs(m)[1..] == SortedPairs(m - {k});
      assert m == (m - {k})[k := m[k]];
    }
  }

  /** Members come out in strictly ascending key order, whatever order the request was built in. */
  lemma {:induction false} SortedPairsAscend(m: Request, i: nat, j: nat)
    requires i < j < |SortedPairs(m)|
    ensures AtMost(SortedPairs(m)[i].0, SortedPairs(m)[j].0) && SortedPairs(m)[i].0 != SortedPairs(m)[j].0
    decreases |m|
  {
    var k := FirstKey(m.Keys);
    assert (m - {k}).Keys == m.Keys - {k};
    if i == 0 {
      PairsAreMembers(m - {k}, j - 1);
    } else {
      SortedPairsAscend(m - {k}, i - 1, j - 1);
    }
  }

  lemma {:induction false} PairsAreMembers(m: Request, i: nat)
    requires i < |SortedPairs(m)|
    ensures SortedPairs(m)[i].0 in m
    decreases |m|
  {
    var k := FirstKey(m.Keys);
    assert (m - {k}).Keys == m.Keys - {k};
    if i > 0 {
      PairsAreMembers(m - {k}, i - 1);
    }
  }

  /** Two requests share their canonical text exactly when they are the same request. */
  lemma CanonicalInjective(k1: Kind, r1: Request, k2: Kind, r2: Request)
    ensures Canonical(k1, r1) == Canonical(k2, r2) <==> k1 == k2 && r1 == r2
  {
    if Canonical(k1, r1) == Canonical(k2, r2) {
      var open, mid := "{\"kind\":", ",\"request\":{";
      var b1, b2 := Members(SortedPairs(r1)) + "}", Members(SortedPairs(r2)) + "}";
      Regroup(open + Text(KindText(k1)), mid, b1);
      Regroup(open, Text(KindText(k1)), mid + b1);
      Regroup(open + Text(KindText(k2)), mid, b2);
      Regroup(open, Text(KindText(k2)), mid + b2);
      Cancel(open, Text(KindText(k1)) + (mid + b1), Text(KindText(k2)) + (mid + b2));
      TextReadable(KindText(k1), KindText(k2), mid + b1, mid + b2);
      Cancel(mid, b1, b2);
      MembersReadable(SortedPairs(r1), SortedPairs(r2), "}", "}");
      SortedPairsRestore(r1);
      SortedPairsRestore(r2);
    }
  }
}
