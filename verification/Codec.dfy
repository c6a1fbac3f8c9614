/** AMI text on the wire: writing an action, finding a frame in a stream, reading its headers (vnext/transport.py). */
module Codec {
  import opened Base
  import opened Ami
  import opened Text

  type Header = (string, string)

  const END := "\r\n\r\n"
  const LIMIT := 262144

  // ---- writing ----------------------------------------------------------------------------------

  function Line(h: Header): string {
    h.0 + ": " + h.1
  }

  function Body(hs: seq<Header>): string {
    if hs == [] then ""
    else if |hs| == 1 then Line(hs[0])
    else Line(hs[0]) + "\r\n" + Body(hs[1..])
  }

  function Payload(hs: seq<Header>): string {
    Body(hs) + END
  }

  // ---- finding a frame --------------------------------------------------------------------------

  predicate EndsAt(s: string, i: nat) {
    i + 4 <= |s| && s[i] == '\r' && s[i + 1] == '\n' && s[i + 2] == '\r' && s[i + 3] == '\n'
  }

  /** Where the first frame terminator of a stream begins. */
  function FirstEnd(s: string): (r: Option<nat>)
    ensures r.Some? ==> EndsAt(s, r.value) && forall k :: 0 <= k < r.value ==> !EndsAt(s, k)
    ensures r.None? ==> forall k :: 0 <= k ==> !EndsAt(s, k)
  {
    if |s| < 4 then None
    else if EndsAt(s, 0) then Some(0)
    else
      var rest := FirstEnd(s[1..]);
      assert forall k :: 0 < k && EndsAt(s, k) ==> EndsAt(s[1..], k - 1);
      if rest.None? then None else Some(rest.value + 1)
  }

  /** What readuntil returns and leaves: the text up to and with the first terminator, and the rest. */
  function ReadUntil(stream: string): Option<(string, string)> {
    match FirstEnd(stream)
    case None => None
    case Some(i) => Some((stream[..i + 4], stream[i + 4..]))
  }

  // ---- reading a frame --------------------------------------------------------------------------

  function Utf8Width(c: char): nat {
    if c as int < 0x80 then 1 else if c as int < 0x800 then 2 else if c as int < 0x1_0000 then 3 else 4
  }

  function ByteLength(s: string): nat {
    if s == "" then 0 else Utf8Width(s[0]) + ByteLength(s[1..])
  }

  /** Position of the first line break, or the length when there is none. */
  function FirstBreak(s: string): (i: nat)
    ensures i <= |s| && (i < |s| ==> i + 1 < |s| && s[i] == '\r' && s[i + 1] == '\n')
  {
    if |s| < 2 then |s|
    else if s[0] == '\r' && s[1] == '\n' then 0
    else 1 + FirstBreak(s[1..])
  }

  function SplitLines(s: string): (lines: seq<string>)
    ensures lines != []
    decreases |s|
  {
    var i := FirstBreak(s);
    if i == |s| then [s] else [s[..i]] + SplitLines(s[i + 2..])
  }

  /** str.isspace for one character. */
  predicate PythonSpace(c: char) {
    var n := c as int;
    || 0x09 <= n <= 0x0d || 0x1c <= n <= 0x20 || n == 0x85 || n == 0xa0 || n == 0x1680 || 0x2000 <= n <= 0x200a
    || n == 0x2028 || n == 0x2029 || n == 0x202f || n == 0x205f || n == 0x3000
  }

  function SkipBlanks(s: string): string {
    if s != "" && s[0] == ' ' then SkipBlanks(s[1..]) else s
  }

  function ParseLine(line: string): Result<Header> {
    var i := IndexOf(line, ':');
    if i == |line| || i == 0 || (exists c | c in line[..i] :: PythonSpace(c)) then Err(Raised("Malformed AMI header"))
    else Ok((Lower(line[..i]), SkipBlanks(line[i + 1..])))
  }

  const REPEATABLE := {"var", "conn", "output"}

  /** One more header: a repeated one becomes, or extends, a list where that is allowed. */
  function AddHeader(m: Message, h: Header): Result<Message> {
    if h.0 !in m then Ok(m[h.0 := Scalar(h.1)])
    else if h.0 !in REPEATABLE then Err(Raised("Duplicate AMI header"))
    else Ok(m[h.0 := Many(Lines(m, h.0) + [h.1])])
  }

  function ReadLines(lines: seq<string>, m: Message): Result<Message> {
    if lines == [] then Ok(m)
    else
      var h :- ParseLine(lines[0]);
      var more :- AddHeader(m, h);
      ReadLines(lines[1..], more)
  }

  function ReadFrame(raw: string): Result<Message>
    requires |raw| >= 4
  {
    if ByteLength(raw) > LIMIT then Err(Raised("AMI frame too large"))
    else ReadLines(SplitLines(raw[..|raw| - 4]), map[])
  }

  // ---- what was written is what is read ---------------------------------------------------------

  predicate NoBreaks(s: string) {
    '\r' !in s && '\n' !in s
  }

  /** A header that survives the trip: a proper name, and a value that is one line not starting with a blank. */
  predicate Clean(h: Header) {
    && h.0 != "" && ':' !in h.0 && (forall c :: c in h.0 ==> !PythonSpace(c))
    && NoBreaks(h.1) && (h.1 == "" || h.1[0] != ' ')
  }

  ghost predicate AllClean(hs: seq<Header>) {
    hs != [] && forall i :: 0 <= i < |hs| ==> Clean(hs[i])
  }

  function Collect(hs: seq<Header>, m: Message): Result<Message> {
    if hs == [] then Ok(m)
    else
      var more :- AddHeader(m, (Lower(hs[0].0), hs[0].1));
      Collect(hs[1..], more)
  }

  lemma LineIsOne(h: Header)
    requires Clean(h)
    ensures NoBreaks(Line(h)) && Line(h) != "" && ParseLine(Line(h)) == Ok((Lower(h.0), h.1))
  {
    var line := Line(h);
    assert line == h.0 + [':'] + (" " + h.1);
    IndexOfFirst(h.0, ':', " " + h.1);
    assert line[..|h.0|] == h.0 && line[|h.0| + 1..] == " " + h.1;
    assert (" " + h.1)[1..] == h.1;
    assert SkipBlanks(" " + h.1) == SkipBlanks(h.1) == h.1;
    forall c | c in line ensures c != '\r' && c != '\n' {
      if c in h.0 {
        assert !PythonSpace(c);
      }
    }
  }

  lemma {:induction false} FirstBreakOf(line: string, rest: string)
    requires NoBreaks(line)
    ensures FirstBreak(line + "\r\n" + rest) == |line|
    ensures FirstBreak(line) == |line|
    decreases |line|
  {
    var s := line + "\r\n" + rest;
    if line != "" {
      FirstBreakOf(line[1..], rest);
      assert s[1..] == line[1..] + "\r\n" + rest;
      assert s[0] == line[0] && line[0] in line;
      assert forall c :: c in line[1..] ==> c in line;
    }
  }

  lemma FirstLineSplitsOff(line: string, rest: string)
    requires NoBreaks(line)
    ensures SplitLines(line + "\r\n" + rest) == [line] + SplitLines(rest)
    ensures SplitLines(line) == [line]
  {
    FirstBreakOf(line, rest);
    var s := line + "\r\n" + rest;
    assert s[..|line|] == line && s[|line| + 2..] == rest;
  }

  lemma {:induction false} BodySplits(hs: seq<Header>)
    requires AllClean(hs)
    ensures |SplitLines(Body(hs))| == |hs|
    ensures forall i :: 0 <= i < |hs| ==> SplitLines(Body(hs))[i] == Line(hs[i])
    decreases |hs|
  {
    hide Clean, ParseLine, Line, SplitLines;
    LineIsOne(hs[0]);
    FirstLineSplitsOff(Line(hs[0]), if |hs| == 1 then "" else Body(hs[1..]));
    if |hs| > 1 {
      BodySplits(hs[1..]);
    }
  }

  lemma {:induction false} LinesCollect(hs: seq<Header>, lines: seq<string>, m: Message)
    requires |lines| == |hs| && forall i :: 0 <= i < |hs| ==> Clean(hs[i]) && lines[i] == Line(hs[i])
    ensures ReadLines(lines, m) == Collect(hs, m)
    decreases |hs|
  {
    hide Clean, ParseLine, Line, AddHeader;
    if hs != [] {
      LineIsOne(hs[0]);
      var more := AddHeader(m, (Lower(hs[0].0), hs[0].1));
      if more.Ok? {
        LinesCollect(hs[1..], lines[1..], more.value);
      }
    }
  }

  /**
    Reading what was written gives back every header under its lower-case name, repeated ones in order, exactly if
    the frame is within the size limit.
   */
  lemma FrameRoundTrip(hs: seq<Header>)
    requires AllClean(hs)
    ensures ReadFrame(Payload(hs)) ==
      if ByteLength(Payload(hs)) > 262144 then Err(Raised("AMI frame too large")) else Collect(hs, map[])
  {
    hide Clean, Line, ReadLines, Collect, ByteLength;
    BodySplits(hs);
    var raw := Payload(hs);
    assert raw[..|raw| - 4] == Body(hs);
    LinesCollect(hs, SplitLines(Body(hs)), map[]);
  }

  // ---- one write is one action ------------------------------------------------------------------

  lemma EndsLater(front: string, tail: string, k: nat)
    ensures EndsAt(front + tail, |front| + k) <==> EndsAt(tail, k)
  {
  }

  /** A header that stays on its line: nothing in it breaks the line. Only this is asked of what is written. */
  predicate OneLine(h: Header) {
    NoBreaks(h.0) && NoBreaks(h.1)
  }

  ghost predicate AllOneLine(hs: seq<Header>) {
    hs != [] && forall i :: 0 <= i < |hs| ==> OneLine(hs[i])
  }

  lemma LineHasNoBreaks(h: Header)
    requires OneLine(h)
    ensures NoBreaks(Line(h)) && Line(h) != ""
  {
  }

  lemma CleanStaysOnItsLine(hs: seq<Header>)
    requires AllClean(hs)
    ensures AllOneLine(hs)
  {
    forall i | 0 <= i < |hs| ensures OneLine(hs[i]) {
      assert Clean(hs[i]) && PythonSpace('\r') && PythonSpace('\n');
    }
  }

  lemma {:induction false} BodyEnds(hs: seq<Header>, rest: string, k: nat)
    requires AllOneLine(hs) && k < |Body(hs)|
    ensures !EndsAt(Payload(hs) + rest, k)
    ensures Body(hs) != "" && Body(hs)[0] != '\r'
    decreases |hs|
  {
    hide OneLine, Line;
    LineHasNoBreaks(hs[0]);
    var line, s := Line(hs[0]), Payload(hs) + rest;
    assert line[0] in line;
    if k < |line| {
      assert s[k] == line[k] && line[k] in line;
    } else if |hs| > 1 {
      var tail := Payload(hs[1..]) + rest;
      assert s == line + "\r\n" + tail;
      assert AllOneLine(hs[1..]);
      LineHasNoBreaks(hs[1]);
      assert Line(hs[1])[0] in Line(hs[1]);
      assert Body(hs[1..])[0] == Line(hs[1])[0];
      if k == |line| {
        assert s[k + 2] == tail[0] == Body(hs[1..])[0];
      } else if k == |line| + 1 {
        assert s[k] == '\n';
      } else {
        BodyEnds(hs[1..], rest, k - |line| - 2);
        EndsLater(line + "\r\n", tail, k - |line| - 2);
      }
    }
  }

  /**
    Whatever headers without line breaks are written, the frame terminator is at the end and nowhere else: a reader
    takes the payload as exactly one frame.
   */
  lemma OneWriteIsOneFrame(hs: seq<Header>, rest: string)
    requires AllOneLine(hs)
    ensures ReadUntil(Payload(hs) + rest) == Some((Payload(hs), rest))
  {
    hide OneLine, Body;
    var s, n := Payload(hs) + rest, |Body(hs)|;
    assert s[n] == '\r' && s[n + 1] == '\n' && s[n + 2] == '\r' && s[n + 3] == '\n';
    assert EndsAt(s, n);
    forall k | 0 <= k < n ensures !EndsAt(s, k) {
      BodyEnds(hs, rest, k);
    }
    assert s[..n + 4] == Payload(hs) && s[n + 4..] == rest;
  }

  // ---- repeated headers -------------------------------------------------------------------------

  /** The values written under a name, in order. */
  function ValuesOf(hs: seq<Header>, key: string): seq<string> {
    if hs == [] then []
    else (if Lower(hs[0].0) == key then [hs[0].1] else []) + ValuesOf(hs[1..], key)
  }

  /** Whether collecting succeeds: only the repeatable names may occur more than once. */
  ghost predicate Collectable(hs: seq<Header>) {
    forall i, j :: 0 <= i < j < |hs| && Lower(hs[i].0) == Lower(hs[j].0) ==> Lower(hs[i].0) in REPEATABLE
  }

  lemma {:induction false} CollectsValues(hs: seq<Header>, m: Message, key: string)
    requires Collect(hs, m).Ok?
    ensures Lines(Collect(hs, m).value, key) == Lines(m, key) + ValuesOf(hs, key)
    decreases |hs|
  {
    hide Lower;
    if hs != [] {
      var h := (Lower(hs[0].0), hs[0].1);
      var more := AddHeader(m, h).value;
      CollectsValues(hs[1..], more, key);
      assert Lines(more, key) == Lines(m, key) + if h.0 == key then [h.1] else [];
    }
  }

  lemma {:induction false} Collects(hs: seq<Header>, m: Message)
    requires Collectable(hs)
    requires forall i :: 0 <= i < |hs| && Lower(hs[i].0) in m ==> Lower(hs[i].0) in REPEATABLE
    ensures Collect(hs, m).Ok?
    decreases |hs|
  {
    hide Lower;
    if hs != [] {
      Collects(hs[1..], AddHeader(m, (Lower(hs[0].0), hs[0].1)).value);
    }
  }

  /** None, one or many: reading a collected message's values always gives the list that was written. */
  lemma ValuesRoundTrip(hs: seq<Header>, key: string)
    requires Collectable(hs)
    ensures Collect(hs, map[]).Ok? && Lines(Collect(hs, map[]).value, key) == ValuesOf(hs, key)
  {
    hide Collect, Lower;
    Collects(hs, map[]);
    CollectsValues(hs, map[], key);
  }

  /** Only the repeatable names are ever collected into lists. */
  lemma {:induction false} SingleNamesStayScalar(hs: seq<Header>, m: Message, key: string)
    requires Collect(hs, m).Ok? && key !in REPEATABLE && (key in m ==> m[key].Scalar?)
    ensures key in Collect(hs, m).value ==> Collect(hs, m).value[key].Scalar?
    decreases |hs|
  {
    hide Lower;
    if hs != [] {
      SingleNamesStayScalar(hs[1..], AddHeader(m, (Lower(hs[0].0), hs[0].1)).value, key);
    }
  }

  // ---- whatever text arrives --------------------------------------------------------------------

  /** The characters that must not occur in a header's name: str.isspace, by code point. */
  predicate White(c: char) {
    c as int in {
      9, 10, 11, 12, 13, 28, 29, 30, 31, 32, 133, 160, 5760, 8192, 8193, 8194, 8195, 8196, 8197, 8198, 8199, 8200, 8201,
      8202, 8232, 8233, 8239, 8287, 12288}
  }

  /** A name, a colon, any number of blanks, and a value. */
  ghost predicate HeaderText(line: string, name: string, blanks: string, value: string) {
    && name != "" && (forall c :: c in name ==> c != ':' && !White(c))
    && (forall c :: c in blanks ==> c == ' ') && (value != "" ==> value[0] != ' ')
    && line == name + ":" + blanks + value
  }

  /** ASCII capitals made small. */
  ghost predicate IsLower(small: string, s: string) {
    |small| == |s| && forall i :: 0 <= i < |s| ==>
      small[i] as int == s[i] as int + if 'A' <= s[i] <= 'Z' then 32 else 0
  }

  ghost predicate Says(line: string, h: Header) {
    exists name, blanks :: HeaderText(line, name, blanks, h.1) && IsLower(h.0, name)
  }

  lemma WhiteDecided(c: char)
    ensures PythonSpace(c) <==> White(c)
  {
  }

  lemma {:induction false} BlanksSkipped(s: string) returns (blanks: string)
    ensures s == blanks + SkipBlanks(s) && (forall c :: c in blanks ==> c == ' ')
    ensures SkipBlanks(s) != "" ==> SkipBlanks(s)[0] != ' '
  {
    if s != "" && s[0] == ' ' {
      blanks := BlanksSkipped(s[1..]);
      blanks := " " + blanks;
    } else {
      blanks := "";
    }
  }

  lemma {:induction false} SkipsBlanks(blanks: string, value: string)
    requires (forall c :: c in blanks ==> c == ' ') && (value != "" ==> value[0] != ' ')
    ensures SkipBlanks(blanks + value) == value
  {
    if blanks == "" {
      assert blanks + value == value;
    } else {
      assert (blanks + value)[1..] == blanks[1..] + value && blanks[0] in blanks;
      assert forall c :: c in blanks[1..] ==> c in blanks;
      SkipsBlanks(blanks[1..], value);
    }
  }

  lemma SameLower(small: string, s: string)
    ensures small == Lower(s) <==> IsLower(small, s)
  {
    if IsLower(small, s) {
      assert forall i :: 0 <= i < |s| ==> small[i] == Lower(s)[i];
    }
  }

  lemma ParsedIsSaid(line: string, h: Header)
    requires ParseLine(line) == Ok(h)
    ensures Says(line, h)
  {
    var i := IndexOf(line, ':');
    var name := line[..i];
    forall c | c in name ensures c != ':' && !White(c) {
      WhiteDecided(c);
    }
    hide PythonSpace, IsLower, Lower, White, SkipBlanks;
    SameLower(h.0, name);
    var blanks := BlanksSkipped(line[i + 1..]);
    assert line == name + ":" + blanks + h.1;
    assert HeaderText(line, name, blanks, h.1);
  }

  lemma SaidIsParsed(line: string, h: Header, name: string, blanks: string)
    requires HeaderText(line, name, blanks, h.1) && IsLower(h.0, name)
    ensures ParseLine(line) == Ok(h)
  {
    forall c ensures PythonSpace(c) <==> White(c) {
      WhiteDecided(c);
    }
    hide PythonSpace, IsLower, Lower, White, SkipBlanks;
    assert line == name + [':'] + (blanks + h.1);
    IndexOfFirst(name, ':', blanks + h.1);
    assert line[..|name|] == name && line[|name| + 1..] == blanks + h.1;
    SkipsBlanks(blanks, h.1);
    SameLower(h.0, name);
  }

  /** Which line is which header, for every line. */
  lemma ParseLineDecided(line: string, h: Header)
    ensures ParseLine(line) == Ok(h) <==> Says(line, h)
  {
    hide ParseLine, HeaderText, IsLower;
    if ParseLine(line) == Ok(h) {
      ParsedIsSaid(line, h);
    }
    if name, blanks :| HeaderText(line, name, blanks, h.1) && IsLower(h.0, name) {
      SaidIsParsed(line, h, name, blanks);
    }
  }

  predicate BreaksAt(s: string, i: nat) {
    i + 1 < |s| && s[i] == '\r' && s[i + 1] == '\n'
  }

  ghost predicate Unbroken(s: string) {
    forall i: nat :: !BreaksAt(s, i)
  }

  function JoinLines(lines: seq<string>): string
    requires lines != []
  {
    if |lines| == 1 then lines[0] else lines[0] + "\r\n" + JoinLines(lines[1..])
  }

  lemma {:induction false} BreaksFirst(s: string)
    ensures forall k: nat :: k < FirstBreak(s) ==> !BreaksAt(s, k)
  {
    if |s| >= 2 && !BreaksAt(s, 0) {
      BreaksFirst(s[1..]);
      forall k: nat | k < FirstBreak(s) ensures !BreaksAt(s, k) {
        assert k > 0 ==> !BreaksAt(s[1..], k - 1);
      }
    }
  }

  lemma {:induction false} SplitIsJoined(s: string)
    ensures JoinLines(SplitLines(s)) == s
    ensures forall i :: 0 <= i < |SplitLines(s)| ==> Unbroken(SplitLines(s)[i])
    decreases |s|
  {
    BreaksFirst(s);
    var i := FirstBreak(s);
    if i < |s| {
      SplitIsJoined(s[i + 2..]);
      assert s == s[..i] + "\r\n" + s[i + 2..];
      forall k: nat ensures !BreaksAt(s[..i], k) {
        assert k < i ==> !BreaksAt(s, k);
      }
    }
  }

  lemma BreakIsFirst(line: string, rest: string)
    requires Unbroken(line)
    ensures FirstBreak(line) == |line| && FirstBreak(line + "\r\n" + rest) == |line|
  {
    var s := line + "\r\n" + rest;
    assert BreaksAt(s, |line|);
    forall i: nat | i < |line| ensures !BreaksAt(s, i) {
      assert !BreaksAt(line, i);
    }
    BreaksFirst(s);
    BreaksFirst(line);
    assert FirstBreak(line) < |line| ==> BreaksAt(line, FirstBreak(line));
    assert FirstBreak(s) < |line| ==> BreaksAt(s, FirstBreak(s));
  }

  lemma {:induction false} JoinedIsSplit(lines: seq<string>)
    requires lines != [] && forall i :: 0 <= i < |lines| ==> Unbroken(lines[i])
    ensures SplitLines(JoinLines(lines)) == lines
    decreases |lines|
  {
    hide Unbroken, FirstBreak;
    if |lines| == 1 {
      BreakIsFirst(lines[0], "");
    } else {
      var rest := JoinLines(lines[1..]);
      BreakIsFirst(lines[0], rest);
      JoinedIsSplit(lines[1..]);
      var s := lines[0] + "\r\n" + rest;
      assert s[..|lines[0]|] == lines[0] && s[|lines[0]| + 2..] == rest;
    }
  }

  function FieldOf(values: seq<string>): Field {
    if |values| == 1 then Scalar(values[0]) else Many(values)
  }

  /** The message has each name once, with all its values in order; only three names may have several. */
  ghost predicate Gathers(hs: seq<Header>, m: Message) {
    forall key ::
      && (key in m <==> ValuesOf(hs, key) != [])
      && (key in m ==> m[key] == FieldOf(ValuesOf(hs, key)))
      && (|ValuesOf(hs, key)| > 1 ==> key == "var" || key == "conn" || key == "output")
  }

  lemma {:induction false} CollectSucceeds(hs: seq<Header>, m: Message)
    ensures Collect(hs, m).Ok? <==>
      forall key :: |ValuesOf(hs, key)| > (if key in m then 0 else 1) ==> key in REPEATABLE
    decreases |hs|
  {
    hide Lower;
    if hs != [] {
      var k := Lower(hs[0].0);
      if AddHeader(m, (k, hs[0].1)).Ok? {
        var more := AddHeader(m, (k, hs[0].1)).value;
        CollectSucceeds(hs[1..], more);
        assert forall key :: key != k ==> ValuesOf(hs, key) == ValuesOf(hs[1..], key);
        assert |ValuesOf(hs, k)| == 1 + |ValuesOf(hs[1..], k)|;
      } else {
        assert |ValuesOf(hs, k)| > 0 && k in m && k !in REPEATABLE;
      }
    }
  }

  ghost predicate Kept(m: Message, m': Message, key: string, values: seq<string>) {
    && (key in m' <==> key in m || values != [])
    && (key in m' ==> m'[key] == if values == [] then m[key]
                                 else if key in m then Many(Lines(m, key) + values)
                                 else FieldOf(values))
  }

  lemma {:induction false} CollectKeeps(hs: seq<Header>, m: Message, key: string)
    requires Collect(hs, m).Ok?
    ensures Kept(m, Collect(hs, m).value, key, ValuesOf(hs, key))
    decreases |hs|
  {
    hide Lower, Kept;
    if hs == [] {
      NothingKept(m, key);
    } else {
      var h := (Lower(hs[0].0), hs[0].1);
      var more := AddHeader(m, h).value;
      CollectKeeps(hs[1..], more, key);
      KeptLonger(m, h, Collect(hs, m).value, key, ValuesOf(hs[1..], key));
    }
  }

  lemma NothingKept(m: Message, key: string)
    ensures Kept(m, m, key, [])
  {
  }

  lemma KeptLonger(m: Message, h: Header, m': Message, key: string, values: seq<string>)
    requires AddHeader(m, h).Ok? && Kept(AddHeader(m, h).value, m', key, values)
    ensures Kept(m, m', key, (if h.0 == key then [h.1] else []) + values)
  {
    if h.0 == key {
      assert Lines(m, key) + ([h.1] + values) == Lines(m, key) + [h.1] + values;
    } else {
      assert [] + values == values;
    }
  }

  lemma CollectDecided(hs: seq<Header>, m: Message)
    ensures Collect(hs, map[]) == Ok(m) <==> Gathers(hs, m)
  {
    hide Collect, ValuesOf;
    CollectSucceeds(hs, map[]);
    if Collect(hs, map[]).Ok? {
      var got := Collect(hs, map[]).value;
      forall key
        ensures key in got <==> ValuesOf(hs, key) != []
        ensures key in got ==> got[key] == FieldOf(ValuesOf(hs, key))
        ensures |ValuesOf(hs, key)| > 1 ==> key == "var" || key == "conn" || key == "output"
      {
        CollectKeeps(hs, map[], key);
        assert |ValuesOf(hs, key)| > 1 ==> key in REPEATABLE;
      }
      if Gathers(hs, m) {
        assert m.Keys == got.Keys;
        assert m == got;
      }
    }
  }

  ghost predicate Parses(lines: seq<string>, hs: seq<Header>) {
    |lines| == |hs| && forall i :: 0 <= i < |lines| ==> Says(lines[i], hs[i])
  }

  /** The name of a header that was read is small already. */
  lemma SaidIsLower(line: string, h: Header)
    requires Says(line, h)
    ensures ParseLine(line) == Ok(h) && Lower(h.0) == h.0
  {
    ParseLineDecided(line, h);
    var name, blanks :| HeaderText(line, name, blanks, h.1) && IsLower(h.0, name);
    SameLower(h.0, h.0);
  }

  lemma {:induction false} ParsedCollects(lines: seq<string>, hs: seq<Header>, m: Message)
    requires Parses(lines, hs)
    ensures ReadLines(lines, m) == Collect(hs, m)
    decreases |lines|
  {
    hide Says, Lower, ParseLine, AddHeader;
    if lines != [] {
      SaidIsLower(lines[0], hs[0]);
      assert (hs[0].0, hs[0].1) == hs[0];
      var more := AddHeader(m, hs[0]);
      if more.Ok? {
        ParsedCollects(lines[1..], hs[1..], more.value);
      }
    }
  }

  lemma {:induction false} ReadIsParsed(lines: seq<string>, m: Message) returns (hs: seq<Header>)
    requires ReadLines(lines, m).Ok?
    ensures Parses(lines, hs)
    decreases |lines|
  {
    hide Says, ParseLine, AddHeader;
    hs := [];
    if lines != [] {
      var h := ParseLine(lines[0]).value;
      ParseLineDecided(lines[0], h);
      hs := ReadIsParsed(lines[1..], AddHeader(m, h).value);
      hs := [h] + hs;
    }
  }

  /** The frame is these lines, each with its line break and all with one more, and they say these headers. */
  ghost predicate Frames(raw: string, lines: seq<string>, hs: seq<Header>)
    requires |raw| >= 4
  {
    && lines != [] && (forall i :: 0 <= i < |lines| ==> Unbroken(lines[i]))
    && raw[..|raw| - 4] == JoinLines(lines) && Parses(lines, hs)
  }

  /**
    What every text of a frame is read as: accepted exactly if it is short enough, every line says a header, and the
    headers make a message.
   */
  lemma FrameDecided(raw: string, m: Message)
    requires |raw| >= 4
    ensures ReadFrame(raw) == Ok(m) <==>
      ByteLength(raw) <= 262144 && exists lines, hs :: Frames(raw, lines, hs) && Gathers(hs, m)
  {
    hide ByteLength, SplitLines, ReadLines, Collect, Parses, Gathers, Unbroken;
    var text := raw[..|raw| - 4];
    if ReadFrame(raw) == Ok(m) {
      var lines := SplitLines(text);
      SplitIsJoined(text);
      var hs := ReadIsParsed(lines, map[]);
      ParsedCollects(lines, hs, map[]);
      CollectDecided(hs, m);
      assert Frames(raw, lines, hs);
    }
    if lines, hs :| Frames(raw, lines, hs) && Gathers(hs, m) {
      JoinedIsSplit(lines);
      ParsedCollects(lines, hs, map[]);
      CollectDecided(hs, m);
    }
  }

  // ---- length in bytes --------------------------------------------------------------------------

  /** UTF-8, section 3 of RFC 3629: the bits of the code point, six to a continuation byte. */
  function Utf8(c: char): seq<nat> {
    var n := c as int;
    if n <= 0x7f then [n]
    else if n <= 0x7ff then [0xc0 + n / 64, 0x80 + n % 64]
    else if n <= 0xffff then [0xe0 + n / 4096, 0x80 + n / 64 % 64, 0x80 + n % 64]
    else [0xf0 + n / 262144, 0x80 + n / 4096 % 64, 0x80 + n / 64 % 64, 0x80 + n % 64]
  }

  function Encoded(s: string): seq<nat> {
    if s == "" then [] else Utf8(s[0]) + Encoded(s[1..])
  }

  /** The limit counts the bytes that the text is encoded as. */
  lemma {:induction false} LengthIsEncoded(s: string)
    ensures ByteLength(s) == |Encoded(s)|
  {
    if s != "" {
      LengthIsEncoded(s[1..]);
    }
  }
}
