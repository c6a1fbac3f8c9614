/**
  From a node's condition to the wire and back: rendered as XStat and SawStat replies, framed, read and parsed
  (vnext/transport.py and vnext/observation.py together), a condition comes back exactly.
 */
module RoundTrip {
  import opened Base
  import opened Models
  import opened Text
  import opened Alinks
  import opened Ami
  import opened Codec
  import opened Transport
  import opened Observation
  import opened Snapshot

  /** One adjacent link: what XStat, SawStat and, unless the mode is unknown, ALINKS say about it. */
  datatype Adjacent = Adjacent(
    name: string,
    peer: string,
    reconnects: string,
    direction: string,
    elapsed: string,
    status: ConnectionStatus,
    mode: Mode,
    keyed: bool,
    lastKeyed: string,
    lastUnkeyed: string)

  datatype Condition = Condition(rx: bool, tx: bool, links: seq<Adjacent>, topology: string)

  function StatusText(s: ConnectionStatus): string {
    match s
    case ESTABLISHED => "ESTABLISHED"
    case CONNECTING => "CONNECTING"
  }

  function BitText(b: bool): string {
    if b then "1" else "0"
  }

  function XstatFields(a: Adjacent): seq<string> {
    [a.name, a.peer, a.reconnects, a.direction, a.elapsed, StatusText(a.status)]
  }

  function SawstatFields(a: Adjacent): seq<string> {
    [a.name, BitText(a.keyed), a.lastKeyed, a.lastUnkeyed]
  }

  ghost predicate GoodLink(a: Adjacent) {
    && SafeName(a.name) && Word(a.peer) && Digits(a.reconnects) && a.direction in {"IN", "OUT"} && TimeText(a.elapsed)
    && Signed(a.lastKeyed) && Signed(a.lastUnkeyed)
  }

  ghost predicate Good(c: Condition) {
    && (forall i :: 0 <= i < |c.links| ==> GoodLink(c.links[i]))
    && (forall i, j :: 0 <= i < j < |c.links| ==> c.links[i].name != c.links[j].name)
    && NoBreaks(c.topology) && !Truncated(c.topology)
  }

  // ---- rendering --------------------------------------------------------------------------------

  function AlinksOf(links: seq<Adjacent>): seq<Alink> {
    if links == [] then []
    else if links[0].mode == UnknownMode then AlinksOf(links[1..])
    else [Alink(links[0].name, links[0].mode, links[0].keyed)] + AlinksOf(links[1..])
  }

  function Assign(name: string, value: string): string {
    name + "=" + value
  }

  ghost function Variables(c: Condition): seq<string>
    requires Good(c)
  {
    AlinksExpressible(c.links);
    var m := AlinksOf(c.links);
    [Assign("RPT_RXKEYED", BitText(c.rx)), Assign("RPT_TXKEYED", BitText(c.tx)),
     Assign("RPT_NUMALINKS", Decimal(|m|)), Assign("RPT_ALINKS", Value(m)), Assign("RPT_LINKS", c.topology)]
  }

  function Under(key: string, values: seq<string>): seq<Header> {
    seq(|values|, i requires 0 <= i < |values| => (key, values[i]))
  }

  function XstatRows(links: seq<Adjacent>): seq<string> {
    seq(|links|, i requires 0 <= i < |links| => Join(XstatFields(links[i]), ' '))
  }

  function SawstatRows(links: seq<Adjacent>): seq<string> {
    seq(|links|, i requires 0 <= i < |links| => Join(SawstatFields(links[i]), ' '))
  }

  function Preamble(node: Node, actionId: string): seq<Header> {
    [("Response", "Success"), ("ActionID", actionId), ("Node", node)]
  }

  ghost function XstatReply(c: Condition, node: Node, actionId: string): seq<Header>
    requires Good(c)
  {
    Reply(node, actionId, Variables(c), XstatRows(c.links))
  }

  function SawstatReply(c: Condition, node: Node, actionId: string): seq<Header> {
    Reply(node, actionId, [], SawstatRows(c.links))
  }

  /** The state that reports the condition and nothing else. */
  function Shown(a: Adjacent): DirectLink {
    DirectLink(a.name, if ValidNode(a.name) then Some(a.name) else None, a.mode, a.keyed, a.status)
  }

  predicate AnyKeyed(links: seq<Adjacent>) {
    exists i :: 0 <= i < |links| && links[i].keyed
  }

  function StateOf(c: Condition, node: Node, epoch: string): NodeState {
    NodeState(node, Some(epoch), if c.rx || c.tx || AnyKeyed(c.links) then ACTIVE else CLEAR, true,
      Some(c.rx), Some(c.tx), Some(seq(|c.links|, i requires 0 <= i < |c.links| => Shown(c.links[i]))), [])
  }

  // ---- the pieces -------------------------------------------------------------------------------

  predicate Listed(a: Alink, link: Adjacent) {
    link.mode != UnknownMode && a == Alink(link.name, link.mode, link.keyed)
  }

  lemma {:induction false} AlinksOfMembers(links: seq<Adjacent>)
    ensures forall a :: a in AlinksOf(links) <==> exists i :: 0 <= i < |links| && Listed(a, links[i])
  {
    if links != [] {
      AlinksOfMembers(links[1..]);
      assert forall i :: 0 < i < |links| ==> links[i] == links[1..][i - 1];
      forall a | a in AlinksOf(links) ensures exists i :: 0 <= i < |links| && Listed(a, links[i]) {
        if a in AlinksOf(links[1..]) {
          var i :| 0 <= i < |links[1..]| && Listed(a, links[1..][i]);
          assert links[i + 1] == links[1..][i];
        }
      }
    }
  }

  ghost predicate DistinctAdjacent(links: seq<Adjacent>) {
    forall i, j :: 0 <= i < j < |links| ==> links[i].name != links[j].name
  }

  lemma {:induction false} AlinksExpressible(links: seq<Adjacent>)
    requires DistinctAdjacent(links) && forall i :: 0 <= i < |links| ==> SafeName(links[i].name)
    ensures Expressible(AlinksOf(links))
  {
    hide SafeName;
    if links != [] {
      AlinksExpressible(links[1..]);
      AlinksOfMembers(links[1..]);
      var rest := AlinksOf(links[1..]);
      forall k | 0 <= k < |rest| ensures rest[k].name != links[0].name {
        assert rest[k] in rest;
      }
    }
  }

  lemma {:induction false} JoinedWordsAreSpaced(words: seq<string>)
    requires words != [] && forall i :: 0 <= i < |words| ==> Word(words[i])
    ensures Spaced(Join(words, ' '), words)
  {
    if |words| == 1 {
      assert Blank("") && words[0] == words[0] + "";
    } else {
      JoinedWordsAreSpaced(words[1..]);
      assert Blank(" ");
    }
  }

  lemma XstatRowGood(a: Adjacent)
    requires GoodLink(a)
    ensures XstatRow(Join(XstatFields(a), ' '), Connection(a.name, a.status))
  {
    hide Join, Spaced, TimeText;
    FieldsAreWords(a);
    JoinedWordsAreSpaced(XstatFields(a));
    assert XstatText(Join(XstatFields(a), ' '), Connection(a.name, a.status), a.peer, a.reconnects, a.direction,
        a.elapsed);
  }

  lemma SawstatRowGood(a: Adjacent)
    requires GoodLink(a)
    ensures SawstatRow(Join(SawstatFields(a), ' '), Keying(a.name, a.keyed))
  {
    hide Join, Spaced, Signed;
    FieldsAreWords(a);
    JoinedWordsAreSpaced(SawstatFields(a));
  }

  lemma FieldsAreWords(a: Adjacent)
    requires GoodLink(a)
    ensures forall i :: 0 <= i < 6 ==> Word(XstatFields(a)[i])
    ensures forall i :: 0 <= i < 4 ==> Word(SawstatFields(a)[i])
  {
    hide TimeText, Signed;
    TimeIsWord(a.elapsed);
    SignedIsWord(a.lastKeyed);
    SignedIsWord(a.lastUnkeyed);
  }

  lemma TimeIsWord(t: string)
    requires TimeText(t)
    ensures Word(t)
  {
  }

  lemma SignedIsWord(s: string)
    requires Signed(s)
    ensures Word(s)
  {
  }

  // ---- the headers as they are read back --------------------------------------------------------

  lemma {:induction false} ValuesConcatenate(a: seq<Header>, b: seq<Header>, key: string)
    ensures ValuesOf(a + b, key) == ValuesOf(a, key) + ValuesOf(b, key)
    decreases |a|
  {
    hide Lower;
    if a == [] {
      assert a + b == b;
    } else {
      ValuesConcatenate(a[1..], b, key);
      assert (a + b)[1..] == a[1..] + b;
    }
  }

  lemma {:induction false} ValuesUnder(name: string, values: seq<string>, key: string)
    ensures ValuesOf(Under(name, values), key) == if Lower(name) == key then values else []
    decreases |values|
  {
    hide Lower;
    if values != [] {
      ValuesUnder(name, values[1..], key);
      assert Under(name, values)[1..] == Under(name, values[1..]);
    }
  }

  lemma LowerNames()
    ensures Lower("Response") == "response" && Lower("ActionID") == "actionid" && Lower("Node") == "node"
    ensures Lower("Var") == "var" && Lower("Conn") == "conn"
  {
  }

  lemma ValuesOfOne(h: Header, key: string)
    ensures ValuesOf([h], key) == if Lower(h.0) == key then [h.1] else []
  {
    hide Lower;
  }

  lemma PreambleValues(node: Node, actionId: string, key: string)
    ensures ValuesOf(Preamble(node, actionId), key) ==
      if key == "response" then ["Success"]
      else if key == "actionid" then [actionId]
      else if key == "node" then [node]
      else []
  {
    LowerNames();
    hide Lower, ValuesOf;
    var a, b, c := ("Response", "Success"), ("ActionID", actionId), ("Node", node);
    assert Preamble(node, actionId) == [a] + [b] + [c];
    ValuesConcatenate([a] + [b], [c], key);
    ValuesConcatenate([a], [b], key);
    ValuesOfOne(a, key);
    ValuesOfOne(b, key);
    ValuesOfOne(c, key);
  }

  function Reply(node: Node, actionId: string, vars: seq<string>, conns: seq<string>): seq<Header> {
    Preamble(node, actionId) + Under("Var", vars) + Under("Conn", conns)
  }

  /** A preamble followed by repeated Var and Conn headers: what each name collects. */
  lemma ReplyValues(node: Node, actionId: string, vars: seq<string>, conns: seq<string>, key: string)
    ensures ValuesOf(Reply(node, actionId, vars, conns), key) ==
      if key == "response" then ["Success"]
      else if key == "actionid" then [actionId]
      else if key == "node" then [node]
      else if key == "var" then vars
      else if key == "conn" then conns
      else []
  {
    LowerNames();
    hide Lower, ValuesOf, Preamble, Under;
    PreambleValues(node, actionId, key);
    var p, v, c := Preamble(node, actionId), Under("Var", vars), Under("Conn", conns);
    ValuesConcatenate(p + v, c, key);
    ValuesConcatenate(p, v, key);
    ValuesUnder("Var", vars, key);
    ValuesUnder("Conn", conns, key);
  }

  lemma ReplyCollects(node: Node, actionId: string, vars: seq<string>, conns: seq<string>)
    ensures Collectable(Reply(node, actionId, vars, conns))
  {
    LowerNames();
    hide Lower;
  }

  lemma ReplyAnswers(hs: seq<Header>, node: Node)
    requires Collectable(hs) && ValuesOf(hs, "response") == ["Success"] && ValuesOf(hs, "node") == [node]
    ensures Collect(hs, map[]).Ok? && Affirms(Collect(hs, map[]).value, node)
    ensures forall key :: Lines(Collect(hs, map[]).value, key) == ValuesOf(hs, key)
  {
    hide Collect, ValuesOf, Collectable;
    forall key ensures Collect(hs, map[]).Ok? && Lines(Collect(hs, map[]).value, key) == ValuesOf(hs, key) {
      ValuesRoundTrip(hs, key);
    }
    ValuesRoundTrip(hs, "");
  }

  // ---- the reading of a rendered condition ------------------------------------------------------

  ghost function VariableMap(c: Condition): map<string, string>
    requires Good(c)
  {
    AlinksExpressible(c.links);
    map["RPT_RXKEYED" := BitText(c.rx), "RPT_TXKEYED" := BitText(c.tx),
        "RPT_NUMALINKS" := Decimal(|AlinksOf(c.links)|), "RPT_ALINKS" := Value(AlinksOf(c.links)),
        "RPT_LINKS" := c.topology]
  }

  lemma VariablesRead(c: Condition)
    requires Good(c)
    ensures VariablesOf(Variables(c), VariableMap(c))
  {
    hide Good, Decimal, Value, BitText, Assign, AssignAs, VariableNames;
    GoodIsDistinct(c);
    AlinksExpressible(c.links);
    var m, n := AlinksOf(c.links), VariableNames();
    var v := [BitText(c.rx), BitText(c.tx), Decimal(|m|), Value(m), c.topology];
    NamesDiffer();
    FiveAssigned(n, v);
    assert VariableMap(c) == map[n[0] := v[0], n[1] := v[1], n[2] := v[2], n[3] := v[3], n[4] := v[4]];
  }

  function VariableNames(): seq<string> {
    ["RPT_RXKEYED", "RPT_TXKEYED", "RPT_NUMALINKS", "RPT_ALINKS", "RPT_LINKS"]
  }

  lemma NamesDiffer()
    ensures var n := VariableNames();
      && |n| == 5 && n[0] == "RPT_RXKEYED" && n[1] == "RPT_TXKEYED" && n[2] == "RPT_NUMALINKS" && n[3] == "RPT_ALINKS"
      && n[4] == "RPT_LINKS"
      && (forall i :: 0 <= i < 5 ==> n[i] != "" && '=' !in n[i])
      && (forall i, j :: 0 <= i < j < 5 ==> n[i] != n[j])
  {
    assert "RPT_RXKEYED"[4] != "RPT_TXKEYED"[4];
  }

  lemma FiveAssigned(n: seq<string>, v: seq<string>)
    requires |n| == |v| == 5
    requires forall i :: 0 <= i < 5 ==> n[i] != "" && '=' !in n[i]
    requires forall i, j :: 0 <= i < j < 5 ==> n[i] != n[j]
    ensures AssignAs(
      [Assign(n[0], v[0]), Assign(n[1], v[1]), Assign(n[2], v[2]), Assign(n[3], v[3]), Assign(n[4], v[4])], n,
      map[n[0] := v[0], n[1] := v[1], n[2] := v[2], n[3] := v[3], n[4] := v[4]])
  {
    hide Assign, Assigns;
    forall i | 0 <= i < 5 ensures Assigns(Assign(n[i], v[i]), n[i], v[i]) {
      Assigned(n[i], v[i]);
    }
  }

  lemma Assigned(name: string, value: string)
    requires name != "" && '=' !in name
    ensures Assigns(Assign(name, value), name, value)
  {
  }

  lemma GoodIsDistinct(c: Condition)
    requires Good(c)
    ensures DistinctAdjacent(c.links) && forall i :: 0 <= i < |c.links| ==> SafeName(c.links[i].name)
  {
  }

  ghost function ReadingOf(c: Condition): Reading
    requires Good(c)
  {
    Reading(VariableMap(c),
      seq(|c.links|, i requires 0 <= i < |c.links| => Connection(c.links[i].name, c.links[i].status)),
      AlinksOf(c.links),
      seq(|c.links|, i requires 0 <= i < |c.links| => Keying(c.links[i].name, c.links[i].keyed)))
  }

  lemma XstatReads(c: Condition, node: Node, actionId: string)
    requires Good(c)
    ensures Collect(XstatReply(c, node, actionId), map[]).Ok?
    ensures var x := Collect(XstatReply(c, node, actionId), map[]).value;
      Affirms(x, node) && Lines(x, "var") == Variables(c) && Lines(x, "conn") == XstatRows(c.links)
  {
    hide Reply, Good, Affirms, Variables, XstatRows, Collect, ValuesOf;
    var vars, conns := Variables(c), XstatRows(c.links);
    ReplyCollects(node, actionId, vars, conns);
    ReplyValues(node, actionId, vars, conns, "response");
    ReplyValues(node, actionId, vars, conns, "node");
    ReplyValues(node, actionId, vars, conns, "var");
    ReplyValues(node, actionId, vars, conns, "conn");
    ReplyAnswers(XstatReply(c, node, actionId), node);
  }

  lemma SawstatReads(c: Condition, node: Node, actionId: string)
    ensures Collect(SawstatReply(c, node, actionId), map[]).Ok?
    ensures var m := Collect(SawstatReply(c, node, actionId), map[]).value;
      Affirms(m, node) && Lines(m, "conn") == SawstatRows(c.links)
  {
    hide Reply, Affirms, SawstatRows, Collect, ValuesOf;
    ReplyCollects(node, actionId, [], SawstatRows(c.links));
    ReplyValues(node, actionId, [], SawstatRows(c.links), "response");
    ReplyValues(node, actionId, [], SawstatRows(c.links), "node");
    ReplyValues(node, actionId, [], SawstatRows(c.links), "conn");
    ReplyAnswers(SawstatReply(c, node, actionId), node);
  }

  lemma RowsRead(c: Condition)
    requires Good(c)
    ensures ConnectionsOf(XstatRows(c.links), ReadingOf(c).connections)
    ensures KeyingsOf(SawstatRows(c.links), ReadingOf(c).keyings)
  {
    hide XstatRow, SawstatRow, Join, SafeName, VariableMap, Truncated;
    forall i | 0 <= i < |c.links|
      ensures XstatRow(XstatRows(c.links)[i], ReadingOf(c).connections[i])
      ensures SawstatRow(SawstatRows(c.links)[i], ReadingOf(c).keyings[i])
    {
      XstatRowGood(c.links[i]);
      SawstatRowGood(c.links[i]);
    }
  }

  lemma ReadingAgrees(c: Condition)
    requires Good(c)
    ensures Agreeing(ReadingOf(c))
  {
    hide VariableMap, GoodLink, Truncated;
    AlinksOfMembers(c.links);
    var r := ReadingOf(c);
    forall a | a in r.alinks ensures HasConnection(r.connections, a.name) {
      var i :| 0 <= i < |c.links| && Listed(a, c.links[i]);
      assert r.connections[i].name == a.name;
    }
    forall x | x in r.connections ensures HasKeying(r.keyings, x.name) {
      var i :| 0 <= i < |r.connections| && r.connections[i] == x;
      assert r.keyings[i].name == x.name;
    }
    forall k | k in r.keyings ensures HasConnection(r.connections, k.name) {
      var i :| 0 <= i < |r.keyings| && r.keyings[i] == k;
      assert r.connections[i].name == k.name;
    }
  }

  lemma RenderedIsWellFormed(c: Condition, node: Node, id1: string, id2: string)
    requires Good(c)
    ensures Collect(XstatReply(c, node, id1), map[]).Ok? && Collect(SawstatReply(c, node, id2), map[]).Ok?
    ensures WellFormed(Collect(XstatReply(c, node, id1), map[]).value, Collect(SawstatReply(c, node, id2), map[]).value,
      node, ReadingOf(c))
  {
    hide Affirms, VariablesOf, Variables, ConnectionsOf, KeyingsOf, Collect, XstatReply, SawstatReply, XstatRows,
      SawstatRows, Truncated, Expressible, Value, Decimal, GoodLink;
    XstatReads(c, node, id1);
    SawstatReads(c, node, id2);
    VariablesRead(c);
    RowsRead(c);
    GoodIsDistinct(c);
    AlinksExpressible(c.links);
  }

  /** A state that reports the rendered condition is the state of that condition. */
  lemma ReportIsState(c: Condition, node: Node, epoch: string, s: NodeState)
    requires Good(c) && Reports(s, ReadingOf(c)) && Evident(s)
    requires s.node == node && s.epoch == Some(epoch)
    ensures s == StateOf(c, node, epoch)
  {
    hide GoodLink, Truncated, Decimal, Value;
    AlinksOfMembers(c.links);
    var links, expected := s.directLinks.value, StateOf(c, node, epoch).directLinks.value;
    forall i | 0 <= i < |c.links| ensures links[i] == expected[i] {
      LinkIsShown(c, i, links[i]);
    }
    assert links == expected;
    assert forall i :: 0 <= i < |links| ==> links[i].keyed == expected[i].keyed == c.links[i].keyed;
    assert SomeKeyed(links) ==> AnyKeyed(c.links);
    if AnyKeyed(c.links) {
      var i :| 0 <= i < |c.links| && c.links[i].keyed;
      assert links[i].keyed;
    }
  }

  lemma LinkIsShown(c: Condition, i: nat, link: DirectLink)
    requires Good(c) && i < |c.links| && Shows(link, ReadingOf(c).connections[i], ReadingOf(c))
    ensures link == Shown(c.links[i])
  {
    hide GoodLink, Truncated, VariableMap;
    AlinksOfMembers(c.links);
    var r, a := ReadingOf(c), c.links[i];
    var k :| 0 <= k < |r.keyings| && r.keyings[k] == Keying(a.name, link.keyed);
    assert c.links[k].name == a.name;
    if a.mode != UnknownMode {
      assert Listed(Alink(a.name, a.mode, a.keyed), a);
      assert Alink(a.name, a.mode, a.keyed) in r.alinks;
    }
    if link.mode != UnknownMode {
      var j :| 0 <= j < |c.links| && Listed(Alink(a.name, link.mode, link.keyed), c.links[j]);
      assert c.links[j].name == a.name;
    }
  }

  /** The parsers undo the rendering: the condition comes back exactly, whatever number of links it has. */
  lemma ParsersUndoRendering(c: Condition, node: Node, id1: string, id2: string, epoch: string)
    requires Good(c)
    ensures Collect(XstatReply(c, node, id1), map[]).Ok? && Collect(SawstatReply(c, node, id2), map[]).Ok?
    ensures ParseSnapshot(Collect(XstatReply(c, node, id1), map[]).value,
      Collect(SawstatReply(c, node, id2), map[]).value, node, epoch) == StateOf(c, node, epoch)
  {
    hide Good, WellFormed, Agreeing, Reports, Evident, Collect, XstatReply, SawstatReply, ReadingOf, StateOf;
    RenderedIsWellFormed(c, node, id1, id2);
    ReadingAgrees(c);
    var x, s := Collect(XstatReply(c, node, id1), map[]).value, Collect(SawstatReply(c, node, id2), map[]).value;
    AgreeingSamplesAreComplete(x, s, node, epoch, ReadingOf(c));
    SnapshotIsEvident(x, s, node, epoch);
    SnapshotIsLabelled(x, s, node, epoch);
    ReportIsState(c, node, epoch, ParseSnapshot(x, s, node, epoch));
  }

  // ---- through the wire -------------------------------------------------------------------------

  ghost predicate GoodReply(node: Node, actionId: string) {
    NoBreaks(node) && NoBreaks(actionId) && (node == "" || node[0] != ' ') && (actionId == "" || actionId[0] != ' ')
  }

  lemma ReplyIsClean(node: Node, actionId: string, vars: seq<string>, conns: seq<string>)
    requires GoodReply(node, actionId)
    requires forall i :: 0 <= i < |vars| ==> NoBreaks(vars[i]) && vars[i] != "" && vars[i][0] != ' '
    requires forall i :: 0 <= i < |conns| ==> NoBreaks(conns[i]) && conns[i] != "" && conns[i][0] != ' '
    ensures AllClean(Reply(node, actionId, vars, conns))
  {
    NamesAreClean();
    var hs := Reply(node, actionId, vars, conns);
    forall i | 0 <= i < |hs| ensures Clean(hs[i]) {
    }
  }

  lemma NamesAreClean()
    ensures forall value :: NoBreaks(value) && (value == "" || value[0] != ' ') ==>
      Clean(("Response", value)) && Clean(("ActionID", value)) && Clean(("Node", value)) && Clean(("Var", value))
      && Clean(("Conn", value))
  {
  }

  /** Rows of words are single lines that start with a word. */
  lemma SpacedIsOneLine(words: seq<string>)
    requires words != [] && forall i :: 0 <= i < |words| ==> Word(words[i])
    ensures NoBreaks(Join(words, ' ')) && Join(words, ' ') != "" && Join(words, ' ')[0] != ' '
    decreases |words|
  {
    assert words[0][0] in words[0];
    forall c | c in words[0] ensures c != '\r' && c != '\n' {
      assert !IsSpace(c);
    }
    if |words| > 1 {
      SpacedIsOneLine(words[1..]);
    }
  }

  lemma RepliesAreClean(c: Condition, node: Node, actionId: string)
    requires Good(c) && GoodReply(node, actionId)
    ensures AllClean(XstatReply(c, node, actionId)) && AllClean(SawstatReply(c, node, actionId))
  {
    hide Reply, GoodReply, AllClean, Join, Truncated, SafeName, Decimal, Value;
    forall i | 0 <= i < |c.links|
      ensures var x, s := XstatRows(c.links)[i], SawstatRows(c.links)[i];
        NoBreaks(x) && x != "" && x[0] != ' ' && NoBreaks(s) && s != "" && s[0] != ' '
    {
      FieldsAreWords(c.links[i]);
      SpacedIsOneLine(XstatFields(c.links[i]));
      SpacedIsOneLine(SawstatFields(c.links[i]));
    }
    VariablesAreOneLine(c);
    ReplyIsClean(node, actionId, Variables(c), XstatRows(c.links));
    ReplyIsClean(node, actionId, [], SawstatRows(c.links));
  }

  lemma VariablesAreOneLine(c: Condition)
    requires Good(c)
    ensures forall i :: 0 <= i < |Variables(c)| ==>
              NoBreaks(Variables(c)[i]) && Variables(c)[i] != "" && Variables(c)[i][0] != ' '
  {
    hide Good, Decimal, Value, Assign, BitText;
    var m := AlinksOf(c.links);
    GoodIsDistinct(c);
    AlinksExpressible(c.links);
    ValueIsOneLine(m);
    DecimalIsOneLine(|m|);
    TopologyIsOneLine(c);
    AssignIsOneLine("RPT_RXKEYED", BitText(c.rx));
    AssignIsOneLine("RPT_TXKEYED", BitText(c.tx));
    AssignIsOneLine("RPT_NUMALINKS", Decimal(|m|));
    AssignIsOneLine("RPT_ALINKS", Value(m));
    AssignIsOneLine("RPT_LINKS", c.topology);
    BitIsOneLine(c.rx);
    BitIsOneLine(c.tx);
  }

  lemma AssignIsOneLine(name: string, value: string)
    ensures name != "" && name[0] != ' ' && NoBreaks(name) && NoBreaks(value) ==>
      var row := Assign(name, value); NoBreaks(row) && row != "" && row[0] != ' '
  {
  }

  lemma BitIsOneLine(b: bool)
    ensures NoBreaks(BitText(b))
  {
  }

  lemma DecimalIsOneLine(n: nat)
    ensures NoBreaks(Decimal(n))
  {
    CountOfDecimal(n);
  }

  lemma TopologyIsOneLine(c: Condition)
    requires Good(c)
    ensures NoBreaks(c.topology)
  {
  }

  lemma ValueIsOneLine(m: seq<Alink>)
    requires Expressible(m)
    ensures NoBreaks(Value(m))
  {
    hide Decimal, SafeName;
    CountOfDecimal(|m|);
    forall i | 0 <= i < |m| ensures NoBreaks(Token(m[i])) {
      TokenIsOneLine(m[i]);
    }
    JoinIsOneLine([Decimal(|m|)] + Tokens(m));
  }

  lemma TokenIsOneLine(a: Alink)
    requires SafeName(a.name) && a.mode != UnknownMode
    ensures NoBreaks(Token(a))
  {
  }

  lemma {:induction false} JoinIsOneLine(parts: seq<string>)
    requires forall i :: 0 <= i < |parts| ==> NoBreaks(parts[i])
    ensures NoBreaks(Join(parts, ','))
  {
    if |parts| > 1 {
      JoinIsOneLine(parts[1..]);
    }
  }

  /**
    End to end. Both replies, written one after the other, are cut out of the stream as they were written; and what
    is read from them is the node's condition exactly, if and only if neither reply exceeds the frame limit.
   */
  lemma ConditionSurvivesTheWire(c: Condition, node: Node, id1: string, id2: string, epoch: string, rest: string)
    requires Good(c) && GoodReply(node, id1) && GoodReply(node, id2)
    ensures var x, s := Payload(XstatReply(c, node, id1)), Payload(SawstatReply(c, node, id2));
      && ReadUntil(x + (s + rest)) == Some((x, s + rest)) && ReadUntil(s + rest) == Some((s, rest))
      && (ReadFrame(x).Ok? <==> ByteLength(x) <= 262144) && (ReadFrame(s).Ok? <==> ByteLength(s) <= 262144)
      && (ReadFrame(x).Ok? && ReadFrame(s).Ok? ==>
            ParseSnapshot(ReadFrame(x).value, ReadFrame(s).value, node, epoch) == StateOf(c, node, epoch))
  {
    hide Good, GoodReply, AllClean, AllOneLine, XstatReply, SawstatReply, Collect, ByteLength, ReadUntil, ParseSnapshot,
      StateOf, ReadLines, SplitLines;
    RepliesAreClean(c, node, id1);
    RepliesAreClean(c, node, id2);
    CleanStaysOnItsLine(XstatReply(c, node, id1));
    CleanStaysOnItsLine(SawstatReply(c, node, id2));
    OneWriteIsOneFrame(XstatReply(c, node, id1), Payload(SawstatReply(c, node, id2)) + rest);
    OneWriteIsOneFrame(SawstatReply(c, node, id2), rest);
    FrameRoundTrip(XstatReply(c, node, id1));
    FrameRoundTrip(SawstatReply(c, node, id2));
    ParsersUndoRendering(c, node, id1, id2, epoch);
  }

  // ---- through a session ------------------------------------------------------------------------

  lemma RepliesCorrelate(c: Condition, node: Node, actionId: string)
    requires Good(c)
    ensures OwnMessage(XstatReply(c, node, actionId), actionId) && OwnMessage(SawstatReply(c, node, actionId), actionId)
  {
    hide Reply, OwnMessage;
    ReplyCorrelates(node, actionId, Variables(c), XstatRows(c.links));
    ReplyCorrelates(node, actionId, [], SawstatRows(c.links));
  }

  /** Read as one message, these headers are the reply to this action and no event. */
  ghost predicate OwnMessage(hs: seq<Header>, actionId: string) {
    var m := Collect(hs, map[]);
    m.Ok? && !IsEvent(m.value) && Carries(m.value, actionId)
  }

  lemma ReplyCorrelates(node: Node, actionId: string, vars: seq<string>, conns: seq<string>)
    ensures OwnMessage(Reply(node, actionId, vars, conns), actionId)
  {
    hide Reply, Collect, Lower, ValuesOf;
    var hs := Reply(node, actionId, vars, conns);
    ReplyCollects(node, actionId, vars, conns);
    ValuesRoundTrip(hs, "response");
    ValuesRoundTrip(hs, "actionid");
    ReplyValues(node, actionId, vars, conns, "response");
    ReplyValues(node, actionId, vars, conns, "actionid");
    SingleNamesStayScalar(hs, map[], "actionid");
  }

  /** A written reply of acceptable size is what the reply loop looks for. */
  lemma WrittenReplyIsOwn(hs: seq<Header>, actionId: string)
    requires AllClean(hs) && OwnMessage(hs, actionId) && ByteLength(Payload(hs)) <= 262144
    ensures OwnReply(Payload(hs), actionId, Collect(hs, map[]).value)
  {
    hide Clean, Collect, ByteLength, ReadFrame, FirstEnd, Body;
    CleanStaysOnItsLine(hs);
    OneWriteIsOneFrame(hs, "");
    FrameRoundTrip(hs);
    assert Payload(hs) + "" == Payload(hs);
  }

  /** Fewer events than the reply loop's budget. */
  ghost predicate FewEvents(events: seq<string>) {
    |events| < 100 && forall i :: 0 <= i < |events| ==> Passed(events[i])
  }

  /** What a peer sends behind its greeting: the accepted login's reply and both replies, events before each of them. */
  ghost function Transcript(c: Condition, node: Node, login: string, xstatId: string, sawstatId: string,
      events: seq<seq<string>>, rest: string): string
    requires Good(c) && |events| == 3
  {
    Flatten(events[0]) + login
    + (Flatten(events[1]) + Payload(XstatReply(c, node, xstatId))
       + (Flatten(events[2]) + Payload(SawstatReply(c, node, sawstatId)) + rest))
  }

  /**
    End to end through a session: whatever events are interleaved, an observation of a node in this condition finds its
    two replies by their ActionIDs and reads exactly this condition from them.
   */
  lemma ConditionIsObserved(c: Condition, node: Node, epoch: string, input: string, login: string, accepted: Message,
      loginId: string, xstatId: string, sawstatId: string, events: seq<seq<string>>, rest: string)
    requires Good(c) && GoodReply(node, xstatId) && GoodReply(node, sawstatId)
    requires ByteLength(Payload(XstatReply(c, node, xstatId))) <= 262144
    requires ByteLength(Payload(SawstatReply(c, node, sawstatId))) <= 262144
    requires OwnReply(login, loginId, accepted) && SaysSuccess(accepted)
    requires |events| == 3 && forall i :: 0 <= i < 3 ==> FewEvents(events[i])
    requires Greets(input) && AfterGreeting(input) == Transcript(c, node, login, xstatId, sawstatId, events, rest)
    ensures var samples := Samples(input, loginId, xstatId, sawstatId);
      samples.Some? && ParseSnapshot(samples.value.0, samples.value.1, node, epoch) == StateOf(c, node, epoch)
  {
    hide Good, GoodReply, XstatReply, SawstatReply, Collect, ByteLength, ParseSnapshot, StateOf, ReplyFrom, OwnReply,
      OwnMessage, AllClean, Greets, AfterGreeting, SaysSuccess, Payload, Flatten, Passed;
    RepliesAreClean(c, node, xstatId);
    RepliesAreClean(c, node, sawstatId);
    RepliesCorrelate(c, node, xstatId);
    RepliesCorrelate(c, node, sawstatId);
    var x, s := XstatReply(c, node, xstatId), SawstatReply(c, node, sawstatId);
    WrittenReplyIsOwn(x, xstatId);
    WrittenReplyIsOwn(s, sawstatId);
    ParsersUndoRendering(c, node, xstatId, sawstatId, epoch);
    var behindXstat := Flatten(events[2]) + Payload(s) + rest;
    var behindLogin := Flatten(events[1]) + Payload(x) + behindXstat;
    assert FewEvents(events[0]) && FewEvents(events[1]) && FewEvents(events[2]);
    ReplyFound(AfterGreeting(input), loginId, 100, events[0], login, behindLogin, accepted);
    ReplyFound(behindLogin, xstatId, 100, events[1], Payload(x), behindXstat, Collect(x, map[]).value);
    ReplyFound(behindXstat, sawstatId, 100, events[2], Payload(s), rest, Collect(s, map[]).value);
  }
}
