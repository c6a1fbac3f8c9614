/** Two same-session samples combined into one state, or into none (vnext/observation.py). */
module Observation {
  import opened Base
  import opened Models
  import opened Text
  import opened Alinks
  import opened Ami

  datatype Connection = Connection(name: string, status: ConnectionStatus)

  datatype Keying = Keying(name: string, keyed: bool)

  datatype Xstat = Xstat(variables: map<string, string>, connections: seq<Connection>, alinks: seq<Alink>)

  // ---- one header -------------------------------------------------------------------------------

  function Single(m: Message, key: string): Option<string> {
    if |Lines(m, key)| == 1 then Some(Lines(m, key)[0]) else None
  }

  /** The action succeeded and speaks of this node. */
  predicate Answers(m: Message, node: Node) {
    Single(m, "response") == Some("Success") && Single(m, "node") == Some(node)
  }

  // ---- variables --------------------------------------------------------------------------------

  predicate Assignment(row: string) {
    0 < IndexOf(row, '=') < |row|
  }

  function NameOf(row: string): string {
    row[..IndexOf(row, '=')]
  }

  function ValueOf(row: string): string
    requires Assignment(row)
  {
    row[IndexOf(row, '=') + 1..]
  }

  function CollectVariables(rows: seq<string>, done: map<string, string>): Result<map<string, string>> {
    if rows == [] then Ok(done)
    else if !Assignment(rows[0]) || NameOf(rows[0]) in done then
      Err(Raised("Malformed or duplicate XStat variable"))
    else CollectVariables(rows[1..], done[NameOf(rows[0]) := ValueOf(rows[0])])
  }

  // ---- connection rows --------------------------------------------------------------------------

  /** The language \d{2,}:[0-5]\d:[0-5]\d */
  predicate Elapsed(t: string) {
    && |t| >= 8 && AllDigits(t[..|t| - 6])
    && t[|t| - 6] == ':' && '0' <= t[|t| - 5] <= '5' && IsDigit(t[|t| - 4])
    && t[|t| - 3] == ':' && '0' <= t[|t| - 2] <= '5' && IsDigit(t[|t| - 1])
  }

  function StatusOf(s: string): Option<ConnectionStatus> {
    if s == "ESTABLISHED" then Some(ESTABLISHED) else if s == "CONNECTING" then Some(CONNECTING) else None
  }

  /** The groups of XSTAT_CONN in order: name, peer, count, direction, elapsed time, status. */
  predicate XstatWords(w: seq<string>) {
    && |w| == 6 && w[2] != "" && AllDigits(w[2]) && w[3] in {"IN", "OUT"} && Elapsed(w[4]) && StatusOf(w[5]).Some?
  }

  predicate SignedDigits(s: string) {
    s != "" && (AllDigits(s) || (s[0] == '-' && |s| > 1 && AllDigits(s[1..])))
  }

  /** The groups of SAWSTAT_CONN in order: name, keyed, and two counters. */
  predicate SawstatWords(w: seq<string>) {
    |w| == 4 && w[1] in {"0", "1"} && SignedDigits(w[2]) && SignedDigits(w[3])
  }

  predicate HasConnection(done: seq<Connection>, name: string) {
    exists i :: 0 <= i < |done| && done[i].name == name
  }

  predicate HasKeying(done: seq<Keying>, name: string) {
    exists i :: 0 <= i < |done| && done[i].name == name
  }

  function CollectConnections(rows: seq<string>, done: seq<Connection>): Result<seq<Connection>> {
    if rows == [] then Ok(done)
    else
      var w := Words(rows[0]);
      if !XstatWords(w) then Err(Raised("Malformed XStat Conn"))
      else
        var name :- CheckName(w[0]);
        if HasConnection(done, name) then Err(Raised("Duplicate XStat Conn"))
        else CollectConnections(rows[1..], done + [Connection(name, StatusOf(w[5]).value)])
  }

  function CollectKeyings(rows: seq<string>, done: seq<Keying>): Result<seq<Keying>> {
    if rows == [] then Ok(done)
    else
      var w := Words(rows[0]);
      if !SawstatWords(w) then Err(Raised("Malformed SawStat Conn"))
      else
        var name :- CheckName(w[0]);
        if HasKeying(done, name) then Err(Raised("Duplicate SawStat Conn"))
        else CollectKeyings(rows[1..], done + [Keying(name, w[1] == "1")])
  }

  // ---- the two samples --------------------------------------------------------------------------

  function CheckVariables(variables: map<string, string>): Option<Error> {
    if Lookup(variables, "RPT_RXKEYED") !in {Some("0"), Some("1")} then
      Some(Raised("Missing or malformed RPT_RXKEYED"))
    else if Lookup(variables, "RPT_TXKEYED") !in {Some("0"), Some("1")} then
      Some(Raised("Missing or malformed RPT_TXKEYED"))
    else if "RPT_LINKS" in variables && Ami.Contains(variables["RPT_LINKS"], TRUNCATED) then
      Some(Raised("Truncated RPT_LINKS"))
    else None
  }

  function ParseAlinksOf(variables: map<string, string>): Result<seq<Alink>> {
    if "RPT_ALINKS" !in variables || "RPT_NUMALINKS" !in variables then Err(Raised("Missing ALINKS evidence"))
    else Parse(variables["RPT_ALINKS"], variables["RPT_NUMALINKS"])
  }

  function ParseXstat(m: Message, node: Node): Result<Xstat> {
    if !Answers(m, node) then Err(Raised("XStat failed or node mismatch"))
    else
      var variables :- CollectVariables(Lines(m, "var"), map[]);
      if CheckVariables(variables).Some? then Err(CheckVariables(variables).value)
      else
        var connections :- CollectConnections(Lines(m, "conn"), []);
        var alinks :- ParseAlinksOf(variables);
        if exists a | a in alinks :: !HasConnection(connections, a.name) then
          Err(Raised("ALINKS names are not a subset of XStat direct connections"))
        else Ok(Xstat(variables, connections, alinks))
  }

  function ParseSawstat(m: Message, node: Node): Result<seq<Keying>> {
    if !Answers(m, node) then Err(Raised("SawStat failed or node mismatch"))
    else CollectKeyings(Lines(m, "conn"), [])
  }

  // ---- the combination --------------------------------------------------------------------------

  function FindAlink(alinks: seq<Alink>, name: string): Option<Alink> {
    if alinks == [] then None else if alinks[0].name == name then Some(alinks[0]) else FindAlink(alinks[1..], name)
  }

  function FindKeying(keyings: seq<Keying>, name: string): (r: Option<Keying>)
    ensures r.Some? <==> HasKeying(keyings, name)
    ensures r.Some? ==> r.value in keyings && r.value.name == name
  {
    if keyings == [] then None else if keyings[0].name == name then Some(keyings[0]) else FindKeying(keyings[1..], name)
  }

  function LinkOf(c: Connection, alink: Option<Alink>, keyed: bool): DirectLink {
    DirectLink(c.name, if ValidNode(c.name) then Some(c.name) else None,
      if alink.Some? then alink.value.mode else UnknownMode, keyed, c.status)
  }

  function CollectLinks(connections: seq<Connection>, alinks: seq<Alink>, keyings: seq<Keying>,
      done: seq<DirectLink>): Result<seq<DirectLink>>
  {
    if connections == [] then Ok(done)
    else
      var c := connections[0];
      var alink, keying := FindAlink(alinks, c.name), FindKeying(keyings, c.name);
      if keying.None? then Err(Raised("KeyError"))
      else if alink.Some? && alink.value.keyed != keying.value.keyed then
        Err(Raised("Keyed state changed during observation"))
      else CollectLinks(connections[1..], alinks, keyings, done + [LinkOf(c, alink, keying.value.keyed)])
  }

  predicate SameNames(connections: seq<Connection>, keyings: seq<Keying>) {
    && (forall c | c in connections :: HasKeying(keyings, c.name))
    && (forall k | k in keyings :: HasConnection(connections, k.name))
  }

  function Combine(x: Xstat, keyings: seq<Keying>, node: Node, epoch: string): Result<NodeState>
    requires CheckVariables(x.variables).None?
  {
    if !SameNames(x.connections, keyings) then Err(Raised("Direct-link set changed during observation"))
    else
      var links :- CollectLinks(x.connections, x.alinks, keyings, []);
      var rx, tx := x.variables["RPT_RXKEYED"] == "1", x.variables["RPT_TXKEYED"] == "1";
      var active := rx || tx || exists link | link in links :: link.keyed;
      Ok(NodeState(node, Some(epoch), if active then ACTIVE else CLEAR, true, Some(rx), Some(tx), Some(links), []))
  }

  lemma XstatChecked(m: Message, node: Node)
    requires ParseXstat(m, node).Ok?
    ensures CheckVariables(ParseXstat(m, node).value.variables).None?
  {
  }

  function Attempt(xstat: Message, sawstat: Message, node: Node, epoch: string): Result<NodeState> {
    var x :- ParseXstat(xstat, node);
    var keyings :- ParseSawstat(sawstat, node);
    XstatChecked(xstat, node);
    Combine(x, keyings, node, epoch)
  }

  /** Contradictory or malformed evidence becomes an unknown state, never a guess. */
  function ParseSnapshot(xstat: Message, sawstat: Message, node: Node, epoch: string): NodeState {
    match Attempt(xstat, sawstat, node, epoch)
    case Ok(state) => state
    case Err(error) => UnknownState(node, Some(epoch), CodeOf(error))
  }

  // ---- the parsers' own loops -------------------------------------------------------------------

  method ReadVariables(rows: seq<string>) returns (r: Result<map<string, string>>)
    ensures r == CollectVariables(rows, map[])
  {
    var variables: map<string, string> := map[];
    var i := 0;
    assert rows[0..] == rows;
    while i < |rows|
      invariant i <= |rows|
      invariant CollectVariables(rows, map[]) == CollectVariables(rows[i..], variables)
    {
      var row := rows[i];
      assert rows[i..][1..] == rows[i + 1..];
      var cut := IndexOf(row, '=');
      if cut == |row| || cut == 0 || row[..cut] in variables {
        return Err(Raised("Malformed or duplicate XStat variable"));
      }
      variables := variables[row[..cut] := row[cut + 1..]];
      i := i + 1;
    }
    return Ok(variables);
  }

  method ReadConnections(rows: seq<string>) returns (r: Result<seq<Connection>>)
    ensures r == CollectConnections(rows, [])
  {
    var connections: seq<Connection> := [];
    var i := 0;
    assert rows[0..] == rows;
    while i < |rows|
      invariant i <= |rows|
      invariant CollectConnections(rows, []) == CollectConnections(rows[i..], connections)
    {
      assert rows[i..][1..] == rows[i + 1..];
      var w := Words(rows[i]);
      if !XstatWords(w) {
        return Err(Raised("Malformed XStat Conn"));
      }
      var name := CheckName(w[0]);
      if name.Err? {
        return Err(name.error);
      }
      if HasConnection(connections, name.value) {
        return Err(Raised("Duplicate XStat Conn"));
      }
      connections := connections + [Connection(name.value, StatusOf(w[5]).value)];
      i := i + 1;
    }
    return Ok(connections);
  }

  method ReadXstat(m: Message, node: Node) returns (r: Result<Xstat>)
    ensures r == ParseXstat(m, node)
  {
    if !Answers(m, node) {
      return Err(Raised("XStat failed or node mismatch"));
    }
    var variables := ReadVariables(Lines(m, "var"));
    if variables.Err? {
      return Err(variables.error);
    }
    var problem := CheckVariables(variables.value);
    if problem.Some? {
      return Err(problem.value);
    }
    var connections := ReadConnections(Lines(m, "conn"));
    if connections.Err? {
      return Err(connections.error);
    }
    if "RPT_ALINKS" !in variables.value || "RPT_NUMALINKS" !in variables.value {
      return Err(Raised("Missing ALINKS evidence"));
    }
    var alinks := ParseAlinks(variables.value["RPT_ALINKS"], variables.value["RPT_NUMALINKS"]);
    if alinks.Err? {
      return Err(alinks.error);
    }
    if exists a | a in alinks.value :: !HasConnection(connections.value, a.name) {
      return Err(Raised("ALINKS names are not a subset of XStat direct connections"));
    }
    return Ok(Xstat(variables.value, connections.value, alinks.value));
  }

  method ReadSawstat(m: Message, node: Node) returns (r: Result<seq<Keying>>)
    ensures r == ParseSawstat(m, node)
  {
    if !Answers(m, node) {
      return Err(Raised("SawStat failed or node mismatch"));
    }
    var rows := Lines(m, "conn");
    var keyed: seq<Keying> := [];
    var i := 0;
    assert rows[0..] == rows;
    while i < |rows|
      invariant i <= |rows|
      invariant CollectKeyings(rows, []) == CollectKeyings(rows[i..], keyed)
    {
      assert rows[i..][1..] == rows[i + 1..];
      var w := Words(rows[i]);
      if !SawstatWords(w) {
        return Err(Raised("Malformed SawStat Conn"));
      }
      var name := CheckName(w[0]);
      if name.Err? {
        return Err(name.error);
      }
      if HasKeying(keyed, name.value) {
        return Err(Raised("Duplicate SawStat Conn"));
      }
      keyed := keyed + [Keying(name.value, w[1] == "1")];
      i := i + 1;
    }
    return Ok(keyed);
  }

  method ReadLinks(connections: seq<Connection>, alinks: seq<Alink>, keyings: seq<Keying>)
    returns (r: Result<seq<DirectLink>>)
    ensures r == CollectLinks(connections, alinks, keyings, [])
  {
    var links: seq<DirectLink> := [];
    var i := 0;
    assert connections[0..] == connections;
    while i < |connections|
      invariant i <= |connections|
      invariant CollectLinks(connections, alinks, keyings, []) == CollectLinks(connections[i..], alinks, keyings, links)
    {
      assert connections[i..][1..] == connections[i + 1..];
      var c := connections[i];
      var alink, keying := FindAlink(alinks, c.name), FindKeying(keyings, c.name);
      if keying.None? {
        return Err(Raised("KeyError"));
      }
      if alink.Some? && alink.value.keyed != keying.value.keyed {
        return Err(Raised("Keyed state changed during observation"));
      }
      links := links + [LinkOf(c, alink, keying.value.keyed)];
      i := i + 1;
    }
    return Ok(links);
  }

  method ReadSnapshot(xstat: Message, sawstat: Message, node: Node, epoch: string) returns (state: NodeState)
    ensures state == ParseSnapshot(xstat, sawstat, node, epoch)
  {
    hide ParseXstat, ParseSawstat;
    var x := ReadXstat(xstat, node);
    if x.Err? {
      return UnknownState(node, Some(epoch), CodeOf(x.error));
    }
    var keyings := ReadSawstat(sawstat, node);
    if keyings.Err? {
      return UnknownState(node, Some(epoch), CodeOf(keyings.error));
    }
    XstatChecked(xstat, node);
    if !SameNames(x.value.connections, keyings.value) {
      return UnknownState(node, Some(epoch), "Direct-link set changed during observation");
    }
    var links := ReadLinks(x.value.connections, x.value.alinks, keyings.value);
    if links.Err? {
      return UnknownState(node, Some(epoch), CodeOf(links.error));
    }
    var rx, tx := x.value.variables["RPT_RXKEYED"] == "1", x.value.variables["RPT_TXKEYED"] == "1";
    var active := rx || tx || exists link | link in links.value :: link.keyed;
    var traffic := if active then ACTIVE else CLEAR;
    return NodeState(node, Some(epoch), traffic, true, Some(rx), Some(tx), Some(links.value), []);
  }

  // ---- the observer -----------------------------------------------------------------------------

  /** What came of asking the transport: both samples and their session, or any of the anticipated failures. */
  datatype Sample = Sample(xstat: Message, sawstat: Message, epoch: string) | Unavailable

  /** Serialized observations that lose their value when the connection's lifecycle changes under them. */
  class Observer {
    const node: Node
    var generation: nat
    /** Every state handed out so far. */
    ghost var published: seq<NodeState>

    constructor (node: Node)
      ensures this.node == node && generation == 0 && published == []
    {
      this.node := node;
      generation := 0;
      published := [];
    }

    method Invalidate()
      modifies this
      ensures generation == old(generation) + 1 && published == old(published)
    {
      generation := generation + 1;
    }

    /** The rest of snapshot() once the transport has returned; started is the generation it began with. */
    method Conclude(started: nat, sample: Sample, freshEpoch: string) returns (state: NodeState)
      requires started <= generation
      ensures state == match sample
        case Unavailable => UnknownState(node, Some(freshEpoch), "AMI_OBSERVATION_UNAVAILABLE")
        case Sample(xstat, sawstat, epoch) =>
          if started < generation then UnknownState(node, Some(epoch), "STALE_CONNECTION_EPOCH")
          else ParseSnapshot(xstat, sawstat, node, epoch)
      ensures Evident(state)
    {
      if sample.Unavailable? {
        return UnknownState(node, Some(freshEpoch), "AMI_OBSERVATION_UNAVAILABLE");
      }
      SnapshotIsEvident(sample.xstat, sample.sawstat, node, sample.epoch);
      if started != generation {
        return UnknownState(node, Some(sample.epoch), "STALE_CONNECTION_EPOCH");
      }
      state := ReadSnapshot(sample.xstat, sample.sawstat, node, sample.epoch);
    }

    /** A whole observation: the transport's answer, and the lifecycle changes during it, may be anything. */
    method Snapshot() returns (state: NodeState)
      modifies this
      ensures Evident(state) && generation >= old(generation) && published == old(published) + [state]
    {
      hide Evident;
      var started := generation;
      var sample: Sample, changes: nat, freshEpoch: string := *, *, *;
      generation := generation + changes;
      state := Conclude(started, sample, freshEpoch);
      published := published + [state];
    }
  }

  // ---- what the collectors accept ---------------------------------------------------------------

  ghost predicate DistinctConnections(cs: seq<Connection>) {
    forall i, j :: 0 <= i < j < |cs| ==> cs[i].name != cs[j].name
  }

  ghost predicate DistinctKeyings(ks: seq<Keying>) {
    forall i, j :: 0 <= i < j < |ks| ==> ks[i].name != ks[j].name
  }

  predicate Sixty(s: string) {
    |s| == 2 && '0' <= s[0] <= '5' && '0' <= s[1] <= '9'
  }

  /** Hours of two digits or more, minutes and seconds. */
  ghost predicate TimeText(t: string) {
    exists hours, minutes, seconds ::
      |hours| >= 2 && Digits(hours) && Sixty(minutes) && Sixty(seconds) && t == hours + ":" + minutes + ":" + seconds
  }

  ghost predicate Signed(s: string) {
    exists digits :: Digits(digits) && (s == digits || s == "-" + digits)
  }

  ghost predicate XstatText(row: string, c: Connection, peer: string, count: string, way: string, time: string) {
    && Digits(count) && (way == "IN" || way == "OUT") && TimeText(time)
    && Spaced(row, [c.name, peer, count, way, time, if c.status == ESTABLISHED then "ESTABLISHED" else "CONNECTING"])
  }

  /** One row of XStat's Conn header: name, peer, count, direction, elapsed time, status. */
  ghost predicate XstatRow(row: string, c: Connection) {
    exists peer, count, way, time :: XstatText(row, c, peer, count, way, time)
  }

  /** One row of SawStat's Conn header: name, keyed or not, two counters. */
  ghost predicate SawstatRow(row: string, k: Keying) {
    exists a, b :: Signed(a) && Signed(b) && Spaced(row, [k.name, if k.keyed then "1" else "0", a, b])
  }

  ghost predicate ConnectionsOf(rows: seq<string>, cs: seq<Connection>) {
    && |cs| == |rows| && DistinctConnections(cs)
    && forall i :: 0 <= i < |rows| ==> XstatRow(rows[i], cs[i]) && SafeName(cs[i].name)
  }

  ghost predicate KeyingsOf(rows: seq<string>, ks: seq<Keying>) {
    && |ks| == |rows| && DistinctKeyings(ks)
    && forall i :: 0 <= i < |rows| ==> SawstatRow(rows[i], ks[i]) && SafeName(ks[i].name)
  }

  ghost predicate Assigns(row: string, name: string, value: string) {
    name != "" && '=' !in name && row == name + "=" + value
  }

  /** The rows assign these variables, one each, and nothing else. */
  ghost predicate VariablesOf(rows: seq<string>, variables: map<string, string>) {
    exists names :: |names| == |rows| && AssignAs(rows, names, variables)
  }

  ghost predicate AssignAs(rows: seq<string>, names: seq<string>, variables: map<string, string>)
    requires |names| == |rows|
  {
    && (forall i :: 0 <= i < |rows| ==> names[i] in variables && Assigns(rows[i], names[i], variables[names[i]]))
    && (forall i, j :: 0 <= i < j < |names| ==> names[i] != names[j])
    && (forall name :: name in variables ==> name in names)
  }

  /** The same, told by taking the rows apart. */
  ghost predicate VariablesIn(rows: seq<string>, variables: map<string, string>) {
    && (forall i :: 0 <= i < |rows| ==> Assignment(rows[i]))
    && (forall i, j :: 0 <= i < j < |rows| ==> NameOf(rows[i]) != NameOf(rows[j]))
    && (forall i :: 0 <= i < |rows| ==> NameOf(rows[i]) in variables && variables[NameOf(rows[i])] == ValueOf(rows[i]))
    && (forall key :: key in variables ==> exists i :: 0 <= i < |rows| && NameOf(rows[i]) == key)
  }

  lemma AssignmentReads(row: string, name: string, value: string)
    ensures Assigns(row, name, value) <==> Assignment(row) && NameOf(row) == name && ValueOf(row) == value
  {
    if Assigns(row, name, value) {
      assert row == name + ['='] + value;
      IndexOfFirst(name, '=', value);
      assert row[..|name|] == name && row[|name| + 1..] == value;
    }
    if Assignment(row) {
      assert row == NameOf(row) + "=" + ValueOf(row);
    }
  }

  lemma AssignedAreIn(rows: seq<string>, names: seq<string>, variables: map<string, string>)
    requires |names| == |rows| && AssignAs(rows, names, variables)
    ensures VariablesIn(rows, variables)
  {
    hide Assigns, Assignment, NameOf, ValueOf;
    forall i | 0 <= i < |rows|
      ensures Assignment(rows[i]) && NameOf(rows[i]) == names[i] && ValueOf(rows[i]) == variables[names[i]]
    {
      AssignmentReads(rows[i], names[i], variables[names[i]]);
    }
  }

  lemma VariablesAreIn(rows: seq<string>, variables: map<string, string>)
    ensures VariablesOf(rows, variables) <==> VariablesIn(rows, variables)
  {
    hide Assigns, Assignment, NameOf, ValueOf, VariablesIn, AssignAs;
    if names :| |names| == |rows| && AssignAs(rows, names, variables) {
      AssignedAreIn(rows, names, variables);
    }
    if VariablesIn(rows, variables) {
      var names := seq(|rows|, i requires 0 <= i < |rows| => NameOf(rows[i]));
      InAreAssigned(rows, names, variables);
    }
  }

  lemma InAreAssigned(rows: seq<string>, names: seq<string>, variables: map<string, string>)
    requires VariablesIn(rows, variables)
    requires |names| == |rows| && forall i :: 0 <= i < |rows| ==> names[i] == NameOf(rows[i])
    ensures AssignAs(rows, names, variables)
  {
    hide Assigns, Assignment, NameOf, ValueOf;
    forall i | 0 <= i < |rows| ensures names[i] in variables && Assigns(rows[i], names[i], variables[names[i]]) {
      AssignmentReads(rows[i], names[i], variables[names[i]]);
    }
    forall name | name in variables ensures name in names {
      var i :| 0 <= i < |rows| && NameOf(rows[i]) == name;
      assert names[i] == name;
    }
  }

  /** The action succeeded and speaks of this node, each said once. */
  ghost predicate Affirms(m: Message, node: Node) {
    Lines(m, "response") == ["Success"] && Lines(m, "node") == [node]
  }

  lemma AnswerDecided(m: Message, node: Node)
    ensures Answers(m, node) <==> Affirms(m, node)
  {
  }

  ghost predicate Truncated(text: string) {
    exists i: nat :: ZerosAt(text, i)
  }

  predicate ZerosAt(text: string, i: nat) {
    i + 6 <= |text| && text[i..i + 6] == "000000"
  }

  lemma TruncationDecided(text: string)
    ensures Ami.Contains(text, TRUNCATED) <==> Truncated(text)
  {
    if i: nat :| ZerosAt(text, i) {
      assert OccursAt(text, TRUNCATED, i);
    }
    if i: nat :| i <= |text| && OccursAt(text, TRUNCATED, i) {
      assert ZerosAt(text, i);
    }
  }

  lemma ElapsedDecided(t: string)
    ensures Elapsed(t) <==> TimeText(t)
  {
    if Elapsed(t) {
      var n := |t| - 6;
      assert t == t[..n] + ":" + t[n + 1..n + 3] + ":" + t[n + 4..];
      assert Digits(t[..n]) && Sixty(t[n + 1..n + 3]) && Sixty(t[n + 4..]);
    }
    if hours, minutes, seconds :| (
        && |hours| >= 2 && Digits(hours) && Sixty(minutes) && Sixty(seconds)
        && t == hours + ":" + minutes + ":" + seconds) {
      assert t[..|t| - 6] == hours;
    }
  }

  lemma SignedDecided(s: string)
    ensures SignedDigits(s) <==> Signed(s)
  {
    if SignedDigits(s) {
      var digits := if s[0] == '-' then s[1..] else s;
      assert Digits(digits) && (s == digits || s == "-" + digits);
    }
    if digits :| Digits(digits) && (s == digits || s == "-" + digits) {
      assert s == "-" + digits ==> s[1..] == digits;
    }
  }

  lemma XstatRowReads(row: string, c: Connection)
    ensures XstatRow(row, c) <==> var w := Words(row); XstatWords(w) && c == Connection(w[0], StatusOf(w[5]).value)
  {
    hide Elapsed, TimeText, Spaced, Words;
    var status := if c.status == ESTABLISHED then "ESTABLISHED" else "CONNECTING";
    if peer, count, way, time :| XstatText(row, c, peer, count, way, time) {
      WordsAreSpaced(row, [c.name, peer, count, way, time, status]);
      ElapsedDecided(time);
    }
    var w := Words(row);
    if XstatWords(w) && c == Connection(w[0], StatusOf(w[5]).value) {
      WordsAreSpaced(row, w);
      ElapsedDecided(w[4]);
      assert w == [c.name, w[1], w[2], w[3], w[4], status];
      assert XstatText(row, c, w[1], w[2], w[3], w[4]);
    }
  }

  lemma SawstatRowReads(row: string, k: Keying)
    ensures SawstatRow(row, k) <==> var w := Words(row); SawstatWords(w) && k == Keying(w[0], w[1] == "1")
  {
    hide SignedDigits, Signed, Spaced, Words;
    var bit := if k.keyed then "1" else "0";
    if a, b :| Signed(a) && Signed(b) && Spaced(row, [k.name, bit, a, b]) {
      WordsAreSpaced(row, [k.name, bit, a, b]);
      SignedDecided(a);
      SignedDecided(b);
    }
    var w := Words(row);
    if SawstatWords(w) && k == Keying(w[0], w[1] == "1") {
      WordsAreSpaced(row, w);
      SignedDecided(w[2]);
      SignedDecided(w[3]);
      assert w == [k.name, bit, w[2], w[3]];
    }
  }

  lemma {:induction false} ConnectionsAccepted(rows: seq<string>, cs: seq<Connection>, k: nat)
    requires ConnectionsOf(rows, cs) && k <= |rows|
    ensures CollectConnections(rows[k..], cs[..k]) == Ok(cs)
    decreases |rows| - k
  {
    hide Words, XstatWords, XstatRow, SafeName;
    if k == |rows| {
      assert cs[..k] == cs;
    } else {
      XstatRowReads(rows[k], cs[k]);
      assert rows[k..][1..] == rows[k + 1..] && cs[..k] + [cs[k]] == cs[..k + 1];
      ConnectionsAccepted(rows, cs, k + 1);
    }
  }

  lemma {:induction false} ConnectionsSound(rows: seq<string>, done: seq<Connection>)
    requires CollectConnections(rows, done).Ok? && DistinctConnections(done)
    ensures var cs := CollectConnections(rows, done).value;
      && |cs| == |done| + |rows| && done <= cs && DistinctConnections(cs)
      && forall i :: 0 <= i < |rows| ==> XstatRow(rows[i], cs[|done| + i]) && SafeName(cs[|done| + i].name)
    decreases |rows|
  {
    hide Words, XstatRow, SafeName, Elapsed;
    if rows != [] {
      var w := Words(rows[0]);
      var c := Connection(w[0], StatusOf(w[5]).value);
      XstatRowReads(rows[0], c);
      ConnectionsSound(rows[1..], done + [c]);
      var cs := CollectConnections(rows, done).value;
      forall i | 0 <= i < |rows| ensures XstatRow(rows[i], cs[|done| + i]) && SafeName(cs[|done| + i].name) {
        if i > 0 {
          assert rows[i] == rows[1..][i - 1];
        }
      }
    }
  }

  /** The first loop of parse_snapshot's XStat side accepts exactly the rows of the expression, names distinct. */
  lemma ConnectionsDecided(rows: seq<string>, cs: seq<Connection>)
    ensures CollectConnections(rows, []) == Ok(cs) <==> ConnectionsOf(rows, cs)
  {
    hide XstatRow, SafeName, CollectConnections;
    if CollectConnections(rows, []) == Ok(cs) {
      ConnectionsSound(rows, []);
    }
    if ConnectionsOf(rows, cs) {
      ConnectionsAccepted(rows, cs, 0);
      assert rows[0..] == rows && cs[..0] == [];
    }
  }

  lemma {:induction false} KeyingsAccepted(rows: seq<string>, ks: seq<Keying>, k: nat)
    requires KeyingsOf(rows, ks) && k <= |rows|
    ensures CollectKeyings(rows[k..], ks[..k]) == Ok(ks)
    decreases |rows| - k
  {
    hide Words, SawstatWords, SawstatRow, SafeName;
    if k == |rows| {
      assert ks[..k] == ks;
    } else {
      SawstatRowReads(rows[k], ks[k]);
      assert rows[k..][1..] == rows[k + 1..] && ks[..k] + [ks[k]] == ks[..k + 1];
      KeyingsAccepted(rows, ks, k + 1);
    }
  }

  lemma {:induction false} KeyingsSound(rows: seq<string>, done: seq<Keying>)
    requires CollectKeyings(rows, done).Ok? && DistinctKeyings(done)
    ensures var ks := CollectKeyings(rows, done).value;
      && |ks| == |done| + |rows| && done <= ks && DistinctKeyings(ks)
      && forall i :: 0 <= i < |rows| ==> SawstatRow(rows[i], ks[|done| + i]) && SafeName(ks[|done| + i].name)
    decreases |rows|
  {
    hide Words, SawstatRow, SafeName, SignedDigits;
    if rows != [] {
      var w := Words(rows[0]);
      var k := Keying(w[0], w[1] == "1");
      SawstatRowReads(rows[0], k);
      KeyingsSound(rows[1..], done + [k]);
      var ks := CollectKeyings(rows, done).value;
      forall i | 0 <= i < |rows| ensures SawstatRow(rows[i], ks[|done| + i]) && SafeName(ks[|done| + i].name) {
        if i > 0 {
          assert rows[i] == rows[1..][i - 1];
        }
      }
    }
  }

  lemma KeyingsDecided(rows: seq<string>, ks: seq<Keying>)
    ensures CollectKeyings(rows, []) == Ok(ks) <==> KeyingsOf(rows, ks)
  {
    hide SawstatRow, SafeName, CollectKeyings;
    if CollectKeyings(rows, []) == Ok(ks) {
      KeyingsSound(rows, []);
    }
    if KeyingsOf(rows, ks) {
      KeyingsAccepted(rows, ks, 0);
      assert rows[0..] == rows && ks[..0] == [];
    }
  }

  /** The variables that the first k rows assign. */
  lemma {:induction false} VariablesAccepted(rows: seq<string>, variables: map<string, string>, k: nat,
      done: map<string, string>)
    requires VariablesIn(rows, variables) && k <= |rows| && VariablesIn(rows[..k], done)
    ensures CollectVariables(rows[k..], done) == Ok(variables)
    decreases |rows| - k
  {
    hide Assignment, NameOf, ValueOf, VariablesIn;
    if k == |rows| {
      assert rows[..k] == rows;
      VariablesUnique(rows, done, variables);
    } else {
      NextVariableIsNew(rows, variables, k, done);
      assert rows[k..][0] == rows[k] && rows[k..][1..] == rows[k + 1..];
      assert rows[..k + 1] == rows[..k] + [rows[k]];
      VariablesExtend(rows[..k], done, rows[k]);
      VariablesAccepted(rows, variables, k + 1, done[NameOf(rows[k]) := ValueOf(rows[k])]);
    }
  }

  lemma NextVariableIsNew(rows: seq<string>, variables: map<string, string>, k: nat, done: map<string, string>)
    requires VariablesIn(rows, variables) && k < |rows| && VariablesIn(rows[..k], done)
    ensures Assignment(rows[k]) && NameOf(rows[k]) !in done
  {
    hide Assignment, NameOf, ValueOf;
    assert forall i :: 0 <= i < k ==> rows[..k][i] == rows[i];
  }

  lemma VariablesUnique(rows: seq<string>, a: map<string, string>, b: map<string, string>)
    requires VariablesIn(rows, a) && VariablesIn(rows, b)
    ensures a == b
  {
    hide Assignment, NameOf, ValueOf;
    forall key | key in a ensures key in b && b[key] == a[key] {
      var i :| 0 <= i < |rows| && NameOf(rows[i]) == key;
      assert Assignment(rows[i]);
    }
    forall key | key in b ensures key in a {
      var i :| 0 <= i < |rows| && NameOf(rows[i]) == key;
      assert Assignment(rows[i]);
    }
  }

  lemma VariablesExtend(rows: seq<string>, done: map<string, string>, row: string)
    requires VariablesIn(rows, done) && Assignment(row) && NameOf(row) !in done
    ensures VariablesIn(rows + [row], done[NameOf(row) := ValueOf(row)])
  {
    hide Assignment, NameOf, ValueOf;
    var more, next := rows + [row], done[NameOf(row) := ValueOf(row)];
    forall key | key in next ensures exists i :: 0 <= i < |more| && NameOf(more[i]) == key {
      if key == NameOf(row) {
        assert more[|rows|] == row;
      } else {
        var i :| 0 <= i < |rows| && NameOf(rows[i]) == key;
        assert more[i] == rows[i];
      }
    }
    forall i | 0 <= i < |rows| ensures NameOf(rows[i]) in done {
      assert Assignment(rows[i]);
    }
  }

  lemma {:induction false} VariablesSound(before: seq<string>, rows: seq<string>, done: map<string, string>)
    requires VariablesIn(before, done) && CollectVariables(rows, done).Ok?
    ensures VariablesIn(before + rows, CollectVariables(rows, done).value)
    decreases |rows|
  {
    hide VariablesIn;
    if rows == [] {
      assert before + rows == before;
    } else {
      VariablesExtend(before, done, rows[0]);
      VariablesSound(before + [rows[0]], rows[1..], done[NameOf(rows[0]) := ValueOf(rows[0])]);
      assert before + [rows[0]] + rows[1..] == before + rows;
    }
  }

  lemma VariablesDecided(rows: seq<string>, variables: map<string, string>)
    ensures CollectVariables(rows, map[]) == Ok(variables) <==> VariablesOf(rows, variables)
  {
    assert VariablesIn([], map[]);
    VariablesAreIn(rows, variables);
    hide CollectVariables, VariablesOf, VariablesIn;
    if CollectVariables(rows, map[]) == Ok(variables) {
      VariablesSound([], rows, map[]);
      assert [] + rows == rows;
    }
    if VariablesIn(rows, variables) {
      assert rows[..0] == [] && rows[0..] == rows;
      VariablesAccepted(rows, variables, 0, map[]);
    }
  }

  // ---- the state that comes out -----------------------------------------------------------------

  lemma {:induction false} LinksFollow(cs: seq<Connection>, alinks: seq<Alink>, ks: seq<Keying>, done: seq<DirectLink>)
    requires CollectLinks(cs, alinks, ks, done).Ok?
    ensures var links := CollectLinks(cs, alinks, ks, done).value;
      && |links| == |done| + |cs| && done <= links
      && forall i :: 0 <= i < |cs| ==>
           && FindKeying(ks, cs[i].name).Some?
           && links[|done| + i] == LinkOf(cs[i], FindAlink(alinks, cs[i].name), FindKeying(ks, cs[i].name).value.keyed)
    decreases |cs|
  {
    if cs != [] {
      var alink, keying := FindAlink(alinks, cs[0].name), FindKeying(ks, cs[0].name);
      LinksFollow(cs[1..], alinks, ks, done + [LinkOf(cs[0], alink, keying.value.keyed)]);
      forall i | 0 < i < |cs| ensures cs[i] == cs[1..][i - 1] {
      }
    }
  }

  /** One link a connection, under its own name, and its control identity decided by that name alone. */
  lemma LinksAreIdentified(cs: seq<Connection>, alinks: seq<Alink>, ks: seq<Keying>)
    requires CollectLinks(cs, alinks, ks, []).Ok? && DistinctConnections(cs)
    ensures var links := CollectLinks(cs, alinks, ks, []).value;
      DistinctNames(links) && forall i :: 0 <= i < |links| ==> LinkIdentified(links[i])
  {
    hide CollectLinks, FindAlink, FindKeying, LinkOf, LinkIdentified;
    LinksFollow(cs, alinks, ks, []);
    var links := CollectLinks(cs, alinks, ks, []).value;
    forall i | 0 <= i < |links| ensures links[i].node == cs[i].name && LinkIdentified(links[i]) {
      LinkOfIsIdentified(cs[i], FindAlink(alinks, cs[i].name), FindKeying(ks, cs[i].name).value.keyed);
    }
  }

  lemma LinkOfIsIdentified(c: Connection, alink: Option<Alink>, keyed: bool)
    ensures var link := LinkOf(c, alink, keyed); link.node == c.name && LinkIdentified(link)
  {
  }

  lemma CombinedIsEvident(x: Xstat, ks: seq<Keying>, node: Node, epoch: string)
    requires CheckVariables(x.variables).None? && DistinctConnections(x.connections)
    requires Combine(x, ks, node, epoch).Ok?
    ensures Evident(Combine(x, ks, node, epoch).value)
  {
    hide CollectLinks, CheckVariables, SameNames, FindAlink, FindKeying, DistinctNames, LinkIdentified;
    LinksAreIdentified(x.connections, x.alinks, ks);
    var links := CollectLinks(x.connections, x.alinks, ks, []).value;
    assert SomeKeyed(links) <==> exists link | link in links :: link.keyed;
  }

  /** Every state the parser publishes is fully justified or entirely unknown. */
  lemma SnapshotIsEvident(xstat: Message, sawstat: Message, node: Node, epoch: string)
    ensures Evident(ParseSnapshot(xstat, sawstat, node, epoch))
  {
    hide ParseXstat, ParseSawstat, Combine, CheckVariables;
    if Attempt(xstat, sawstat, node, epoch).Ok? {
      XstatDistinct(xstat, node);
      XstatChecked(xstat, node);
      CombinedIsEvident(ParseXstat(xstat, node).value, ParseSawstat(sawstat, node).value, node, epoch);
    }
  }

  lemma XstatDistinct(m: Message, node: Node)
    requires ParseXstat(m, node).Ok?
    ensures DistinctConnections(ParseXstat(m, node).value.connections)
    ensures ConnectionsOf(Lines(m, "conn"), ParseXstat(m, node).value.connections)
  {
    hide CollectConnections, XstatRow, CollectVariables, ParseAlinksOf, CheckVariables;
    ConnectionsDecided(Lines(m, "conn"), ParseXstat(m, node).value.connections);
  }
}
