/**
  When two samples make a complete state, and which one: a declarative reference for parse_snapshot
  (vnext/observation.py), met in both directions.
 */
module Snapshot {
  import opened Base
  import opened Models
  import opened Text
  import opened Alinks
  import opened Ami
  import opened Observation

  /** What a pair of samples says, once each header is read by its own grammar. */
  datatype Reading = Reading(
    variables: map<string, string>,
    connections: seq<Connection>,
    alinks: seq<Alink>,
    keyings: seq<Keying>)

  predicate Bit(variables: map<string, string>, key: string) {
    key in variables && variables[key] in {"0", "1"}
  }

  /** Each sample by itself is well formed and says this. */
  ghost predicate WellFormed(xstat: Message, sawstat: Message, node: Node, r: Reading) {
    && Affirms(xstat, node) && Affirms(sawstat, node)
    && VariablesOf(Lines(xstat, "var"), r.variables)
    && Bit(r.variables, "RPT_RXKEYED") && Bit(r.variables, "RPT_TXKEYED")
    && ("RPT_LINKS" in r.variables ==> !Truncated(r.variables["RPT_LINKS"]))
    && ConnectionsOf(Lines(xstat, "conn"), r.connections)
    && KeyingsOf(Lines(sawstat, "conn"), r.keyings)
    && Expressible(r.alinks)
    && Lookup(r.variables, "RPT_ALINKS") == Some(Value(r.alinks))
    && Lookup(r.variables, "RPT_NUMALINKS") == Some(Decimal(|r.alinks|))
  }

  /** The samples agree about which links there are, and wherever both tell whether a link is keyed. */
  ghost predicate Agreeing(r: Reading) {
    && (forall a :: a in r.alinks ==> HasConnection(r.connections, a.name))
    && (forall c :: c in r.connections ==> HasKeying(r.keyings, c.name))
    && (forall k :: k in r.keyings ==> HasConnection(r.connections, k.name))
    && (forall a, k :: a in r.alinks && k in r.keyings && a.name == k.name ==> a.keyed == k.keyed)
  }

  /** The state shows one link for each connection, in order, with exactly the evidence the reading has for it. */
  ghost predicate Shows(link: DirectLink, c: Connection, r: Reading) {
    && link.node == c.name && link.connectionStatus == c.status && LinkIdentified(link)
    && Keying(c.name, link.keyed) in r.keyings
    && (if link.mode == UnknownMode then forall a :: a in r.alinks ==> a.name != c.name
        else Alink(c.name, link.mode, link.keyed) in r.alinks)
  }

  ghost predicate Reports(s: NodeState, r: Reading) {
    && s.complete && s.reasons == []
    && s.rxKeyed == Some(Lookup(r.variables, "RPT_RXKEYED") == Some("1"))
    && s.txKeyed == Some(Lookup(r.variables, "RPT_TXKEYED") == Some("1"))
    && s.directLinks.Some? && |s.directLinks.value| == |r.connections|
    && forall i :: 0 <= i < |r.connections| ==> Shows(s.directLinks.value[i], r.connections[i], r)
  }

  lemma {:induction false} FindsAlink(m: seq<Alink>, name: string)
    ensures match FindAlink(m, name)
      case None => forall a :: a in m ==> a.name != name
      case Some(a) => a in m && a.name == name
  {
    if m != [] {
      FindsAlink(m[1..], name);
    }
  }

  lemma KeyingIsUnique(ks: seq<Keying>, a: Keying, b: Keying)
    requires DistinctKeyings(ks) && a in ks && b in ks && a.name == b.name
    ensures a == b
  {
    var i :| 0 <= i < |ks| && ks[i] == a;
    var j :| 0 <= j < |ks| && ks[j] == b;
  }

  lemma {:induction false} LinksCollected(cs: seq<Connection>, alinks: seq<Alink>, ks: seq<Keying>,
      done: seq<DirectLink>)
    requires forall c :: c in cs ==> HasKeying(ks, c.name)
    requires forall a, k :: a in alinks && k in ks && a.name == k.name ==> a.keyed == k.keyed
    ensures CollectLinks(cs, alinks, ks, done).Ok?
    decreases |cs|
  {
    if cs != [] {
      FindsAlink(alinks, cs[0].name);
      var alink, keying := FindAlink(alinks, cs[0].name), FindKeying(ks, cs[0].name);
      LinksCollected(cs[1..], alinks, ks, done + [LinkOf(cs[0], alink, keying.value.keyed)]);
    }
  }

  lemma {:induction false} LinksAgree(cs: seq<Connection>, alinks: seq<Alink>, ks: seq<Keying>, done: seq<DirectLink>,
      i: nat, a: Alink)
    requires CollectLinks(cs, alinks, ks, done).Ok? && i < |cs|
    requires FindAlink(alinks, cs[i].name) == Some(a)
    ensures FindKeying(ks, cs[i].name).Some? && FindKeying(ks, cs[i].name).value.keyed == a.keyed
    decreases |cs|
  {
    if i > 0 {
      var alink, keying := FindAlink(alinks, cs[0].name), FindKeying(ks, cs[0].name);
      LinksAgree(cs[1..], alinks, ks, done + [LinkOf(cs[0], alink, keying.value.keyed)], i - 1, a);
    }
  }

  lemma AlinkIsUnique(m: seq<Alink>, a: Alink)
    requires Expressible(m) && a in m
    ensures FindAlink(m, a.name) == Some(a)
  {
    FindsAlink(m, a.name);
    var b := FindAlink(m, a.name).value;
    var i :| 0 <= i < |m| && m[i] == a;
    var j :| 0 <= j < |m| && m[j] == b;
  }

  // ---- one direction ----------------------------------------------------------------------------

  lemma AlinksDecided(variables: map<string, string>, m: seq<Alink>)
    ensures ParseAlinksOf(variables) == Ok(m) <==>
      && Expressible(m)
      && Lookup(variables, "RPT_ALINKS") == Some(Value(m)) && Lookup(variables, "RPT_NUMALINKS") == Some(Decimal(|m|))
  {
    hide Parse, Value, Decimal, Expressible;
    if "RPT_ALINKS" in variables && "RPT_NUMALINKS" in variables {
      var value, count := variables["RPT_ALINKS"], variables["RPT_NUMALINKS"];
      if Parse(value, count).Ok? {
        PrintUndoesParse(value, count);
      }
      if Expressible(m) {
        ParseUndoesPrint(m);
      }
    }
  }

  lemma XstatDecided(xstat: Message, node: Node, r: Reading)
    requires forall a :: a in r.alinks ==> HasConnection(r.connections, a.name)
    ensures ParseXstat(xstat, node) == Ok(Xstat(r.variables, r.connections, r.alinks)) <==>
      && Affirms(xstat, node) && VariablesOf(Lines(xstat, "var"), r.variables)
      && Bit(r.variables, "RPT_RXKEYED") && Bit(r.variables, "RPT_TXKEYED")
      && ("RPT_LINKS" in r.variables ==> !Truncated(r.variables["RPT_LINKS"]))
      && ConnectionsOf(Lines(xstat, "conn"), r.connections)
      && Expressible(r.alinks)
      && Lookup(r.variables, "RPT_ALINKS") == Some(Value(r.alinks))
      && Lookup(r.variables, "RPT_NUMALINKS") == Some(Decimal(|r.alinks|))
  {
    hide VariablesOf, CollectVariables, ConnectionsOf, CollectConnections, ParseAlinksOf, Expressible, Value, Decimal,
      Ami.Contains, Truncated, Answers, Affirms, HasConnection;
    AnswerDecided(xstat, node);
    if "RPT_LINKS" in r.variables {
      TruncationDecided(r.variables["RPT_LINKS"]);
    }
    VariablesDecided(Lines(xstat, "var"), r.variables);
    ConnectionsDecided(Lines(xstat, "conn"), r.connections);
    AlinksDecided(r.variables, r.alinks);
  }

  lemma SawstatDecided(sawstat: Message, node: Node, ks: seq<Keying>)
    ensures ParseSawstat(sawstat, node) == Ok(ks) <==> Affirms(sawstat, node) && KeyingsOf(Lines(sawstat, "conn"), ks)
  {
    hide KeyingsOf, CollectKeyings, Answers, Affirms;
    AnswerDecided(sawstat, node);
    KeyingsDecided(Lines(sawstat, "conn"), ks);
  }

  ghost predicate Combines(r: Reading, node: Node, epoch: string) {
    && CheckVariables(r.variables).None?
    && Combine(Xstat(r.variables, r.connections, r.alinks), r.keyings, node, epoch).Ok?
  }

  lemma AgreementCombines(r: Reading, node: Node, epoch: string)
    requires CheckVariables(r.variables).None? && Agreeing(r)
    ensures Combines(r, node, epoch)
  {
    hide CollectLinks, CheckVariables;
    LinksCollected(r.connections, r.alinks, r.keyings, []);
  }

  lemma CheckedBits(variables: map<string, string>)
    requires CheckVariables(variables).None?
    ensures Bit(variables, "RPT_RXKEYED") && Bit(variables, "RPT_TXKEYED")
  {
  }

  lemma CombinationAgrees(r: Reading, node: Node, epoch: string)
    requires Combines(r, node, epoch) && Expressible(r.alinks) && DistinctKeyings(r.keyings)
    requires forall a :: a in r.alinks ==> HasConnection(r.connections, a.name)
    ensures Agreeing(r)
  {
    hide CollectLinks, CheckVariables, Expressible, FindAlink, FindKeying, DistinctKeyings;
    var cs, ks := r.connections, r.keyings;
    forall a, k | a in r.alinks && k in ks && a.name == k.name ensures a.keyed == k.keyed {
      AlinkIsUnique(r.alinks, a);
      var i :| 0 <= i < |cs| && cs[i].name == a.name;
      LinksAgree(cs, r.alinks, ks, [], i, a);
      KeyingIsUnique(ks, k, FindKeying(ks, a.name).value);
    }
  }

  lemma CombinationReports(r: Reading, node: Node, epoch: string)
    requires Combines(r, node, epoch) && Expressible(r.alinks)
    ensures Reports(Combine(Xstat(r.variables, r.connections, r.alinks), r.keyings, node, epoch).value, r)
  {
    hide CollectLinks, CheckVariables, Expressible, Shows, SameNames;
    CheckedBits(r.variables);
    LinksFollow(r.connections, r.alinks, r.keyings, []);
    var links := CollectLinks(r.connections, r.alinks, r.keyings, []).value;
    forall i | 0 <= i < |r.connections| ensures Shows(links[i], r.connections[i], r) {
      LinkShows(r, i);
    }
  }

  lemma LinkShows(r: Reading, i: nat)
    requires i < |r.connections| && Expressible(r.alinks)
    requires CollectLinks(r.connections, r.alinks, r.keyings, []).Ok?
    requires |CollectLinks(r.connections, r.alinks, r.keyings, []).value| == |r.connections|
    ensures Shows(CollectLinks(r.connections, r.alinks, r.keyings, []).value[i], r.connections[i], r)
  {
    hide CollectLinks, FindAlink, FindKeying;
    var c := r.connections[i];
    LinksFollow(r.connections, r.alinks, r.keyings, []);
    FindsAlink(r.alinks, c.name);
    var link := CollectLinks(r.connections, r.alinks, r.keyings, []).value[i];
    var k := FindKeying(r.keyings, c.name).value;
    assert link == LinkOf(c, FindAlink(r.alinks, c.name), k.keyed);
    assert k == Keying(c.name, k.keyed);
    if FindAlink(r.alinks, c.name).Some? {
      var a := FindAlink(r.alinks, c.name).value;
      LinksAgree(r.connections, r.alinks, r.keyings, [], i, a);
      assert a == Alink(c.name, a.mode, a.keyed) && a.mode != UnknownMode;
    }
  }

  lemma SnapshotIsLabelled(xstat: Message, sawstat: Message, node: Node, epoch: string)
    ensures var s := ParseSnapshot(xstat, sawstat, node, epoch); s.node == node && s.epoch == Some(epoch)
  {
    hide ParseXstat, ParseSawstat, CollectLinks, CheckVariables, SameNames;
    if Attempt(xstat, sawstat, node, epoch).Ok? {
      XstatChecked(xstat, node);
    }
  }

  /** Well formed, agreeing samples make a complete state that reports exactly what they say. */
  lemma AgreeingSamplesAreComplete(xstat: Message, sawstat: Message, node: Node, epoch: string, r: Reading)
    requires WellFormed(xstat, sawstat, node, r) && Agreeing(r)
    ensures Reports(ParseSnapshot(xstat, sawstat, node, epoch), r)
  {
    hide VariablesOf, ConnectionsOf, Expressible, Value, Decimal, Affirms, ParseXstat, ParseSawstat, Combine, Reports,
      HasConnection, HasKeying, Truncated;
    XstatDecided(xstat, node, r);
    SawstatDecided(sawstat, node, r.keyings);
    XstatChecked(xstat, node);
    AgreementCombines(r, node, epoch);
    CombinationReports(r, node, epoch);
  }

  /** A complete state comes from no other samples. */
  lemma CompleteSamplesAgree(xstat: Message, sawstat: Message, node: Node, epoch: string) returns (r: Reading)
    requires ParseSnapshot(xstat, sawstat, node, epoch).complete
    ensures WellFormed(xstat, sawstat, node, r) && Agreeing(r)
    ensures Reports(ParseSnapshot(xstat, sawstat, node, epoch), r)
  {
    hide VariablesOf, ConnectionsOf, KeyingsOf, Expressible, Value, Decimal, Affirms, ParseXstat, ParseSawstat, Combine,
      Reports, HasConnection, HasKeying, Truncated, Agreeing;
    var x := ParseXstat(xstat, node).value;
    r := Reading(x.variables, x.connections, x.alinks, ParseSawstat(sawstat, node).value);
    AlinksAreConnected(xstat, node);
    XstatDecided(xstat, node, r);
    SawstatDecided(sawstat, node, r.keyings);
    XstatChecked(xstat, node);
    KeyingsAreDistinct(Lines(sawstat, "conn"), r.keyings);
    CombinationAgrees(r, node, epoch);
    CombinationReports(r, node, epoch);
  }

  lemma KeyingsAreDistinct(rows: seq<string>, ks: seq<Keying>)
    requires KeyingsOf(rows, ks)
    ensures DistinctKeyings(ks)
  {
  }

  lemma AlinksAreConnected(xstat: Message, node: Node)
    requires ParseXstat(xstat, node).Ok?
    ensures var x := ParseXstat(xstat, node).value; forall a :: a in x.alinks ==> HasConnection(x.connections, a.name)
  {
    hide CollectVariables, CollectConnections, ParseAlinksOf, CheckVariables, Answers;
  }

  /** Completeness decided: exactly when some reading of the two samples is well formed and agrees with itself. */
  lemma CompleteExactlyWhenConsistent(xstat: Message, sawstat: Message, node: Node, epoch: string)
    ensures ParseSnapshot(xstat, sawstat, node, epoch).complete <==>
      exists r :: WellFormed(xstat, sawstat, node, r) && Agreeing(r)
    ensures var s := ParseSnapshot(xstat, sawstat, node, epoch); s.node == node && s.epoch == Some(epoch) && Evident(s)
    ensures !ParseSnapshot(xstat, sawstat, node, epoch).complete ==>
      var s := ParseSnapshot(xstat, sawstat, node, epoch);
      s.traffic == UNKNOWN_TRAFFIC && s.rxKeyed.None? && s.txKeyed.None? && s.directLinks.None?
  {
    hide WellFormed, Agreeing, ParseSnapshot;
    SnapshotIsLabelled(xstat, sawstat, node, epoch);
    SnapshotIsEvident(xstat, sawstat, node, epoch);
    if ParseSnapshot(xstat, sawstat, node, epoch).complete {
      var r := CompleteSamplesAgree(xstat, sawstat, node, epoch);
    }
    if r :| WellFormed(xstat, sawstat, node, r) && Agreeing(r) {
      AgreeingSamplesAreComplete(xstat, sawstat, node, epoch, r);
    }
  }
}
