/** Judging one operation against one observed state (vnext/service.py, effect_status). */
module Effects {
  import opened Base
  import opened Models

  predicate AsciiNumericLink(name: string) {
    name != "" && name[0] != '0' && AllDigits(name)
  }

  function FirstMatch(links: seq<DirectLink>, target: Option<Node>): Option<DirectLink> {
    if links == [] then None
    else if links[0].allstarNode == target then Some(links[0])
    else FirstMatch(links[1..], target)
  }

  /** The Err case is the KeyError of a link request that carries no mode. */
  function EffectOf(kind: Kind, request: Request, state: NodeState): Result<Effect> {
    if !state.complete then Ok(UNKNOWN)
    else
      var links := if state.directLinks.Some? then state.directLinks.value else [];
      var target := Lookup(request, "node");
      match kind
      case UnlinkNode =>
        Ok(if forall link | link in links :: link.allstarNode != target then OBSERVED_SATISFIED
           else OBSERVED_UNSATISFIED)
      case UnlinkAll =>
        Ok(if forall link | link in links :: !AsciiNumericLink(link.node) then OBSERVED_SATISFIED
           else OBSERVED_UNSATISFIED)
      case LinkNode =>
        (match FirstMatch(links, target)
         case None => Ok(OBSERVED_UNSATISFIED)
         case Some(link) =>
           if "mode" !in request then Err(Raised("KeyError"))
           else if link.mode == (if request["mode"] == "monitor" then R else T) && link.connectionStatus == ESTABLISHED
           then Ok(OBSERVED_SATISFIED)
           else Ok(OBSERVED_PARTIAL))
      case Announce => Ok(NOT_APPLICABLE)
  }

  lemma {:induction false} FirstMatchFinds(links: seq<DirectLink>, target: Option<Node>)
    ensures match FirstMatch(links, target)
      case None => forall link | link in links :: link.allstarNode != target
      case Some(found) => found in links && found.allstarNode == target
  {
    if links != [] {
      FirstMatchFinds(links[1..], target);
    }
  }

  /** In an evident state a canonical target names at most one link. */
  lemma TargetsAreUnique(links: seq<DirectLink>, a: DirectLink, b: DirectLink)
    requires DistinctNames(links) && a in links && b in links
    requires LinkIdentified(a) && LinkIdentified(b)
    requires a.allstarNode == b.allstarNode && a.allstarNode.Some?
    ensures a == b
  {
    var i :| 0 <= i < |links| && links[i] == a;
    var j :| 0 <= j < |links| && links[j] == b;
    assert a.node == b.node;
  }

  /** The state lists a link of this name. */
  predicate Lists(s: NodeState, name: string) {
    s.directLinks.Some? && exists i | 0 <= i < |s.directLinks.value| :: s.directLinks.value[i].node == name
  }

  /** The state lists a link of this name that is established in this mode. */
  predicate ListsIn(s: NodeState, name: string, mode: Mode) {
    s.directLinks.Some? && DirectLinkIn(s.directLinks.value, name, mode)
  }

  predicate DirectLinkIn(links: seq<DirectLink>, name: string, mode: Mode) {
    exists i | 0 <= i < |links| ::
      links[i].node == name && links[i].mode == mode && links[i].connectionStatus == ESTABLISHED
  }

  /** The state lists a link whose name is a positive decimal number. */
  predicate ListsNumber(s: NodeState) {
    s.directLinks.Some? && exists i | 0 <= i < |s.directLinks.value| :: IsNumber(s.directLinks.value[i].node)
  }

  predicate IsNumber(name: string) {
    |name| >= 1 && '1' <= name[0] <= '9' && forall i | 0 <= i < |name| :: '0' <= name[i] <= '9'
  }

  /** What each kind of request means for a state, told from the state's links alone. */
  predicate IsEffect(kind: Kind, request: Request, s: NodeState, effect: Effect)
    requires kind.LinkNode? || kind.UnlinkNode? ==> "node" in request
    requires kind.LinkNode? ==> "mode" in request
  {
    if !s.complete then effect == UNKNOWN
    else match kind
      case LinkNode =>
        if ListsIn(s, request["node"], if request["mode"] == "monitor" then R else T) then effect == OBSERVED_SATISFIED
        else if Lists(s, request["node"]) then effect == OBSERVED_PARTIAL
        else effect == OBSERVED_UNSATISFIED
      case UnlinkNode => effect == if Lists(s, request["node"]) then OBSERVED_UNSATISFIED else OBSERVED_SATISFIED
      case UnlinkAll => effect == if ListsNumber(s) then OBSERVED_UNSATISFIED else OBSERVED_SATISFIED
      case Announce => effect == NOT_APPLICABLE
  }

  /** The verdict on an accepted request and a publishable state is exactly that. */
  lemma EffectDecided(kind: Kind, request: Request, s: NodeState, effect: Effect)
    requires Evident(s) && CommandTail(kind, request).Ok? && (kind.LinkNode? ==> "mode" in request)
    ensures EffectOf(kind, request, s) == Ok(effect) <==> IsEffect(kind, request, s, effect)
  {
    if s.complete && kind.LinkNode? {
      LinkEffectDecided(request, s);
    } else if s.complete && kind.UnlinkNode? {
      UnlinkEffectDecided(request, s);
    }
  }

  lemma UnlinkEffectDecided(request: Request, s: NodeState)
    requires Evident(s) && s.complete && CommandTail(UnlinkNode, request).Ok?
    ensures EffectOf(UnlinkNode, request, s)
      == Ok(if Lists(s, request["node"]) then OBSERVED_UNSATISFIED else OBSERVED_SATISFIED)
  {
    var links := s.directLinks.value;
    if i :| 0 <= i < |links| && links[i].node == request["node"] {
      assert LinkIdentified(links[i]) && links[i] in links;
    }
  }

  lemma LinkEffectDecided(request: Request, s: NodeState)
    requires Evident(s) && s.complete && CommandTail(LinkNode, request).Ok? && "mode" in request
    ensures var wanted := if request["mode"] == "monitor" then R else T;
      EffectOf(LinkNode, request, s) == Ok(
        if ListsIn(s, request["node"], wanted) then OBSERVED_SATISFIED
        else if Lists(s, request["node"]) then OBSERVED_PARTIAL
        else OBSERVED_UNSATISFIED)
  {
    var links, target := s.directLinks.value, Lookup(request, "node");
    FirstMatchFinds(links, target);
    if i :| 0 <= i < |links| && links[i].node == request["node"] {
      assert LinkIdentified(links[i]) && links[i] in links;
      TargetsAreUnique(links, links[i], FirstMatch(links, target).value);
      OnlyLink(links, i);
    }
  }

  lemma OnlyLink(links: seq<DirectLink>, i: nat)
    requires DistinctNames(links) && i < |links|
    ensures forall mode :: DirectLinkIn(links, links[i].node, mode) <==>
      links[i].mode == mode && links[i].connectionStatus == ESTABLISHED
  {
  }

  /**
    Every effect other than the missing-mode error depends only on which links there are: two evident
    states whose links form the same set are judged alike, in whatever order app_rpt listed them.
   */
  lemma EffectIgnoresLinkOrder(kind: Kind, request: Request, s1: NodeState, s2: NodeState)
    requires Evident(s1) && Evident(s2) && s1.complete && s2.complete
    requires forall link :: link in s1.directLinks.value <==> link in s2.directLinks.value
    requires CommandTail(kind, request).Ok?
    ensures EffectOf(kind, request, s1) == EffectOf(kind, request, s2)
  {
    if kind.LinkNode? {
      var l1, l2, target := s1.directLinks.value, s2.directLinks.value, Lookup(request, "node");
      FirstMatchFinds(l1, target);
      FirstMatchFinds(l2, target);
      if FirstMatch(l1, target).Some? && FirstMatch(l2, target).Some? {
        TargetsAreUnique(l1, FirstMatch(l1, target).value, FirstMatch(l2, target).value);
      }
    }
  }

  /** A node cleared of node links is unlinked from every target; what stays connected is not addressable. */
  lemma ClearedMeansUnlinked(unlink: Request, s: NodeState)
    requires Evident(s) && CommandTail(UnlinkNode, unlink).Ok?
    requires EffectOf(UnlinkAll, map[], s) == Ok(OBSERVED_SATISFIED)
    ensures EffectOf(UnlinkNode, unlink, s) == Ok(OBSERVED_SATISFIED)
  {
  }

  /** Linking and unlinking one target are judged as opposites, on complete evidence. */
  lemma LinkedIffNotUnlinked(link: Request, unlink: Request, s: NodeState)
    requires Evident(s) && s.complete
    requires CommandTail(LinkNode, link).Ok? && CommandTail(UnlinkNode, unlink).Ok? && link["node"] == unlink["node"]
    ensures EffectOf(UnlinkNode, unlink, s) == Ok(OBSERVED_UNSATISFIED)
      <==> EffectOf(LinkNode, link, s) != Ok(OBSERVED_UNSATISFIED)
  {
    FirstMatchFinds(s.directLinks.value, Lookup(link, "node"));
  }

  /** Exactly when judging an accepted request raises: a link request without a mode whose target is present. */
  lemma EffectRaisesExactlyWithoutMode(kind: Kind, request: Request, s: NodeState)
    requires Evident(s) && CommandTail(kind, request).Ok?
    ensures EffectOf(kind, request, s).Err? <==>
      && kind.LinkNode? && "mode" !in request && s.complete
      && exists link :: link in s.directLinks.value && link.node == request["node"]
  {
    if s.complete && kind.LinkNode? {
      var links, target := s.directLinks.value, Lookup(request, "node");
      FirstMatchFinds(links, target);
      if link :| link in links && link.node == request["node"] {
        assert LinkIdentified(link);
      }
    }
  }

  /** It does raise: an accepted request without a mode, on a node that lists its target. */
  lemma LinkWithoutModeRaises() returns (request: Request, s: NodeState)
    ensures CommandFor("1", LinkNode, request).Ok?
    ensures Evident(s) && s.complete && EffectOf(LinkNode, request, s).Err?
  {
    request := map["node" := "2"];
    var link := DirectLink("2", Some("2"), T, false, ESTABLISHED);
    s := NodeState("1", None, CLEAR, true, Some(false), Some(false), Some([link]), []);
    assert request.Keys == {"node"};
  }
}
