/** Public types of the service (vnext/models.py) and the fixed mapping from requests to commands. */
module Models {
  import opened Base

  type Id = string
  type Node = string

  datatype Kind = LinkNode | UnlinkNode | UnlinkAll | Announce

  /** A request body: the JSON object of string members that the schemas produce. */
  type Request = map<string, string>

  datatype Dispatch = QUEUED | DISPATCH_STARTED | ACKNOWLEDGED | REJECTED | NOT_DISPATCHED | OUTCOME_UNKNOWN

  datatype Effect =
    | PENDING
    | NOT_ATTEMPTED
    | OBSERVED_SATISFIED
    | OBSERVED_PARTIAL
    | OBSERVED_UNSATISFIED
    | NOT_APPLICABLE
    | UNKNOWN

  datatype Mode = T | R | L | C | UnknownMode

  datatype ConnectionStatus = ESTABLISHED | CONNECTING

  datatype DirectLink = DirectLink(
    node: string,
    allstarNode: Option<Node>,
    mode: Mode,
    keyed: bool,
    connectionStatus: ConnectionStatus)

  datatype Traffic = ACTIVE | CLEAR | UNKNOWN_TRAFFIC

  datatype NodeState = NodeState(
    node: Node,
    epoch: Option<string>,
    traffic: Traffic,
    complete: bool,
    rxKeyed: Option<bool>,
    txKeyed: Option<bool>,
    directLinks: Option<seq<DirectLink>>,
    reasons: seq<string>)

  datatype Operation = Operation(
    id: Id,
    node: Node,
    kind: Kind,
    request: Request,
    credential: string,
    dispatch: Dispatch,
    effect: Effect,
    terminal: bool,
    semanticError: Option<string>,
    evidence: Option<NodeState>)

  predicate IsDigit(c: char) {
    '0' <= c <= '9'
  }

  predicate AllDigits(s: string) {
    forall i :: 0 <= i < |s| ==> IsDigit(s[i])
  }

  /** The language of NODE_PATTERN: one to six ASCII digits, the first of them not zero. */
  predicate ValidNode(s: string) {
    1 <= |s| <= 6 && s[0] != '0' && AllDigits(s)
  }

  function ValidateNode(s: string): (r: Result<Node>)
    ensures r.Ok? <==> 1 <= |s| <= 6 && '1' <= s[0] <= '9' && forall i :: 0 <= i < |s| ==> '0' <= s[i] <= '9'
    ensures r.Ok? ==> r.value == s
  {
    if ValidNode(s) then Ok(s)
    else Err(Raised("Node must be 1-6 ASCII digits with no leading zero"))
  }

  /** The state published whenever evidence is missing or contradictory. */
  function UnknownState(node: Node, epoch: Option<string>, reason: string): NodeState {
    NodeState(node, epoch, UNKNOWN_TRAFFIC, false, None, None, None, [reason])
  }

  ghost predicate DistinctNames(links: seq<DirectLink>) {
    forall i, j :: 0 <= i < j < |links| ==> links[i].node != links[j].node
  }

  /** A link's control identity is its own name when that is a canonical target, and absent otherwise. */
  predicate LinkIdentified(link: DirectLink) {
    link.allstarNode == if ValidNode(link.node) then Some(link.node) else None
  }

  ghost predicate SomeKeyed(links: seq<DirectLink>) {
    exists i :: 0 <= i < |links| && links[i].keyed
  }

  /** What the observer promises of every state it publishes: fully justified or entirely unknown. */
  ghost predicate Evident(s: NodeState) {
    if s.complete then
      && s.rxKeyed.Some? && s.txKeyed.Some? && s.directLinks.Some?
      && s.reasons == []
      && DistinctNames(s.directLinks.value)
      && (forall i :: 0 <= i < |s.directLinks.value| ==> LinkIdentified(s.directLinks.value[i]))
      && s.traffic == (if s.rxKeyed.value || s.txKeyed.value || SomeKeyed(s.directLinks.value) then ACTIVE else CLEAR)
    else
      s.traffic == UNKNOWN_TRAFFIC && s.rxKeyed.None? && s.txKeyed.None? && s.directLinks.None?
  }

  // ---- command_for ------------------------------------------------------------------------------

  function RequestedMode(request: Request): string {
    if "mode" in request then request["mode"] else "transceive"
  }

  function CommandTail(kind: Kind, request: Request): (r: Result<string>) {
    match kind
    case LinkNode =>
      if !(request.Keys <= {"node", "mode"}) || "node" !in request then Err(Raised("ValidationError"))
      else if !ValidNode(request["node"]) || RequestedMode(request) !in {"transceive", "monitor"} then
        Err(Raised("ValidationError"))
      else Ok((if RequestedMode(request) == "monitor" then "ilink 2 " else "ilink 3 ") + request["node"])
    case UnlinkNode =>
      if "node" !in request then Err(Raised("KeyError"))
      else
        var target :- ValidateNode(request["node"]);
        Ok("ilink 11 " + target)
    case UnlinkAll =>
      if request == map[] then Ok("ilink 6") else Err(Raised("Unsupported operation"))
    case Announce =>
      if "kind" in request && request["kind"] !in {"identify", "status"} then
        Err(Problem(422, "UNSUPPORTED_ANNOUNCEMENT"))
      else if request.Keys != {"kind"} then Err(Raised("ValidationError"))
      else Ok(if request["kind"] == "identify" then "status 1" else "ilink 5")
  }

  function CommandFor(node: Node, kind: Kind, request: Request): Result<string> {
    var checked :- ValidateNode(node);
    var tail :- CommandTail(kind, request);
    Ok("rpt cmd " + checked + " " + tail)
  }

  /** The whole command language: which text an accepted request of a node is written as. */
  ghost predicate Spells(command: string, node: Node, kind: Kind, request: Request) {
    && ValidNode(node)
    && match kind
       case LinkNode =>
         && (forall key :: key in request ==> key == "node" || key == "mode")
         && "node" in request && ValidNode(request["node"])
         && (if "mode" in request && request["mode"] == "monitor" then
               command == "rpt cmd " + node + " ilink 2 " + request["node"]
             else
               && ("mode" in request ==> request["mode"] == "transceive")
               && command == "rpt cmd " + node + " ilink 3 " + request["node"])
       case UnlinkNode =>
         && "node" in request && ValidNode(request["node"])
         && command == "rpt cmd " + node + " ilink 11 " + request["node"]
       case UnlinkAll => (forall key :: key !in request) && command == "rpt cmd " + node + " ilink 6"
       case Announce =>
         && (forall key :: key in request <==> key == "kind")
         && (|| (request["kind"] == "identify" && command == "rpt cmd " + node + " status 1")
             || (request["kind"] == "status" && command == "rpt cmd " + node + " ilink 5"))
  }

  /** The commands are spelled so, and no request is accepted that has no spelling. */
  lemma CommandDecided(node: Node, kind: Kind, request: Request, command: string)
    ensures CommandFor(node, kind, request) == Ok(command) <==> Spells(command, node, kind, request)
    ensures CommandFor(node, kind, request) == Err(Problem(422, "UNSUPPORTED_ANNOUNCEMENT")) <==>
      ValidNode(node) && kind == Announce && "kind" in request && request["kind"] !in {"identify", "status"}
  {
    match kind
    case LinkNode => LinkSpelled(node, request, command);
    case UnlinkNode => UnlinkSpelled(node, request, command);
    case UnlinkAll => ClearSpelled(node, request, command);
    case Announce => AnnouncementSpelled(node, request, command);
  }

  lemma UnlinkSpelled(node: Node, request: Request, command: string)
    ensures CommandFor(node, UnlinkNode, request) == Ok(command) <==> Spells(command, node, UnlinkNode, request)
  {
    if "node" in request {
      Regroup("rpt cmd " + node + " ", "ilink 11 ", request["node"]);
      assert "rpt cmd " + node + " " + "ilink 11 " == "rpt cmd " + node + " ilink 11 ";
    }
  }

  lemma ClearSpelled(node: Node, request: Request, command: string)
    ensures CommandFor(node, UnlinkAll, request) == Ok(command) <==> Spells(command, node, UnlinkAll, request)
  {
    assert (forall key :: key !in request) <==> request == map[];
    assert "rpt cmd " + node + " " + "ilink 6" == "rpt cmd " + node + " ilink 6";
  }

  lemma AnnouncementSpelled(node: Node, request: Request, command: string)
    ensures CommandFor(node, Announce, request) == Ok(command) <==> Spells(command, node, Announce, request)
  {
    assert (forall key :: key in request <==> key == "kind") <==> request.Keys == {"kind"};
    assert "rpt cmd " + node + " " + "status 1" == "rpt cmd " + node + " status 1";
    assert "rpt cmd " + node + " " + "ilink 5" == "rpt cmd " + node + " ilink 5";
  }

  lemma LinkSpelled(node: Node, request: Request, command: string)
    ensures CommandFor(node, LinkNode, request) == Ok(command) <==> Spells(command, node, LinkNode, request)
  {
    assert (forall key :: key in request ==> key == "node" || key == "mode") <==> request.Keys <= {"node", "mode"};
    if "node" in request {
      Regroup("rpt cmd " + node + " ", "ilink 2 ", request["node"]);
      Regroup("rpt cmd " + node + " ", "ilink 3 ", request["node"]);
      assert "rpt cmd " + node + " " + "ilink 2 " == "rpt cmd " + node + " ilink 2 ";
      assert "rpt cmd " + node + " " + "ilink 3 " == "rpt cmd " + node + " ilink 3 ";
    }
  }

  /** What a request asks for once defaults are filled in. */
  datatype Intent = Link(target: Node, monitor: bool) | Unlink(target: Node) | Clear | Say(what: string)

  ghost function IntentOf(kind: Kind, request: Request): Intent
    requires CommandTail(kind, request).Ok?
  {
    match kind
    case LinkNode => Link(request["node"], RequestedMode(request) == "monitor")
    case UnlinkNode => Unlink(request["node"])
    case UnlinkAll => Clear
    case Announce => Say(request["kind"])
  }

  /** Two accepted requests for one node are written as the same command exactly when they ask for the same thing. */
  lemma CommandDeterminesIntent(node: Node, k1: Kind, r1: Request, k2: Kind, r2: Request)
    requires CommandFor(node, k1, r1).Ok? && CommandFor(node, k2, r2).Ok?
    ensures CommandFor(node, k1, r1) == CommandFor(node, k2, r2) <==> IntentOf(k1, r1) == IntentOf(k2, r2)
  {
    var t1, t2 := CommandTail(k1, r1).value, CommandTail(k2, r2).value;
    var prefix := "rpt cmd " + node + " ";
    if CommandFor(node, k1, r1) == CommandFor(node, k2, r2) {
      Cancel(prefix, t1, t2);
      TailDeterminesIntent(k1, r1, k2, r2);
    }
  }

  lemma TailDeterminesIntent(k1: Kind, r1: Request, k2: Kind, r2: Request)
    requires CommandTail(k1, r1).Ok? && CommandTail(k1, r1) == CommandTail(k2, r2)
    ensures IntentOf(k1, r1) == IntentOf(k2, r2)
  {
    var t := CommandTail(k1, r1).value;
    TailShape(k1, r1);
    TailShape(k2, r2);
    if k1.LinkNode? || k1.UnlinkNode? {
      var prefix := t[..if k1.LinkNode? then 8 else 9];
      Cancel(prefix, r1["node"], r2["node"]);
    }
  }

  lemma TailShape(k: Kind, r: Request)
    requires CommandTail(k, r).Ok?
    ensures var t := CommandTail(k, r).value;
      match k
      case LinkNode =>
        && |t| > 8 && t[..8] == (if RequestedMode(r) == "monitor" then "ilink 2 " else "ilink 3 ")
        && t == t[..8] + r["node"]
      case UnlinkNode => |t| > 9 && t[..9] == "ilink 11 " && t == t[..9] + r["node"]
      case UnlinkAll => t == "ilink 6"
      case Announce => t == if r["kind"] == "identify" then "status 1" else "ilink 5"
  {
  }

  /** Only printable characters reach the wire: no accepted command can break its own AMI header line. */
  lemma CommandIsOneLine(node: Node, kind: Kind, request: Request, i: nat)
    requires CommandFor(node, kind, request).Ok? && i < |CommandFor(node, kind, request).value|
    ensures CommandFor(node, kind, request).value[i] !in "\r\n"
  {
    var command := CommandFor(node, kind, request).value;
    var tail := CommandTail(kind, request).value;
    assert command == "rpt cmd " + node + " " + tail;
    forall c | c in tail ensures c !in "\r\n" {
      TailShape(kind, request);
    }
    assert command[i] in "rpt cmd " || command[i] in node || command[i] in " " || command[i] in tail;
  }
}
