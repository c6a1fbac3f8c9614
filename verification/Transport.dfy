/**
  One AMI session (vnext/transport.py, AMISession): writing an action, and waiting for its own reply among the events
  that may arrive first.
 */
module Transport {
  import opened Base
  import opened Models
  import opened Ami
  import opened Codec
  import opened Text

  const BUDGET := 100

  /** A frame that the reply loop passes over. */
  predicate IsEvent(m: Message) {
    "event" in m && "response" !in m
  }

  predicate Carries(m: Message, actionId: string) {
    "actionid" in m && m["actionid"] == Scalar(actionId)
  }

  /** What reading up to n frames comes to, and what is left of the stream. */
  function ReplyFrom(input: string, actionId: string, n: nat): (Result<Message>, string) {
    if n == 0 then (Err(Raised("AMI response not received within frame budget")), input)
    else match ReadUntil(input)
      case None => (Err(Raised("IncompleteReadError")), "")
      case Some((raw, rest)) =>
        match ReadFrame(raw)
        case Err(error) => (Err(error), rest)
        case Ok(m) =>
          if IsEvent(m) then ReplyFrom(rest, actionId, n - 1)
          else if !Carries(m, actionId) then (Err(Raised("Stale or mismatched AMI ActionID")), rest)
          else (Ok(m), rest)
  }

  function WithId(fields: seq<Header>, actionId: string): seq<Header> {
    fields + [("ActionID", actionId)]
  }

  predicate Injects(hs: seq<Header>) {
    exists i | 0 <= i < |hs| :: !NoBreaks(hs[i].1)
  }

  /** Exactly one frame: the terminator is at the end and nowhere before. */
  ghost predicate IsFrame(raw: string) {
    |raw| >= 4 && FirstEnd(raw) == Some(|raw| - 4)
  }

  /** The names that the service gives its headers are constants without line breaks. */
  ghost predicate PlainNames(fields: seq<Header>) {
    forall i :: 0 <= i < |fields| ==> NoBreaks(fields[i].0)
  }

  /** The guard against injection is enough: whatever it lets through is written as exactly one frame. */
  lemma UnrefusedIsOneFrame(fields: seq<Header>, actionId: string, rest: string)
    requires PlainNames(fields) && !Injects(WithId(fields, actionId))
    ensures var payload := Payload(WithId(fields, actionId));
      IsFrame(payload) && ReadUntil(payload + rest) == Some((payload, rest))
  {
    hide FirstEnd, Body;
    var hs := WithId(fields, actionId);
    forall i | 0 <= i < |hs| ensures OneLine(hs[i]) {
    }
    OneWriteIsOneFrame(hs, rest);
    OneWriteIsOneFrame(hs, "");
    assert Payload(hs) + "" == Payload(hs);
  }

  class AMISession {
    var input: string
    var sent: seq<string>
    var controlAttempted: bool

    constructor (input: string)
      ensures this.input == input && sent == [] && !controlAttempted
    {
      this.input, sent, controlAttempted := input, [], false;
    }

    /** The next frame of the stream, as a map of headers. */
    method Frame() returns (r: Result<Message>)
      modifies this`input
      ensures match ReadUntil(old(input))
        case None => r == Err(Raised("IncompleteReadError")) && input == ""
        case Some((raw, rest)) => r == ReadFrame(raw) && input == rest
    {
      hide SplitLines, ByteLength, FirstEnd, ParseLine, AddHeader;
      var found := ReadUntil(input);
      if found.None? {
        input := "";
        return Err(Raised("IncompleteReadError"));
      }
      var (raw, rest) := found.value;
      input := rest;
      if ByteLength(raw) > LIMIT {
        return Err(Raised("AMI frame too large"));
      }
      var lines := SplitLines(raw[..|raw| - 4]);
      var result: Message := map[];
      var i := 0;
      while i < |lines|
        invariant i <= |lines| && ReadLines(lines, map[]) == ReadLines(lines[i..], result)
      {
        assert lines[i..][1..] == lines[i + 1..];
        var header := ParseLine(lines[i]);
        if header.Err? {
          return Err(header.error);
        }
        var more := AddHeader(result, header.value);
        if more.Err? {
          return Err(more.error);
        }
        result := more.value;
        i := i + 1;
      }
      return Ok(result);
    }

    /**
      An action up to the moment it may be written. A value that would break its line is refused before anything
      else; a session that has tried a control before is refused without a second attempt.
     */
    method Prepare(fields: seq<Header>, actionId: string, control: bool) returns (r: Result<string>)
      modifies this`controlAttempted
      ensures if Injects(WithId(fields, actionId)) then
          r == Err(Raised("AMI header injection refused")) && controlAttempted == old(controlAttempted)
        else if control && old(controlAttempted) then
          r == Err(Raised("A control session cannot be reused")) && controlAttempted
        else r == Ok(Payload(WithId(fields, actionId))) && controlAttempted == (old(controlAttempted) || control)
    {
      var headers := WithId(fields, actionId);
      if Injects(headers) {
        return Err(Raised("AMI header injection refused"));
      }
      var payload := Payload(headers);
      if control {
        if controlAttempted {
          return Err(Raised("A control session cannot be reused"));
        }
        controlAttempted := true;
      }
      return Ok(payload);
    }

    /** The write and the wait for the reply to it. */
    method Exchange(payload: string, actionId: string) returns (r: Result<Message>)
      modifies this`input, this`sent
      ensures sent == old(sent) + [payload]
      ensures (r, input) == ReplyFrom(old(input), actionId, 100)
    {
      hide ReadUntil, ReadFrame;
      sent := sent + [payload];
      for i := 0 to BUDGET
        invariant sent == old(sent) + [payload]
        invariant ReplyFrom(input, actionId, 100 - i) == ReplyFrom(old(input), actionId, 100)
      {
        var response := Frame();
        if response.Err? {
          return response;
        }
        if !IsEvent(response.value) {
          if !Carries(response.value, actionId) {
            return Err(Raised("Stale or mismatched AMI ActionID"));
          }
          return response;
        }
      }
      return Err(Raised("AMI response not received within frame budget"));
    }

    /** A read-only action: refused with nothing written, or written once. */
    method Action(fields: seq<Header>, actionId: string) returns (r: Result<Message>)
      modifies this
      ensures controlAttempted == old(controlAttempted)
      ensures if Injects(WithId(fields, actionId)) then r.Err? && sent == old(sent) && input == old(input)
        else
          && sent == old(sent) + [Payload(WithId(fields, actionId))]
          && (r, input) == ReplyFrom(old(input), actionId, 100)
      ensures PlainNames(fields) ==> forall i :: |old(sent)| <= i < |sent| ==> IsFrame(sent[i])
    {
      hide IsFrame, Injects, WithId, Payload, PlainNames;
      if PlainNames(fields) && !Injects(WithId(fields, actionId)) {
        UnrefusedIsOneFrame(fields, actionId, "");
      }
      var payload := Prepare(fields, actionId, false);
      if payload.Err? {
        return Err(payload.error);
      }
      r := Exchange(payload.value, actionId);
    }
  }

  const GREETING := "Asterisk Call Manager/"

  predicate Greets(input: string) {
    var banner := input[..IndexOf(input, '\n')];
    |GREETING| <= |banner| && banner[..|GREETING|] == GREETING
  }

  /** The greeting decided: the stream starts with this text. */
  lemma GreetingDecided(input: string)
    ensures Greets(input) <==> "Asterisk Call Manager/" <= input
  {
    var i := IndexOf(input, '\n');
    if "Asterisk Call Manager/" <= input {
      assert forall k :: 0 <= k < 22 ==> input[k] == "Asterisk Call Manager/"[k] && input[k] != '\n';
      assert i >= 22;
      assert input[..i][..22] == input[..22];
    }
    if Greets(input) {
      assert input[..22] == input[..i][..22];
    }
  }

  /** The stream behind the greeting's line. */
  function AfterGreeting(input: string): string {
    var i := IndexOf(input, '\n');
    if i < |input| then input[i + 1..] else ""
  }

  function LoginFields(username: string, secret: string): seq<Header> {
    [("Action", "Login"), ("Username", username), ("Secret", secret), ("Events", "off")]
  }

  // ---- the texts of the actions -----------------------------------------------------------------

  /** Lines as they go over the wire: each with its line break, and an empty one at the end. */
  function WireText(lines: seq<string>): string {
    if lines == [] then "\r\n" else lines[0] + "\r\n" + WireText(lines[1..])
  }

  function LoginText(username: string, secret: string, actionId: string): string {
    WireText(["Action: Login", "Username: " + username, "Secret: " + secret, "Events: off", "ActionID: " + actionId])
  }

  function StatusText(command: string, node: Node, actionId: string): string {
    WireText(["Action: RptStatus", "Command: " + command, "Node: " + node, "ActionID: " + actionId])
  }

  function ControlText(command: string, actionId: string): string {
    WireText(["Action: Command", "Command: " + command, "ActionID: " + actionId])
  }

  lemma {:induction false} PayloadIsText(hs: seq<Header>, lines: seq<string>)
    requires |lines| == |hs| > 0 && forall i :: 0 <= i < |hs| ==> lines[i] == Line(hs[i])
    ensures Payload(hs) == WireText(lines)
    decreases |hs|
  {
    hide Line;
    if |hs| == 1 {
      assert WireText(lines[1..]) == "\r\n";
      assert END == "\r\n" + "\r\n";
    } else {
      PayloadIsText(hs[1..], lines[1..]);
      Regroup(lines[0] + "\r\n", Body(hs[1..]), END);
    }
  }

  lemma LoginIsRefused(username: string, secret: string, actionId: string)
    ensures Injects(WithId(LoginFields(username, secret), actionId)) <==>
      !NoBreaks(username) || !NoBreaks(secret) || !NoBreaks(actionId)
  {
    var hs := WithId(LoginFields(username, secret), actionId);
    assert hs[0].1 == "Login" && hs[1].1 == username && hs[2].1 == secret && hs[3].1 == "off" && hs[4].1 == actionId;
    assert NoBreaks("Login") && NoBreaks("off");
  }

  lemma LoginIsWritten(username: string, secret: string, actionId: string)
    ensures Payload(WithId(LoginFields(username, secret), actionId)) == LoginText(username, secret, actionId)
  {
    hide WireText, Payload;
    assert "Action" + ": " + "Login" == "Action: Login" && "Events" + ": " + "off" == "Events: off";
    assert "Username" + ": " == "Username: " && "Secret" + ": " == "Secret: " && "ActionID" + ": " == "ActionID: ";
    PayloadIsText(WithId(LoginFields(username, secret), actionId),
      ["Action: Login", "Username: " + username, "Secret: " + secret, "Events: off", "ActionID: " + actionId]);
  }

  lemma StatusIsWritten(command: string, node: Node, actionId: string)
    ensures Payload(WithId(StatusFields(command, node), actionId)) == StatusText(command, node, actionId)
  {
    hide WireText, Payload;
    assert "Action" + ": " + "RptStatus" == "Action: RptStatus" && "Command" + ": " == "Command: ";
    assert "Node" + ": " == "Node: " && "ActionID" + ": " == "ActionID: ";
    PayloadIsText(WithId(StatusFields(command, node), actionId),
      ["Action: RptStatus", "Command: " + command, "Node: " + node, "ActionID: " + actionId]);
  }

  lemma ControlIsWritten(command: string, actionId: string)
    ensures ControlPayload(command, actionId) == ControlText(command, actionId)
  {
    hide WireText, Payload;
    assert "Action" + ": " + "Command" == "Action: Command" && "Command" + ": " == "Command: ";
    assert "ActionID" + ": " == "ActionID: ";
    PayloadIsText(WithId(CommandFields(command), actionId),
      ["Action: Command", "Command: " + command, "ActionID: " + actionId]);
  }

  /** The reply to the login, if it is one that accepts it, and the stream behind it. */
  function LoggedIn(input: string, loginId: string): Option<string> {
    var (login, rest) := ReplyFrom(AfterGreeting(input), loginId, 100);
    if Greets(input) && login.Ok? && SaysSuccess(login.value) then Some(rest) else None
  }

  /**
    A fresh session, exactly when the peer greets, the login may be written, and its own reply accepts it. The login is
    all that has been written, as one frame, and the stream stands behind the reply to it.
   */
  method OpenSession(input: string, username: string, secret: string, actionId: string) returns (r: Result<AMISession>)
    ensures r.Ok? <==>
      LoggedIn(input, actionId).Some? && NoBreaks(username) && NoBreaks(secret) && NoBreaks(actionId)
    ensures r.Ok? ==>
      && fresh(r.value) && !r.value.controlAttempted
      && r.value.sent == [LoginText(username, secret, actionId)] && IsFrame(r.value.sent[0])
      && r.value.input == LoggedIn(input, actionId).value
  {
    hide ReplyFrom, IsFrame, Greets;
    if !Greets(input) {
      return Err(Raised("Invalid AMI banner"));
    }
    LoginIsWritten(username, secret, actionId);
    LoginIsRefused(username, secret, actionId);
    var session := new AMISession(AfterGreeting(input));
    var login := session.Action(LoginFields(username, secret), actionId);
    if login.Err? {
      return Err(login.error);
    }
    if !SaysSuccess(login.value) {
      return Err(Raised("AMI authentication failed"));
    }
    return Ok(session);
  }

  function StatusFields(command: string, node: Node): seq<Header> {
    [("Action", "RptStatus"), ("Command", command), ("Node", node)]
  }

  /** Both samples of an observation: the replies to its two actions, from one session. */
  function Samples(input: string, loginId: string, xstatId: string, sawstatId: string): Option<(Message, Message)> {
    match LoggedIn(input, loginId)
    case None => None
    case Some(stream) =>
      var (xstat, rest) := ReplyFrom(stream, xstatId, 100);
      if xstat.Err? then None
      else
        var (sawstat, _) := ReplyFrom(rest, sawstatId, 100);
        if sawstat.Err? then None else Some((xstat.value, sawstat.value))
  }

  lemma StatusIsPlain(command: string, node: Node, actionId: string)
    requires command in {"XStat", "SawStat"} && ValidNode(node) && IsActionId(actionId)
    ensures !Injects(WithId(StatusFields(command, node), actionId))
  {
  }

  /**
    An observation asks two questions in one session, XStat and then SawStat about the node, each under its own
    identifier, and yields the replies to them; it never tries a control.
   */
  method Observe(input: string, username: string, secret: string, node: Node, loginId: string, xstatId: string,
      sawstatId: string) returns (r: Result<(Message, Message)>, sent: seq<string>)
    requires ValidNode(node) && IsActionId(xstatId) && IsActionId(sawstatId)
    ensures r.Ok? <==>
      && Samples(input, loginId, xstatId, sawstatId).Some?
      && NoBreaks(username) && NoBreaks(secret) && NoBreaks(loginId)
    ensures r.Ok? ==> r.value == Samples(input, loginId, xstatId, sawstatId).value
    ensures var full := [LoginText(username, secret, loginId), StatusText("XStat", node, xstatId),
        StatusText("SawStat", node, sawstatId)];
      sent <= full && (r.Ok? ==> sent == full)
  {
    hide ReplyFrom, IsFrame, LoggedIn, Injects, WithId, StatusFields, LoginFields, Payload, ValidNode, IsActionId,
      LoginText, StatusText, NoBreaks;
    sent := [];
    var opening := OpenSession(input, username, secret, loginId);
    if opening.Err? {
      return Err(opening.error), [];
    }
    var session := opening.value;
    StatusIsPlain("XStat", node, xstatId);
    StatusIsWritten("XStat", node, xstatId);
    var xstat := session.Action(StatusFields("XStat", node), xstatId);
    sent := session.sent;
    if xstat.Err? {
      return Err(xstat.error), sent;
    }
    StatusIsPlain("SawStat", node, sawstatId);
    StatusIsWritten("SawStat", node, sawstatId);
    var sawstat := session.Action(StatusFields("SawStat", node), sawstatId);
    sent := session.sent;
    if sawstat.Err? {
      return Err(sawstat.error), sent;
    }
    return Ok((xstat.value, sawstat.value)), sent;
  }

  // ---- whose reply comes back -------------------------------------------------------------------

  function Flatten(frames: seq<string>): string {
    if frames == [] then "" else frames[0] + Flatten(frames[1..])
  }

  ghost predicate Passed(raw: string) {
    && IsFrame(raw) && ReadFrame(raw).Ok?
    && "event" in ReadFrame(raw).value && "response" !in ReadFrame(raw).value
  }

  ghost predicate OwnReply(raw: string, actionId: string, m: Message) {
    && IsFrame(raw) && ReadFrame(raw) == Ok(m) && ("event" in m ==> "response" in m)
    && "actionid" in m && m["actionid"] == Scalar(actionId)
  }

  /** The stream is some events, then the reply to this action, then the rest. */
  ghost predicate Arrives(input: string, actionId: string, events: seq<string>, reply: string, rest: string,
      m: Message)
  {
    && input == Flatten(events) + reply + rest
    && (forall i :: 0 <= i < |events| ==> Passed(events[i]))
    && OwnReply(reply, actionId, m)
  }

  lemma FirstEndIs(s: string, i: nat)
    requires EndsAt(s, i) && forall k: nat :: k < i ==> !EndsAt(s, k)
    ensures FirstEnd(s) == Some(i)
  {
  }

  lemma FirstEndInside(raw: string, rest: string)
    requires IsFrame(raw)
    ensures FirstEnd(raw + rest) == FirstEnd(raw)
  {
    var s := raw + rest;
    assert EndsAt(s, |raw| - 4);
    forall k: nat | k < |raw| - 4 ensures !EndsAt(s, k) {
      assert !EndsAt(raw, k);
    }
    FirstEndIs(s, |raw| - 4);
  }

  lemma ReadsFrame(raw: string, rest: string)
    requires IsFrame(raw)
    ensures ReadUntil(raw + rest) == Some((raw, rest))
  {
    hide FirstEnd;
    FirstEndInside(raw, rest);
    assert (raw + rest)[..|raw|] == raw && (raw + rest)[|raw|..] == rest;
  }

  lemma FrameRead(input: string)
    requires ReadUntil(input).Some?
    ensures var (raw, rest) := ReadUntil(input).value; IsFrame(raw) && input == raw + rest
  {
    var i := FirstEnd(input).value;
    var raw := input[..i + 4];
    assert EndsAt(raw, i);
    forall k: nat | k < i ensures !EndsAt(raw, k) {
      assert !EndsAt(input, k);
    }
    FirstEndIs(raw, i);
  }

  /** Fewer events than the budget, then the own reply: that reply is returned and nothing after it is consumed. */
  lemma {:induction false} ReplyFound(input: string, actionId: string, n: nat, events: seq<string>, reply: string,
      rest: string, m: Message)
    requires Arrives(input, actionId, events, reply, rest, m) && |events| < n
    ensures ReplyFrom(input, actionId, n) == (Ok(m), rest)
    decreases |events|
  {
    hide ReadUntil, ReadFrame, IsFrame;
    if events == [] {
      assert input == reply + rest;
      ReadsFrame(reply, rest);
    } else {
      var tail := Flatten(events[1..]) + reply + rest;
      assert input == events[0] + tail;
      assert Passed(events[0]);
      ReadsFrame(events[0], tail);
      ReplyFound(tail, actionId, n - 1, events[1..], reply, rest, m);
    }
  }

  /** Whatever is returned as a reply is the first frame that is not an event, and carries this action's identifier. */
  lemma {:induction false} ReplyIsOwn(input: string, actionId: string, n: nat)
    returns (events: seq<string>, reply: string)
    requires ReplyFrom(input, actionId, n).0.Ok?
    ensures var (r, rest) := ReplyFrom(input, actionId, n);
      |events| < n && Arrives(input, actionId, events, reply, rest, r.value)
    decreases n
  {
    hide ReadUntil, ReadFrame, IsFrame;
    FrameRead(input);
    var (raw, rest) := ReadUntil(input).value;
    var m := ReadFrame(raw).value;
    if IsEvent(m) {
      var more;
      more, reply := ReplyIsOwn(rest, actionId, n - 1);
      events := [raw] + more;
      assert events[1..] == more;
      var last := ReplyFrom(rest, actionId, n - 1).1;
      assert Flatten(events) == raw + Flatten(more);
      assert input == raw + (Flatten(more) + reply + last) == Flatten(events) + reply + last;
      assert Passed(raw);
    } else {
      events, reply := [], raw;
      assert Flatten([]) == "";
    }
  }

  /** A peer that sends nothing but events is given up on after exactly the budget, with the next frame unread. */
  lemma {:induction false} EventsExhaustBudget(events: seq<string>, rest: string, actionId: string)
    requires forall i :: 0 <= i < |events| ==> Passed(events[i])
    ensures ReplyFrom(Flatten(events) + rest, actionId, |events|) ==
      (Err(Raised("AMI response not received within frame budget")), rest)
    decreases |events|
  {
    hide ReadUntil, ReadFrame, IsFrame;
    if events == [] {
      assert Flatten(events) + rest == rest;
    } else {
      var tail := Flatten(events[1..]) + rest;
      assert Flatten(events) + rest == events[0] + tail;
      assert Passed(events[0]);
      ReadsFrame(events[0], tail);
      EventsExhaustBudget(events[1..], rest, actionId);
    }
  }

  // ---- the control action -----------------------------------------------------------------------

  function CommandFields(command: string): seq<Header> {
    [("Action", "Command"), ("Command", command)]
  }

  function ControlPayload(command: string, actionId: string): string {
    Payload(WithId(CommandFields(command), actionId))
  }

  /** uuid4().hex */
  predicate IsActionId(s: string) {
    |s| == 32 && forall i :: 0 <= i < |s| ==> '0' <= s[i] <= '9' || 'a' <= s[i] <= 'f'
  }

  lemma CommandIsClean(node: Node, kind: Kind, request: Request, actionId: string)
    requires CommandFor(node, kind, request).Ok? && IsActionId(actionId)
    ensures var command := CommandFor(node, kind, request).value;
      !Injects(WithId(CommandFields(command), actionId)) && AllClean(WithId(CommandFields(command), actionId))
      && |command| <= 40
  {
    hide CommandFor;
    var command := CommandFor(node, kind, request).value;
    forall c | c in command ensures c != '\r' && c != '\n' {
      var i :| 0 <= i < |command| && command[i] == c;
      CommandIsOneLine(node, kind, request, i);
    }
    CommandStart(node, kind, request);
  }

  lemma CommandStart(node: Node, kind: Kind, request: Request)
    requires CommandFor(node, kind, request).Ok?
    ensures var command := CommandFor(node, kind, request).value; 1 <= |command| <= 40 && command[0] == 'r'
  {
  }

  lemma {:induction false} TextIsShort(lines: seq<string>)
    requires forall i :: 0 <= i < |lines| ==> |lines[i]| <= 100
    ensures |WireText(lines)| <= 102 * |lines| + 2
    decreases |lines|
  {
    if lines != [] {
      TextIsShort(lines[1..]);
    }
  }

  lemma {:induction false} WidthBound(s: string)
    ensures ByteLength(s) <= 4 * |s|
    decreases |s|
  {
    if s != "" {
      WidthBound(s[1..]);
    }
  }

  /** The frame carries a command that these words ask for, and is written like this. */
  ghost predicate Sends(frame: string, node: Node, kind: Kind, request: Request, actionId: string) {
    exists command :: Spells(command, node, kind, request) && frame == ControlText(command, actionId)
  }

  /**
    An accepted command is written as one frame, and a reader of that frame finds exactly this command under this
    identifier.
   */
  lemma CommandArrives(command: string, node: Node, kind: Kind, request: Request, actionId: string, rest: string)
    requires Spells(command, node, kind, request) && IsActionId(actionId)
    ensures var frame := ControlText(command, actionId);
      && ReadUntil(frame + rest) == Some((frame, rest))
      && ReadFrame(frame) ==
           Ok(map["action" := Scalar("Command"), "command" := Scalar(command), "actionid" := Scalar(actionId)])
  {
    CommandDecided(node, kind, request, command);
    hide CommandFor, Spells, AllClean, ReadUntil, ReadFrame, ByteLength, Collect, WireText;
    CommandIsClean(node, kind, request, actionId);
    ControlIsWritten(command, actionId);
    var hs := WithId(CommandFields(command), actionId);
    CleanStaysOnItsLine(hs);
    OneWriteIsOneFrame(hs, rest);
    FrameRoundTrip(hs);
    TextIsShort(["Action: Command", "Command: " + command, "ActionID: " + actionId]);
    WidthBound(Payload(hs));
    CommandCollects(command, actionId);
  }

  /** A question of an observation is one frame, and a reader of that frame finds exactly this question. */
  lemma QuestionArrives(command: string, node: Node, actionId: string, rest: string)
    requires command in {"XStat", "SawStat"} && ValidNode(node) && IsActionId(actionId)
    ensures var frame := StatusText(command, node, actionId);
      && ReadUntil(frame + rest) == Some((frame, rest))
      && ReadFrame(frame) == Ok(map["action" := Scalar("RptStatus"), "command" := Scalar(command),
           "node" := Scalar(node), "actionid" := Scalar(actionId)])
  {
    hide AllClean, ReadUntil, ReadFrame, ByteLength, Collect, WireText;
    QuestionIsClean(command, node, actionId);
    StatusIsWritten(command, node, actionId);
    var hs := WithId(StatusFields(command, node), actionId);
    CleanStaysOnItsLine(hs);
    OneWriteIsOneFrame(hs, rest);
    FrameRoundTrip(hs);
    TextIsShort(["Action: RptStatus", "Command: " + command, "Node: " + node, "ActionID: " + actionId]);
    WidthBound(Payload(hs));
    QuestionCollects(command, node, actionId);
  }

  lemma QuestionIsClean(command: string, node: Node, actionId: string)
    requires command in {"XStat", "SawStat"} && ValidNode(node) && IsActionId(actionId)
    ensures AllClean(WithId(StatusFields(command, node), actionId))
  {
  }

  lemma QuestionCollects(command: string, node: Node, actionId: string)
    ensures Collect(WithId(StatusFields(command, node), actionId), map[]) == Ok(map["action" := Scalar("RptStatus"),
      "command" := Scalar(command), "node" := Scalar(node), "actionid" := Scalar(actionId)])
  {
    var hs := WithId(StatusFields(command, node), actionId);
    assert Lower("Action") == "action" && Lower("Command") == "command" && Lower("Node") == "node";
    assert Lower("ActionID") == "actionid";
    var m1 := map["action" := Scalar("RptStatus")];
    var m2 := m1["command" := Scalar(command)];
    var m3 := m2["node" := Scalar(node)];
    var m4 := m3["actionid" := Scalar(actionId)];
    assert hs[1..][1..] == hs[2..] && hs[2..][1..] == hs[3..] && hs[3..][1..] == [];
    assert Collect(hs[3..], m3) == Collect([], m4);
    assert Collect(hs[2..], m2) == Collect(hs[3..], m3);
    assert Collect(hs[1..], m1) == Collect(hs[2..], m2);
  }

  /** A login within the size limit is one frame that carries these credentials and switches events off. */
  lemma LoginArrives(username: string, secret: string, actionId: string, rest: string)
    requires NoBreaks(username) && NoBreaks(secret) && NoBreaks(actionId)
    requires forall value :: value in {username, secret, actionId} && value != "" ==> value[0] != ' '
    requires ByteLength(LoginText(username, secret, actionId)) <= 262144
    ensures var frame := LoginText(username, secret, actionId);
      && ReadUntil(frame + rest) == Some((frame, rest))
      && ReadFrame(frame) == Ok(map["action" := Scalar("Login"), "username" := Scalar(username),
           "secret" := Scalar(secret), "events" := Scalar("off"), "actionid" := Scalar(actionId)])
  {
    hide AllClean, ReadUntil, ReadFrame, ByteLength, Collect, LoginText;
    LoginIsClean(username, secret, actionId);
    LoginIsWritten(username, secret, actionId);
    var hs := WithId(LoginFields(username, secret), actionId);
    CleanStaysOnItsLine(hs);
    OneWriteIsOneFrame(hs, rest);
    FrameRoundTrip(hs);
    LoginCollects(username, secret, actionId);
  }

  lemma LoginIsClean(username: string, secret: string, actionId: string)
    requires NoBreaks(username) && NoBreaks(secret) && NoBreaks(actionId)
    requires forall value :: value in {username, secret, actionId} && value != "" ==> value[0] != ' '
    ensures AllClean(WithId(LoginFields(username, secret), actionId))
  {
    assert username in {username, secret, actionId} && secret in {username, secret, actionId};
    assert actionId in {username, secret, actionId};
  }

  lemma LoginCollects(username: string, secret: string, actionId: string)
    ensures Collect(WithId(LoginFields(username, secret), actionId), map[]) ==
      Ok(map["action" := Scalar("Login"), "username" := Scalar(username), "secret" := Scalar(secret),
        "events" := Scalar("off"), "actionid" := Scalar(actionId)])
  {
    var hs := WithId(LoginFields(username, secret), actionId);
    assert Lower("Action") == "action" && Lower("Username") == "username" && Lower("Secret") == "secret";
    assert Lower("Events") == "events" && Lower("ActionID") == "actionid";
    var m1 := map["action" := Scalar("Login")];
    var m2 := m1["username" := Scalar(username)];
    var m3 := m2["secret" := Scalar(secret)];
    var m4 := m3["events" := Scalar("off")];
    var m5 := m4["actionid" := Scalar(actionId)];
    assert hs[1..][1..] == hs[2..] && hs[2..][1..] == hs[3..] && hs[3..][1..] == hs[4..] && hs[4..][1..] == [];
    assert Collect(hs[4..], m4) == Collect([], m5);
    assert Collect(hs[3..], m3) == Collect(hs[4..], m4);
    assert Collect(hs[2..], m2) == Collect(hs[3..], m3);
    assert Collect(hs[1..], m1) == Collect(hs[2..], m2);
  }

  lemma CommandCollects(command: string, actionId: string)
    ensures Collect(WithId(CommandFields(command), actionId), map[]) ==
      Ok(map["action" := Scalar("Command"), "command" := Scalar(command), "actionid" := Scalar(actionId)])
  {
    var hs := WithId(CommandFields(command), actionId);
    assert Lower("Action") == "action" && Lower("Command") == "command" && Lower("ActionID") == "actionid";
    var m1 := map["action" := Scalar("Command")];
    var m2 := m1["command" := Scalar(command)];
    var m3 := m2["actionid" := Scalar(actionId)];
    assert hs[1..][1..] == hs[2..] && hs[2..][1..] == [];
    assert Collect(hs[2..], m2) == Collect([], m3);
    assert Collect(hs[1..], m1) == Collect(hs[2..], m2);
  }
}
