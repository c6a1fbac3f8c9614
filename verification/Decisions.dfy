/**
  What each stretch of a coroutine decides, told from what it was given: the links of the observation, the text of the
  reply, the operator's rules, the cause of its end. Nothing here is said in terms of the functions that decide it.
 */
module Decisions {
  import opened Base
  import opened Models
  import opened Policy
  import opened Effects
  import opened CanonicalJson
  import opened Rows
  import opened Ami
  import opened Protocol
  import opened Invariant
  import opened Preservation
  import opened Steps

  // ---- how a stretch can end --------------------------------------------------------------------

  /** The coroutine is over and its slot free; its row holds this document, unless the commit was lost. */
  ghost predicate EndsAs(l: Local, l': Local, id: Id, commit: Commit, op: Operation) {
    && id in l.disk
    && l'.disk == (if commit.Lost? then l.disk else l.disk[id := l.disk[id].(document := op)])
    && l'.proc == l.proc.(
         healthy := l.proc.healthy && commit.Committed?,
         workers := l.proc.workers - {id},
         slot := if l.proc.slot == Held(id) then Free else l.proc.slot)
  }

  /** The coroutine stands elsewhere, and nothing is stored. */
  predicate MovesTo(l: Local, l': Local, id: Id, w: Worker) {
    l'.disk == l.disk && l'.proc == l.proc.(workers := l.proc.workers[id := w])
  }

  /** A link request that carries no mode while its target is linked cannot be judged. */
  predicate Unjudgeable(op: Operation, s: NodeState) {
    && op.kind.LinkNode? && s.complete && "mode" !in op.request
    && "node" in op.request && Lists(s, op.request["node"])
  }

  /** The request is fulfilled, as the links of the state show. */
  predicate Fulfilled(op: Operation, s: NodeState) {
    s.complete && match op.kind
      case LinkNode =>
        && "node" in op.request && "mode" in op.request
        && ListsIn(s, op.request["node"], if op.request["mode"] == "monitor" then R else T)
      case UnlinkNode => "node" in op.request && !Lists(s, op.request["node"])
      case UnlinkAll => !ListsNumber(s)
      case Announce => false
  }

  lemma FulfilledDecided(op: Operation, s: NodeState)
    requires Evident(s) && CommandTail(op.kind, op.request).Ok?
    ensures EffectOf(op.kind, op.request, s).Err? <==> Unjudgeable(op, s)
    ensures EffectOf(op.kind, op.request, s) == Ok(OBSERVED_SATISFIED) <==> Fulfilled(op, s)
  {
    hide Evident, EffectOf, Lists, ListsIn, ListsNumber;
    ModeDecided(op.kind, op.request, s);
    if op.kind.LinkNode? && "mode" !in op.request {
      UnlistedIsUnsatisfied(op.request, s);
    } else {
      EffectDecided(op.kind, op.request, s, OBSERVED_SATISFIED);
    }
  }

  lemma ModeDecided(kind: Kind, request: Request, s: NodeState)
    requires Evident(s) && CommandTail(kind, request).Ok?
    ensures (kind.LinkNode? || kind.UnlinkNode?) ==> "node" in request
    ensures EffectOf(kind, request, s).Err? <==>
      kind.LinkNode? && "mode" !in request && s.complete && "node" in request && Lists(s, request["node"])
  {
    EffectRaisesExactlyWithoutMode(kind, request, s);
    if s.complete && kind.LinkNode? {
      ListsMeans(s, request["node"]);
    }
  }

  lemma ListsMeans(s: NodeState, name: string)
    requires s.directLinks.Some?
    ensures Lists(s, name) <==> exists link :: link in s.directLinks.value && link.node == name
  {
    if link :| link in s.directLinks.value && link.node == name {
      var i :| 0 <= i < |s.directLinks.value| && s.directLinks.value[i] == link;
      assert s.directLinks.value[i].node == name;
    }
  }

  lemma UnlistedIsUnsatisfied(request: Request, s: NodeState)
    requires "mode" !in request
    ensures EffectOf(LinkNode, request, s) != Ok(OBSERVED_SATISFIED)
  {
  }

  lemma WorkerRequest(l: Local, id: Id)
    requires LocalOk(l) && IsWorker(l.proc, id)
    ensures id in l.disk && l.disk[id].node == l.proc.node
    ensures var op := l.disk[id].document; CommandFor(l.proc.node, op.kind, op.request).Ok?
    ensures var op := l.disk[id].document; CommandTail(op.kind, op.request).Ok?
  {
    hide LocalOk, RowShape, Truthful, WorkerOk, CommandTail;
    OneWorker(l, id);
    CommandStays(id, l.disk[id]);
  }

  // ---- admission --------------------------------------------------------------------------------

  /** The row that keeps a credential's key for a request. */
  predicate IsBound(l: Local, bound: Id, credential: string, key: Option<string>) {
    && key.Some? && bound in l.disk
    && l.disk[bound].node == l.proc.node && l.disk[bound].credential == credential && l.disk[bound].key == key
  }

  /** A bound key answers the request it was bound to, and no other. */
  ghost predicate BoundOutcome(l: Local, l': Local, r: Result<Operation>, kind: Kind, request: Request,
      credential: string, key: Option<string>, bound: Id)
  {
    && bound in l.disk && l'.disk == l.disk && l'.proc == l.proc
    && var op, node, text := l.disk[bound].document, l.proc.node, Canonical(kind, request);
       if op.kind == kind && op.request == request then
         r == Ok(op) && l'.log == l.log + [Answered(l.pid, bound, node, credential, key, text)]
       else
         && r == Err(Problem(409, "IDEMPOTENCY_CONFLICT"))
         && l'.log == l.log + [Refused(l.pid, node, credential, key, text)]
  }

  /** A new request takes the free slot and becomes a queued row, unless its commit fails. */
  ghost predicate NewOutcome(l: Local, l': Local, r: Result<Operation>, kind: Kind, request: Request,
      credential: string, key: Option<string>, id: Id, commit: Commit)
  {
    var node, text := l.proc.node, Canonical(kind, request);
    var op := Operation(id, node, kind, request, credential, QUEUED, PENDING, false, None, None);
    if !l.proc.slot.Free? then r == Err(Problem(409, "NODE_BUSY")) && l' == l
    else if id in l.disk || commit.Lost? then r.Err? && l' == l
    else
      && l'.disk == l.disk[id := Row(id, node, credential, key, text, op)]
      && if commit.Durable? then r.Err? && l'.proc == l.proc && l'.log == l.log + [Orphaned(l.pid, id)]
         else
           && r == Ok(op)
           && l'.proc == l.proc.(slot := Held(id), workers := l.proc.workers[id := Created])
           && l'.log == l.log + [Admitted(l.pid, id)] + [Answered(l.pid, id, node, credential, key, text)]
  }

  /** Every outcome of an admission, in order of precedence. */
  ghost predicate AdmissionOutcome(l: Local, l': Local, r: Result<Operation>, kind: Kind, request: Request,
      credential: string, key: Option<string>, id: Id, commit: Commit)
  {
    if !l.proc.phase.Running? || l.proc.closing then r == Err(Problem(503, "CONTROL_UNAVAILABLE")) && l' == l
    else if !l.proc.healthy then r == Err(Problem(503, "LEDGER_UNAVAILABLE")) && l' == l
    else if forall command :: !Spells(command, l.proc.node, kind, request) then
      && r.Err? && l' == l
      && (r.error == Problem(422, "UNSUPPORTED_ANNOUNCEMENT") <==>
            kind == Announce && "kind" in request && request["kind"] !in {"identify", "status"})
    else
      && (forall bound :: IsBound(l, bound, credential, key) ==>
            BoundOutcome(l, l', r, kind, request, credential, key, bound))
      && ((forall bound :: !IsBound(l, bound, credential, key)) ==>
            NewOutcome(l, l', r, kind, request, credential, key, id, commit))
  }

  lemma AdmissionIsDecided(l: Local, l': Local, r: Result<Operation>, kind: Kind, request: Request, credential: string,
      key: Option<string>, id: Id, commit: Commit)
    requires LocalOk(l) && l.proc.main.Idle? && AdmissionDecided(l, l', r, kind, request, credential, key, id, commit)
    ensures AdmissionOutcome(l, l', r, kind, request, credential, key, id, commit)
  {
    hide LocalOk, CommandFor, Spells, FindIdempotent, BoundOutcome, NewOutcome, DoInsert, DoReserve, IsBound;
    if l.proc.phase.Running? && l.proc.healthy && !l.proc.closing {
      hide AdmissionOutcome;
      ServedIsDecided(l, l', r, kind, request, credential, key, id, commit);
    }
  }

  lemma ServedIsDecided(l: Local, l': Local, r: Result<Operation>, kind: Kind, request: Request, credential: string,
      key: Option<string>, id: Id, commit: Commit)
    requires LocalOk(l) && l.proc.main.Idle? && AdmissionDecided(l, l', r, kind, request, credential, key, id, commit)
    requires l.proc.phase.Running? && l.proc.healthy && !l.proc.closing
    ensures AdmissionOutcome(l, l', r, kind, request, credential, key, id, commit)
  {
    hide LocalOk, CommandFor, Spells, FindIdempotent, BoundOutcome, NewOutcome, IsBound, AdmissionDecided;
    NodeIsValid(l);
    AcceptanceDecided(l.proc.node, kind, request);
    if CommandFor(l.proc.node, kind, request).Err? {
      RefusedAsInvalid(l, l', r, kind, request, credential, key, id, commit);
    } else {
      forall bound | IsBound(l, bound, credential, key)
        ensures BoundOutcome(l, l', r, kind, request, credential, key, bound)
      {
        BoundIsDecided(l, l', r, kind, request, credential, key, id, commit, bound);
      }
      if forall bound :: !IsBound(l, bound, credential, key) {
        NewIsDecided(l, l', r, kind, request, credential, key, id, commit);
      }
    }
  }

  lemma RefusedAsInvalid(l: Local, l': Local, r: Result<Operation>, kind: Kind, request: Request, credential: string,
      key: Option<string>, id: Id, commit: Commit)
    requires AdmissionDecided(l, l', r, kind, request, credential, key, id, commit)
    requires l.proc.phase.Running? && l.proc.healthy && !l.proc.closing && CommandFor(l.proc.node, kind, request).Err?
    ensures r == Err(CommandFor(l.proc.node, kind, request).error) && l' == l
  {
    hide CommandFor, FindIdempotent, DoInsert, DoReserve;
  }

  lemma NodeIsValid(l: Local)
    requires LocalOk(l)
    ensures ValidNode(l.proc.node)
  {
  }

  lemma AcceptanceDecided(node: Node, kind: Kind, request: Request)
    requires ValidNode(node)
    ensures CommandFor(node, kind, request).Err? <==> forall command :: !Spells(command, node, kind, request)
    ensures CommandFor(node, kind, request) == Err(Problem(422, "UNSUPPORTED_ANNOUNCEMENT")) <==>
      kind == Announce && "kind" in request && request["kind"] !in {"identify", "status"}
  {
    hide CommandFor, Spells;
    forall command ensures CommandFor(node, kind, request) == Ok(command) <==> Spells(command, node, kind, request) {
      CommandDecided(node, kind, request, command);
    }
    CommandDecided(node, kind, request, "");
  }

  lemma BoundIsDecided(l: Local, l': Local, r: Result<Operation>, kind: Kind, request: Request, credential: string,
      key: Option<string>, id: Id, commit: Commit, bound: Id)
    requires LocalOk(l) && AdmissionDecided(l, l', r, kind, request, credential, key, id, commit)
    requires l.proc.phase.Running? && l.proc.healthy && !l.proc.closing
    requires CommandFor(l.proc.node, kind, request).Ok? && IsBound(l, bound, credential, key)
    ensures BoundOutcome(l, l', r, kind, request, credential, key, bound)
  {
    hide CommandFor, FindIdempotent, HistoryOk, ProcOk, TripleOk, EvidenceOk, CodeOk, Truthful, AnswerOk, Canonical;
    IdempotencyDecided(l.disk, l.proc.node, kind, request, credential, key, bound);
  }

  lemma NewIsDecided(l: Local, l': Local, r: Result<Operation>, kind: Kind, request: Request, credential: string,
      key: Option<string>, id: Id, commit: Commit)
    requires l.proc.main.Idle? && AdmissionDecided(l, l', r, kind, request, credential, key, id, commit)
    requires l.proc.phase.Running? && l.proc.healthy && !l.proc.closing
    requires CommandFor(l.proc.node, kind, request).Ok? && forall bound :: !IsBound(l, bound, credential, key)
    ensures NewOutcome(l, l', r, kind, request, credential, key, id, commit)
  {
    hide CommandFor, Canonical;
    forall bound ensures !(bound in l.disk && Binds(l.disk[bound], l.proc.node, credential, key)) {
      assert !IsBound(l, bound, credential, key);
    }
  }

  // ---- the first step ---------------------------------------------------------------------------

  ghost predicate BeginOutcome(l: Local, l': Local, id: Id, commit: Commit) {
    && id in l.disk && l'.log == l.log
    && var op := l.disk[id].document;
       if l.proc.closing then
         EndsAs(l, l', id, commit, op.(dispatch := NOT_DISPATCHED, effect := NOT_ATTEMPTED, terminal := true,
           semanticError := Some("CONTROL_UNAVAILABLE")))
       else MovesTo(l, l', id, Observing(op))
  }

  lemma BeginDecided(l: Local, id: Id, commit: Commit)
    requires LocalOk(l) && IsWorker(l.proc, id) && l.proc.workers[id].Created?
    ensures BeginOutcome(l, DoBegin(l, id, commit), id, commit)
  {
    hide LocalOk, RowOk, Since;
    OneWorker(l, id);
  }

  // ---- the observation --------------------------------------------------------------------------

  /**
    Already fulfilled, refused by the operator's rules, or sent; and sent exactly if the request is unmet and the rules
    allow the traffic.
   */
  ghost predicate ObservationOutcome(l: Local, l': Local, id: Id, s: NodeState, commit: Commit)
    requires id in l.proc.workers && l.proc.workers[id].Observing?
  {
    var op := l.proc.workers[id].op;
    && l'.log == l.log + [Observed(l.pid, id, l.proc.config, s)]
    && if Unjudgeable(op, s) then MovesTo(l, l', id, Unwinding(false))
       else if Fulfilled(op, s) then
         EndsAs(l, l', id, commit, op.(dispatch := NOT_DISPATCHED, effect := OBSERVED_SATISFIED, terminal := true,
           semanticError := Some("ALREADY_SATISFIED"), evidence := Some(s)))
       else if Allows(l.proc.config, op.kind, s.traffic) then MovesTo(l, l', id, Dispatching(op, s))
       else
         EndsAs(l, l', id, commit, op.(dispatch := NOT_DISPATCHED, effect := NOT_ATTEMPTED, terminal := true,
           semanticError := Some(
             if s.traffic == ACTIVE then "POLICY_DENIED_ACTIVE_TRAFFIC" else "POLICY_DENIED_STATE_UNKNOWN"),
           evidence := Some(s)))
  }

  lemma ObservationDecided(l: Local, id: Id, s: NodeState, commit: Commit)
    requires LocalOk(l) && IsWorker(l.proc, id) && l.proc.workers[id].Observing? && Evident(s)
    ensures ObservationOutcome(l, DoObserve(l, id, s, commit), id, s, commit)
  {
    hide LocalOk, RowOk, Since, EffectOf, Enforce, CommandFor, CommandTail, Evident, Fulfilled, Unjudgeable, Allows;
    OneWorker(l, id);
    WorkerRequest(l, id);
    var op := l.proc.workers[id].op;
    FulfilledDecided(op, s);
    if op.kind.Announce? {
      AnnouncementsAreNeverFulfilled(op, s);
    }
    EnforceDecided(l.proc.config, op.kind, s);
  }

  lemma AnnouncementsAreNeverFulfilled(op: Operation, s: NodeState)
    requires op.kind.Announce?
    ensures !Fulfilled(op, s) && !Unjudgeable(op, s)
  {
  }

  /** Whatever is sent is unmet and allowed. */
  lemma JustifiedDecided(op: Operation, config: Config, s: NodeState)
    requires Justified(op, config, s) && CommandFor(op.node, op.kind, op.request).Ok?
    ensures Allows(config, op.kind, s.traffic) && !Fulfilled(op, s)
  {
    hide EffectOf, Enforce, CommandTail, Evident, Fulfilled, Unjudgeable, Allows;
    FulfilledDecided(op, s);
    if op.kind.Announce? {
      AnnouncementsAreNeverFulfilled(op, s);
    }
    EnforceDecided(config, op.kind, s);
  }

  // ---- the barrier ------------------------------------------------------------------------------

  /**
    The barrier is crossed exactly if the runtime does not close and the commit succeeds, and then DISPATCH_STARTED is
    stored. Otherwise the coroutine unwinds as one that sent nothing, though a failed commit may have become durable.
   */
  ghost predicate BarrierOutcome(l: Local, l': Local, id: Id, commit: Commit)
    requires id in l.proc.workers && l.proc.workers[id].Dispatching?
  {
    var w := l.proc.workers[id];
    var crossed := !l.proc.closing && commit.Committed?;
    && id in l.disk
    && l'.disk == (if l.proc.closing || commit.Lost? then l.disk
                   else l.disk[id := l.disk[id].(document := w.op.(dispatch := DISPATCH_STARTED))])
    && l'.proc == l.proc.(workers := l.proc.workers[id :=
         if crossed then Crossed(w.op, w.before) else Unwinding(false)])
    && l'.log == l.log + if crossed then [Event.Barrier(l.pid, id, l.proc.config, w.before)] else []
  }

  lemma BarrierDecided(l: Local, id: Id, commit: Commit)
    requires LocalOk(l) && IsWorker(l.proc, id) && l.proc.workers[id].Dispatching?
    ensures BarrierOutcome(l, AfterBarrier(l, id, commit), id, commit)
  {
    hide LocalOk, RowOk, Since, Cleared;
    OneWorker(l, id);
  }

  // ---- the reply --------------------------------------------------------------------------------

  /** Refused, acknowledged, or in doubt; a success that could not be saved claims nothing more. */
  ghost predicate ReplyOutcome(l: Local, l': Local, id: Id, m: Message, commit: Commit)
    requires id in l.proc.workers && l.proc.workers[id].Awaiting?
  {
    var op := l.proc.workers[id].op;
    && l'.log == l.log
    && if IsRefusal(m) then
         EndsAs(l, l', id, commit, op.(dispatch := REJECTED, effect := NOT_ATTEMPTED, terminal := true,
           semanticError := Some("COMMAND_REJECTED")))
       else if "response" in m && m["response"] == Scalar("Success") then
         if commit.Committed? then
           && id in l.disk && l'.disk == l.disk[id := l.disk[id].(document := op.(dispatch := ACKNOWLEDGED))]
           && l'.proc == l.proc.(workers := l.proc.workers[id :=
                if op.kind == Announce then Acked(op) else Verifying(op)])
         else EndsAs(l, l', id, commit, op.(dispatch := ACKNOWLEDGED))
       else MovesTo(l, l', id, Unwinding(true))
  }

  lemma ReplyDecided(l: Local, id: Id, m: Message, commit: Commit)
    requires LocalOk(l) && IsWorker(l.proc, id) && l.proc.workers[id].Awaiting?
    ensures ReplyOutcome(l, DoReply(l, id, m, commit), id, m, commit)
  {
    hide LocalOk, RowOk, Since, CommandRejected, IsRefusal;
    OneWorker(l, id);
    RefusalDecided(m);
  }

  ghost predicate AnnouncedOutcome(l: Local, l': Local, id: Id, commit: Commit)
    requires id in l.proc.workers && l.proc.workers[id].Acked?
  {
    l'.log == l.log && EndsAs(l, l', id, commit, l.proc.workers[id].op.(dispatch := ACKNOWLEDGED, effect := UNKNOWN,
      terminal := true, semanticError := Some("PLAYBACK_EFFECT_NOT_OBSERVABLE")))
  }

  lemma AnnouncedDecided(l: Local, id: Id, commit: Commit)
    requires LocalOk(l) && IsWorker(l.proc, id) && l.proc.workers[id].Acked?
    ensures var changes := ToEffect(UNKNOWN, Some("PLAYBACK_EFFECT_NOT_OBSERVABLE"), None);
      AnnouncedOutcome(l, SaveAndFinish(l, id, changes, commit), id, commit)
  {
    hide LocalOk, RowOk, Since;
    OneWorker(l, id);
  }

  // ---- the effect -------------------------------------------------------------------------------

  /** A state that does not end the watch before its deadline. */
  predicate Inconclusive(op: Operation, s: NodeState) {
    !Fulfilled(op, s) && !Unjudgeable(op, s)
  }

  lemma DecisiveDecided(l: Local, id: Id, s: NodeState)
    requires LocalOk(l) && IsWorker(l.proc, id) && l.proc.workers[id].Verifying? && Evident(s)
    ensures Decisive(l.proc.workers[id].op, s) <==> !Inconclusive(l.proc.workers[id].op, s)
  {
    hide LocalOk, RowOk, Since, EffectOf, CommandFor, CommandTail, Evident, Fulfilled, Unjudgeable;
    OneWorker(l, id);
    WorkerRequest(l, id);
    FulfilledDecided(l.proc.workers[id].op, s);
  }

  /** The sleeps of a watch: each before the deadline, for half a second or for what is left. */
  predicate Naps(naps: seq<(real, real)>, deadline: real) {
    forall k :: 0 <= k < |naps| ==>
      naps[k].0 < deadline && naps[k].1 == if deadline - naps[k].0 < 0.5 then deadline - naps[k].0 else 0.5
  }

  lemma NoNaps(deadline: real)
    ensures Naps([], deadline)
  {
  }

  lemma NapsGrow(naps: seq<(real, real)>, deadline: real, now: real)
    requires Naps(naps, deadline) && now < deadline
    ensures Naps(naps + [(now, if deadline - now < 0.5 then deadline - now else 0.5)], deadline)
  {
  }

  /** Confirmed as soon as it is there; otherwise the watch goes on until it expires, with what the last state shows. */
  ghost predicate WatchOutcome(l: Local, l': Local, id: Id, s: NodeState, expired: bool, commit: Commit)
    requires id in l.proc.workers && l.proc.workers[id].Verifying?
  {
    var op := l.proc.workers[id].op;
    var acknowledged := op.(dispatch := ACKNOWLEDGED, terminal := true, evidence := Some(s));
    && l'.log == l.log
    && if Unjudgeable(op, s) then MovesTo(l, l', id, Unwinding(true))
       else if Fulfilled(op, s) then EndsAs(l, l', id, commit, acknowledged.(effect := OBSERVED_SATISFIED))
       else if !expired then l' == l
       else if !s.complete then
         EndsAs(l, l', id, commit,
           acknowledged.(effect := UNKNOWN, semanticError := Some("POST_DISPATCH_STATE_UNKNOWN")))
       else
         EndsAs(l, l', id, commit, acknowledged.(
           effect := if op.kind.LinkNode? && "node" in op.request && Lists(s, op.request["node"]) then OBSERVED_PARTIAL
                     else OBSERVED_UNSATISFIED,
           semanticError := Some("EFFECT_NOT_CONFIRMED_WITHIN_OBSERVATION_WINDOW")))
  }

  lemma WatchDecided(l: Local, id: Id, s: NodeState, expired: bool, commit: Commit)
    requires LocalOk(l) && IsWorker(l.proc, id) && l.proc.workers[id].Verifying? && Evident(s)
    ensures WatchOutcome(l, DoVerify(l, id, s, expired, commit), id, s, expired, commit)
  {
    hide LocalOk, RowOk, Since, EffectOf, CommandFor, CommandTail, Evident, Fulfilled, Unjudgeable, Lists;
    OneWorker(l, id);
    WorkerRequest(l, id);
    var op := l.proc.workers[id].op;
    FulfilledDecided(op, s);
    RemainingDecided(op, s);
  }

  lemma RemainingDecided(op: Operation, s: NodeState)
    requires Evident(s) && CommandTail(op.kind, op.request).Ok? && !op.kind.Announce?
    ensures !Unjudgeable(op, s) && !Fulfilled(op, s) ==>
      EffectOf(op.kind, op.request, s) == Ok(
        if !s.complete then UNKNOWN
        else if op.kind.LinkNode? && "node" in op.request && Lists(s, op.request["node"]) then OBSERVED_PARTIAL
        else OBSERVED_UNSATISFIED)
  {
    hide Evident, EffectOf, Lists, ListsIn, ListsNumber;
    ModeDecided(op.kind, op.request, s);
    if op.kind.LinkNode? && "mode" !in op.request {
      WithoutModeDecided(op.request, s);
    } else {
      EffectDecided(op.kind, op.request, s, UNKNOWN);
      EffectDecided(op.kind, op.request, s, OBSERVED_PARTIAL);
      EffectDecided(op.kind, op.request, s, OBSERVED_UNSATISFIED);
    }
  }

  lemma WithoutModeDecided(request: Request, s: NodeState)
    requires "mode" !in request
    ensures EffectOf(LinkNode, request, s).Ok? ==>
      EffectOf(LinkNode, request, s).value == if s.complete then OBSERVED_UNSATISFIED else UNKNOWN
  {
  }

  // ---- the handlers -----------------------------------------------------------------------------

  /** How a coroutine without a verdict of its own is recorded: by the cause, and by what may have been sent. */
  ghost predicate CauseOutcome(l: Local, l': Local, id: Id, started: bool, cancelled: bool, commit: Commit) {
    && id in l.disk && l'.log == l.log
    && var op := l.disk[id].document.(terminal := true);
       EndsAs(l, l', id, commit,
         if started && cancelled then
           op.(dispatch := OUTCOME_UNKNOWN, effect := UNKNOWN,
               semanticError := Some("WORKER_CANCELLED_AFTER_POSSIBLE_DISPATCH"))
         else if started then
           op.(dispatch := OUTCOME_UNKNOWN, effect := UNKNOWN, semanticError := Some("DISPATCH_OUTCOME_UNCERTAIN"))
         else if cancelled then
           op.(dispatch := NOT_DISPATCHED, effect := NOT_ATTEMPTED,
               semanticError := Some("WORKER_CANCELLED_BEFORE_DISPATCH"))
         else
           op.(dispatch := NOT_DISPATCHED, effect := NOT_ATTEMPTED, semanticError := Some("DISPATCH_NOT_ATTEMPTED")))
  }

  lemma CauseDecided(l: Local, id: Id, started: bool, cancelled: bool, commit: Commit)
    requires LocalOk(l) && IsWorker(l.proc, id)
    ensures var l' := SaveAndFinish(l, id, HandlerChanges(started, cancelled), commit);
      CauseOutcome(l, l', id, started, cancelled, commit)
  {
    hide LocalOk, RowOk, WorkerOk;
    OneWorker(l, id);
  }

  /** A coroutine may have sent its command exactly from the stored barrier on. */
  predicate MayHaveSent(w: Worker) {
    match w
    case Crossed(_, _) => true
    case Awaiting(_) => true
    case Acked(_) => true
    case Verifying(_) => true
    case Unwinding(started) => started
    case _ => false
  }

  ghost predicate CancelOutcome(l: Local, l': Local, id: Id, commit: Commit)
    requires id in l.proc.workers
  {
    var w := l.proc.workers[id];
    if w.Created? then l' == l.(proc := l.proc.(workers := l.proc.workers - {id}))
    else CauseOutcome(l, l', id, MayHaveSent(w), true, commit)
  }

  lemma CancelDecided(l: Local, id: Id, commit: Commit)
    requires LocalOk(l) && IsWorker(l.proc, id)
    ensures CancelOutcome(l, DoCancel(l, id, commit), id, commit)
  {
    hide LocalOk, SaveAndFinish, HandlerChanges, CauseOutcome;
    CauseDecided(l, id, HasStarted(l.proc.workers[id]), true, commit);
  }
}
