/** What every reachable world of the dispatch protocol satisfies, and why each step keeps it. */
module Invariant {
  import opened Base
  import opened Models
  import opened Policy
  import opened Effects
  import opened Rows
  import opened Protocol

  // ---- history ----------------------------------------------------------------------------------

  /** The event happened, and the runtime has not ended since. */
  ghost predicate Since(log: Log, e: Event, pid: Pid) {
    log != [] && (Last(log) == e || (Last(log) != Ended(pid) && Since(Init(log), e, pid)))
  }

  ghost function Written(log: Log): set<Id> {
    if log == [] then {} else Written(Init(log)) + if Last(log).Wrote? then {Last(log).op.id} else {}
  }

  ghost function Barriers(log: Log): set<Id> {
    if log == [] then {} else Barriers(Init(log)) + if Last(log).Barrier? then {Last(log).id} else {}
  }

  ghost function Orphans(log: Log): set<Id> {
    if log == [] then {} else Orphans(Init(log)) + if Last(log).Orphaned? then {Last(log).id} else {}
  }

  ghost function KnownIds(log: Log): set<Id> {
    if log == [] then {}
    else KnownIds(Init(log)) + if Last(log).Admitted? || Last(log).Orphaned? then {Last(log).id} else {}
  }

  predicate Unmet(r: Result<Effect>) {
    r.Ok? && r.value != OBSERVED_SATISFIED
  }

  /** The observation lets this operation go out: not satisfied already, and policy allows the traffic. */
  ghost predicate Justified(op: Operation, config: Config, before: NodeState) {
    && Evident(before)
    && Enforce(config, op.kind, before).None?
    && (op.kind != Announce ==> Unmet(EffectOf(op.kind, op.request, before)))
  }

  /** What must already have happened, in the same run of the same runtime, when an event is added. */
  ghost predicate Earned(log: Log, e: Event) {
    match e
    case Admitted(_, id) => id !in KnownIds(log)
    case Orphaned(_, id) => id !in KnownIds(log)
    case Observed(pid, id, _, before) => Evident(before) && Since(log, Admitted(pid, id), pid)
    case Barrier(pid, id, config, before) => id !in Barriers(log) && Since(log, Observed(pid, id, config, before), pid)
    case Wrote(pid, op, command, config, before) =>
      && op.id !in Written(log)
      && Since(log, Barrier(pid, op.id, config, before), pid)
      && Justified(op, config, before)
      && CommandFor(op.node, op.kind, op.request) == Ok(command)
    case _ => true
  }

  ghost predicate HistoryOk(log: Log) {
    log == [] || (HistoryOk(Init(log)) && Earned(Init(log), Last(log)))
  }

  lemma Grow(log: Log, e: Event)
    ensures HistoryOk(log + [e]) <==> HistoryOk(log) && Earned(log, e)
    ensures Written(log + [e]) == Written(log) + if e.Wrote? then {e.op.id} else {}
    ensures Barriers(log + [e]) == Barriers(log) + if e.Barrier? then {e.id} else {}
    ensures Orphans(log + [e]) == Orphans(log) + if e.Orphaned? then {e.id} else {}
    ensures KnownIds(log + [e]) == KnownIds(log) + if e.Admitted? || e.Orphaned? then {e.id} else {}
    ensures forall x, pid :: Since(log + [e], x, pid) <==> x == e || (e != Ended(pid) && Since(log, x, pid))
  {
    assert Init(log + [e]) == log && Last(log + [e]) == e;
  }

  // ---- the table --------------------------------------------------------------------------------

  /** Every (dispatch, effect, terminal) triple that is ever stored, by kind. */
  predicate InTable(kind: Kind, dispatch: Dispatch, effect: Effect, terminal: bool) {
    match dispatch
    case QUEUED => !terminal && effect == PENDING
    case DISPATCH_STARTED => !terminal && effect == PENDING
    case ACKNOWLEDGED =>
      if !terminal then effect == PENDING
      else if kind == Announce then effect == UNKNOWN
      else
        || effect in {UNKNOWN, OBSERVED_SATISFIED, OBSERVED_UNSATISFIED}
        || (effect == OBSERVED_PARTIAL && kind == LinkNode)
    case REJECTED => terminal && effect == NOT_ATTEMPTED
    case NOT_DISPATCHED =>
      terminal && (effect == NOT_ATTEMPTED || (effect == OBSERVED_SATISFIED && kind != Announce))
    case OUTCOME_UNKNOWN => terminal && effect == UNKNOWN
  }

  predicate TripleOk(op: Operation) {
    InTable(op.kind, op.dispatch, op.effect, op.terminal)
  }

  predicate IsObservedEffect(e: Effect) {
    e in {OBSERVED_SATISFIED, OBSERVED_PARTIAL, OBSERVED_UNSATISFIED}
  }

  /** A claimed observation is backed by stored, complete evidence that yields exactly that effect. */
  predicate EvidenceOk(op: Operation) {
    IsObservedEffect(op.effect) ==>
      && op.evidence.Some? && op.evidence.value.complete
      && EffectOf(op.kind, op.request, op.evidence.value) == Ok(op.effect)
  }

  const NOT_SENT_CODES := {
    "CONTROL_UNAVAILABLE", "POLICY_DENIED_ACTIVE_TRAFFIC", "POLICY_DENIED_STATE_UNKNOWN",
    "WORKER_CANCELLED_BEFORE_DISPATCH", "DISPATCH_NOT_ATTEMPTED", "PROCESS_RESTART_BEFORE_DISPATCH"
  }

  const UNCERTAIN_CODES := {
    "WORKER_CANCELLED_AFTER_POSSIBLE_DISPATCH", "DISPATCH_OUTCOME_UNCERTAIN", "PROCESS_RESTART_AFTER_POSSIBLE_DISPATCH"
  }

  /** Which error code goes with which outcome; only an unfinished or a confirmed operation has none. */
  predicate CodeOk(op: Operation) {
    if !op.terminal then op.semanticError.None?
    else match op.dispatch
      case ACKNOWLEDGED =>
        op.semanticError ==
          (if op.kind == Announce then Some("PLAYBACK_EFFECT_NOT_OBSERVABLE")
           else if op.effect == OBSERVED_SATISFIED then None
           else if op.effect == UNKNOWN then Some("POST_DISPATCH_STATE_UNKNOWN")
           else Some("EFFECT_NOT_CONFIRMED_WITHIN_OBSERVATION_WINDOW"))
      case REJECTED => op.semanticError == Some("COMMAND_REJECTED")
      case NOT_DISPATCHED =>
        op.semanticError.Some?
        && if op.effect == OBSERVED_SATISFIED then op.semanticError.value == "ALREADY_SATISFIED"
           else op.semanticError.value in NOT_SENT_CODES
      case _ => op.semanticError.Some? && op.semanticError.value in UNCERTAIN_CODES
  }

  /** What a stored status says about the wire. */
  ghost predicate Truthful(op: Operation, log: Log) {
    && (op.dispatch in {QUEUED, NOT_DISPATCHED} ==> op.id !in Written(log))
    && (op.dispatch in {ACKNOWLEDGED, REJECTED} ==> op.id in Written(log))
    && (op.dispatch == QUEUED ==> op.id !in Barriers(log))
  }

  /** Everything about a stored row that does not depend on history. */
  ghost predicate RowShape(id: Id, row: Row) {
    && RowCoherent(id, row)
    && CommandFor(row.node, row.document.kind, row.document.request).Ok?
    && TripleOk(row.document) && EvidenceOk(row.document)
    && CodeOk(row.document)
  }

  ghost predicate RowOk(id: Id, row: Row, log: Log) {
    RowShape(id, row) && Truthful(row.document, log)
  }

  /** An answer names the row that its key is bound to. */
  ghost predicate AnswerOk(e: Event, disk: Disk) {
    match e
    case Answered(_, id, node, credential, key, canonical) =>
      && id in disk && disk[id].node == node && disk[id].credential == credential
      && disk[id].key == key && disk[id].canonical == canonical
    case Refused(_, node, credential, key, canonical) =>
      exists id :: id in disk && Binds(disk[id], node, credential, key) && disk[id].canonical != canonical
    case _ => true
  }

  ghost predicate DiskOk(disk: Disk, log: Log) {
    && (forall id :: id in disk ==> RowOk(id, disk[id], log))
    && KeysUnique(disk)
    && KnownIds(log) == disk.Keys
    && (forall i :: 0 <= i < |log| ==> AnswerOk(log[i], disk))
  }

  // ---- one runtime ------------------------------------------------------------------------------

  ghost predicate Cleared(l: Local, op: Operation, before: NodeState) {
    Justified(op, l.proc.config, before) && Since(l.log, Observed(l.pid, op.id, l.proc.config, before), l.pid)
  }

  ghost predicate WorkerOk(l: Local, id: Id, w: Worker)
  {
    && Has(l.disk, l.proc.node, id)
    && l.proc.slot == Held(id) && l.proc.healthy
    && Since(l.log, Admitted(l.pid, id), l.pid)
    && var doc := l.disk[id].document;
    && !doc.terminal
    && match w
       case Created => doc.dispatch == QUEUED
       case Observing(op) => doc == op && op.dispatch == QUEUED
       case Dispatching(op, before) => doc == op && op.dispatch == QUEUED && Cleared(l, op, before)
       case Checked(op, before) => doc == op && op.dispatch == QUEUED && Cleared(l, op, before)
       case Crossed(op, before) =>
         && doc == op.(dispatch := DISPATCH_STARTED) && id !in Written(l.log)
         && Since(l.log, Barrier(l.pid, id, l.proc.config, before), l.pid) && Cleared(l, op, before)
       case Awaiting(op) => doc == op.(dispatch := DISPATCH_STARTED) && id in Written(l.log)
       case Acked(op) => doc == op.(dispatch := ACKNOWLEDGED) && op.kind == Announce
       case Verifying(op) => doc == op.(dispatch := ACKNOWLEDGED) && op.kind != Announce
       case Unwinding(started) => if started then doc.dispatch != QUEUED else id !in Written(l.log)
  }

  ghost predicate RecoverOk(pending: seq<Operation>, disk: Disk, node: Node) {
    && (forall id :: Has(disk, node, id) && !disk[id].document.terminal ==> disk[id].document in pending)
    && (forall i :: 0 <= i < |pending| && !pending[i].terminal ==>
          Has(disk, node, pending[i].id) && disk[pending[i].id].document == pending[i])
    && (forall i, j :: 0 <= i < j < |pending| ==> pending[i].id != pending[j].id)
  }

  /** Unfinished rows of this runtime's node: the one in the slot, or one whose admission reported failure. */
  ghost predicate SlotOk(l: Local) {
    forall id :: Has(l.disk, l.proc.node, id) && !l.disk[id].document.terminal ==>
      l.proc.slot == Held(id) || id in Orphans(l.log)
  }

  ghost predicate ProcOk(l: Local) {
    var p := l.proc;
    && ValidNode(p.node)
    && match p.phase
       case Running =>
         && (forall id :: id in p.workers ==> WorkerOk(l, id, p.workers[id]))
         && (p.healthy && !p.closing ==> SlotOk(l))
         && (match p.main
             case Idle => !p.slot.Reserving?
             case Admitting(kind, request, credential, key) =>
               && p.slot.Reserving? && p.healthy && !p.closing
               && CommandFor(p.node, kind, request).Ok?
               && FindIdempotent(l.disk, p.node, kind, request, credential, key).Miss?)
       case Recovering(pending) =>
         p.workers == map[] && p.slot.Free? && p.main.Idle? && RecoverOk(pending, l.disk, p.node)
       case _ => p.workers == map[] && p.slot.Free? && p.main.Idle?
  }

  ghost predicate LocalOk(l: Local) {
    HistoryOk(l.log) && DiskOk(l.disk, l.log) && ProcOk(l)
  }

  // ---- what one step may change -----------------------------------------------------------------

  /** How far an operation has come; no step goes back. */
  function Rank(op: Operation): nat {
    if op.terminal then 3
    else match op.dispatch
      case QUEUED => 0
      case DISPATCH_STARTED => 1
      case _ => 2
  }

  predicate SameBinding(a: Row, b: Row) {
    && a.id == b.id && a.node == b.node && a.credential == b.credential && a.key == b.key
    && a.canonical == b.canonical
    && a.document.kind == b.document.kind && a.document.request == b.document.request
  }

  ghost predicate RowsProgress(disk: Disk, disk': Disk, node: Node) {
    && (forall id :: id in disk ==>
          && id in disk' && SameBinding(disk[id], disk'[id])
          && Rank(disk[id].document) <= Rank(disk'[id].document)
          && (disk[id].node != node || disk[id].document.terminal ==> disk'[id] == disk[id]))
    && (forall id :: id in disk' && id !in disk ==> disk'[id].node == node)
  }

  /** Only this runtime's own events are added, and nothing is written for another node's operations. */
  ghost predicate LogProgress(l: Local, log': Log) {
    && l.log <= log'
    && (forall i :: |l.log| <= i < |log'| ==> log'[i].pid == l.pid && !log'[i].Ended?)
    && Written(l.log) <= Written(log')
    && (forall id :: id in Written(log') && id !in Written(l.log) && id in l.disk ==>
          l.disk[id].node == l.proc.node)
    && Orphans(l.log) <= Orphans(log')
  }

  ghost predicate Progress(l: Local, l': Local) {
    && l'.pid == l.pid && l'.proc.node == l.proc.node && l'.proc.config == l.proc.config
    && l'.proc.phase.Stopped? == l.proc.phase.Stopped?
    && RowsProgress(l.disk, l'.disk, l.proc.node)
    && LogProgress(l, l'.log)
  }
}
