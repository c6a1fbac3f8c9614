/**
  The one-shot dispatch protocol as a state machine: any number of runtimes (vnext/service.py) over one
  operations table and one lock per node (vnext/ledger.py), cut into the steps between which a crash, another
  runtime or the event loop can intervene.
 */
module Protocol {
  import opened Base
  import opened Models
  import opened Policy
  import opened Effects
  import opened CanonicalJson
  import opened Rows
  import opened Ami

  type Pid = nat

  /** Where the coroutine of one operation stands. Every point is an await except those marked as synchronous. */
  datatype Worker =
    | Created                                      // scheduled, first step not yet run
    | Observing(op: Operation)                     // waiting for the fresh observation
    | Dispatching(op: Operation, before: NodeState)  // opening the session, barrier not reached
    | Checked(op: Operation, before: NodeState)    // synchronous: the barrier has read QUEUED
    | Crossed(op: Operation, before: NodeState)    // synchronous: DISPATCH_STARTED is stored, nothing written
    | Awaiting(op: Operation)                      // written, waiting for the reply
    | Acked(op: Operation)                         // synchronous: an announcement's reply is recorded
    | Verifying(op: Operation)                     // acknowledged, watching for the effect
    | Unwinding(started: bool)                     // an exception is on its way to the handler

  datatype Slot = Free | Reserving | Held(id: Id)

  datatype Phase = Stopped | Starting | Recovering(pending: seq<Operation>) | Aborting | Running

  datatype Main = Idle | Admitting(kind: Kind, request: Request, credential: string, key: Option<string>)

  datatype Proc = Proc(
    node: Node,
    config: Config,
    phase: Phase,
    main: Main,
    healthy: bool,
    closing: bool,
    slot: Slot,
    workers: map<Id, Worker>)

  /** History, for specification only: what clients were told and what happened on the wire. */
  datatype Event =
    | Admitted(pid: Pid, id: Id)
    | Orphaned(pid: Pid, id: Id)
    | Answered(pid: Pid, id: Id, node: Node, credential: string, key: Option<string>, canonical: string)
    | Refused(pid: Pid, node: Node, credential: string, key: Option<string>, canonical: string)
    | Observed(pid: Pid, id: Id, config: Config, before: NodeState)
    | Barrier(pid: Pid, id: Id, config: Config, before: NodeState)
    | Wrote(pid: Pid, op: Operation, command: string, config: Config, before: NodeState)
    | Ended(pid: Pid)

  type Log = seq<Event>

  /** One runtime together with the storage it shares. */
  datatype Local = Local(pid: Pid, proc: Proc, disk: Disk, log: Log)

  datatype Action =
    | ReadRows(pending: seq<Operation>)
    | RecoverRow(commit: Commit)
    | FinishStart
    | Reserve(kind: Kind, request: Request, credential: string, key: Option<string>)
    | Insert(id: Id, commit: Commit)
    | Begin(id: Id, commit: Commit)
    | Observe(id: Id, state: NodeState, commit: Commit)
    | CheckBarrier(id: Id)
    | CommitBarrier(id: Id, commit: Commit)
    | Write(id: Id)
    | Reply(id: Id, message: Message, commit: Commit)
    | FinishAnnounce(id: Id, commit: Commit)
    | Verify(id: Id, state: NodeState, expired: bool, commit: Commit)
    | Raise(id: Id)
    | Unwind(id: Id, commit: Commit)
    | Cancel(id: Id, commit: Commit)
    | BeginClose

  // ---- when a step can happen -------------------------------------------------------------------

  predicate Synchronous(w: Worker) {
    w.Checked? || w.Crossed? || w.Acked?
  }

  /** No synchronous section is in progress, so the event loop may run something else. */
  ghost predicate Quiet(p: Proc) {
    p.main.Idle? && forall id :: id in p.workers ==> !Synchronous(p.workers[id])
  }

  ghost predicate Enumerates(pending: seq<Operation>, disk: Disk, node: Node) {
    && (forall i :: 0 <= i < |pending| ==> Has(disk, node, pending[i].id) && disk[pending[i].id].document == pending[i])
    && (forall id :: Has(disk, node, id) ==> disk[id].document in pending)
    && (forall i, j :: 0 <= i < j < |pending| ==> pending[i].id != pending[j].id)
  }

  predicate IsWorker(p: Proc, id: Id) {
    p.phase.Running? && id in p.workers
  }

  ghost predicate Can(l: Local, a: Action) {
    var p := l.proc;
    match a
    case ReadRows(pending) => p.phase.Starting? && Enumerates(pending, l.disk, p.node)
    case RecoverRow(_) => p.phase.Recovering? && p.phase.pending != []
    case FinishStart => p.phase == Recovering([])
    case Reserve(kind, request, _, _) =>
      && p.phase.Running? && Quiet(p) && p.healthy && !p.closing && CommandFor(p.node, kind, request).Ok?
    case Insert(_, _) => p.phase.Running? && p.main.Admitting?
    case Begin(id, _) => Quiet(p) && IsWorker(p, id) && p.workers[id].Created?
    case Observe(id, state, _) => Quiet(p) && IsWorker(p, id) && p.workers[id].Observing? && Evident(state)
    case CheckBarrier(id) => Quiet(p) && IsWorker(p, id) && p.workers[id].Dispatching?
    case CommitBarrier(id, _) => IsWorker(p, id) && p.workers[id].Checked?
    case Write(id) => IsWorker(p, id) && p.workers[id].Crossed?
    case Reply(id, _, _) => Quiet(p) && IsWorker(p, id) && p.workers[id].Awaiting?
    case FinishAnnounce(id, _) => IsWorker(p, id) && p.workers[id].Acked?
    case Verify(id, state, _, _) => Quiet(p) && IsWorker(p, id) && p.workers[id].Verifying? && Evident(state)
    case Raise(id) =>
      && IsWorker(p, id)
      && (p.workers[id].Crossed? || (Quiet(p) && !p.workers[id].Created? && !p.workers[id].Unwinding?))
    case Unwind(id, _) => Quiet(p) && IsWorker(p, id) && p.workers[id].Unwinding?
    case Cancel(id, _) => Quiet(p) && IsWorker(p, id)
    case BeginClose => p.phase.Running? && Quiet(p)
  }

  // ---- what a step does -------------------------------------------------------------------------

  predicate HasStarted(w: Worker) {
    w.Crossed? || w.Awaiting? || w.Acked? || w.Verifying? || (w.Unwinding? && w.started)
  }

  /** Platform.save: a failed transaction stops admission until restart. */
  function Save(l: Local, id: Id, c: Changes, commit: Commit): Local {
    l.(disk := Store(l.disk, l.proc.node, id, c, commit),
       proc := l.proc.(healthy := l.proc.healthy && commit.Committed?))
  }

  function At(l: Local, id: Id, w: Worker): Local {
    l.(proc := l.proc.(workers := l.proc.workers[id := w]))
  }

  /** The coroutine's finally clause: the task ends and gives the slot back. */
  function Finish(l: Local, id: Id): Local {
    l.(proc := l.proc.(workers := l.proc.workers - {id}, slot := if l.proc.slot == Held(id) then Free else l.proc.slot))
  }

  function SaveAndFinish(l: Local, id: Id, c: Changes, commit: Commit): Local {
    Finish(Save(l, id, c, commit), id)
  }

  function Record(l: Local, e: Event): Local {
    l.(log := l.log + [e])
  }

  function HandlerChanges(started: bool, cancelled: bool): Changes {
    if started then
      ToFinal(OUTCOME_UNKNOWN, UNKNOWN,
        if cancelled then "WORKER_CANCELLED_AFTER_POSSIBLE_DISPATCH" else "DISPATCH_OUTCOME_UNCERTAIN", None)
    else
      ToFinal(NOT_DISPATCHED, NOT_ATTEMPTED,
        if cancelled then "WORKER_CANCELLED_BEFORE_DISPATCH" else "DISPATCH_NOT_ATTEMPTED", None)
  }

  function RecoveryChanges(op: Operation): Changes {
    if op.dispatch != QUEUED then
      ToFinal(OUTCOME_UNKNOWN, UNKNOWN, "PROCESS_RESTART_AFTER_POSSIBLE_DISPATCH", None)
    else
      ToFinal(NOT_DISPATCHED, NOT_ATTEMPTED, "PROCESS_RESTART_BEFORE_DISPATCH", None)
  }

  function DoRecoverRow(l: Local, commit: Commit): Local
    requires l.proc.phase.Recovering? && l.proc.phase.pending != []
  {
    var op, rest := l.proc.phase.pending[0], l.proc.phase.pending[1..];
    if op.terminal then l.(proc := l.proc.(phase := Recovering(rest)))
    else
      l.(disk := Store(l.disk, l.proc.node, op.id, RecoveryChanges(op), commit),
         proc := l.proc.(phase := if commit.Committed? && Has(l.disk, l.proc.node, op.id) then Recovering(rest)
                                  else Aborting))
  }

  function Answer(l: Local, id: Id, kind: Kind, request: Request, credential: string, key: Option<string>): Event {
    Answered(l.pid, id, l.proc.node, credential, key, Canonical(kind, request))
  }

  function Refusal(l: Local, kind: Kind, request: Request, credential: string, key: Option<string>): Event {
    Refused(l.pid, l.proc.node, credential, key, Canonical(kind, request))
  }

  ghost function DoReserve(l: Local, kind: Kind, request: Request, credential: string, key: Option<string>): Local {
    match FindIdempotent(l.disk, l.proc.node, kind, request, credential, key)
    case Found(id) => Record(l, Answer(l, id, kind, request, credential, key))
    case Clash => Record(l, Refusal(l, kind, request, credential, key))
    case Miss =>
      if !l.proc.slot.Free? then l
      else l.(proc := l.proc.(slot := Reserving, main := Admitting(kind, request, credential, key)))
  }

  ghost function DoInsert(l: Local, id: Id, commit: Commit): Local
    requires l.proc.main.Admitting?
  {
    var m := l.proc.main;
    var idle := l.(proc := l.proc.(slot := Free, main := Idle));
    match FindIdempotent(l.disk, l.proc.node, m.kind, m.request, m.credential, m.key)
    case Found(bound) => Record(idle, Answer(l, bound, m.kind, m.request, m.credential, m.key))
    case Clash => Record(idle, Refusal(l, m.kind, m.request, m.credential, m.key))
    case Miss =>
      if id in l.disk || commit.Lost? then idle
      else
        var stored := idle.(disk := l.disk[id := NewRow(id, l.proc.node, m.kind, m.request, m.credential, m.key)]);
        if commit.Durable? then Record(stored, Orphaned(l.pid, id))
        else
          Record(Record(stored, Admitted(l.pid, id)), Answer(l, id, m.kind, m.request, m.credential, m.key))
          .(proc := idle.proc.(slot := Held(id), workers := l.proc.workers[id := Created]))
  }

  function DoBegin(l: Local, id: Id, commit: Commit): Local {
    if l.proc.closing || !l.proc.healthy then
      SaveAndFinish(l, id, ToFinal(NOT_DISPATCHED, NOT_ATTEMPTED, "CONTROL_UNAVAILABLE", None), commit)
    else if !Has(l.disk, l.proc.node, id) || l.disk[id].document.terminal || l.disk[id].document.dispatch != QUEUED then
      Finish(l, id)
    else At(l, id, Observing(l.disk[id].document))
  }

  function DoObserve(l: Local, id: Id, state: NodeState, commit: Commit): Local
    requires id in l.proc.workers && l.proc.workers[id].Observing?
  {
    var op := l.proc.workers[id].op;
    var seen := Record(l, Observed(l.pid, id, l.proc.config, state));
    var current := EffectOf(op.kind, op.request, state);
    if op.kind != Announce && current.Err? then At(seen, id, Unwinding(false))
    else if op.kind != Announce && current.value == OBSERVED_SATISFIED then
      SaveAndFinish(seen, id, ToFinal(NOT_DISPATCHED, OBSERVED_SATISFIED, "ALREADY_SATISFIED", Some(state)), commit)
    else match Enforce(l.proc.config, op.kind, state)
      case Some(refusal) =>
        SaveAndFinish(seen, id, ToFinal(NOT_DISPATCHED, NOT_ATTEMPTED, CodeOf(refusal), Some(state)), commit)
      case None =>
        if CommandFor(l.proc.node, op.kind, op.request).Err? then At(seen, id, Unwinding(false))
        else At(seen, id, Dispatching(op, state))
  }

  function DoCheckBarrier(l: Local, id: Id): Local
    requires id in l.proc.workers && l.proc.workers[id].Dispatching?
  {
    var w := l.proc.workers[id];
    if l.proc.closing || !l.proc.healthy then At(l, id, Unwinding(false))
    else if !Has(l.disk, l.proc.node, id) || l.disk[id].document.terminal || l.disk[id].document.dispatch != QUEUED then
      At(l, id, Unwinding(false))
    else At(l, id, Checked(w.op, w.before))
  }

  function DoCommitBarrier(l: Local, id: Id, commit: Commit): Local
    requires id in l.proc.workers && l.proc.workers[id].Checked?
  {
    var w := l.proc.workers[id];
    var stored := l.(disk := Store(l.disk, l.proc.node, id, ToDispatch(DISPATCH_STARTED), commit));
    if commit.Committed? && Has(l.disk, l.proc.node, id) then
      At(Record(stored, Barrier(l.pid, id, l.proc.config, w.before)), id, Crossed(w.op, w.before))
    else At(stored, id, Unwinding(false))
  }

  function DoWrite(l: Local, id: Id): Local
    requires id in l.proc.workers && l.proc.workers[id].Crossed?
  {
    var w := l.proc.workers[id];
    match CommandFor(l.proc.node, w.op.kind, w.op.request)
    case Err(_) => l
    case Ok(command) => At(Record(l, Wrote(l.pid, w.op, command, l.proc.config, w.before)), id, Awaiting(w.op))
  }

  function DoReply(l: Local, id: Id, message: Message, commit: Commit): Local
    requires id in l.proc.workers && l.proc.workers[id].Awaiting?
  {
    var op := l.proc.workers[id].op;
    if CommandRejected(message) then
      SaveAndFinish(l, id, ToFinal(REJECTED, NOT_ATTEMPTED, "COMMAND_REJECTED", None), commit)
    else if !SaysSuccess(message) then At(l, id, Unwinding(true))
    else
      var saved := Save(l, id, ToDispatch(ACKNOWLEDGED), commit);
      if !commit.Committed? then Finish(saved, id)
      else At(saved, id, if op.kind == Announce then Acked(op) else Verifying(op))
  }

  function DoVerify(l: Local, id: Id, state: NodeState, expired: bool, commit: Commit): Local
    requires id in l.proc.workers && l.proc.workers[id].Verifying?
  {
    var op := l.proc.workers[id].op;
    match EffectOf(op.kind, op.request, state)
    case Err(_) => At(l, id, Unwinding(true))
    case Ok(effect) =>
      if effect == OBSERVED_SATISFIED then SaveAndFinish(l, id, ToEffect(effect, None, Some(state)), commit)
      else if expired then
        var code := if effect != UNKNOWN then "EFFECT_NOT_CONFIRMED_WITHIN_OBSERVATION_WINDOW"
                    else "POST_DISPATCH_STATE_UNKNOWN";
        SaveAndFinish(l, id, ToEffect(effect, Some(code), Some(state)), commit)
      else l
  }

  /** A task cancelled before its first step never runs its body, so nothing is saved and the slot stays taken. */
  function DoCancel(l: Local, id: Id, commit: Commit): Local
    requires id in l.proc.workers
  {
    var w := l.proc.workers[id];
    if w.Created? then l.(proc := l.proc.(workers := l.proc.workers - {id}))
    else SaveAndFinish(l, id, HandlerChanges(HasStarted(w), true), commit)
  }

  ghost function Do(l: Local, a: Action): Local
    requires Can(l, a)
  {
    var p := l.proc;
    match a
    case ReadRows(pending) => l.(proc := p.(phase := Recovering(pending)))
    case RecoverRow(commit) => DoRecoverRow(l, commit)
    case FinishStart => l.(proc := p.(phase := Running))
    case Reserve(kind, request, credential, key) => DoReserve(l, kind, request, credential, key)
    case Insert(id, commit) => DoInsert(l, id, commit)
    case Begin(id, commit) => DoBegin(l, id, commit)
    case Observe(id, state, commit) => DoObserve(l, id, state, commit)
    case CheckBarrier(id) => DoCheckBarrier(l, id)
    case CommitBarrier(id, commit) => DoCommitBarrier(l, id, commit)
    case Write(id) => DoWrite(l, id)
    case Reply(id, message, commit) => DoReply(l, id, message, commit)
    case FinishAnnounce(id, commit) =>
      SaveAndFinish(l, id, ToEffect(UNKNOWN, Some("PLAYBACK_EFFECT_NOT_OBSERVABLE"), None), commit)
    case Verify(id, state, expired, commit) => DoVerify(l, id, state, expired, commit)
    case Raise(id) => At(l, id, Unwinding(HasStarted(p.workers[id])))
    case Unwind(id, commit) => SaveAndFinish(l, id, HandlerChanges(p.workers[id].started, false), commit)
    case Cancel(id, commit) => DoCancel(l, id, commit)
    case BeginClose => l.(proc := p.(closing := true))
  }

  // ---- many runtimes, one machine ---------------------------------------------------------------

  datatype World = World(disk: Disk, locks: map<Node, Pid>, procs: map<Pid, Proc>, log: Log)

  datatype Step =
    | Spawn(pid: Pid, node: Node, config: Config)
    | Lock(pid: Pid)
    | AbortStart(pid: Pid)
    | Act(pid: Pid, action: Action)
    | EndClose(pid: Pid)
    | CloseStopped(pid: Pid)
    | Crash(pid: Pid)

  function Fresh(node: Node, config: Config): Proc {
    Proc(node, config, Stopped, Idle, true, false, Free, map[])
  }

  function View(w: World, pid: Pid): Local
    requires pid in w.procs
  {
    Local(pid, w.procs[pid], w.disk, w.log)
  }

  function Merge(w: World, l: Local): World {
    World(l.disk, w.locks, w.procs[l.pid := l.proc], l.log)
  }

  /** The runtime stops and the operating system lets go of its lock; the table stays as it is. */
  function Release(w: World, pid: Pid, p: Proc): World {
    World(w.disk, map node | node in w.locks && w.locks[node] != pid :: w.locks[node], w.procs[pid := p],
      w.log + [Ended(pid)])
  }

  ghost predicate Enabled(w: World, s: Step) {
    match s
    case Spawn(pid, node, _) => ValidNode(node) && (pid in w.procs ==> w.procs[pid].phase.Stopped?)
    case Lock(pid) => pid in w.procs && w.procs[pid].phase.Stopped? && w.procs[pid].node !in w.locks
    case AbortStart(pid) => pid in w.procs && (w.procs[pid].phase.Starting? || w.procs[pid].phase.Aborting?)
    case Act(pid, action) => pid in w.procs && Can(View(w, pid), action)
    case EndClose(pid) =>
      && pid in w.procs && w.procs[pid].phase.Running? && w.procs[pid].closing
      && w.procs[pid].main.Idle? && w.procs[pid].workers == map[]
    case CloseStopped(pid) => pid in w.procs && w.procs[pid].phase.Stopped?
    case Crash(pid) => pid in w.procs
  }

  ghost function Next(w: World, s: Step): World
    requires Enabled(w, s)
  {
    match s
    case Spawn(pid, node, config) => w.(procs := w.procs[pid := Fresh(node, config)])
    case Lock(pid) =>
      var p := w.procs[pid];
      w.(locks := w.locks[p.node := pid], procs := w.procs[pid := p.(phase := Starting)])
    case AbortStart(pid) => Release(w, pid, w.procs[pid].(phase := Stopped))
    case Act(pid, action) => Merge(w, Do(View(w, pid), action))
    case EndClose(pid) => Release(w, pid, w.procs[pid].(phase := Stopped, slot := Free))
    case CloseStopped(pid) => w.(procs := w.procs[pid := w.procs[pid].(closing := true)])
    case Crash(pid) => Release(w, pid, Fresh(w.procs[pid].node, w.procs[pid].config))
  }

  ghost function Boot(): World {
    World(map[], map[], map[], [])
  }

  /** Every world that some finite run of steps leads to, from an empty table. */
  ghost predicate IsRun(run: seq<World>) {
    && run != [] && run[0] == Boot()
    && forall i :: 0 < i < |run| ==> Follows(run[i - 1], run[i])
  }

  ghost predicate Follows(w: World, w': World) {
    exists s :: Enabled(w, s) && w' == Next(w, s)
  }
}
