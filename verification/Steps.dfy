/** What the runtime's methods add up to in steps of the protocol, and why each composition keeps the invariant. */
module Steps {
  import opened Base
  import opened Models
  import opened Policy
  import opened Effects
  import opened CanonicalJson
  import opened Rows
  import opened Ami
  import opened Protocol
  import opened Invariant
  import opened Preservation
  import opened Safety
  import opened Recovery
  import opened Paths

  /** A delivered cancellation ends that one task, and touches at most its own row. */
  lemma CancelEnds(l: Local, id: Id, commit: Commit)
    requires LocalOk(l) && IsWorker(l.proc, id)
    ensures var l' := DoCancel(l, id, commit);
      && l'.log == l.log && l'.proc.workers == l.proc.workers - {id} && |l'.proc.workers| < |l.proc.workers|
      && SameExcept(l.disk, l'.disk, {id}) && (l'.proc.healthy ==> l.proc.healthy)
      && (Quiet(l.proc) ==> Quiet(l'.proc))
  {
    hide LocalOk, HandlerChanges, Revise, Synchronous;
    WorkerHasRow(l, id);
    assert |l.proc.workers - {id}| < |l.proc.workers| by {
      Shrinks(l.proc.workers, id);
    }
  }

  lemma Shrinks<K, V>(m: map<K, V>, k: K)
    requires k in m
    ensures |m - {k}| < |m|
  {
    assert (m - {k}).Keys == m.Keys - {k};
    assert |(m - {k}).Keys| == |m - {k}|;
  }

  lemma CloseStoppedIsOk(l: Local)
    requires LocalOk(l) && l.proc.phase.Stopped?
    ensures LocalOk(l.(proc := l.proc.(closing := true))) && l.proc.workers == map[] && l.proc.slot.Free?
  {
    hide DiskOk, HistoryOk;
    ShutIsOk(l);
  }

  /** How a cancellation leaves a task's operation: as it was, or with the handler's verdict unless its save failed. */
  ghost predicate CancelledWith(l: Local, l': Local, id: Id, commit: Commit)
    requires id in l.proc.workers
  {
    var w := l.proc.workers[id];
    && id in l.disk && id in l'.disk
    && l'.disk[id] == (if w.Created? || commit.Lost? then l.disk[id]
         else l.disk[id].(document := Revise(l.disk[id].document, HandlerChanges(HasStarted(w), true))))
    && (l'.proc.healthy && !w.Created? ==> commit.Committed?)
  }

  ghost predicate CancelledAs(l: Local, l': Local, id: Id)
    requires id in l.proc.workers
  {
    exists commit :: CancelledWith(l, l', id, commit)
  }

  /** A task and its row are still as they were. */
  ghost predicate Untouched(l: Local, l': Local, id: Id) {
    && id in l.proc.workers && id in l'.proc.workers && l'.proc.workers[id] == l.proc.workers[id]
    && id in l.disk && id in l'.disk && l'.disk[id] == l.disk[id]
  }

  lemma StaysUntouched(first: Local, l: Local, l': Local, id: Id, o: Id)
    requires Untouched(first, l, id) && o != id
    requires SameExcept(l.disk, l'.disk, {o}) && l'.proc.workers == l.proc.workers - {o}
    ensures Untouched(first, l', id)
  {
  }

  lemma CancelStep(first: Local, l: Local, id: Id, commit: Commit)
    requires LocalOk(l) && IsWorker(l.proc, id)
    requires id in first.proc.workers && first.proc.workers[id] == l.proc.workers[id]
    requires id in first.disk && id in l.disk && first.disk[id] == l.disk[id]
    ensures CancelledAs(first, DoCancel(l, id, commit), id)
  {
    hide LocalOk, HandlerChanges, Revise, HasStarted;
    WorkerHasRow(l, id);
    assert CancelledWith(first, DoCancel(l, id, commit), id, commit);
  }

  lemma CancelStands(first: Local, l: Local, l': Local, id: Id, o: Id)
    requires id in first.proc.workers && CancelledAs(first, l, id)
    requires o != id && SameExcept(l.disk, l'.disk, {o}) && (l'.proc.healthy ==> l.proc.healthy)
    ensures CancelledAs(first, l', id)
  {
    hide HandlerChanges, Revise, HasStarted;
    var commit :| CancelledWith(first, l, id, commit);
    assert CancelledWith(first, l', id, commit);
  }

  /** Only what a task and its row were, and what its row and health are now, matter. */
  lemma CancelSeen(a: Local, b: Local, c: Local, d: Local, id: Id)
    requires id in a.proc.workers && CancelledAs(a, b, id)
    requires c.proc.workers == a.proc.workers && c.disk == a.disk
    requires d.disk == b.disk && d.proc.healthy == b.proc.healthy
    ensures CancelledAs(c, d, id)
  {
    hide HandlerChanges, Revise, HasStarted;
    var commit :| CancelledWith(a, b, id, commit);
    assert CancelledWith(c, d, id, commit);
  }

  /** While the tasks of a closing runtime are cancelled one by one. */
  ghost predicate Cancelling(first: Local, l: Local) {
    && l.log == first.log && l.proc.workers.Keys <= first.proc.workers.Keys
    && Leads(first, l) && SameExcept(first.disk, l.disk, first.proc.workers.Keys)
    && (forall id :: id in l.proc.workers ==> Untouched(first, l, id))
    && (forall id :: id in first.proc.workers && id !in l.proc.workers ==> CancelledAs(first, l, id))
  }

  lemma CancellingBegins(l: Local)
    requires LocalOk(l) && l.proc.phase.Running?
    ensures Cancelling(l, l)
  {
    hide LocalOk;
    NothingLeads(l);
    NothingChanged(l.disk, l.proc.workers.Keys);
    forall id | id in l.proc.workers ensures Untouched(l, l, id) {
      WorkerHasRow(l, id);
    }
  }

  lemma AllCancelled(first: Local, l: Local)
    requires Cancelling(first, l) && l.proc.workers == map[]
    ensures l.log == first.log && Leads(first, l) && SameExcept(first.disk, l.disk, first.proc.workers.Keys)
    ensures forall id :: id in first.proc.workers ==> CancelledAs(first, l, id)
  {
  }

  lemma CancellingGoesOn(first: Local, l: Local, id: Id, commit: Commit)
    requires LocalOk(l) && Quiet(l.proc) && IsWorker(l.proc, id) && Cancelling(first, l)
    ensures var l' := DoCancel(l, id, commit);
      Cancelling(first, l') && Quiet(l'.proc) && |l'.proc.workers| < |l.proc.workers|
  {
    hide LocalOk, DoCancel, SameExcept, Quiet, Leads, CancelledAs;
    var l' := DoCancel(l, id, commit);
    CancelEnds(l, id, commit);
    CancelStep(first, l, id, commit);
    CancelLeadsOn(first, l, id, commit);
    SameExceptThen(first.disk, l.disk, l'.disk, first.proc.workers.Keys, {id});
    forall o | o in first.proc.workers && o !in l.proc.workers ensures CancelledAs(first, l', o) {
      CancelStands(first, l, l', o, id);
    }
    forall o | o in l'.proc.workers ensures Untouched(first, l', o) {
      StaysUntouched(first, l, l', o, id);
    }
  }

  lemma CloseBegins(l: Local)
    requires LocalOk(l) && l.proc.phase.Running? && Quiet(l.proc)
    ensures var l' := l.(proc := l.proc.(closing := true)); LocalOk(l') && Quiet(l'.proc)
  {
    hide LocalOk, Synchronous;
    KeepBeginClose(l);
  }

  /** Letting go of the lock after the last task has ended. */
  lemma ClosedIsOk(l: Local)
    requires LocalOk(l) && l.proc.phase.Running? && l.proc.workers == map[] && l.proc.main.Idle?
    ensures LocalOk(l.(proc := l.proc.(phase := Stopped, slot := Free), log := l.log + [Ended(l.pid)]))
  {
    hide DiskOk, HistoryOk, Earned, Since, Written, Barriers, Orphans, KnownIds;
    ReleaseDiskOk(l.disk, l.log, l.pid);
    Grow(l.log, Ended(l.pid));
    EndIsEarned(l.log, l.pid);
  }

  /** An observation that ends the watch by itself: the effect is there, or it cannot be computed. */
  predicate Decisive(op: Operation, state: NodeState) {
    EffectOf(op.kind, op.request, state).Err? || EffectOf(op.kind, op.request, state).value == OBSERVED_SATISFIED
  }

  /** After k sleeps the clock stands at the deadline, or k half seconds after the start. */
  predicate Reached(now: real, start: real, timeout: real, k: nat) {
    now >= start && (now >= start + timeout || now >= start + 0.5 * k as real)
  }

  function Acknowledged(l: Local, id: Id, op: Operation, commit: Commit): Local {
    var saved := Protocol.Save(l, id, ToDispatch(ACKNOWLEDGED), commit);
    if !commit.Committed? then Finish(saved, id)
    else At(saved, id, if op.kind == Announce then Acked(op) else Verifying(op))
  }

  lemma ReplyMeans(l: Local, id: Id, message: Message, commit: Commit)
    requires IsWorker(l.proc, id) && l.proc.workers[id].Awaiting?
    ensures DoReply(l, id, message, commit) ==
      if CommandRejected(message) then
        SaveAndFinish(l, id, ToFinal(REJECTED, NOT_ATTEMPTED, "COMMAND_REJECTED", None), commit)
      else if SaysSuccess(message) then Acknowledged(l, id, l.proc.workers[id].op, commit)
      else At(l, id, Unwinding(true))
  {
    hide CommandRejected, SaysSuccess, Store, Revise;
  }

  datatype Verdict = Go | Stop(changes: Changes) | Fail

  function AfterVerdict(l: Local, id: Id, before: NodeState, verdict: Verdict, commit: Commit): Local
    requires IsWorker(l.proc, id) && l.proc.workers[id].Observing?
  {
    Record(match verdict
      case Go => At(l, id, Dispatching(l.proc.workers[id].op, before))
      case Stop(changes) => SaveAndFinish(l, id, changes, commit)
      case Fail => At(l, id, Unwinding(false)), Observed(l.pid, id, l.proc.config, before))
  }

  ghost function AfterBarrier(l: Local, id: Id, commit: Commit): Local
    requires IsWorker(l.proc, id) && l.proc.workers[id].Dispatching?
  {
    var c := DoCheckBarrier(l, id);
    if c.proc.workers[id].Checked? then DoCommitBarrier(c, id, commit) else c
  }

  ghost function AfterReply(l: Local, id: Id, message: Message, commit: Commit, last: Commit): Local
    requires IsWorker(l.proc, id) && l.proc.workers[id].Awaiting?
  {
    var r := DoReply(l, id, message, commit);
    if id in r.proc.workers && r.proc.workers[id].Acked? then
      SaveAndFinish(r, id, ToEffect(UNKNOWN, Some("PLAYBACK_EFFECT_NOT_OBSERVABLE"), None), last)
    else r
  }

  lemma BarrierKeeps(l: Local, id: Id, commit: Commit)
    requires LocalOk(l) && IsWorker(l.proc, id) && l.proc.workers[id].Dispatching?
    ensures LocalOk(AfterBarrier(l, id, commit)) && IsWorker(AfterBarrier(l, id, commit).proc, id)
  {
    hide LocalOk, DoCommitBarrier;
    KeepCheckBarrier(l, id);
    var c := DoCheckBarrier(l, id);
    if c.proc.workers[id].Checked? {
      KeepCommitBarrier(c, id, commit);
      BarrierStays(c, id, commit);
    }
  }

  lemma BarrierStays(l: Local, id: Id, commit: Commit)
    requires IsWorker(l.proc, id) && l.proc.workers[id].Checked?
    ensures IsWorker(DoCommitBarrier(l, id, commit).proc, id)
  {
  }

  function CommandText(node: Node, op: Operation): string {
    var command := CommandFor(node, op.kind, op.request);
    if command.Ok? then command.value else ""
  }

  lemma CommandIsSpelled(node: Node, op: Operation)
    requires CommandFor(node, op.kind, op.request).Ok?
    ensures Spells(CommandText(node, op), node, op.kind, op.request)
  {
    hide CommandFor, Spells;
    CommandDecided(node, op.kind, op.request, CommandText(node, op));
  }

  /** What happens between the last check and the reply: the barrier is stored, the command is written. */
  function Crossing(pid: Pid, op: Operation, config: Config, before: NodeState): Log {
    [Event.Barrier(pid, op.id, config, before), Wrote(pid, op, CommandText(op.node, op), config, before)]
  }

  /** The two outcomes of a dispatch: nothing was written, or the barrier is stored and the command written after it. */
  ghost predicate Dispatched(l: Local, l': Local, id: Id, replied: bool, used: bool, silent: bool)
    requires id in l.proc.workers && l.proc.workers[id].Dispatching?
    requires id in l'.proc.workers
  {
    var w, w' := l.proc.workers[id], l'.proc.workers[id];
    if silent then !replied && w' == Unwinding(false) && l'.log == l.log
    else
      && !used && l'.log == l.log + Crossing(l.pid, w.op, l.proc.config, w.before)
      && w' == if replied then Awaiting(w.op) else Unwinding(true)
  }

  ghost predicate Live(l: Local, id: Id) {
    IsWorker(l.proc, id) && Quiet(l.proc)
  }

  /** The coroutine has ended: its slot is free, and its operation is finished unless a save failed. */
  ghost predicate Settled(l: Local, id: Id) {
    && id !in l.proc.workers && l.proc.slot != Held(id)
    && Has(l.disk, l.proc.node, id) && (l.proc.healthy ==> l.disk[id].document.terminal)
  }

  /** How a session's writes show in the history: the login is the first, the one command the second and last. */
  ghost predicate Wired(log: Log, log': Log, id: Id, writes: nat) {
    && writes <= 2
    && Written(log') == Written(log) + (if writes == 2 then {id} else {})
    && (writes == 2 ==> id !in Written(log))
  }

  lemma BarrierWorks(l: Local, id: Id, commit: Commit)
    requires Quiet(l.proc) && IsWorker(l.proc, id) && l.proc.workers[id].Dispatching?
    ensures Works(l, AfterBarrier(l, id, commit), id)
  {
    hide Quiet, DoCommitBarrier, Works;
    OneStep(l, CheckBarrier(id), id);
    var checked := DoCheckBarrier(l, id);
    if checked.proc.workers[id].Checked? {
      OneStep(checked, CommitBarrier(id, commit), id);
      WorksOn(l, checked, DoCommitBarrier(checked, id, commit), id);
    }
  }

  lemma ReplyWorks(l: Local, id: Id, message: Message, commit: Commit, last: Commit)
    requires LocalOk(l) && Quiet(l.proc) && IsWorker(l.proc, id) && l.proc.workers[id].Awaiting?
    ensures Works(l, AfterReply(l, id, message, commit, last), id)
  {
    hide LocalOk, Quiet, DoReply, SaveAndFinish, Works, Progress;
    OneStep(l, Reply(id, message, commit), id);
    var replied := DoReply(l, id, message, commit);
    ReplyStaysRunning(l, id, message, commit);
    if id in replied.proc.workers && replied.proc.workers[id].Acked? {
      OneStep(replied, FinishAnnounce(id, last), id);
      WorksOn(l, replied, AfterReply(l, id, message, commit, last), id);
    }
  }

  lemma ReplyStaysRunning(l: Local, id: Id, message: Message, commit: Commit)
    requires IsWorker(l.proc, id) && l.proc.workers[id].Awaiting?
    ensures DoReply(l, id, message, commit).proc.phase == l.proc.phase
  {
    hide CommandRejected, SaysSuccess, Store;
  }

  // ---- what one request or one wait comes to ----------------------------------------------------

  /** What admission answers, and in which cases it stores a new operation. */
  ghost predicate AdmissionDecided(was: Local, now: Local, r: Result<Operation>, kind: Kind, request: Request,
      credential: string, key: Option<string>, id: Id, commit: Commit)
  {
    if !(was.proc.phase.Running? && was.proc.healthy && !was.proc.closing) then
      && now == was
      && r == Err(Problem(503, if was.proc.phase.Running? && !was.proc.closing then "LEDGER_UNAVAILABLE"
                               else "CONTROL_UNAVAILABLE"))
    else if CommandFor(was.proc.node, kind, request).Err? then
      r == Err(CommandFor(was.proc.node, kind, request).error) && now == was
    else match FindIdempotent(was.disk, was.proc.node, kind, request, credential, key)
      case Found(bound) =>
        && r == Ok(was.disk[bound].document)
        && now == Record(was, Answer(was, bound, kind, request, credential, key))
      case Clash =>
        && r == Err(Problem(409, "IDEMPOTENCY_CONFLICT"))
        && now == Record(was, Refusal(was, kind, request, credential, key))
      case Miss =>
        if !was.proc.slot.Free? then r == Err(Problem(409, "NODE_BUSY")) && now == was
        else
          && now == DoInsert(DoReserve(was, kind, request, credential, key), id, commit)
          && (if id in was.disk || !commit.Committed? then r.Err?
              else r == Ok(NewOperation(id, was.proc.node, kind, request, credential)))
  }

  /** What has changed after a wait: requests were answered or refused, and the runtime may have begun to close. */
  ghost predicate Waited(l: Local, l': Local) {
    && l' == l.(log := l'.log, proc := l.proc.(closing := l'.proc.closing))
    && (l.proc.closing ==> l'.proc.closing)
    && l.log <= l'.log && Written(l'.log) == Written(l.log)
    && forall k :: |l.log| <= k < |l'.log| ==> l'.log[k].Answered? || l'.log[k].Refused?
  }

  lemma NothingHappened(l: Local)
    ensures Waited(l, l)
  {
  }

  lemma WaitedLonger(a: Local, b: Local, c: Local)
    requires Waited(a, b) && Waited(b, c)
    ensures Waited(a, c)
  {
    hide Written;
  }

  /** A request that arrives while the slot is taken adds at most one answer or refusal to history. */
  lemma RequestWaits(l: Local, l': Local, r: Result<Operation>, kind: Kind, request: Request, credential: string,
      key: Option<string>, newId: Id, commit: Commit, id: Id)
    requires AdmissionDecided(l, l', r, kind, request, credential, key, newId, commit)
    requires Quiet(l.proc) && l.proc.slot == Held(id)
    ensures Waited(l, l') && Works(l, l', id) && l'.proc == l.proc
  {
    hide FindIdempotent, CommandFor, Canonical, Works, Written, Quiet;
    NoWork(l, id);
    if l' != l {
      var e := Last(l'.log);
      assert l' == Record(l, e);
      Grow(l.log, e);
      ReserveWorks(l, kind, request, credential, key, id);
    }
  }

  lemma CloseWaits(l: Local, id: Id)
    requires l.proc.phase.Running? && Quiet(l.proc)
    ensures var l' := l.(proc := l.proc.(closing := true)); Waited(l, l') && Works(l, l', id)
  {
    hide Quiet, Written, Works;
    OneStep(l, BeginClose, id);
  }

  lemma HoldsSlot(l: Local, id: Id)
    requires LocalOk(l) && IsWorker(l.proc, id)
    ensures l.proc.slot == Held(id)
  {
    hide LocalOk;
    OneWorker(l, id);
  }

  lemma CancelLeads(l: Local, id: Id, commit: Commit)
    requires LocalOk(l) && IsWorker(l.proc, id) && !l.proc.workers[id].Created?
    ensures var l' := DoCancel(l, id, commit);
      Settled(l', id) && id !in l'.proc.workers && l'.log == l.log
  {
    hide LocalOk, SaveAndFinish, Settled, WorkerOk, RowOk;
    OneWorker(l, id);
    SavesSettle(l, id, commit);
  }

  lemma SavesSettle(l: Local, id: Id, commit: Commit)
    requires Has(l.disk, l.proc.node, id)
    ensures forall c: Changes :: c.terminal ==>
      var l' := SaveAndFinish(l, id, c, commit); Settled(l', id) && id !in l'.proc.workers && l'.log == l.log
  {
  }

  lemma BeginLeads(l: Local, id: Id, commit: Commit)
    requires LocalOk(l) && IsWorker(l.proc, id) && l.proc.workers[id].Created?
    ensures var l' := DoBegin(l, id, commit);
      && l'.log == l.log
      && if id in l'.proc.workers then l'.proc.workers[id] == Observing(l.disk[id].document) else Settled(l', id)
  {
    hide LocalOk, SaveAndFinish, Settled, RowOk;
    OneWorker(l, id);
    SavesSettle(l, id, commit);
  }

  lemma ObserveLeads(l: Local, id: Id, state: NodeState, commit: Commit)
    requires LocalOk(l) && IsWorker(l.proc, id) && l.proc.workers[id].Observing?
    ensures var l' := DoObserve(l, id, state, commit);
      && Written(l'.log) == Written(l.log)
      && if id in l'.proc.workers then
           l'.proc.workers[id] in {Unwinding(false), Dispatching(l.proc.workers[id].op, state)}
         else Settled(l', id)
  {
    hide LocalOk, EffectOf, Enforce, CommandFor, SaveAndFinish, Settled, WorkerOk, RowOk, Written, CodeOf;
    OneWorker(l, id);
    var e := Observed(l.pid, id, l.proc.config, state);
    SavesSettle(Record(l, e), id, commit);
    Grow(l.log, e);
  }

  lemma CrossingWrites(l: Local, l': Local, id: Id, replied: bool, used: bool, silent: bool)
    requires LocalOk(l) && IsWorker(l.proc, id) && l.proc.workers[id].Dispatching? && IsWorker(l'.proc, id)
    requires Dispatched(l, l', id, replied, used, silent) && l'.pid == l.pid
    ensures Wired(l.log, l'.log, id, if silent then 1 else 2)
  {
    hide LocalOk, CommandText;
    var w := l.proc.workers[id];
    OneWorker(l, id);
    DispatchingCommand(l, id);
    var barrier := Event.Barrier(l.pid, id, l.proc.config, w.before);
    var wrote := Crossing(l.pid, w.op, l.proc.config, w.before)[1];
    Grow(l.log, barrier);
    Grow(l.log + [barrier], wrote);
    assert Crossing(l.pid, w.op, l.proc.config, w.before) == [barrier] + [wrote];
    assert l.log + [barrier] + [wrote] == l.log + ([barrier] + [wrote]);
    NotStartedNotWritten(l, id);
  }

  lemma AcknowledgedLeads(l: Local, id: Id, op: Operation, commit: Commit)
    requires Has(l.disk, l.proc.node, id)
    ensures var l' := Acknowledged(l, id, op, commit);
      && l'.log == l.log && l'.proc.node == l.proc.node && Has(l'.disk, l'.proc.node, id)
      && if id in l'.proc.workers then l'.proc.workers[id] in {Acked(op), Verifying(op)} else Settled(l', id)
  {
  }

  lemma ReplyLeads(l: Local, id: Id, message: Message, commit: Commit, last: Commit)
    requires LocalOk(l) && IsWorker(l.proc, id) && l.proc.workers[id].Awaiting?
    ensures var l' := AfterReply(l, id, message, commit, last);
      && l'.log == l.log
      && if id in l'.proc.workers then l'.proc.workers[id].Verifying? || l'.proc.workers[id].Unwinding?
         else Settled(l', id)
  {
    hide LocalOk, CommandRejected, SaysSuccess, SaveAndFinish, Settled, WorkerOk, RowOk;
    OneWorker(l, id);
    SavesSettle(l, id, commit);
    ReplyMeans(l, id, message, commit);
    if !CommandRejected(message) && SaysSuccess(message) {
      AcknowledgedLeads(l, id, l.proc.workers[id].op, commit);
      SavesSettle(DoReply(l, id, message, commit), id, last);
    }
  }

  lemma VerifyLeads(l: Local, id: Id, state: NodeState, expired: bool, commit: Commit)
    requires LocalOk(l) && IsWorker(l.proc, id) && l.proc.workers[id].Verifying?
    requires expired || Decisive(l.proc.workers[id].op, state)
    ensures var l' := DoVerify(l, id, state, expired, commit);
      && l'.log == l.log
      && if id in l'.proc.workers then l'.proc.workers[id].Unwinding? else Settled(l', id)
  {
    hide LocalOk, EffectOf, SaveAndFinish, Settled, WorkerOk, RowOk;
    OneWorker(l, id);
    SavesSettle(l, id, commit);
  }

  lemma UnwindLeads(l: Local, id: Id, commit: Commit)
    requires LocalOk(l) && IsWorker(l.proc, id) && l.proc.workers[id].Unwinding?
    ensures var l' := SaveAndFinish(l, id, HandlerChanges(l.proc.workers[id].started, false), commit);
      Settled(l', id) && l'.log == l.log
  {
    hide LocalOk, SaveAndFinish, Settled, WorkerOk, RowOk;
    OneWorker(l, id);
    SavesSettle(l, id, commit);
  }

  /** Workers share one slot, so a runtime has at most one of them. */
  lemma QuietHere(l: Local, id: Id)
    requires LocalOk(l) && IsWorker(l.proc, id) && l.proc.main.Idle? && !Synchronous(l.proc.workers[id])
    ensures Quiet(l.proc)
  {
    hide DiskOk, HistoryOk, Since, Cleared, Written, Barriers, Orphans, FindIdempotent, CommandFor;
  }

  lemma DispatchingCommand(l: Local, id: Id)
    requires LocalOk(l) && IsWorker(l.proc, id) && l.proc.workers[id].Dispatching?
    ensures var op := l.proc.workers[id].op; op.id == id && op.node == l.proc.node
    ensures CommandFor(l.proc.node, l.proc.workers[id].op.kind, l.proc.workers[id].op.request).Ok?
  {
    hide LocalOk, RowShape, Truthful, CommandFor, Cleared, Since, Written;
    OneWorker(l, id);
    ShapeNamesRow(id, l.disk[id]);
    CommandStays(id, l.disk[id]);
  }

  lemma CrossedCommand(l: Local, id: Id)
    requires LocalOk(l) && IsWorker(l.proc, id) && l.proc.workers[id].Crossed?
    ensures CommandFor(l.proc.node, l.proc.workers[id].op.kind, l.proc.workers[id].op.request).Ok?
  {
    hide LocalOk, RowShape, Truthful, CommandFor, Cleared, Since, Written;
    OneWorker(l, id);
    ShapeNamesRow(id, l.disk[id]);
    CommandStays(id, l.disk[id]);
  }

  /** What reserving and inserting come to when the key is new and the slot is free. */
  lemma Admission(l: Local, kind: Kind, request: Request, credential: string, key: Option<string>, id: Id,
      commit: Commit)
    requires LocalOk(l) && l.proc.phase.Running? && Quiet(l.proc)
    requires l.proc.healthy && !l.proc.closing && l.proc.slot.Free?
    requires CommandFor(l.proc.node, kind, request).Ok?
    requires FindIdempotent(l.disk, l.proc.node, kind, request, credential, key).Miss?
    ensures DoReserve(l, kind, request, credential, key).proc.main.Admitting?
    ensures var l' := DoInsert(DoReserve(l, kind, request, credential, key), id, commit);
      && LocalOk(l') && l'.pid == l.pid
      && (if id in l.disk || commit.Lost? then l'.disk == l.disk && l'.proc == l.proc
          else
            && l'.disk == l.disk[id := NewRow(id, l.proc.node, kind, request, credential, key)]
            && l'.proc == if commit.Durable? then l.proc
                          else l.proc.(slot := Held(id), workers := l.proc.workers[id := Created]))
  {
    hide LocalOk, CommandFor, FindIdempotent, Canonical, NewRow;
    KeepReserve(l, kind, request, credential, key);
    KeepInsert(DoReserve(l, kind, request, credential, key), id, commit);
  }

  lemma WorkerHasRow(l: Local, id: Id)
    requires LocalOk(l) && IsWorker(l.proc, id)
    ensures Has(l.disk, l.proc.node, id)
  {
    hide LocalOk;
    OneWorker(l, id);
  }

  // ---- starting ---------------------------------------------------------------------------------

  lemma NothingRecovered(disk: Disk, node: Node)
    ensures PartlyRecovered(disk, disk, node)
  {
  }

  /** A runtime that has taken its lock and read its node's documents. */
  function Reading(l: Local, pending: seq<Operation>): Local {
    l.(proc := l.proc.(phase := Recovering(pending)))
  }

  lemma StartReads(l: Local, pending: seq<Operation>)
    requires LocalOk(l) && l.proc.phase.Stopped? && Enumerates(pending, l.disk, l.proc.node)
    ensures LocalOk(Reading(l, pending))
  {
    hide DiskOk, HistoryOk, ProcOk, Progress, Enumerates;
    LockingIsOk(l);
    KeepReadRows(l.(proc := l.proc.(phase := Starting)), pending);
  }

  /** The protocol's recovery steps, one for each commit, until a step fails or none is left. */
  function RecoverRun(l: Local, commits: seq<Commit>): Local
    decreases |commits|
  {
    if commits == [] then l
    else
      var before := RecoverRun(l, Init(commits));
      if before.proc.phase.Recovering? && before.proc.phase.pending != [] then DoRecoverRow(before, Last(commits))
      else before
  }

  /**
    As long as all commits succeed, the protocol's recovery steps handle one document each, keep the invariant, and
    leave the table that the loop over the documents leaves.
   */
  lemma {:induction false} RunRecovers(l: Local, commits: seq<Commit>)
    requires LocalOk(l) && l.proc.phase.Recovering? && |commits| <= |l.proc.phase.pending| && AllCommitted(commits)
    ensures var pending := l.proc.phase.pending;
      RecoverRun(l, commits) ==
        Reading(l, pending[|commits|..]).(disk := RecoverSome(l.disk, l.proc.node, pending, commits))
    ensures LocalOk(RecoverRun(l, commits))
    ensures Recovered(RecoverRun(l, commits).disk, l.proc.node) == Recovered(l.disk, l.proc.node)
    decreases |commits|
  {
    hide LocalOk, DoRecoverRow, Recovered, Progress;
    if commits == [] {
      assert l.proc.phase.pending[0..] == l.proc.phase.pending;
    } else {
      RunRecovers(l, Init(commits));
      var before, n := RecoverRun(l, Init(commits)), |commits| - 1;
      assert before.proc.phase.pending[0] == l.proc.phase.pending[n];
      assert before.proc.phase.pending[1..] == l.proc.phase.pending[n + 1..];
      KeepRecoverRow(before, Last(commits));
      StepRecovers(before);
      StepDisk(before, Last(commits));
    }
  }

  /** The step whose commit fails ends the recovery with what that commit left. */
  lemma RunAborts(l: Local, commits: seq<Commit>)
    requires LocalOk(l) && l.proc.phase.Recovering? && StopsAtFailure(l.proc.phase.pending, commits, false)
    ensures RecoverRun(l, commits) == l.(disk := RecoverSome(l.disk, l.proc.node, l.proc.phase.pending, commits),
      proc := l.proc.(phase := Aborting))
    ensures LocalOk(RecoverRun(l, commits))
  {
    hide LocalOk, DoRecoverRow, Recovered, Progress;
    RunRecovers(l, Init(commits));
    var before, n := RecoverRun(l, Init(commits)), |commits| - 1;
    assert before.proc.phase.pending[0] == l.proc.phase.pending[n];
    KeepRecoverRow(before, Last(commits));
    StepDisk(before, Last(commits));
  }

  lemma StepDisk(l: Local, commit: Commit)
    requires LocalOk(l) && l.proc.phase.Recovering? && l.proc.phase.pending != []
    ensures var op, next := l.proc.phase.pending[0], DoRecoverRow(l, commit);
      && next.disk == (if op.terminal then l.disk else Store(l.disk, l.proc.node, op.id, RecoveryChanges(op), commit))
      && (!op.terminal && !commit.Committed? ==> next == l.(disk := next.disk, proc := l.proc.(phase := Aborting)))
  {
    hide LocalOk, RecoveryChanges, Store;
  }

  lemma StepRecovers(l: Local)
    requires LocalOk(l) && l.proc.phase.Recovering? && l.proc.phase.pending != []
    ensures var next := DoRecoverRow(l, Committed);
      && next == l.(disk := next.disk, proc := l.proc.(phase := Recovering(l.proc.phase.pending[1..])))
      && Recovered(next.disk, l.proc.node) == Recovered(l.disk, l.proc.node)
  {
    hide LocalOk, RecoveryChanges;
    var op := l.proc.phase.pending[0];
    if !op.terminal {
      RecoveredRowOk(op, l);
      RecoveredOnce(l.disk[op.id], l.proc.node);
    }
  }

  lemma NothingPending(l: Local)
    requires LocalOk(l) && l.proc.phase == Recovering([])
    ensures Recovered(l.disk, l.proc.node) == l.disk
  {
    hide DiskOk, HistoryOk;
  }

  /** Step by step or all at once, a recovery whose commits all succeed comes to the same table. */
  lemma StepsRecover(l: Local, commits: seq<Commit>)
    requires LocalOk(l) && l.proc.phase.Recovering? && StopsAtFailure(l.proc.phase.pending, commits, true)
    ensures RecoverRun(l, commits) == Reading(l, []).(disk := Recovered(l.disk, l.proc.node))
  {
    hide LocalOk, RecoverRun, Recovered;
    RunRecovers(l, commits);
    assert l.proc.phase.pending[|commits|..] == [];
    NothingPending(RecoverRun(l, commits));
  }

  lemma AbortEnds(l: Local)
    requires LocalOk(l) && (l.proc.phase.Aborting? || l.proc.phase.Stopped?)
    ensures LocalOk(l.(proc := l.proc.(phase := Stopped), log := l.log + [Ended(l.pid)]))
  {
    hide DiskOk, HistoryOk, Earned, Since, Written, Barriers, Orphans, KnownIds;
    ReleaseDiskOk(l.disk, l.log, l.pid);
    Grow(l.log, Ended(l.pid));
    EndIsEarned(l.log, l.pid);
  }

  lemma EndIsEarned(log: Log, pid: Pid)
    ensures Earned(log, Ended(pid))
  {
  }

  /** How a start that got the lock shows in the protocol: one step for each row, and then serving or giving up. */
  ghost predicate Started(l: Local, l': Local, pending: seq<Operation>, commits: seq<Commit>, served: bool) {
    var end := RecoverRun(Reading(l, pending), commits);
    && Enumerates(pending, l.disk, l.proc.node)
    && if served then end.proc.phase == Recovering([]) && l' == end.(proc := end.proc.(phase := Running))
       else
         && end.proc.phase.Aborting?
         && l' == end.(proc := end.proc.(phase := Stopped), log := end.log + [Ended(end.pid)])
  }

  lemma StartedOk(l: Local, disk': Disk, pending: seq<Operation>, commits: seq<Commit>, served: bool)
    returns (l': Local)
    requires LocalOk(l) && l.proc.phase.Stopped? && Enumerates(pending, l.disk, l.proc.node)
    requires StopsAtFailure(pending, commits, served) && disk' == RecoverSome(l.disk, l.proc.node, pending, commits)
    ensures LocalOk(l') && Started(l, l', pending, commits, served)
    ensures l' == if served then l.(disk := disk', proc := l.proc.(phase := Running))
      else l.(disk := disk', log := l.log + [Ended(l.pid)])
  {
    hide LocalOk, Enumerates, RecoverRun, RecoverSome, Recovered, Progress;
    StartReads(l, pending);
    var reading := Reading(l, pending);
    var end := RecoverRun(reading, commits);
    if served {
      RunRecovers(reading, commits);
      assert pending[|commits|..] == [];
      KeepFinishStart(end);
      l' := end.(proc := end.proc.(phase := Running));
    } else {
      RunAborts(reading, commits);
      AbortEnds(end);
      l' := end.(proc := end.proc.(phase := Stopped), log := end.log + [Ended(end.pid)]);
    }
  }
}
