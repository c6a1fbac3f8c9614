/**
  The runtime as an object (vnext/service.py, Platform). Every method changes the fields, the table and nothing else,
  and is proved to take a step of the protocol: the ghost field follows it and the invariant holds afterwards.
 */
module Service {
  import opened Base
  import opened Models
  import opened Policy
  import opened Effects
  import opened CanonicalJson
  import opened Rows
  import opened Ami
  import opened Protocol
  import opened Invariant
  import opened Preservation
  import opened Recovery
  import opened Observation
  import opened Ledger
  import opened Codec
  import opened Transport
  import opened Decisions
  import opened Paths
  import opened Steps

  /** The event loop's clock: sleeping takes at least as long as asked, and every other await takes some time. */
  class Clock {
    var now: real
    /** Every sleep so far: when it began, and for how long. */
    ghost var naps: seq<(real, real)>

    constructor (now: real)
      ensures this.now == now && naps == []
    {
      this.now := now;
      naps := [];
    }

    method Sleep(duration: real)
      modifies this
      ensures now >= old(now) && now >= old(now) + duration && naps == old(naps) + [(old(now), duration)]
    {
      naps := naps + [(now, duration)];
      now := now + Positive(duration);
      Pass();
    }

    method Pass()
      modifies this`now
      ensures now >= old(now)
    {
      var late: real := *;
      now := now + Positive(late);
    }
  }

  function Positive(x: real): real {
    if x < 0.0 then 0.0 else x
  }

  /** How the watch for an effect ends: with a verdict, by a cancellation, or by an exception. */
  datatype Ending = Judged | Interrupted | Broken

  class Platform {
    ghost const pid: Pid
    const node: Node
    const config: Config
    const db: Database
    const lock: LockFile

    var owner: ControlOwner?
    var ledger: Ledger?
    var tasks: map<Id, Worker>
    var busy: Slot
    var healthy: bool
    var closing: bool

    /** The state of the protocol that this runtime and its table are in, between two resumptions of a coroutine. */
    ghost var local: Local

    ghost function View(): Proc
      reads this
    {
      Proc(node, config, if owner != null then Running else Stopped, Idle, healthy, closing, busy, tasks)
    }

    /** The ledger is open on this runtime's table, and the lock is ours. */
    ghost predicate Open()
      reads this, db, lock
    {
      && owner != null && ledger != null && owner.file == lock && lock.holder == owner
      && ledger.node == node && ledger.db == db
    }

    ghost predicate Valid()
      reads this, db, lock
    {
      && ValidRows(db.rows) && local.disk == Table(db.rows)
      && local.pid == pid && local.proc == View() && LocalOk(local)
      && (owner != null ==> Open())
    }

    constructor (ghost pid: Pid, node: Node, config: Config, db: Database, lock: LockFile, ghost log: Log)
      requires ValidNode(node) && ValidRows(db.rows) && HistoryOk(log) && DiskOk(Table(db.rows), log)
      ensures Valid() && local == Local(pid, Fresh(node, config), Table(db.rows), log)
      ensures this.pid == pid && this.node == node && this.config == config && this.db == db && this.lock == lock
    {
      this.pid, this.node, this.config, this.db, this.lock := pid, node, config, db, lock;
      owner, ledger, tasks, busy, healthy, closing := null, null, map[], Free, true, false;
      local := Local(pid, Fresh(node, config), Table(db.rows), log);
    }

    // ---- admission ------------------------------------------------------------------------------

    method RequireLedger() returns (r: Result<Ledger>)
      requires Valid()
      ensures r.Ok? <==> owner != null && !closing && healthy
      ensures r.Ok? ==> r.value == ledger && Open()
      ensures r.Err? ==> r.error == Problem(503,
        if owner == null || closing then "CONTROL_UNAVAILABLE" else "LEDGER_UNAVAILABLE")
    {
      if ledger == null || owner == null || closing {
        return Err(Problem(503, "CONTROL_UNAVAILABLE"));
      }
      if !healthy {
        return Err(Problem(503, "LEDGER_UNAVAILABLE"));
      }
      return Ok(ledger);
    }

    /** Takes the slot for one new operation, answers from the table, or refuses; a taken slot is never waited for. */
    method Admit(kind: Kind, request: Request, credential: string, key: Option<string>, id: Id)
      returns (r: Result<Operation>, commit: Commit)
      requires Valid() && Quiet(local.proc)
      modifies this`local, this`tasks, this`busy, db
      ensures Valid()
      ensures AdmissionDecided(old(local), local, r, kind, request, credential, key, id, commit)
      ensures AdmissionOutcome(old(local), local, r, kind, request, credential, key, id, commit)
    {
      hide AdmissionDecided, AdmissionOutcome;
      r, commit := AdmitInOrder(kind, request, credential, key, id);
      AdmissionIsDecided(old(local), local, r, kind, request, credential, key, id, commit);
    }

    /** The checks of an admission, in their order. */
    method AdmitInOrder(kind: Kind, request: Request, credential: string, key: Option<string>, id: Id)
      returns (r: Result<Operation>, commit: Commit)
      requires Valid() && Quiet(local.proc)
      modifies this`local, this`tasks, this`busy, db
      ensures Valid()
      ensures AdmissionDecided(old(local), local, r, kind, request, credential, key, id, commit)
    {
      hide LocalOk, ValidRows, Table, CommandFor, FindIdempotent, Canonical, NewRow, NewOperation, DoInsert;
      commit := Lost;
      var available := RequireLedger();
      if available.Err? {
        return Err(available.error), commit;
      }
      var command := CommandFor(node, kind, request);
      if command.Err? {
        return Err(command.error), commit;
      }
      var answer := Recall(kind, request, credential, key);
      if answer.Some? {
        return answer.value, commit;
      }
      if !busy.Free? {
        return Err(Problem(409, "NODE_BUSY")), commit;
      }
      r, commit := AdmitNew(kind, request, credential, key, id);
    }

    /** The answer to a request whose key is already bound, if it is. */
    method Recall(kind: Kind, request: Request, credential: string, key: Option<string>)
      returns (answer: Option<Result<Operation>>)
      requires Valid() && Quiet(local.proc) && owner != null && healthy && !closing
      requires CommandFor(node, kind, request).Ok?
      modifies this`local
      ensures Valid()
      ensures match FindIdempotent(old(local).disk, node, kind, request, credential, key)
        case Miss => answer.None? && local == old(local)
        case Found(bound) =>
          && answer == Some(Ok(old(local).disk[bound].document))
          && local == Record(old(local), Answer(old(local), bound, kind, request, credential, key))
        case Clash =>
          && answer == Some(Err(Problem(409, "IDEMPOTENCY_CONFLICT")))
          && local == Record(old(local), Refusal(old(local), kind, request, credential, key))
    {
      hide LocalOk, ValidRows, Table, CommandFor, FindIdempotent, Canonical, Quiet, Progress;
      var existing := ledger.FindIdempotent(kind, request, credential, key);
      if existing == Ok(None) {
        return None;
      }
      KeepReserve(local, kind, request, credential, key);
      local := DoReserve(local, kind, request, credential, key);
      answer := Some(if existing.Ok? then Ok(existing.value.value) else Err(existing.error));
    }

    /** The reservation and the insertion; no await lies between them. */
    method AdmitNew(kind: Kind, request: Request, credential: string, key: Option<string>, id: Id)
      returns (r: Result<Operation>, commit: Commit)
      requires Valid() && Quiet(local.proc) && owner != null && healthy && !closing && busy.Free?
      requires CommandFor(node, kind, request).Ok?
      requires FindIdempotent(local.disk, node, kind, request, credential, key).Miss?
      modifies this`local, this`tasks, this`busy, db
      ensures Valid()
      ensures local == DoInsert(DoReserve(old(local), kind, request, credential, key), id, commit)
      ensures if id in old(local).disk || !commit.Committed? then r.Err?
        else r == Ok(NewOperation(id, node, kind, request, credential))
    {
      hide LocalOk, ValidRows, Table, CommandFor, FindIdempotent, Canonical, DoReserve, DoInsert;
      busy := Reserving;
      var admitted;
      admitted, commit := ledger.Admit(kind, request, credential, key, id);
      Admission(local, kind, request, credential, key, id, commit);
      if admitted.Err? {
        busy := Free;
        r := Err(admitted.error);
      } else {
        var (operation, created) := admitted.value;
        busy := Held(operation.id);
        tasks := tasks[operation.id := Created];
        r := Ok(operation);
      }
      local := DoInsert(DoReserve(local, kind, request, credential, key), id, commit);
    }

    // ---- start ----------------------------------------------------------------------------------

    /**
      Takes the lock, opens the ledger and finishes what a previous process left. Success means the lock is ours and
      every operation of the node is finished; failure gives the lock back and leaves some rows recovered at most.
      Either way each row was one step of the protocol, up to the one that failed; a ledger that does not open leaves
      them all.
     */
    method Start() returns (r: Result<()>, ghost pending: seq<Operation>, ghost commits: seq<Commit>)
      requires Valid()
      modifies this, db, lock
      ensures Valid()
      ensures r.Ok? ==> old(lock.holder) == null && Open()
      ensures r.Ok? ==> local == old(local).(disk := Recovered(old(local).disk, node), proc := View())
      ensures r.Err? ==> owner == old(owner) && lock.holder == old(lock.holder)
      ensures r.Err? ==> PartlyRecovered(old(local).disk, local.disk, node)
      ensures old(lock.holder) != null ==> r.Err? && local == old(local)
      ensures old(lock.holder) == null ==>
        Started(old(local), local, pending, commits, r.Ok?)
        || (r.Err? && local == old(local).(log := old(local).log + [Ended(pid)]))
    {
      hide LocalOk, ValidRows, Table, Recovered, RecoveredRow, RecoverSome, StopsAtFailure, Documents, Enumerates,
        Started;
      pending, commits := [], [];
      NothingRecovered(local.disk, node);
      var taken := ControlOwner.Open(lock);
      if taken == null {
        return Err(Raised("BlockingIOError")), pending, commits;
      }
      owner := taken;
      var opens: bool := *;
      if !opens {
        owner.Close();
        owner := null;
        AbortEnds(local);
        local := local.(log := local.log + [Ended(pid)]);
        return Err(Raised("sqlite3.Error")), pending, commits;
      }
      ledger := new Ledger(node, db);
      DocumentsEnumerate(db.rows, node);
      pending := Documents(db.rows, node);
      var recovered;
      recovered, commits := ledger.Recover();
      local := StartedOk(local, Table(db.rows), pending, commits, recovered.Ok?);
      if recovered.Err? {
        owner.Close();
        owner := null;
        return Err(recovered.error), pending, commits;
      }
      return Ok(()), pending, commits;
    }

    // ---- the coroutine of one operation ---------------------------------------------------------

    /** A failed transaction is logged and stops admission; the caller goes on as if there were no result. */
    method Save(id: Id, c: Changes) returns (saved: bool, commit: Commit)
      requires Open() && ValidRows(db.rows) && Has(Table(db.rows), node, id)
      modifies this`healthy, db
      ensures ValidRows(db.rows) && Table(db.rows) == Store(old(Table(db.rows)), node, id, c, commit)
      ensures healthy == (old(healthy) && commit.Committed?) && saved == commit.Committed?
    {
      hide ValidRows, Table;
      var r;
      r, commit := ledger.Update(id, c);
      if r.Err? {
        healthy := false;
      }
      saved := r.Ok?;
    }

    /** The finally clause, and the task's removal from the set of tasks. */
    method EndTask(id: Id)
      modifies this`busy, this`tasks
      ensures tasks == old(tasks) - {id} && busy == if old(busy) == Held(id) then Free else old(busy)
    {
      if busy == Held(id) {
        busy := Free;
      }
      tasks := tasks - {id};
    }

    /** The last save of a coroutine and its end. */
    method SaveAndEnd(id: Id, c: Changes) returns (commit: Commit)
      requires Valid() && Open() && Has(local.disk, node, id)
      modifies this`healthy, this`busy, this`tasks, db
      ensures ValidRows(db.rows) && Open()
      ensures var next := SaveAndFinish(local, id, c, commit); Table(db.rows) == next.disk && View() == next.proc
    {
      hide LocalOk, ValidRows, Table;
      var saved;
      saved, commit := Save(id, c);
      EndTask(id);
    }

    /** Up to the request for a fresh observation. */
    method Begin(id: Id) returns (commit: Commit)
      requires Valid() && Quiet(local.proc) && IsWorker(local.proc, id) && tasks[id].Created?
      modifies this`local, this`tasks, this`busy, this`healthy, db
      ensures Valid() && local == DoBegin(old(local), id, commit)
      ensures BeginOutcome(old(local), local, id, commit)
    {
      hide LocalOk, ValidRows, Table, Store, SaveAndFinish, BeginOutcome;
      WorkerHasRow(local, id);
      commit := Committed;
      if closing || !healthy {
        commit := SaveAndEnd(id, ToFinal(NOT_DISPATCHED, NOT_ATTEMPTED, "CONTROL_UNAVAILABLE", None));
      } else {
        var op := ledger.Get(id);
        if op.None? || op.value.terminal || op.value.dispatch != QUEUED {
          EndTask(id);
        } else {
          tasks := tasks[id := Observing(op.value)];
        }
      }
      KeepBegin(local, id, commit);
      BeginDecided(local, id, commit);
      local := DoBegin(local, id, commit);
    }

    /** What the observation means for the operation: already satisfied, denied by policy, or to be sent. */
    method Weigh(id: Id, before: NodeState) returns (verdict: Verdict)
      requires local.proc == View() && IsWorker(local.proc, id) && tasks[id].Observing? && local.pid == pid
      ensures forall commit :: DoObserve(local, id, before, commit) == AfterVerdict(local, id, before, verdict, commit)
    {
      hide Store, EffectOf, Enforce, CommandFor;
      var op := tasks[id].op;
      if op.kind != Announce {
        var current := EffectOf(op.kind, op.request, before);
        if current.Err? {
          return Fail;
        }
        if current.value == OBSERVED_SATISFIED {
          return Stop(ToFinal(NOT_DISPATCHED, OBSERVED_SATISFIED, "ALREADY_SATISFIED", Some(before)));
        }
      }
      var refusal := Enforce(config, op.kind, before);
      if refusal.Some? {
        return Stop(ToFinal(NOT_DISPATCHED, NOT_ATTEMPTED, CodeOf(refusal.value), Some(before)));
      }
      if CommandFor(node, op.kind, op.request).Err? {
        return Fail;
      }
      return Go;
    }

    /** From the observation to the opening of the control session. */
    method Judge(id: Id, before: NodeState) returns (commit: Commit)
      requires Valid() && Quiet(local.proc) && IsWorker(local.proc, id) && tasks[id].Observing? && Evident(before)
      modifies this`local, this`tasks, this`busy, this`healthy, db
      ensures Valid() && local == DoObserve(old(local), id, before, commit)
      ensures ObservationOutcome(old(local), local, id, before, commit)
    {
      hide LocalOk, ValidRows, Table, Store, SaveAndFinish, Evident, Quiet, DoObserve, ObservationOutcome;
      WorkerHasRow(local, id);
      commit := Committed;
      var verdict := Weigh(id, before);
      match verdict {
        case Go => tasks := tasks[id := Dispatching(tasks[id].op, before)];
        case Stop(changes) => commit := SaveAndEnd(id, changes);
        case Fail => tasks := tasks[id := Unwinding(false)];
      }
      KeepObserve(local, id, before, commit);
      ObservationDecided(local, id, before, commit);
      local := DoObserve(local, id, before, commit);
    }

    /**
      The callback that the session runs right before it writes: it raises unless the runtime still serves and the
      operation is still queued, and returns only once DISPATCH_STARTED is stored.
     */
    method Barrier(id: Id) returns (r: Result<()>, commit: Commit)
      requires Valid() && Quiet(local.proc) && IsWorker(local.proc, id) && tasks[id].Dispatching?
      modifies this`local, this`tasks, this`busy, this`healthy, db
      ensures Valid() && IsWorker(local.proc, id) && local == AfterBarrier(old(local), id, commit)
      ensures BarrierOutcome(old(local), local, id, commit)
      ensures var w := old(tasks)[id]; tasks[id] == if r.Ok? then Crossed(w.op, w.before) else Unwinding(false)
      ensures local.log == old(local.log)
        + if r.Ok? then [Event.Barrier(pid, id, config, old(tasks)[id].before)] else []
    {
      hide LocalOk, ValidRows, Table, Store, Quiet, BarrierOutcome;
      WorkerHasRow(local, id);
      commit := Committed;
      var w := tasks[id];
      var available := RequireLedger();
      var started: Result<Operation>;
      if available.Err? {
        started := Err(available.error);
      } else {
        started, commit := available.value.StartDispatch(id);
      }
      tasks := tasks[id := if started.Ok? then Crossed(w.op, w.before) else Unwinding(false)];
      BarrierKeeps(local, id, commit);
      BarrierDecided(local, id, commit);
      local := AfterBarrier(local, id, commit);
      r := if started.Ok? then Ok(()) else Err(started.error);
    }

    /** The bytes of the command are on their way: what the session does directly after the barrier returned. */
    method Sent(id: Id)
      requires Valid() && IsWorker(local.proc, id) && tasks[id].Crossed?
      modifies this`local, this`tasks
      ensures Valid() && local == DoWrite(old(local), id) && IsWorker(local.proc, id)
      ensures var w := old(tasks)[id];
        && tasks[id] == Awaiting(w.op)
        && local.log == old(local.log) + [Wrote(pid, w.op, CommandText(node, w.op), config, w.before)]
        && Spells(CommandText(node, w.op), node, w.op.kind, w.op.request)
    {
      hide LocalOk, ValidRows, Table, CommandFor;
      CrossedCommand(local, id);
      CommandIsSpelled(node, tasks[id].op);
      tasks := tasks[id := Awaiting(tasks[id].op)];
      KeepWrite(local, id);
      local := DoWrite(local, id);
    }

    /** A success reply is recorded, or the coroutine gives up without claiming anything. */
    method Acknowledge(id: Id, op: Operation) returns (commit: Commit)
      requires Valid() && Open() && Has(local.disk, node, id)
      modifies this`healthy, this`busy, this`tasks, db
      ensures ValidRows(db.rows) && Open()
      ensures var next := Acknowledged(local, id, op, commit); Table(db.rows) == next.disk && View() == next.proc
    {
      hide LocalOk, ValidRows, Table, Store;
      var saved;
      saved, commit := Save(id, ToDispatch(ACKNOWLEDGED));
      if saved {
        tasks := tasks[id := if op.kind == Announce then Acked(op) else Verifying(op)];
      } else {
        EndTask(id);
      }
    }

    /** Interpreting the reply. */
    method Interpret(id: Id, message: Message) returns (commit: Commit)
      requires Valid() && Quiet(local.proc) && IsWorker(local.proc, id) && tasks[id].Awaiting?
      modifies this`local, this`tasks, this`busy, this`healthy, db
      ensures Valid() && local == DoReply(old(local), id, message, commit)
      ensures ReplyOutcome(old(local), local, id, message, commit)
    {
      hide LocalOk, ValidRows, Table, Store, SaveAndFinish, Acknowledged, CommandRejected, SaysSuccess, Quiet,
        DoReply, ReplyOutcome;
      WorkerHasRow(local, id);
      commit := Committed;
      if CommandRejected(message) {
        commit := SaveAndEnd(id, ToFinal(REJECTED, NOT_ATTEMPTED, "COMMAND_REJECTED", None));
      } else if SaysSuccess(message) {
        commit := Acknowledge(id, tasks[id].op);
      } else {
        tasks := tasks[id := Unwinding(true)];
      }
      ReplyMeans(local, id, message, commit);
      KeepReply(local, id, message, commit);
      ReplyDecided(local, id, message, commit);
      local := DoReply(local, id, message, commit);
    }

    /** The reply, and for an acknowledged announcement the end of the operation without another await. */
    method Replied(id: Id, message: Message) returns (commit: Commit, last: Commit, ghost replied: Local)
      requires Valid() && Quiet(local.proc) && IsWorker(local.proc, id) && tasks[id].Awaiting?
      modifies this`local, this`tasks, this`busy, this`healthy, db
      ensures Valid() && local == AfterReply(old(local), id, message, commit, last)
      ensures ReplyOutcome(old(local), replied, id, message, commit)
      ensures if id in replied.proc.workers && replied.proc.workers[id].Acked? then
          AnnouncedOutcome(replied, local, id, last)
        else local == replied
    {
      hide LocalOk, ValidRows, Table, Store, SaveAndFinish, CommandRejected, SaysSuccess, Quiet, DoReply, ReplyOutcome,
        AnnouncedOutcome;
      last := Committed;
      commit := Interpret(id, message);
      replied := local;
      if id in tasks && tasks[id].Acked? {
        WorkerHasRow(local, id);
        var changes := ToEffect(UNKNOWN, Some("PLAYBACK_EFFECT_NOT_OBSERVABLE"), None);
        last := SaveAndEnd(id, changes);
        KeepFinishAnnounce(local, id, last);
        AnnouncedDecided(local, id, last);
        local := SaveAndFinish(local, id, changes, last);
      }
    }

    /** One turn of the effect loop, from its observation to the next sleep or the end. */
    method Verified(id: Id, state: NodeState, expired: bool) returns (commit: Commit)
      requires Valid() && Quiet(local.proc) && IsWorker(local.proc, id) && tasks[id].Verifying? && Evident(state)
      modifies this`local, this`tasks, this`busy, this`healthy, db
      ensures Valid() && local == DoVerify(old(local), id, state, expired, commit)
      ensures WatchOutcome(old(local), local, id, state, expired, commit)
    {
      hide LocalOk, ValidRows, Table, Store, SaveAndFinish, EffectOf, Evident, Quiet, WatchOutcome;
      WorkerHasRow(local, id);
      commit := Committed;
      var op := tasks[id].op;
      match EffectOf(op.kind, op.request, state) {
        case Err(_) => tasks := tasks[id := Unwinding(true)];
        case Ok(effect) =>
          if effect == OBSERVED_SATISFIED {
            commit := SaveAndEnd(id, ToEffect(effect, None, Some(state)));
          } else if expired {
            var code := if effect != UNKNOWN then "EFFECT_NOT_CONFIRMED_WITHIN_OBSERVATION_WINDOW"
                        else "POST_DISPATCH_STATE_UNKNOWN";
            commit := SaveAndEnd(id, ToEffect(effect, Some(code), Some(state)));
          }
      }
      KeepVerify(local, id, state, expired, commit);
      WatchDecided(local, id, state, expired, commit);
      local := DoVerify(local, id, state, expired, commit);
    }

    /** The handler for an exception that is not a cancellation. */
    method Failed(id: Id) returns (commit: Commit)
      requires Valid() && Quiet(local.proc) && IsWorker(local.proc, id) && tasks[id].Unwinding?
      modifies this`local, this`tasks, this`busy, this`healthy, db
      ensures Valid() && local == SaveAndFinish(old(local), id, HandlerChanges(old(tasks[id].started), false), commit)
      ensures CauseOutcome(old(local), local, id, old(tasks[id].started), false, commit)
    {
      hide LocalOk, ValidRows, Table, Store, SaveAndFinish, HandlerChanges, Quiet, CauseOutcome;
      WorkerHasRow(local, id);
      var started := tasks[id].started;
      commit := SaveAndEnd(id, HandlerChanges(started, false));
      KeepUnwind(local, id, commit);
      CauseDecided(local, id, started, false, commit);
      local := SaveAndFinish(local, id, HandlerChanges(started, false), commit);
    }

    /** A cancellation is delivered; a coroutine that has not begun never runs its handler. */
    method Cancelled(id: Id) returns (commit: Commit)
      requires Valid() && Quiet(local.proc) && IsWorker(local.proc, id)
      modifies this`local, this`tasks, this`busy, this`healthy, db
      ensures Valid() && local == DoCancel(old(local), id, commit)
      ensures CancelOutcome(old(local), local, id, commit)
    {
      hide LocalOk, ValidRows, Table, Store, SaveAndFinish, HandlerChanges, Quiet, CancelOutcome;
      WorkerHasRow(local, id);
      commit := Committed;
      if tasks[id].Created? {
        tasks := tasks - {id};
      } else {
        commit := SaveAndEnd(id, HandlerChanges(HasStarted(tasks[id]), true));
      }
      KeepCancel(local, id, commit);
      CancelDecided(local, id, commit);
      local := DoCancel(local, id, commit);
    }

    /** An exception anywhere at or after the observation is on its way to the handler. */
    method Throw(id: Id)
      requires Valid() && IsWorker(local.proc, id)
      requires tasks[id].Crossed? || (Quiet(local.proc) && !tasks[id].Created? && !tasks[id].Unwinding?)
      modifies this`local, this`tasks
      ensures Valid() && local == At(old(local), id, Unwinding(HasStarted(old(tasks)[id])))
    {
      hide LocalOk, ValidRows, Table, Quiet;
      KeepRaise(local, id);
      tasks := tasks[id := Unwinding(HasStarted(tasks[id]))];
      local := At(local, id, tasks[id]);
    }

    // ---- one whole dispatch ---------------------------------------------------------------------

    /**
      One control action on one session: the session's checks, the barrier, the write and the wait for its reply. The
      command is written once, right after its barrier is stored, or not at all; a used session is never written to.
     */
    method Dispatch(id: Id, session: AMISession, actionId: string) returns (r: Result<Message>, commit: Commit)
      requires Valid() && Quiet(local.proc) && IsWorker(local.proc, id) && tasks[id].Dispatching?
      requires IsActionId(actionId)
      modifies this`local, this`tasks, this`busy, this`healthy, db, session
      ensures Valid() && IsWorker(local.proc, id) && Quiet(local.proc) && session.controlAttempted
      ensures Dispatched(old(local), local, id, r.Ok?, old(session.controlAttempted), session.sent == old(session.sent))
      ensures local.log != old(local.log) ==>
        && Spells(CommandText(node, old(tasks)[id].op), node, old(tasks)[id].op.kind, old(tasks)[id].op.request)
        && session.sent == old(session.sent) + [ControlText(CommandText(node, old(tasks)[id].op), actionId)]
      ensures r.Ok? ==> (r, session.input) == ReplyFrom(old(session.input), actionId, 100)
      ensures Works(old(local), local, id)
    {
      hide LocalOk, ValidRows, Table, CommandFor, AfterBarrier, DoWrite, ReplyFrom, Payload, CommandFields, IsActionId;
      hide Quiet, Works, BarrierOutcome, Spells, ControlText;
      commit := Committed;
      var w := tasks[id];
      ghost var first := local;
      DispatchingCommand(local, id);
      var command := CommandText(node, w.op);
      CommandIsSpelled(node, w.op);
      ControlIsWritten(command, actionId);
      CommandIsClean(node, w.op.kind, w.op.request, actionId);
      var payload := session.Prepare(CommandFields(command), actionId, true);
      if payload.Err? {
        Throw(id);
        RaiseWorks(first, id);
        QuietHere(local, id);
        return Err(payload.error), commit;
      }
      var crossed;
      crossed, commit := Barrier(id);
      BarrierWorks(first, id, commit);
      if crossed.Err? {
        QuietHere(local, id);
        return Err(crossed.error), commit;
      }
      ghost var second := local;
      Sent(id);
      WriteWorks(second, id);
      WorksOn(first, second, local, id);
      QuietHere(local, id);
      r := session.Exchange(payload.value, actionId);
      if r.Err? {
        ghost var third := local;
        Throw(id);
        RaiseWorks(third, id);
        WorksOn(first, third, local, id);
        QuietHere(local, id);
      }
    }

    // ---- the whole coroutine --------------------------------------------------------------------

    /**
      What can happen while a coroutine waits: requests arrive, the runtime begins to close, and the wait may end with a
      cancellation. The slot is taken, so no request gets further than an answer or a refusal.
     */
    method Await(id: Id) returns (cancelled: bool)
      requires Valid() && Live(local, id)
      modifies this`local, this`tasks, this`busy, this`closing, db
      ensures Valid() && Live(local, id) && tasks == old(tasks)
      ensures Waited(old(local), local) && Works(old(local), local, id)
    {
      hide LocalOk, ValidRows, Table, Quiet, Waited, Works, AdmissionDecided;
      HoldsSlot(local, id);
      NothingHappened(local);
      NoWork(local, id);
      var requests: nat := *;
      while requests > 0
        invariant Valid() && Live(local, id) && owner == old(owner) && tasks == old(tasks) && busy == Held(id)
        invariant Waited(old(local), local) && Works(old(local), local, id)
      {
        var kind: Kind, request: Request, credential: string, key: Option<string>, newId: Id := *, *, *, *, *;
        ghost var before := local;
        var answer, commit := Admit(kind, request, credential, key, newId);
        RequestWaits(before, local, answer, kind, request, credential, key, newId, commit, id);
        WaitedLonger(old(local), before, local);
        WorksOn(old(local), before, local, id);
        requests := requests - 1;
      }
      var closes: bool := *;
      if closes {
        ghost var before := local;
        CloseBegins(local);
        closing := true;
        local := local.(proc := local.proc.(closing := true));
        CloseWaits(before, id);
        WaitedLonger(old(local), before, local);
        WorksOn(old(local), before, local, id);
      }
      cancelled := *;
    }

    /** The next observation of a watch, unless the task is cancelled while it waits or the observation raises. */
    method Look(id: Id, observer: Observer, clock: Clock)
      returns (state: NodeState, ending: Ending, commit: Commit, ghost at: Local)
      requires Valid() && Live(local, id) && tasks[id].Verifying?
      modifies this`local, this`tasks, this`busy, this`healthy, this`closing, db, observer, clock`now
      ensures Valid() && LocalOk(at) && Waited(old(local), at) && Works(old(local), local, id)
      ensures match ending
        case Interrupted => local == DoCancel(at, id, commit)
        case Broken => local == At(at, id, Unwinding(true))
        case Judged => Live(local, id) && local == at && tasks == old(tasks) && owner == old(owner) && Evident(state)
      ensures observer.published == old(observer.published) + if ending.Judged? then [state] else []
      ensures clock.now >= old(clock.now)
    {
      hide LocalOk, ValidRows, Table, DoCancel, Evident, Quiet, Waited, Works, CancelOutcome;
      state, commit := UnknownState(node, None, ""), Committed;
      clock.Pass();
      var cancelled := Await(id);
      at := local;
      if cancelled {
        commit := Cancelled(id);
        CancelWorks(at, id, commit);
        WorksOn(old(local), at, local, id);
        return state, Interrupted, commit, at;
      }
      var failed: bool := *;
      if failed {
        Throw(id);
        RaiseWorks(at, id);
        WorksOn(old(local), at, local, id);
        return state, Broken, commit, at;
      }
      state := observer.Snapshot();
      ending := Judged;
    }

    /**
      Watches for the effect until it is there, the deadline has passed, the task is cancelled or an observation raises;
      nothing is stored before that. A verdict rests on at least one observation, the first that is conclusive or past
      the deadline; between two of them lies one sleep, and their number is bounded by the window. The last step starts
      from what the waits before it left.
     */
    method VerifyEffect(id: Id, observer: Observer, clock: Clock, timeout: real)
      returns (snapshots: nat, last: NodeState, ending: Ending, commit: Commit, ghost at: Local,
        ghost seen: seq<NodeState>)
      requires Valid() && Live(local, id) && tasks[id].Verifying?
      modifies this`local, this`tasks, this`busy, this`healthy, this`closing, db, observer, clock
      ensures Valid() && LocalOk(at) && Waited(old(local), at) && Works(old(local), local, id)
      ensures var expired := clock.now >= old(clock.now) + timeout;
        match ending
        case Interrupted => local == DoCancel(at, id, commit)
        case Broken => local == At(at, id, Unwinding(true))
        case Judged =>
          && Evident(last) && local == DoVerify(at, id, last, expired, commit)
          && WatchOutcome(at, local, id, last, expired, commit)
          && (expired || Decisive(old(tasks)[id].op, last)) && seen != [] && last == Last(seen)
      ensures observer.published == old(observer.published) + seen && snapshots == |seen|
      ensures forall i :: 0 <= i < (if ending.Judged? then |seen| - 1 else |seen|) ==>
        Inconclusive(old(tasks)[id].op, seen[i])
      ensures old(clock.naps) <= clock.naps
      ensures var naps := clock.naps[|old(clock.naps)|..];
        Naps(naps, old(clock.now) + timeout) && |naps| == if ending.Judged? then |seen| - 1 else |seen|
      ensures snapshots > 1 ==> (snapshots - 2) as real < 2.0 * timeout
    {
      hide LocalOk, ValidRows, Table, DoVerify, DoCancel, Decisive, Inconclusive, Evident, Quiet, Waited, Works,
        WatchOutcome, CancelOutcome, Naps;
      var deadline := clock.now + timeout;
      var op := tasks[id].op;
      snapshots, at, last, commit := 0, local, UnknownState(node, None, ""), Committed;
      seen := [];
      ghost var before, naps: seq<(real, real)> := local, [];
      NothingHappened(local);
      NoWork(local, id);
      NoNaps(deadline);
      while true
        invariant Valid() && Live(local, id) && owner == old(owner) && tasks == old(tasks) && before == local
        invariant Waited(old(local), local) && Works(old(local), local, id)
        invariant observer.published == old(observer.published) + seen && snapshots == |seen| == |naps|
        invariant forall i :: 0 <= i < |seen| ==> Inconclusive(op, seen[i])
        invariant clock.naps == old(clock.naps) + naps && Naps(naps, deadline)
        invariant Reached(clock.now, old(clock.now), timeout, snapshots)
        invariant snapshots > 1 ==> (snapshots - 2) as real < 2.0 * timeout
        invariant snapshots > 0 ==> (snapshots - 1) as real < 2.0 * timeout
        decreases (2.0 * timeout).Floor + 2 - snapshots
      {
        last, ending, commit, at := Look(id, observer, clock);
        WaitedLonger(old(local), before, at);
        WorksOn(old(local), before, local, id);
        if !ending.Judged? {
          return;
        }
        snapshots, seen := snapshots + 1, seen + [last];
        var expired := clock.now >= deadline;
        DecisiveDecided(local, id, last);
        if Decisive(op, last) || expired {
          commit := Verified(id, last, expired);
          VerifyWorks(at, id, last, expired, commit);
          WorksOn(old(local), at, local, id);
          return;
        }
        before := local;
        var left := deadline - clock.now;
        NapsGrow(naps, deadline, clock.now);
        naps := naps + [(clock.now, if left < 0.5 then left else 0.5)];
        clock.Sleep(if left < 0.5 then left else 0.5);
      }
    }

    /** From the first step to the decision to send; a failing observation unwinds, a cancellation ends it. */
    method Approach(id: Id, observer: Observer)
      requires Valid() && Quiet(local.proc) && IsWorker(local.proc, id) && tasks[id].Created?
      modifies this`local, this`tasks, this`busy, this`healthy, this`closing, db, observer
      ensures Valid() && Written(local.log) == Written(old(local.log)) && Works(old(local), local, id)
      ensures if id !in tasks then Settled(local, id)
        else
          && Live(local, id) && (tasks[id].Dispatching? || tasks[id] == Unwinding(false))
          && (tasks[id].Dispatching? ==> tasks[id].op == old(local).disk[id].document)
    {
      hide LocalOk, ValidRows, Table, DoBegin, DoObserve, DoCancel, Evident, Quiet, Written, Settled, Works;
      WorkerHasRow(local, id);
      ghost var first := local;
      var commit := Begin(id);
      BeginLeads(first, id, commit);
      BeginWorks(first, id, commit);
      if id !in tasks {
        return;
      }
      QuietHere(local, id);
      ghost var begun := local;
      var cancelled := Await(id);
      ghost var second := local;
      WorksOn(first, begun, second, id);
      if cancelled {
        EndCancelled(id);
        WorksOn(first, second, local, id);
        return;
      }
      var failed: bool := *;
      if failed {
        Throw(id);
        RaiseWorks(second, id);
        WorksOn(first, second, local, id);
        QuietHere(local, id);
        return;
      }
      var before := observer.Snapshot();
      commit := Judge(id, before);
      ObserveLeads(second, id, before, commit);
      ObserveWorks(second, id, before, commit);
      WorksOn(first, second, local, id);
      if id in tasks {
        QuietHere(local, id);
      }
    }

    /** A session of its own for the one control action; without a session nothing is written. */
    method Transmit(id: Id, username: string, secret: string, loginId: string, actionId: string)
      returns (session: AMISession?, r: Result<Message>)
      requires Valid() && Live(local, id) && tasks[id].Dispatching? && IsActionId(actionId)
      modifies this`local, this`tasks, this`busy, this`healthy, this`closing, db
      ensures Valid() && (session != null ==> fresh(session)) && Works(old(local), local, id)
      ensures if id !in tasks then Settled(local, id) && r.Err?
        else Live(local, id) && if r.Ok? then tasks[id].Awaiting? else tasks[id].Unwinding?
      ensures Wired(old(local).log, local.log, id, if session == null then 0 else |session.sent|)
      ensures session != null ==> |session.sent| > 0 && session.sent[0] == LoginText(username, secret, loginId)
      ensures session != null && |session.sent| == 2 ==>
        Sends(session.sent[1], node, old(tasks)[id].op.kind, old(tasks)[id].op.request, actionId)
    {
      hide LocalOk, ValidRows, Table, Quiet, Written, CommandText, IsActionId, Payload, CommandFields, Greets,
        ReplyFrom;
      hide DoCancel, Settled, IsFrame, Works, LoggedIn, Injects;
      session := null;
      ghost var first := local;
      var cancelled := Await(id);
      ghost var was := local;
      if cancelled {
        EndCancelled(id);
        WorksOn(first, was, local, id);
        return null, Err(Raised("CancelledError"));
      }
      var input: string := *;
      var opening := OpenSession(input, username, secret, loginId);
      if opening.Err? {
        Throw(id);
        RaiseWorks(was, id);
        WorksOn(first, was, local, id);
        QuietHere(local, id);
        return null, Err(opening.error);
      }
      session := opening.value;
      var commit;
      r, commit := Dispatch(id, session, actionId);
      CrossingWrites(was, local, id, r.Ok?, false, session.sent == [session.sent[0]]);
      ghost var written := local;
      WorksOn(first, was, written, id);
      cancelled := Await(id);
      ghost var waited := local;
      WorksOn(first, written, waited, id);
      if cancelled {
        EndCancelled(id);
        WorksOn(first, waited, local, id);
        r := Err(Raised("CancelledError"));
      }
    }

    /** A cancellation delivered to a coroutine that has begun: its handler saves, and the coroutine ends. */
    method EndCancelled(id: Id)
      requires Valid() && Live(local, id) && !tasks[id].Created?
      modifies this`local, this`tasks, this`busy, this`healthy, db
      ensures Valid() && id !in tasks && Settled(local, id) && local.log == old(local.log)
      ensures Works(old(local), local, id)
    {
      hide LocalOk, ValidRows, Table, Quiet, DoCancel, Settled, Works;
      ghost var before := local;
      var commit := Cancelled(id);
      CancelLeads(before, id, commit);
      CancelWorks(before, id, commit);
    }

    /** From the reply to the end, an exception on the way excepted. */
    method FollowUp(id: Id, message: Message, observer: Observer, clock: Clock, effectTimeout: real)
      requires Valid() && Live(local, id) && tasks[id].Awaiting?
      modifies this`local, this`tasks, this`busy, this`healthy, this`closing, db, observer, clock
      ensures Valid() && Written(local.log) == Written(old(local.log)) && Works(old(local), local, id)
      ensures if id !in tasks then Settled(local, id) else Live(local, id) && tasks[id].Unwinding?
    {
      hide LocalOk, ValidRows, Table, AfterReply, DoVerify, DoCancel, Evident, Decisive, Quiet, Settled, Written, Works;
      ghost var first := local;
      var commit, final, _ := Replied(id, message);
      ReplyLeads(first, id, message, commit, final);
      ReplyWorks(first, id, message, commit, final);
      ghost var second := local;
      if id in tasks {
        QuietHere(local, id);
        if tasks[id].Verifying? {
          ghost var start := clock.now;
          var _, last, ending, saved, at, _ := VerifyEffect(id, observer, clock, effectTimeout);
          WorksOn(first, second, local, id);
          match ending {
            case Interrupted => CancelLeads(at, id, saved);
            case Broken =>
            case Judged => VerifyLeads(at, id, last, clock.now >= start + effectTimeout, saved);
          }
          if id in tasks {
            QuietHere(local, id);
          }
        }
      }
    }

    /**
      An operation's whole coroutine, whatever happens while it waits and wherever it is cancelled: it ends with the
      operation finished or with admission stopped, it always gives the slot back, and the command was written once or
      not at all.
     */
    method Execute(id: Id, observer: Observer, clock: Clock, effectTimeout: real, username: string, secret: string,
        loginId: string, actionId: string)
      returns (session: AMISession?)
      requires Valid() && Quiet(local.proc) && IsWorker(local.proc, id) && tasks[id].Created? && IsActionId(actionId)
      modifies this`local, this`tasks, this`busy, this`healthy, this`closing, db, observer, clock
      ensures Valid() && Settled(local, id) && Works(old(local), local, id)
      ensures SameExcept(old(local).disk, local.disk, {id}) && old(local).log <= local.log
      ensures Wired(old(local).log, local.log, id, if session == null then 0 else |session.sent|)
      ensures session != null && |session.sent| == 2 ==>
        && id in old(local).disk
        && var op := old(local).disk[id].document;
           session.sent[0] == LoginText(username, secret, loginId)
           && Sends(session.sent[1], node, op.kind, op.request, actionId)
    {
      hide LocalOk, ValidRows, Table, Quiet, Written, CommandText, IsActionId, Payload, CommandFields, Settled;
      hide SaveAndFinish, HandlerChanges, Works, SameExcept;
      session := null;
      WorkerHasRow(local, id);
      ghost var first := local;
      Approach(id, observer);
      if id in tasks && tasks[id].Dispatching? {
        ghost var second := local;
        var r;
        session, r := Transmit(id, username, secret, loginId, actionId);
        ghost var third := local;
        WorksOn(first, second, third, id);
        if r.Ok? {
          FollowUp(id, r.value, observer, clock, effectTimeout);
          WorksOn(first, third, local, id);
        }
      }
      if id in tasks {
        ghost var last := local;
        var commit := Failed(id);
        UnwindLeads(last, id, commit);
        UnwindWorks(last, id, commit);
        WorksOn(first, last, local, id);
      }
      WorksFrame(first, local, id);
    }

    // ---- close ----------------------------------------------------------------------------------

    /**
      Refuses everything from now on, cancels every task, waits for them, and lets go of ledger and lock. Nothing is
      written to the wire. Only operations that had a task can change, and each ends with what its coroutine's handler
      saves. All this is the protocol's closing: it begins, the tasks are cancelled, it ends. A runtime that does not
      own the node, because it never started or is closed already, only stops admitting.
     */
    method Close(observer: Observer) returns (ghost drained: Local)
      requires Valid() && Quiet(local.proc)
      modifies this, db, lock, observer
      ensures Valid() && closing && owner == null && ledger == null && tasks == map[] && busy.Free?
      ensures lock.holder == if old(owner) == null then old(lock.holder) else null
      ensures observer.generation == old(observer.generation) + 1
      ensures local.log == old(local.log) + if old(owner) == null then [] else [Ended(pid)]
      ensures SameExcept(old(local).disk, local.disk, old(tasks).Keys)
      ensures forall id :: id in old(tasks) ==> CancelledAs(old(local), local, id)
      ensures old(owner) != null ==>
        && Leads(old(local), drained) && drained.proc.closing && drained.proc.workers == map[] && drained.pid == pid
        && local == drained.(proc := drained.proc.(phase := Stopped, slot := Free), log := drained.log + [Ended(pid)])
    {
      hide LocalOk, ValidRows, Table, SameExcept, Quiet, Synchronous, Leads, CancelledAs;
      ghost var first := local;
      closing := true;
      observer.Invalidate();
      if owner == null {
        CloseStoppedIsOk(local);
        NothingChanged(local.disk, tasks.Keys);
        ledger := null;
        local := local.(proc := View());
        drained := local;
      } else {
        CloseBegins(local);
        BeginCloseLeads(local);
        local := local.(proc := local.proc.(closing := true));
        ghost var begun := local;
        CancelAll();
        drained := local;
        LeadsOn(first, begun, drained);
        ClosedIsOk(local);
        busy := Free;
        ledger := null;
        owner.Close();
        owner := null;
        local := local.(proc := View(), log := local.log + [Ended(pid)]);
        forall id | id in first.proc.workers ensures CancelledAs(first, local, id) {
          CancelSeen(begun, drained, first, local, id);
        }
      }
    }

    method CancelAll()
      requires Valid() && Open() && Quiet(local.proc)
      modifies this`local, this`tasks, this`busy, this`healthy, db
      ensures Valid() && Open() && tasks == map[] && local.log == old(local.log)
      ensures SameExcept(old(local).disk, local.disk, old(tasks).Keys) && Leads(old(local), local)
      ensures forall id :: id in old(tasks) ==> CancelledAs(old(local), local, id)
    {
      hide LocalOk, ValidRows, Table, DoCancel, Quiet, Cancelling, CancelledAs, Leads, SameExcept;
      ghost var first := local;
      CancellingBegins(local);
      while tasks != map[]
        invariant Valid() && Open() && Quiet(local.proc) && Cancelling(first, local)
        decreases |tasks|
      {
        var id :| id in tasks;
        ghost var before := local;
        var commit := Cancelled(id);
        CancellingGoesOn(first, before, id, commit);
      }
      AllCancelled(first, local);
    }
  }
}
