/**
  The contract of the whole protocol in a few lines: each operation is a one-shot object. It is pending, may then
  be started, written at most once and acknowledged, and becomes final; nothing leads back.
 */
module OneShot {
  import opened Base
  import opened Models
  import opened Policy
  import opened Effects
  import opened CanonicalJson
  import opened Rows
  import opened Ami
  import opened Protocol
  import opened Invariant
  import opened Preservation
  import opened Safety

  datatype Stage = Pending | Started | Acknowledged | Final(dispatch: Dispatch, effect: Effect)

  datatype Spec = Spec(stages: map<Id, Stage>, written: set<Id>)

  /** What may be claimed in the end, given how far the operation came and whether it was written. */
  predicate MayEnd(from: Stage, written: bool, dispatch: Dispatch, effect: Effect) {
    match from
    case Pending => !written && dispatch == NOT_DISPATCHED && effect in {NOT_ATTEMPTED, OBSERVED_SATISFIED}
    case Started =>
      || (!written && dispatch == NOT_DISPATCHED && effect == NOT_ATTEMPTED)
      || (written && dispatch == REJECTED && effect == NOT_ATTEMPTED)
      || (dispatch == OUTCOME_UNKNOWN && effect == UNKNOWN)
    case Acknowledged =>
      || (written && dispatch == ACKNOWLEDGED && (effect == UNKNOWN || IsObservedEffect(effect)))
      || (dispatch == OUTCOME_UNKNOWN && effect == UNKNOWN)
    case Final(_, _) => false
  }

  ghost predicate SpecNext(s: Spec, t: Spec) {
    || s == t
    || (exists id :: id !in s.stages && t == s.(stages := s.stages[id := Pending]))
    || (exists id :: id in s.stages && Moves(s, t, id))
  }

  ghost predicate Moves(s: Spec, t: Spec, id: Id)
    requires id in s.stages
  {
    || (s.stages[id].Pending? && t == s.(stages := s.stages[id := Started]))
    || (s.stages[id].Started? && id !in s.written && t == s.(written := s.written + {id}))
    || (s.stages[id].Started? && id in s.written && t == s.(stages := s.stages[id := Acknowledged]))
    || (exists d, e :: MayEnd(s.stages[id], id in s.written, d, e) && t == s.(stages := s.stages[id := Final(d, e)]))
  }

  function StageOf(op: Operation): Stage {
    if op.terminal then Final(op.dispatch, op.effect)
    else match op.dispatch
      case QUEUED => Pending
      case DISPATCH_STARTED => Started
      case _ => Acknowledged
  }

  function Stages(disk: Disk): map<Id, Stage> {
    map id | id in disk :: StageOf(disk[id].document)
  }

  ghost function Abstraction(w: World): Spec {
    Spec(Stages(w.disk), Written(w.log))
  }

  /** One stored change of one operation, with its history unchanged, as the specification sees it. */
  ghost predicate Revised(l: Local, l': Local, id: Id) {
    && id in l.disk && id in l'.disk && l'.disk == l.disk[id := l'.disk[id]]
    && Written(l'.log) == Written(l.log)
  }

  ghost function Seen(l: Local): Spec {
    Spec(Stages(l.disk), Written(l.log))
  }

  lemma Updates(l: Local, l': Local, id: Id)
    requires Revised(l, l', id)
    ensures Seen(l') == Seen(l).(stages := Seen(l).stages[id := StageOf(l'.disk[id].document)])
  {
  }

  lemma Ends(l: Local, l': Local, id: Id)
    requires Revised(l, l', id) && StageOf(l'.disk[id].document).Final?
    requires var f := StageOf(l'.disk[id].document);
      MayEnd(StageOf(l.disk[id].document), id in Written(l.log), f.dispatch, f.effect)
    ensures SpecNext(Seen(l), Seen(l'))
  {
    Updates(l, l', id);
    assert Moves(Seen(l), Seen(l'), id);
  }

  lemma Same(l: Local, l': Local)
    requires l'.disk == l.disk && Written(l'.log) == Written(l.log)
    ensures SpecNext(Seen(l), Seen(l'))
  {
  }

  /** A final save, whichever way its commit went. */
  lemma FinalSave(l: Local, seen: Local, id: Id, c: Changes, commit: Commit)
    requires LocalOk(l) && IsWorker(l.proc, id) && c.terminal
    requires seen.disk == l.disk && seen.proc == l.proc && Written(seen.log) == Written(l.log)
    requires var f := Revise(l.disk[id].document, c);
      MayEnd(StageOf(l.disk[id].document), id in Written(l.log), f.dispatch, f.effect)
    ensures SpecNext(Seen(l), Seen(SaveAndFinish(seen, id, c, commit)))
  {
    hide LocalOk, WorkerOk, Written, SpecNext, RowOk;
    OneWorker(l, id);
    var l' := SaveAndFinish(seen, id, c, commit);
    if commit.Lost? {
      Same(l, l');
    } else {
      Ends(l, l', id);
    }
  }

  lemma HandlerRefines(l: Local, id: Id, cancelled: bool, commit: Commit)
    requires LocalOk(l) && IsWorker(l.proc, id)
    ensures var changes := HandlerChanges(HasStarted(l.proc.workers[id]), cancelled);
      SpecNext(Seen(l), Seen(SaveAndFinish(l, id, changes, commit)))
  {
    hide LocalOk, Written, SpecNext, RowShape, Cleared, Since, SaveAndFinish;
    OneWorker(l, id);
    if !HasStarted(l.proc.workers[id]) {
      NotStartedNotWritten(l, id);
    }
    WorkerStage(l, id);
    FinalSave(l, l, id, HandlerChanges(HasStarted(l.proc.workers[id]), cancelled), commit);
  }

  /** Where the row of a worker stands in the specification. */
  lemma WorkerStage(l: Local, id: Id)
    requires LocalOk(l) && IsWorker(l.proc, id)
    ensures id in l.disk
    ensures var w, s := l.proc.workers[id], StageOf(l.disk[id].document);
      && (HasStarted(w) ==> s.Started? || s.Acknowledged?)
      && (!HasStarted(w) ==> s.Pending? || s.Started?)
      && (w.Created? || w.Observing? || w.Dispatching? || w.Checked? ==> s.Pending?)
      && (w.Crossed? || w.Awaiting? ==> s.Started?)
      && (w.Acked? || w.Verifying? ==> s.Acknowledged? && l.disk[id].document.dispatch == ACKNOWLEDGED)
      && (w.Acked? || w.Verifying? ==> id in Written(l.log))
      && (w.Awaiting? ==> id in Written(l.log))
      && (w.Crossed? ==> id !in Written(l.log) && w.op.id == id)
  {
    hide LocalOk, Written, Cleared, Since, Canonical, EffectOf, Barriers;
    OneWorker(l, id);
  }

  lemma ObserveRefines(l: Local, id: Id, state: NodeState, commit: Commit)
    requires LocalOk(l) && IsWorker(l.proc, id) && l.proc.workers[id].Observing?
    ensures SpecNext(Seen(l), Seen(DoObserve(l, id, state, commit)))
  {
    hide LocalOk, Written, SpecNext, SaveAndFinish, EffectOf, Enforce, CommandFor, HistoryOk, Earned, Since;
    var op := l.proc.workers[id].op;
    var e := Observed(l.pid, id, l.proc.config, state);
    var seen := Record(l, e);
    Grow(l.log, e);
    OneWorker(l, id);
    WorkerStage(l, id);
    NotStartedNotWritten(l, id);
    var current := EffectOf(op.kind, op.request, state);
    if op.kind != Announce && current.Err? {
      Same(l, At(seen, id, Unwinding(false)));
    } else if op.kind != Announce && current.value == OBSERVED_SATISFIED {
      FinalSave(l, seen, id, ToFinal(NOT_DISPATCHED, OBSERVED_SATISFIED, "ALREADY_SATISFIED", Some(state)), commit);
    } else {
      match Enforce(l.proc.config, op.kind, state)
      case Some(refusal) =>
        FinalSave(l, seen, id, ToFinal(NOT_DISPATCHED, NOT_ATTEMPTED, CodeOf(refusal), Some(state)), commit);
      case None => Same(l, DoObserve(l, id, state, commit));
    }
  }

  lemma BeginRefines(l: Local, id: Id, commit: Commit)
    requires LocalOk(l) && IsWorker(l.proc, id) && l.proc.workers[id].Created?
    ensures SpecNext(Seen(l), Seen(DoBegin(l, id, commit)))
  {
    hide LocalOk, Written, SpecNext, SaveAndFinish;
    OneWorker(l, id);
    WorkerStage(l, id);
    NotStartedNotWritten(l, id);
    if l.proc.closing || !l.proc.healthy {
      FinalSave(l, l, id, ToFinal(NOT_DISPATCHED, NOT_ATTEMPTED, "CONTROL_UNAVAILABLE", None), commit);
    } else {
      Same(l, DoBegin(l, id, commit));
    }
  }

  lemma BarrierRefines(l: Local, id: Id, commit: Commit)
    requires LocalOk(l) && IsWorker(l.proc, id) && l.proc.workers[id].Checked?
    ensures SpecNext(Seen(l), Seen(DoCommitBarrier(l, id, commit)))
  {
    hide LocalOk, Written, HistoryOk, Earned, Since, RowOk, WorkerOk;
    OneWorker(l, id);
    WorkerStage(l, id);
    Grow(l.log, Barrier(l.pid, id, l.proc.config, l.proc.workers[id].before));
    var l' := DoCommitBarrier(l, id, commit);
    if commit.Lost? {
      Same(l, l');
    } else {
      Updates(l, l', id);
      assert Moves(Seen(l), Seen(l'), id);
    }
  }

  lemma WriteRefines(l: Local, id: Id)
    requires LocalOk(l) && IsWorker(l.proc, id) && l.proc.workers[id].Crossed?
    ensures SpecNext(Seen(l), Seen(DoWrite(l, id)))
  {
    hide LocalOk, Written, HistoryOk, Earned, Since, CommandFor, WorkerOk;
    WorkerStage(l, id);
    var w, l' := l.proc.workers[id], DoWrite(l, id);
    match CommandFor(l.proc.node, w.op.kind, w.op.request)
    case Err(_) =>
    case Ok(command) =>
      Grow(l.log, Wrote(l.pid, w.op, command, l.proc.config, w.before));
      assert Moves(Seen(l), Seen(l'), id);
  }

  lemma ReplyRefines(l: Local, id: Id, message: Message, commit: Commit)
    requires LocalOk(l) && IsWorker(l.proc, id) && l.proc.workers[id].Awaiting?
    ensures SpecNext(Seen(l), Seen(DoReply(l, id, message, commit)))
  {
    hide LocalOk, Written, CommandRejected, SaveAndFinish, WorkerOk, RowOk;
    OneWorker(l, id);
    WorkerStage(l, id);
    var l' := DoReply(l, id, message, commit);
    if CommandRejected(message) {
      FinalSave(l, l, id, ToFinal(REJECTED, NOT_ATTEMPTED, "COMMAND_REJECTED", None), commit);
    } else if !SaysSuccess(message) || commit.Lost? {
      Same(l, l');
    } else {
      Updates(l, l', id);
      assert Moves(Seen(l), Seen(l'), id);
    }
  }

  lemma VerifyRefines(l: Local, id: Id, state: NodeState, expired: bool, commit: Commit)
    requires LocalOk(l) && IsWorker(l.proc, id) && l.proc.workers[id].Verifying?
    ensures SpecNext(Seen(l), Seen(DoVerify(l, id, state, expired, commit)))
  {
    hide LocalOk, Written, SaveAndFinish, RowOk, EffectOf, SpecNext;
    OneWorker(l, id);
    WorkerStage(l, id);
    var op := l.proc.workers[id].op;
    match EffectOf(op.kind, op.request, state)
    case Err(_) => Same(l, DoVerify(l, id, state, expired, commit));
    case Ok(effect) =>
      EffectRange(op.kind, op.request, state);
      if effect == OBSERVED_SATISFIED {
        FinalSave(l, l, id, ToEffect(effect, None, Some(state)), commit);
      } else if expired {
        var code := if effect != UNKNOWN then "EFFECT_NOT_CONFIRMED_WITHIN_OBSERVATION_WINDOW"
                    else "POST_DISPATCH_STATE_UNKNOWN";
        FinalSave(l, l, id, ToEffect(effect, Some(code), Some(state)), commit);
      } else {
        Same(l, l);
      }
  }

  lemma RecoverRefines(l: Local, commit: Commit)
    requires LocalOk(l) && l.proc.phase.Recovering? && l.proc.phase.pending != []
    ensures SpecNext(Seen(l), Seen(DoRecoverRow(l, commit)))
  {
    hide LocalOk, Written, SpecNext, RowOk;
    var op, l' := l.proc.phase.pending[0], DoRecoverRow(l, commit);
    if op.terminal || commit.Lost? {
      Same(l, l');
    } else {
      RecoveredRowOk(op, l);
      RecoverableStage(l, op);
      Ends(l, l', op.id);
    }
  }

  lemma RecoverableStage(l: Local, op: Operation)
    requires LocalOk(l) && l.proc.phase.Recovering? && op in l.proc.phase.pending && !op.terminal
    ensures op.dispatch in {QUEUED, DISPATCH_STARTED, ACKNOWLEDGED}
    ensures op.dispatch == QUEUED ==> op.id !in Written(l.log)
  {
    hide LocalOk, Written, Canonical, EffectOf, CommandFor;
    RecoveredRowOk(op, l);
    PendingRowOk(l, op);
  }

  lemma PendingRowOk(l: Local, op: Operation)
    requires LocalOk(l) && op.id in l.disk
    ensures RowOk(op.id, l.disk[op.id], l.log)
  {
    hide RowOk, ProcOk, HistoryOk;
  }

  lemma ReserveRefines(l: Local, kind: Kind, request: Request, credential: string, key: Option<string>)
    ensures SpecNext(Seen(l), Seen(DoReserve(l, kind, request, credential, key)))
  {
    hide SpecNext, FindIdempotent, Canonical, HistoryOk, Earned, Since, Written, Stages, Barriers, Orphans, KnownIds;
    match FindIdempotent(l.disk, l.proc.node, kind, request, credential, key)
    case Found(id) =>
      Grow(l.log, Answer(l, id, kind, request, credential, key));
      Same(l, DoReserve(l, kind, request, credential, key));
    case Clash =>
      Grow(l.log, Refusal(l, kind, request, credential, key));
      Same(l, DoReserve(l, kind, request, credential, key));
    case Miss => Same(l, DoReserve(l, kind, request, credential, key));
  }

  lemma InsertRefines(l: Local, id: Id, commit: Commit)
    requires LocalOk(l) && l.proc.phase.Running? && l.proc.main.Admitting?
    ensures SpecNext(Seen(l), Seen(DoInsert(l, id, commit)))
  {
    hide DiskOk, HistoryOk, WorkerOk, SlotOk, FindIdempotent, Canonical, Written, Earned, Since, CommandFor, SpecNext;
    var m, l' := l.proc.main, DoInsert(l, id, commit);
    if id in l.disk || commit.Lost? {
      Same(l, l');
    } else if commit.Durable? {
      Grow(l.log, Orphaned(l.pid, id));
      Adds(l, l', id);
    } else {
      Grow(l.log, Admitted(l.pid, id));
      Grow(l.log + [Admitted(l.pid, id)], Answer(l, id, m.kind, m.request, m.credential, m.key));
      Adds(l, l', id);
    }
  }

  lemma Adds(l: Local, l': Local, id: Id)
    requires id !in l.disk && id in l'.disk && l'.disk == l.disk[id := l'.disk[id]]
    requires StageOf(l'.disk[id].document).Pending? && Written(l'.log) == Written(l.log)
    ensures SpecNext(Seen(l), Seen(l'))
  {
    assert Seen(l').stages == Seen(l).stages[id := Pending];
  }

  /** Every step of a runtime is one step of the specification, or none. */
  lemma ActionRefines(l: Local, a: Action)
    requires LocalOk(l) && Can(l, a)
    ensures SpecNext(Seen(l), Seen(Do(l, a)))
  {
    hide LocalOk, SpecNext, Quiet, Enumerates, CommandFor, Evident, DoRecoverRow, DoReserve, DoInsert, DoBegin,
      DoObserve, DoCommitBarrier, DoWrite, DoReply, DoVerify, SaveAndFinish, Seen;
    match a
    case ReadRows(_) => Same(l, Do(l, a));
    case RecoverRow(commit) => RecoverRefines(l, commit);
    case FinishStart => Same(l, Do(l, a));
    case Reserve(kind, request, credential, key) => ReserveRefines(l, kind, request, credential, key);
    case Insert(id, commit) => InsertRefines(l, id, commit);
    case Begin(id, commit) => BeginRefines(l, id, commit);
    case Observe(id, state, commit) => ObserveRefines(l, id, state, commit);
    case CheckBarrier(id) => Same(l, Do(l, a));
    case CommitBarrier(id, commit) => BarrierRefines(l, id, commit);
    case Write(id) => WriteRefines(l, id);
    case Reply(id, message, commit) => ReplyRefines(l, id, message, commit);
    case FinishAnnounce(id, commit) =>
      OneWorker(l, id);
      WorkerStage(l, id);
      FinalSave(l, l, id, ToEffect(UNKNOWN, Some("PLAYBACK_EFFECT_NOT_OBSERVABLE"), None), commit);
    case Verify(id, state, expired, commit) => VerifyRefines(l, id, state, expired, commit);
    case Raise(_) => Same(l, Do(l, a));
    case Unwind(id, commit) => HandlerRefines(l, id, false, commit);
    case Cancel(id, commit) =>
      if l.proc.workers[id].Created? {
        Same(l, Do(l, a));
      } else {
        HandlerRefines(l, id, true, commit);
      }
    case BeginClose => Same(l, Do(l, a));
  }

  /**
    Forward simulation: whatever the runtimes, the disk, the locks and crashes do in one step, the specification
    does in at most one step of its own. Crashing and restarting never lead back to Pending.
   */
  lemma StepRefines(w: World, s: Step)
    requires WorldOk(w) && Enabled(w, s)
    ensures SpecNext(Abstraction(w), Abstraction(Next(w, s)))
  {
    hide ProcOk, DiskOk, HistoryOk, Can, Do, SpecNext, Written, Earned, Since, LocksOk;
    match s
    case Act(pid, a) =>
      ActionRefines(View(w, pid), a);
    case _ =>
      Grow(w.log, Ended(s.pid));
      var w', p := Next(w, s), Fresh("", map[]);
      Same(Local(0, p, w.disk, w.log), Local(0, p, w'.disk, w'.log));
  }

  /** Every run of the system, seen through the abstraction, is a run of the specification. */
  lemma RunsRefine(run: seq<World>, i: nat)
    requires IsRun(run) && 0 < i < |run|
    ensures Abstraction(run[0]) == Spec(map[], {})
    ensures SpecNext(Abstraction(run[i - 1]), Abstraction(run[i]))
  {
    hide WorldOk, SpecNext, Next, Enabled;
    assert Follows(run[i - 1], run[i]);
    var s :| Enabled(run[i - 1], s) && run[i] == Next(run[i - 1], s);
    RunsAreOk(run, i - 1);
    StepRefines(run[i - 1], s);
  }

  // ---- what the specification says --------------------------------------------------------------

  ghost predicate IsSpecRun(specs: seq<Spec>) {
    && specs != [] && specs[0] == Spec(map[], {})
    && forall i :: 0 < i < |specs| ==> SpecNext(specs[i - 1], specs[i])
  }

  ghost predicate SpecOk(s: Spec) {
    && s.written <= s.stages.Keys
    && forall id :: id in s.stages ==>
         match s.stages[id]
         case Pending => id !in s.written
         case Started => true
         case Acknowledged => id in s.written
         case Final(d, _) =>
           && (d == NOT_DISPATCHED ==> id !in s.written)
           && (d in {ACKNOWLEDGED, REJECTED} ==> id in s.written)
  }

  /** Once final, an operation is final in the same way for ever and is not written any more. */
  lemma {:induction false} FinalStaysFinal(specs: seq<Spec>, i: nat, j: nat, id: Id)
    requires IsSpecRun(specs) && i <= j < |specs|
    requires id in specs[i].stages && specs[i].stages[id].Final?
    ensures id in specs[j].stages && specs[j].stages[id] == specs[i].stages[id]
    ensures id in specs[j].written <==> id in specs[i].written
    decreases j
  {
    if i < j {
      FinalStaysFinal(specs, i, j - 1, id);
      assert SpecNext(specs[j - 1], specs[j]);
    }
  }

  /** Every claim the specification makes about the wire is true in each of its states. */
  lemma {:induction false} SpecTellsTheTruth(specs: seq<Spec>, i: nat)
    requires IsSpecRun(specs) && i < |specs|
    ensures SpecOk(specs[i])
  {
    if i > 0 {
      SpecTellsTheTruth(specs, i - 1);
      assert SpecNext(specs[i - 1], specs[i]);
    }
  }
}
