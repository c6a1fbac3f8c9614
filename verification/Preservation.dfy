/** Each step of a runtime keeps the invariant and only moves operations forward. */
module Preservation {
  import opened Base
  import opened Models
  import opened Policy
  import opened Effects
  import opened CanonicalJson
  import opened Rows
  import opened Ami
  import opened Protocol
  import opened Invariant

  /** A local state that satisfies the invariant and is reached by progress from another. */
  ghost predicate Kept(l: Local, l': Local) {
    LocalOk(l') && Progress(l, l')
  }

  lemma KeptTrans(a: Local, b: Local, c: Local)
    requires Progress(a, b) && Progress(b, c)
    ensures Progress(a, c)
  {
    forall i | |a.log| <= i < |c.log| ensures c.log[i].pid == a.pid && !c.log[i].Ended? {
      if i < |b.log| {
        assert c.log[i] == b.log[i];
      }
    }
    forall id | id in Written(c.log) && id !in Written(a.log) && id in a.disk
      ensures a.disk[id].node == a.proc.node
    {
      assert SameBinding(a.disk[id], b.disk[id]);
    }
  }

  /** The held slot has room for one worker, and a worker leaves no room for an admission. */
  lemma OneWorker(l: Local, id: Id)
    requires LocalOk(l) && IsWorker(l.proc, id)
    ensures l.proc.workers.Keys == {id} && l.proc.main.Idle? && l.proc.slot == Held(id)
    ensures WorkerOk(l, id, l.proc.workers[id]) && RowOk(id, l.disk[id], l.log)
    ensures Has(l.disk, l.proc.node, id) && !l.disk[id].document.terminal && l.disk[id].document.id == id
  {
    hide AnswerOk, KeysUnique, KnownIds, HistoryOk, CommandFor, Canonical, EffectOf, Written, Orphans;
    forall o | o in l.proc.workers ensures o == id {
      assert WorkerOk(l, o, l.proc.workers[o]);
    }
  }

  /** Answers given and refused stay true of a table whose rows keep their bindings. */
  lemma AnswersSurvive(log: Log, disk: Disk, disk': Disk, node: Node)
    requires RowsProgress(disk, disk', node)
    requires forall i :: 0 <= i < |log| ==> AnswerOk(log[i], disk)
    ensures forall i :: 0 <= i < |log| ==> AnswerOk(log[i], disk')
  {
    forall i | 0 <= i < |log| ensures AnswerOk(log[i], disk') {
      AnswerSurvives(log[i], disk, disk', node);
    }
  }

  lemma AnswerSurvives(e: Event, disk: Disk, disk': Disk, node: Node)
    requires AnswerOk(e, disk) && RowsProgress(disk, disk', node)
    ensures AnswerOk(e, disk')
  {
    if e.Refused? {
      var id :| id in disk && Binds(disk[id], e.node, e.credential, e.key) && disk[id].canonical != e.canonical;
      assert SameBinding(disk[id], disk'[id]);
    }
  }

  /** Overwriting one unfinished row moves only that row, forwards. */
  lemma StoreProgresses(disk: Disk, node: Node, id: Id, c: Changes, commit: Commit)
    requires Has(disk, node, id) && !disk[id].document.terminal
    requires Rank(disk[id].document) <= Rank(Revise(disk[id].document, c))
    ensures RowsProgress(disk, Store(disk, node, id, c, commit), node)
    ensures KeysUnique(disk) ==> KeysUnique(Store(disk, node, id, c, commit))
    ensures Store(disk, node, id, c, commit).Keys == disk.Keys
  {
    var disk' := Store(disk, node, id, c, commit);
    if KeysUnique(disk) {
      forall i, j | i in disk' && j in disk' && i != j ensures !SameKey(disk'[i], disk'[j]) {
        assert !SameKey(disk[i], disk[j]);
      }
    }
  }

  /** Overwriting one unfinished row with an admissible document keeps the table in order. */
  lemma StoreOk(disk: Disk, log: Log, node: Node, id: Id, c: Changes, commit: Commit)
    requires DiskOk(disk, log) && Has(disk, node, id) && !disk[id].document.terminal
    requires RowOk(id, disk[id].(document := Revise(disk[id].document, c)), log)
    requires Rank(disk[id].document) <= Rank(Revise(disk[id].document, c))
    ensures DiskOk(Store(disk, node, id, c, commit), log)
    ensures RowsProgress(disk, Store(disk, node, id, c, commit), node)
  {
    hide RowOk, AnswerOk, RowsProgress, Rank, Revise, KeysUnique, KnownIds;
    StoreProgresses(disk, node, id, c, commit);
    AnswersSurvive(log, disk, Store(disk, node, id, c, commit), node);
  }

  /** Moving the coroutine of the one worker to a point that its row supports. */
  lemma AtOk(l: Local, id: Id, w: Worker)
    requires LocalOk(l) && IsWorker(l.proc, id) && WorkerOk(At(l, id, w), id, w)
    ensures Kept(l, At(l, id, w))
  {
    hide DiskOk, AnswerOk, WorkerOk, HistoryOk, Written, Orphans, FindIdempotent, Since, CommandFor;
    OneWorker(l, id);
    assert At(l, id, w).proc.workers.Keys == {id};
  }

  lemma FinishedProcOk(l: Local, id: Id, c: Changes, commit: Commit)
    requires ProcOk(l) && IsWorker(l.proc, id) && c.terminal && l.proc.workers.Keys == {id} && l.proc.slot == Held(id)
    requires l.proc.main.Idle?
    ensures ProcOk(SaveAndFinish(l, id, c, commit))
  {
    hide WorkerOk, FindIdempotent, CommandFor, Orphans;
    assert (l.proc.workers - {id}).Keys == {};
  }

  /** Saving a final document and ending the task. */
  lemma SaveAndFinishOk(l: Local, id: Id, c: Changes, commit: Commit)
    requires LocalOk(l) && IsWorker(l.proc, id) && c.terminal
    requires RowOk(id, l.disk[id].(document := Revise(l.disk[id].document, c)), l.log)
    ensures Kept(l, SaveAndFinish(l, id, c, commit))
  {
    hide RowOk, AnswerOk, WorkerOk, KeysUnique, KnownIds, HistoryOk, Written, Orphans, Rank, DiskOk, RowsProgress,
      FindIdempotent, Since, CommandFor, ProcOk;
    OneWorker(l, id);
    FinalRank(l.disk[id].document, c);
    StoreOk(l.disk, l.log, l.proc.node, id, c, commit);
    FinishedProcOk(l, id, c, commit);
  }

  lemma FinalRank(op: Operation, c: Changes)
    requires c.terminal
    ensures Rank(op) <= Rank(Revise(op, c))
  {
  }

  // ---- adding to the history --------------------------------------------------------------------

  /** Events that say nothing new about which rows exist or what was written. */
  predicate Neutral(e: Event) {
    e.Answered? || e.Refused? || e.Observed?
  }

  lemma DiskRecords(disk: Disk, log: Log, e: Event)
    requires DiskOk(disk, log) && AnswerOk(e, disk) && Neutral(e)
    ensures DiskOk(disk, log + [e])
  {
    Grow(log, e);
    hide RowShape, AnswerOk, KeysUnique, Since, HistoryOk, Earned;
  }

  lemma WorkerRecords(l: Local, e: Event, id: Id, w: Worker)
    requires WorkerOk(l, id, w) && Neutral(e)
    ensures WorkerOk(Record(l, e), id, w)
  {
    Grow(l.log, e);
    hide Justified, HistoryOk, Earned;
  }

  lemma ProcRecords(l: Local, e: Event)
    requires ProcOk(l) && Neutral(e)
    ensures ProcOk(Record(l, e))
  {
    Grow(l.log, e);
    hide WorkerOk, HistoryOk, Earned, Since, FindIdempotent;
    forall id | id in l.proc.workers && l.proc.phase.Running?
      ensures WorkerOk(Record(l, e), id, l.proc.workers[id])
    {
      WorkerRecords(l, e, id, l.proc.workers[id]);
    }
  }

  /** Adding such an event to the history of a runtime. */
  lemma RecordOk(l: Local, e: Event)
    requires LocalOk(l) && Earned(l.log, e) && AnswerOk(e, l.disk) && e.pid == l.pid && Neutral(e)
    ensures Kept(l, Record(l, e))
  {
    hide DiskOk, ProcOk, HistoryOk, Earned, AnswerOk, Since, Written, Orphans, KnownIds, Barriers;
    Grow(l.log, e);
    DiskRecords(l.disk, l.log, e);
    ProcRecords(l, e);
  }

  // ---- start and recovery -----------------------------------------------------------------------

  lemma KeepReadRows(l: Local, pending: seq<Operation>)
    requires LocalOk(l) && l.proc.phase.Starting? && Enumerates(pending, l.disk, l.proc.node)
    ensures Kept(l, l.(proc := l.proc.(phase := Recovering(pending))))
  {
    hide DiskOk, HistoryOk, Written, Orphans;
  }

  lemma KeepRecoverRow(l: Local, commit: Commit)
    requires LocalOk(l) && l.proc.phase.Recovering? && l.proc.phase.pending != []
    ensures Kept(l, DoRecoverRow(l, commit))
  {
    hide RowOk, AnswerOk, RowShape, KeysUnique, KnownIds, HistoryOk, Written, Orphans, RowsProgress, Rank, Revise,
      RecoveryChanges, DiskOk, RecoverOk, WorkerOk, SlotOk, FindIdempotent, CommandFor;
    var op := l.proc.phase.pending[0];
    if !op.terminal {
      RecoveredRowOk(op, l);
      StoreOk(l.disk, l.log, l.proc.node, op.id, RecoveryChanges(op), commit);
      RecoveryAdvances(l.proc.phase.pending, l.disk, l.proc.node, commit);
    } else {
      SkipAdvances(l.proc.phase.pending, l.disk, l.proc.node);
    }
  }

  lemma SkipAdvances(pending: seq<Operation>, disk: Disk, node: Node)
    requires pending != [] && pending[0].terminal && RecoverOk(pending, disk, node)
    ensures RecoverOk(pending[1..], disk, node)
    ensures RowsProgress(disk, disk, node)
  {
  }

  lemma RecoveredRowOk(op: Operation, l: Local)
    requires LocalOk(l) && l.proc.phase.Recovering? && op in l.proc.phase.pending && !op.terminal
    ensures Has(l.disk, l.proc.node, op.id) && l.disk[op.id].document == op
    ensures RowOk(op.id, l.disk[op.id].(document := Revise(op, RecoveryChanges(op))), l.log)
    ensures Rank(op) <= Rank(Revise(op, RecoveryChanges(op)))
    ensures forall id :: id in l.disk ==> l.disk[id].document.id == id
  {
    hide AnswerOk, KeysUnique, KnownIds, HistoryOk, CommandFor, Canonical, EffectOf, Written, Barriers;
    assert RowOk(op.id, l.disk[op.id], l.log);
  }

  lemma RecoveryAdvances(pending: seq<Operation>, disk: Disk, node: Node, commit: Commit)
    requires pending != [] && !pending[0].terminal && RecoverOk(pending, disk, node)
    requires forall id :: id in disk ==> disk[id].document.id == id
    ensures commit.Committed? ==>
      RecoverOk(pending[1..], Store(disk, node, pending[0].id, RecoveryChanges(pending[0]), commit), node)
  {
    var disk' := Store(disk, node, pending[0].id, RecoveryChanges(pending[0]), commit);
    if commit.Committed? {
      forall id | Has(disk', node, id) && !disk'[id].document.terminal ensures disk'[id].document in pending[1..] {
        assert id != pending[0].id && disk[id].document in pending;
      }
    }
  }

  lemma KeepFinishStart(l: Local)
    requires LocalOk(l) && l.proc.phase == Recovering([])
    ensures Kept(l, l.(proc := l.proc.(phase := Running)))
  {
    hide DiskOk, HistoryOk, Written, Orphans;
  }

  // ---- admission --------------------------------------------------------------------------------

  lemma AnswersAreBound(l: Local, kind: Kind, request: Request, credential: string, key: Option<string>)
    ensures var found := FindIdempotent(l.disk, l.proc.node, kind, request, credential, key);
      && (found.Found? ==> AnswerOk(Answer(l, found.id, kind, request, credential, key), l.disk))
      && (found.Clash? ==> AnswerOk(Refusal(l, kind, request, credential, key), l.disk))
  {
    hide Canonical;
  }

  lemma KeepReserve(l: Local, kind: Kind, request: Request, credential: string, key: Option<string>)
    requires LocalOk(l) && l.proc.phase.Running? && Quiet(l.proc) && l.proc.healthy && !l.proc.closing
    requires CommandFor(l.proc.node, kind, request).Ok?
    ensures Kept(l, DoReserve(l, kind, request, credential, key))
  {
    hide DiskOk, HistoryOk, AnswerOk, FindIdempotent, CommandFor, Canonical, Written, Orphans, RowsProgress, WorkerOk;
    AnswersAreBound(l, kind, request, credential, key);
    match FindIdempotent(l.disk, l.proc.node, kind, request, credential, key)
    case Found(id) => RecordOk(l, Answer(l, id, kind, request, credential, key));
    case Clash => RecordOk(l, Refusal(l, kind, request, credential, key));
    case Miss =>
      RowsStay(l.disk, l.proc.node);
      if l.proc.slot.Free? {
        FreeMeansIdle(l);
      }
  }

  lemma RowsStay(disk: Disk, node: Node)
    ensures RowsProgress(disk, disk, node)
  {
  }

  lemma FreeMeansIdle(l: Local)
    requires ProcOk(l) && l.proc.phase.Running? && !l.proc.slot.Held?
    ensures l.proc.workers == map[]
  {
    hide FindIdempotent, SlotOk;
    assert forall id :: id in l.proc.workers ==> l.proc.slot == Held(id);
    assert l.proc.workers.Keys == {};
  }

  /** A new row binds a key that no stored row binds. */
  lemma NewRowFits(disk: Disk, id: Id, node: Node, kind: Kind, request: Request, credential: string,
      key: Option<string>)
    requires KeysUnique(disk) && id !in disk && FindIdempotent(disk, node, kind, request, credential, key).Miss?
    ensures KeysUnique(disk[id := NewRow(id, node, kind, request, credential, key)])
    ensures RowsProgress(disk, disk[id := NewRow(id, node, kind, request, credential, key)], node)
  {
    hide Canonical;
    InsertKeepsKeys(disk, node, kind, request, credential, key, id);
  }

  /** Only known rows were ever written or crossed a barrier. */
  lemma {:induction false} HistoryKnows(log: Log)
    requires HistoryOk(log)
    ensures Written(log) <= Barriers(log) <= KnownIds(log) && Orphans(log) <= KnownIds(log)
    ensures forall id, pid :: Since(log, Admitted(pid, id), pid) ==> id in KnownIds(log)
    ensures forall id, pid, config, before :: Since(log, Observed(pid, id, config, before), pid) ==> id in KnownIds(log)
    ensures forall id, pid, config, before :: Since(log, Barrier(pid, id, config, before), pid) ==> id in Barriers(log)
  {
    hide Justified, CommandFor;
    if log != [] {
      HistoryKnows(Init(log));
    }
  }

  /** The table and history after an insertion became durable, whatever was reported. */
  lemma InsertedDiskOk(disk: Disk, log: Log, e: Event, id: Id, node: Node, kind: Kind, request: Request,
      credential: string, key: Option<string>)
    requires HistoryOk(log) && DiskOk(disk, log) && id !in disk
    requires CommandFor(node, kind, request).Ok?
    requires FindIdempotent(disk, node, kind, request, credential, key).Miss?
    requires (e.Admitted? || e.Orphaned?) && e.id == id
    ensures var disk' := disk[id := NewRow(id, node, kind, request, credential, key)];
      HistoryOk(log + [e]) && DiskOk(disk', log + [e]) && RowsProgress(disk, disk', node)
  {
    hide Canonical, CommandFor, AnswerOk, FindIdempotent, HistoryOk, KeysUnique, Since, RowsProgress, EffectOf;
    var row := NewRow(id, node, kind, request, credential, key);
    var disk' := disk[id := row];
    Grow(log, e);
    HistoryKnows(log);
    NewRowFits(disk, id, node, kind, request, credential, key);
    AnswersSurvive(log, disk, disk', node);
    assert AnswerOk(e, disk') by {
      NotAnAnswer(e, disk');
    }
    assert RowOk(id, row, log + [e]);
    forall i | i in disk' && i != id ensures RowOk(i, disk'[i], log + [e]) {
      assert RowOk(i, disk[i], log);
    }
  }

  lemma NotAnAnswer(e: Event, disk: Disk)
    requires !e.Answered? && !e.Refused?
    ensures AnswerOk(e, disk)
  {
  }

  /** The admitting call gives the slot back when nothing new was stored. */
  lemma BackToIdle(l: Local)
    requires LocalOk(l) && l.proc.phase.Running? && l.proc.main.Admitting?
    ensures Kept(l, l.(proc := l.proc.(slot := Free, main := Idle)))
  {
    hide DiskOk, HistoryOk, FindIdempotent, CommandFor, Written, Orphans, RowsProgress, WorkerOk;
    FreeMeansIdle(l);
    RowsStay(l.disk, l.proc.node);
  }

  lemma KeepInsert(l: Local, id: Id, commit: Commit)
    requires LocalOk(l) && l.proc.phase.Running? && l.proc.main.Admitting?
    ensures Kept(l, DoInsert(l, id, commit))
  {
    hide DiskOk, HistoryOk, AnswerOk, FindIdempotent, CommandFor, Canonical, Written, Orphans, RowsProgress, WorkerOk;
    if id in l.disk || commit.Lost? {
      BackToIdle(l);
    } else if commit.Durable? {
      KeepOrphan(l, id);
    } else {
      KeepAdmission(l, id);
    }
  }

  /** Admission stored its row but reported failure: the row waits, unowned, for the next recovery. */
  lemma KeepOrphan(l: Local, id: Id)
    requires LocalOk(l) && l.proc.phase.Running? && l.proc.main.Admitting? && id !in l.disk
    ensures Kept(l, DoInsert(l, id, Durable))
  {
    hide DiskOk, HistoryOk, AnswerOk, FindIdempotent, CommandFor, Canonical, RowsProgress, WorkerOk, Written, Orphans;
    var m, e := l.proc.main, Orphaned(l.pid, id);
    FreeMeansIdle(l);
    InsertedDiskOk(l.disk, l.log, e, id, l.proc.node, m.kind, m.request, m.credential, m.key);
    Grow(l.log, e);
  }

  /** The runtime right after an admission: the new operation's coroutine is its only one. */
  lemma AdmittedProcOk(l: Local, mid: Local, id: Id, row: Row)
    requires ProcOk(l) && l.proc.phase.Running? && l.proc.main.Admitting? && l.proc.workers == map[]
    requires SlotOk(l) && l.proc.healthy && !l.proc.closing && row.node == l.proc.node
    requires row.document.dispatch == QUEUED && !row.document.terminal
    requires mid == Local(l.pid, l.proc.(slot := Held(id), main := Idle, workers := l.proc.workers[id := Created]),
      l.disk[id := row], l.log + [Admitted(l.pid, id)])
    requires forall o :: Has(l.disk, l.proc.node, o) && !l.disk[o].document.terminal ==> o in Orphans(l.log)
    ensures ProcOk(mid)
  {
    hide FindIdempotent, CommandFor, Canonical, Written, Orphans, HistoryOk, Earned, Barriers, KnownIds, Justified;
    Grow(l.log, Admitted(l.pid, id));
    assert mid.proc.workers.Keys == {id};
  }

  lemma KeepAdmission(l: Local, id: Id)
    requires LocalOk(l) && l.proc.phase.Running? && l.proc.main.Admitting? && id !in l.disk
    ensures Kept(l, DoInsert(l, id, Committed))
  {
    hide DiskOk, HistoryOk, AnswerOk, FindIdempotent, CommandFor, Canonical, RowsProgress, Written, Orphans;
    var m, e := l.proc.main, Admitted(l.pid, id);
    FreeMeansIdle(l);
    InsertedDiskOk(l.disk, l.log, e, id, l.proc.node, m.kind, m.request, m.credential, m.key);
    Grow(l.log, e);
    var row := NewRow(id, l.proc.node, m.kind, m.request, m.credential, m.key);
    var mid := Local(l.pid, l.proc.(slot := Held(id), main := Idle, workers := l.proc.workers[id := Created]),
      l.disk[id := row], l.log + [e]);
    AdmittedProcOk(l, mid, id, row);
    var a := Answer(l, id, m.kind, m.request, m.credential, m.key);
    NewAnswerOk(mid, m, id, row, a);
    RecordOk(mid, a);
    KeptTrans(l, mid, Record(mid, a));
  }

  lemma NewAnswerOk(l: Local, m: Main, id: Id, row: Row, a: Event)
    requires m.Admitting? && id in l.disk && l.disk[id] == row
    requires row == NewRow(id, l.proc.node, m.kind, m.request, m.credential, m.key)
    requires a == Answer(l, id, m.kind, m.request, m.credential, m.key)
    ensures AnswerOk(a, l.disk) && Earned(l.log, a)
  {
    hide Canonical;
  }

  // ---- the worker -------------------------------------------------------------------------------

  /** A final document is admissible when its triple, evidence, code and claim about the wire are. */
  lemma RevisedRowOk(id: Id, row: Row, log: Log, c: Changes)
    requires RowOk(id, row, log)
    requires var op := Revise(row.document, c); TripleOk(op) && EvidenceOk(op) && CodeOk(op) && Truthful(op, log)
    ensures RowOk(id, row.(document := Revise(row.document, c)), log)
  {
    hide CommandFor, Canonical, Truthful, TripleOk, EvidenceOk, CodeOk;
  }

  /** Ending without a write: allowed as long as nothing was written. */
  lemma NotDispatchedOk(l: Local, id: Id, effect: Effect, code: string, evidence: Option<NodeState>, commit: Commit)
    requires LocalOk(l) && IsWorker(l.proc, id) && id !in Written(l.log)
    requires if effect == OBSERVED_SATISFIED then code == "ALREADY_SATISFIED" else code in NOT_SENT_CODES
    requires effect == NOT_ATTEMPTED || (
      && effect == OBSERVED_SATISFIED && evidence.Some? && evidence.value.complete
      && l.disk[id].document.kind != Announce
      && EffectOf(l.disk[id].document.kind, l.disk[id].document.request, evidence.value) == Ok(OBSERVED_SATISFIED))
    ensures Kept(l, SaveAndFinish(l, id, ToFinal(NOT_DISPATCHED, effect, code, evidence), commit))
  {
    hide LocalOk, WorkerOk, Canonical, CommandFor, Written, Barriers, EffectOf, RowShape;
    OneWorker(l, id);
    RevisedRowOk(id, l.disk[id], l.log, ToFinal(NOT_DISPATCHED, effect, code, evidence));
    SaveAndFinishOk(l, id, ToFinal(NOT_DISPATCHED, effect, code, evidence), commit);
  }

  /** Ending in doubt is always admissible. */
  lemma OutcomeUnknownOk(l: Local, id: Id, code: string, commit: Commit)
    requires LocalOk(l) && IsWorker(l.proc, id) && code in UNCERTAIN_CODES
    ensures Kept(l, SaveAndFinish(l, id, ToFinal(OUTCOME_UNKNOWN, UNKNOWN, code, None), commit))
  {
    hide LocalOk, WorkerOk, Canonical, CommandFor, Written, Barriers, EffectOf, RowShape;
    OneWorker(l, id);
    RevisedRowOk(id, l.disk[id], l.log, ToFinal(OUTCOME_UNKNOWN, UNKNOWN, code, None));
    SaveAndFinishOk(l, id, ToFinal(OUTCOME_UNKNOWN, UNKNOWN, code, None), commit);
  }

  /** A worker that has not started has written nothing. */
  lemma NotStartedNotWritten(l: Local, id: Id)
    requires LocalOk(l) && IsWorker(l.proc, id) && !HasStarted(l.proc.workers[id])
    ensures id !in Written(l.log)
  {
    hide LocalOk, Canonical, CommandFor, Written, Barriers, RowShape, Cleared;
    OneWorker(l, id);
  }

  lemma HandlerOk(l: Local, id: Id, cancelled: bool, commit: Commit)
    requires LocalOk(l) && IsWorker(l.proc, id)
    ensures Kept(l, SaveAndFinish(l, id, HandlerChanges(HasStarted(l.proc.workers[id]), cancelled), commit))
  {
    hide LocalOk, SaveAndFinish, Kept;
    if HasStarted(l.proc.workers[id]) {
      OutcomeUnknownOk(l, id, HandlerChanges(true, cancelled).semanticError.value, commit);
    } else {
      NotStartedNotWritten(l, id);
      NotDispatchedOk(l, id, NOT_ATTEMPTED, HandlerChanges(false, cancelled).semanticError.value, None, commit);
    }
  }

  lemma KeepUnwind(l: Local, id: Id, commit: Commit)
    requires LocalOk(l) && IsWorker(l.proc, id) && l.proc.workers[id].Unwinding?
    ensures Kept(l, SaveAndFinish(l, id, HandlerChanges(l.proc.workers[id].started, false), commit))
  {
    hide LocalOk, SaveAndFinish, Kept;
    HandlerOk(l, id, false, commit);
  }

  lemma KeepCancel(l: Local, id: Id, commit: Commit)
    requires LocalOk(l) && IsWorker(l.proc, id)
    ensures Kept(l, DoCancel(l, id, commit))
  {
    hide LocalOk, SaveAndFinish, Kept;
    if l.proc.workers[id].Created? {
      Dropped(l, id);
    } else {
      HandlerOk(l, id, true, commit);
    }
  }

  /** The task is gone; its row and the slot stay as they were. */
  lemma Dropped(l: Local, id: Id)
    requires LocalOk(l) && IsWorker(l.proc, id)
    ensures Kept(l, l.(proc := l.proc.(workers := l.proc.workers - {id})))
  {
    hide DiskOk, HistoryOk, WorkerOk, FindIdempotent, CommandFor, Written, Orphans, RowsProgress;
    OneWorker(l, id);
    RowsStay(l.disk, l.proc.node);
    assert (l.proc.workers - {id}).Keys == {};
  }

  lemma KeepRaise(l: Local, id: Id)
    requires LocalOk(l) && IsWorker(l.proc, id) && !l.proc.workers[id].Unwinding?
    ensures Kept(l, At(l, id, Unwinding(HasStarted(l.proc.workers[id]))))
  {
    hide LocalOk, Canonical, CommandFor, Written, Barriers, RowShape, Cleared;
    OneWorker(l, id);
    if !HasStarted(l.proc.workers[id]) {
      NotStartedNotWritten(l, id);
    }
    AtOk(l, id, Unwinding(HasStarted(l.proc.workers[id])));
  }

  lemma KeepBegin(l: Local, id: Id, commit: Commit)
    requires LocalOk(l) && IsWorker(l.proc, id) && l.proc.workers[id].Created?
    ensures Kept(l, DoBegin(l, id, commit))
  {
    hide LocalOk, Canonical, CommandFor, Written, Barriers, RowShape, Cleared, SaveAndFinish, Kept;
    OneWorker(l, id);
    if l.proc.closing || !l.proc.healthy {
      NotStartedNotWritten(l, id);
      NotDispatchedOk(l, id, NOT_ATTEMPTED, "CONTROL_UNAVAILABLE", None, commit);
    } else {
      AtOk(l, id, Observing(l.disk[id].document));
    }
  }

  lemma KeepObserve(l: Local, id: Id, state: NodeState, commit: Commit)
    requires LocalOk(l) && IsWorker(l.proc, id) && l.proc.workers[id].Observing? && Evident(state)
    ensures Kept(l, DoObserve(l, id, state, commit))
  {
    hide LocalOk, Canonical, CommandFor, Written, Barriers, RowShape, SaveAndFinish, EffectOf, Evident, Enforce, Since;
    OneWorker(l, id);
    NotStartedNotWritten(l, id);
    var op := l.proc.workers[id].op;
    var e := Observed(l.pid, id, l.proc.config, state);
    var seen := Record(l, e);
    RecordOk(l, e);
    Grow(l.log, e);
    ObservedStep(l, seen, op, id, state, commit);
    KeptTrans(l, seen, DoObserve(l, id, state, commit));
  }

  lemma ObservedStep(l: Local, seen: Local, op: Operation, id: Id, state: NodeState, commit: Commit)
    requires LocalOk(seen) && IsWorker(seen.proc, id) && seen.proc.workers[id] == Observing(op) && Evident(state)
    requires seen == Record(l, Observed(l.pid, id, l.proc.config, state)) && id !in Written(seen.log)
    requires Since(seen.log, Observed(l.pid, id, l.proc.config, state), l.pid)
    ensures Kept(seen, DoObserve(l, id, state, commit))
  {
    hide LocalOk, Canonical, CommandFor, Written, Barriers, RowShape, SaveAndFinish, EffectOf, Evident, Enforce, Since,
      Kept;
    OneWorker(seen, id);
    var current := EffectOf(op.kind, op.request, state);
    if op.kind != Announce && current.Err? {
      AtOk(seen, id, Unwinding(false));
    } else if op.kind != Announce && current.value == OBSERVED_SATISFIED {
      SatisfiedIsComplete(op.kind, op.request, state);
      NotDispatchedOk(seen, id, OBSERVED_SATISFIED, "ALREADY_SATISFIED", Some(state), commit);
    } else {
      match Enforce(l.proc.config, op.kind, state)
      case Some(refusal) =>
        RefusalCode(l.proc.config, op.kind, state);
        NotDispatchedOk(seen, id, NOT_ATTEMPTED, CodeOf(refusal), Some(state), commit);
      case None =>
        if CommandFor(l.proc.node, op.kind, op.request).Err? {
          AtOk(seen, id, Unwinding(false));
        } else {
          AtOk(seen, id, Dispatching(op, state));
        }
    }
  }

  lemma RefusalCode(config: Config, kind: Kind, state: NodeState)
    requires Enforce(config, kind, state).Some?
    ensures CodeOf(Enforce(config, kind, state).value) in NOT_SENT_CODES
  {
  }

  lemma SatisfiedIsComplete(kind: Kind, request: Request, state: NodeState)
    requires EffectOf(kind, request, state).Ok? && IsObservedEffect(EffectOf(kind, request, state).value)
    ensures state.complete
  {
  }

  lemma KeepCheckBarrier(l: Local, id: Id)
    requires LocalOk(l) && IsWorker(l.proc, id) && l.proc.workers[id].Dispatching?
    ensures Kept(l, DoCheckBarrier(l, id))
  {
    hide LocalOk, Canonical, CommandFor, Written, Barriers, RowShape, Since, Justified, Kept;
    OneWorker(l, id);
    NotStartedNotWritten(l, id);
    var w := l.proc.workers[id];
    if l.proc.closing || !l.proc.healthy {
      AtOk(l, id, Unwinding(false));
    } else {
      AtOk(l, id, Checked(w.op, w.before));
    }
  }

  lemma KeepCommitBarrier(l: Local, id: Id, commit: Commit)
    requires LocalOk(l) && IsWorker(l.proc, id) && l.proc.workers[id].Checked?
    ensures Kept(l, DoCommitBarrier(l, id, commit))
  {
    hide LocalOk, Canonical, CommandFor, Written, Barriers, RowShape, Cleared, Kept;
    OneWorker(l, id);
    NotStartedNotWritten(l, id);
    if commit.Committed? {
      KeepCrossing(l, id);
    } else {
      KeepFailedBarrier(l, id, commit);
    }
  }

  lemma StartedRowOk(id: Id, row: Row, log: Log, c: Changes)
    requires RowOk(id, row, log) && row.document.dispatch == QUEUED
    requires c == ToDispatch(DISPATCH_STARTED)
    ensures RowOk(id, row.(document := Revise(row.document, c)), log)
    ensures Rank(row.document) <= Rank(Revise(row.document, c))
  {
    hide CommandFor, Canonical, Written, Barriers, EffectOf;
  }

  /** The barrier reported failure: nothing will be written, whether or not the row says so. */
  lemma KeepFailedBarrier(l: Local, id: Id, commit: Commit)
    requires LocalOk(l) && IsWorker(l.proc, id) && l.proc.workers[id].Checked? && !commit.Committed?
    requires id !in Written(l.log)
    ensures Kept(l, DoCommitBarrier(l, id, commit))
  {
    hide DiskOk, HistoryOk, AnswerOk, FindIdempotent, CommandFor, Canonical, Written, Orphans, RowsProgress, RowOk,
      Cleared, Rank, Since;
    OneWorker(l, id);
    StartedRowOk(id, l.disk[id], l.log, ToDispatch(DISPATCH_STARTED));
    StoreOk(l.disk, l.log, l.proc.node, id, ToDispatch(DISPATCH_STARTED), commit);
    assert DoCommitBarrier(l, id, commit).proc.workers.Keys == {id};
  }

  /** History and table after a successful barrier. */
  lemma BarrierDiskOk(disk: Disk, log: Log, e: Event)
    requires DiskOk(disk, log) && e.Barrier? && e.id in disk && disk[e.id].document.dispatch != QUEUED
    ensures DiskOk(disk, log + [e])
  {
    hide RowShape, AnswerOk, KeysUnique, Since, HistoryOk, Earned, Written, Barriers, KnownIds;
    Grow(log, e);
    NotAnAnswer(e, disk);
    forall i | i in disk ensures RowOk(i, disk[i], log + [e]) {
      assert RowOk(i, disk[i], log);
      ShapeNamesRow(i, disk[i]);
    }
  }

  lemma ShapeNamesRow(id: Id, row: Row)
    requires RowShape(id, row)
    ensures row.document.id == id && row.id == id && row.document.node == row.node
  {
  }

  lemma CrossedWorkerOk(l: Local, id: Id)
    requires IsWorker(l.proc, id) && l.proc.workers[id].Checked? && WorkerOk(l, id, l.proc.workers[id])
    requires id !in Written(l.log)
    ensures WorkerOk(DoCommitBarrier(l, id, Committed), id, DoCommitBarrier(l, id, Committed).proc.workers[id])
  {
    hide Written, Orphans, Since, Justified, HistoryOk, Barriers, Earned, KnownIds;
    Grow(l.log, Barrier(l.pid, id, l.proc.config, l.proc.workers[id].before));
  }

  lemma CrossedProcOk(l: Local, id: Id)
    requires ProcOk(l) && IsWorker(l.proc, id) && l.proc.workers[id].Checked? && l.proc.main.Idle?
    requires id !in Written(l.log) && l.proc.workers.Keys == {id} && l.proc.slot == Held(id)
    ensures ProcOk(DoCommitBarrier(l, id, Committed))
  {
    hide FindIdempotent, CommandFor, Written, Orphans, Since, WorkerOk, HistoryOk, Barriers, Earned, KnownIds;
    var l' := DoCommitBarrier(l, id, Committed);
    Grow(l.log, Barrier(l.pid, id, l.proc.config, l.proc.workers[id].before));
    CrossedWorkerOk(l, id);
    assert l'.proc.workers.Keys == {id};
  }

  lemma ClearedIsObserved(l: Local, id: Id)
    requires IsWorker(l.proc, id) && l.proc.workers[id].Checked? && WorkerOk(l, id, l.proc.workers[id])
    requires l.disk[id].document.id == id
    ensures Since(l.log, Observed(l.pid, id, l.proc.config, l.proc.workers[id].before), l.pid)
  {
    hide Since, Justified;
  }

  lemma KeepCrossing(l: Local, id: Id)
    requires LocalOk(l) && IsWorker(l.proc, id) && l.proc.workers[id].Checked?
    requires id !in Written(l.log)
    ensures Kept(l, DoCommitBarrier(l, id, Committed))
  {
    hide DiskOk, HistoryOk, AnswerOk, CommandFor, Canonical, Written, Orphans, RowsProgress, RowShape,
      Rank, Since, Barriers, Cleared, ProcOk;
    OneWorker(l, id);
    StartedRowOk(id, l.disk[id], l.log, ToDispatch(DISPATCH_STARTED));
    StoreOk(l.disk, l.log, l.proc.node, id, ToDispatch(DISPATCH_STARTED), Committed);
    var e := Barrier(l.pid, id, l.proc.config, l.proc.workers[id].before);
    Grow(l.log, e);
    BarrierDiskOk(DoCommitBarrier(l, id, Committed).disk, l.log, e);
    ClearedIsObserved(l, id);
    CrossedProcOk(l, id);
  }

  lemma KeepWrite(l: Local, id: Id)
    requires LocalOk(l) && IsWorker(l.proc, id) && l.proc.workers[id].Crossed?
    ensures Kept(l, DoWrite(l, id))
  {
    hide DiskOk, AnswerOk, CommandFor, Canonical, Written, Orphans, RowsProgress, RowShape, Rank, Since, Barriers,
      Justified, ProcOk, HistoryOk;
    OneWorker(l, id);
    ShapeNamesRow(id, l.disk[id]);
    CommandStays(id, l.disk[id]);
    var w := l.proc.workers[id];
    var e := Wrote(l.pid, w.op, CommandFor(l.proc.node, w.op.kind, w.op.request).value, l.proc.config, w.before);
    Grow(l.log, e);
    RowsStay(l.disk, l.proc.node);
    WrittenDiskOk(l.disk, l.log, e);
    WrittenProcOk(l, id, e);
  }

  lemma CommandStays(id: Id, row: Row)
    requires RowShape(id, row)
    ensures CommandFor(row.node, row.document.kind, row.document.request).Ok?
  {
  }

  lemma WrittenDiskOk(disk: Disk, log: Log, e: Event)
    requires DiskOk(disk, log) && e.Wrote? && e.op.id in disk
    requires disk[e.op.id].document.dispatch == DISPATCH_STARTED
    ensures DiskOk(disk, log + [e])
  {
    hide RowShape, AnswerOk, KeysUnique, Since, HistoryOk, Earned, Written, Barriers, KnownIds;
    Grow(log, e);
    NotAnAnswer(e, disk);
    forall i | i in disk ensures RowOk(i, disk[i], log + [e]) {
      assert RowOk(i, disk[i], log);
      ShapeNamesRow(i, disk[i]);
    }
  }

  lemma SlotStays(l: Local, l': Local)
    requires l'.disk == l.disk && l'.proc.node == l.proc.node && l'.proc.slot == l.proc.slot
    requires Orphans(l.log) <= Orphans(l'.log)
    ensures SlotOk(l) ==> SlotOk(l')
  {
  }

  lemma WrittenProcOk(l: Local, id: Id, e: Event)
    requires ProcOk(l) && IsWorker(l.proc, id) && l.proc.workers[id].Crossed? && l.proc.main.Idle?
    requires l.proc.workers.Keys == {id} && l.proc.slot == Held(id)
    requires e.Wrote? && e.op == l.proc.workers[id].op && e.op.id == id
    ensures ProcOk(At(Record(l, e), id, Awaiting(e.op)))
  {
    hide FindIdempotent, CommandFor, Written, Orphans, Since, Cleared, HistoryOk, Barriers, Earned, KnownIds, SlotOk;
    assert WorkerOk(l, id, l.proc.workers[id]);
    Grow(l.log, e);
    SlotStays(l, At(Record(l, e), id, Awaiting(e.op)));
    assert At(Record(l, e), id, Awaiting(e.op)).proc.workers.Keys == {id};
  }

  // ---- the reply and the effect -----------------------------------------------------------------

  lemma KeepReply(l: Local, id: Id, message: Message, commit: Commit)
    requires LocalOk(l) && IsWorker(l.proc, id) && l.proc.workers[id].Awaiting?
    ensures Kept(l, DoReply(l, id, message, commit))
  {
    hide LocalOk, Canonical, CommandFor, Written, Barriers, RowShape, SaveAndFinish, EffectOf, Kept, CommandRejected;
    OneWorker(l, id);
    if CommandRejected(message) {
      RevisedRowOk(id, l.disk[id], l.log, ToFinal(REJECTED, NOT_ATTEMPTED, "COMMAND_REJECTED", None));
      SaveAndFinishOk(l, id, ToFinal(REJECTED, NOT_ATTEMPTED, "COMMAND_REJECTED", None), commit);
    } else if !SaysSuccess(message) {
      AtOk(l, id, Unwinding(true));
    } else {
      KeepAcknowledgement(l, id, commit);
    }
  }

  lemma AcknowledgedRowOk(id: Id, row: Row, log: Log, c: Changes)
    requires RowOk(id, row, log) && row.document.dispatch == DISPATCH_STARTED && id in Written(log)
    requires c == ToDispatch(ACKNOWLEDGED)
    ensures RowOk(id, row.(document := Revise(row.document, c)), log)
    ensures Rank(row.document) <= Rank(Revise(row.document, c))
  {
    hide CommandFor, Canonical, Written, Barriers, EffectOf;
  }

  /** A success reply is recorded; if that fails the task ends and the row stays started. */
  lemma KeepAcknowledgement(l: Local, id: Id, commit: Commit)
    requires LocalOk(l) && IsWorker(l.proc, id) && l.proc.workers[id].Awaiting?
    ensures var op, saved := l.proc.workers[id].op, Save(l, id, ToDispatch(ACKNOWLEDGED), commit);
      Kept(l, if !commit.Committed? then Finish(saved, id)
              else At(saved, id, if op.kind == Announce then Acked(op) else Verifying(op)))
  {
    hide DiskOk, HistoryOk, AnswerOk, FindIdempotent, CommandFor, Canonical, Written, Orphans, RowsProgress, RowOk,
      Cleared, Rank, Since;
    OneWorker(l, id);
    AcknowledgedRowOk(id, l.disk[id], l.log, ToDispatch(ACKNOWLEDGED));
    StoreOk(l.disk, l.log, l.proc.node, id, ToDispatch(ACKNOWLEDGED), commit);
    assert (l.proc.workers - {id}).Keys == {};
    var op := l.proc.workers[id].op;
    assert l.proc.workers[id := if op.kind == Announce then Acked(op) else Verifying(op)].Keys == {id};
  }

  /** The last save of an acknowledged operation: its effect, with the evidence for it. */
  lemma EffectRowOk(id: Id, row: Row, log: Log, c: Changes)
    requires RowOk(id, row, log) && !row.document.terminal && row.document.dispatch == ACKNOWLEDGED
    requires c.terminal && c.dispatch.None? && c.effect.Some?
    requires var op := Revise(row.document, c); TripleOk(op) && EvidenceOk(op) && CodeOk(op)
    ensures RowOk(id, row.(document := Revise(row.document, c)), log)
  {
    hide CommandFor, Canonical, TripleOk, EvidenceOk, CodeOk, Written, Barriers;
  }

  lemma KeepFinishAnnounce(l: Local, id: Id, commit: Commit)
    requires LocalOk(l) && IsWorker(l.proc, id) && l.proc.workers[id].Acked?
    ensures Kept(l, SaveAndFinish(l, id, ToEffect(UNKNOWN, Some("PLAYBACK_EFFECT_NOT_OBSERVABLE"), None), commit))
  {
    hide LocalOk, Canonical, CommandFor, Written, Barriers, RowShape, SaveAndFinish, EffectOf, Kept;
    OneWorker(l, id);
    EffectRowOk(id, l.disk[id], l.log, ToEffect(UNKNOWN, Some("PLAYBACK_EFFECT_NOT_OBSERVABLE"), None));
    SaveAndFinishOk(l, id, ToEffect(UNKNOWN, Some("PLAYBACK_EFFECT_NOT_OBSERVABLE"), None), commit);
  }

  /** Which effects judging can give, and what they rest on. */
  lemma EffectRange(kind: Kind, request: Request, state: NodeState)
    requires EffectOf(kind, request, state).Ok? && kind != Announce
    ensures var e := EffectOf(kind, request, state).value;
      && e in {UNKNOWN, OBSERVED_SATISFIED, OBSERVED_UNSATISFIED, OBSERVED_PARTIAL}
      && (e == OBSERVED_PARTIAL ==> kind == LinkNode) && (IsObservedEffect(e) <==> state.complete)
  {
  }

  lemma UnfinishedHasNoCode(id: Id, row: Row)
    requires RowShape(id, row) && !row.document.terminal
    ensures row.document.semanticError.None?
  {
  }

  lemma KeepVerify(l: Local, id: Id, state: NodeState, expired: bool, commit: Commit)
    requires LocalOk(l) && IsWorker(l.proc, id) && l.proc.workers[id].Verifying?
    ensures Kept(l, DoVerify(l, id, state, expired, commit))
  {
    hide LocalOk, Canonical, CommandFor, Written, Barriers, RowShape, SaveAndFinish, EffectOf, Kept;
    OneWorker(l, id);
    var op := l.proc.workers[id].op;
    match EffectOf(op.kind, op.request, state)
    case Err(_) => AtOk(l, id, Unwinding(true));
    case Ok(effect) =>
      EffectRange(op.kind, op.request, state);
      UnfinishedHasNoCode(id, l.disk[id]);
      if effect == OBSERVED_SATISFIED {
        EffectRowOk(id, l.disk[id], l.log, ToEffect(effect, None, Some(state)));
        SaveAndFinishOk(l, id, ToEffect(effect, None, Some(state)), commit);
      } else if expired {
        var code := if effect != UNKNOWN then "EFFECT_NOT_CONFIRMED_WITHIN_OBSERVATION_WINDOW"
                    else "POST_DISPATCH_STATE_UNKNOWN";
        EffectRowOk(id, l.disk[id], l.log, ToEffect(effect, Some(code), Some(state)));
        SaveAndFinishOk(l, id, ToEffect(effect, Some(code), Some(state)), commit);
      } else {
        Stays(l);
      }
  }

  lemma Stays(l: Local)
    requires LocalOk(l)
    ensures Kept(l, l)
  {
    hide DiskOk, ProcOk, HistoryOk, Written, Orphans;
  }

  lemma KeepBeginClose(l: Local)
    requires LocalOk(l) && l.proc.phase.Running? && l.proc.main.Idle?
    ensures Kept(l, l.(proc := l.proc.(closing := true)))
  {
    hide DiskOk, HistoryOk, FindIdempotent, CommandFor, Written, Orphans, RowsProgress, Justified, Since;
    RowsStay(l.disk, l.proc.node);
  }

  /** Every step of a runtime keeps the invariant and moves operations only forwards. */
  lemma EveryActionKeeps(l: Local, a: Action)
    requires LocalOk(l) && Can(l, a)
    ensures Kept(l, Do(l, a))
  {
    hide LocalOk, Kept, Quiet, Enumerates, CommandFor, Evident, DoRecoverRow, DoReserve, DoInsert, DoBegin, DoObserve,
      DoCheckBarrier, DoCommitBarrier, DoWrite, DoReply, DoVerify, DoCancel, SaveAndFinish, At;
    match a
    case ReadRows(pending) => KeepReadRows(l, pending);
    case RecoverRow(commit) => KeepRecoverRow(l, commit);
    case FinishStart => KeepFinishStart(l);
    case Reserve(kind, request, credential, key) => KeepReserve(l, kind, request, credential, key);
    case Insert(id, commit) => KeepInsert(l, id, commit);
    case Begin(id, commit) => KeepBegin(l, id, commit);
    case Observe(id, state, commit) => KeepObserve(l, id, state, commit);
    case CheckBarrier(id) => KeepCheckBarrier(l, id);
    case CommitBarrier(id, commit) => KeepCommitBarrier(l, id, commit);
    case Write(id) => KeepWrite(l, id);
    case Reply(id, message, commit) => KeepReply(l, id, message, commit);
    case FinishAnnounce(id, commit) => KeepFinishAnnounce(l, id, commit);
    case Verify(id, state, expired, commit) => KeepVerify(l, id, state, expired, commit);
    case Raise(id) => KeepRaise(l, id);
    case Unwind(id, commit) => KeepUnwind(l, id, commit);
    case Cancel(id, commit) => KeepCancel(l, id, commit);
    case BeginClose => IdleWhenQuiet(l.proc); KeepBeginClose(l);
  }

  lemma IdleWhenQuiet(p: Proc)
    requires Quiet(p)
    ensures p.main.Idle?
  {
  }
}