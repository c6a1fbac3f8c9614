/** The promises of docs/VNEXT.md, read off the invariant for every world of every run. */
module Guarantees {
  import opened Base
  import opened Models
  import opened Policy
  import opened Effects
  import opened CanonicalJson
  import opened Rows
  import opened Ami
  import opened Protocol
  import opened Invariant
  import opened Preservation
  import opened Safety
  import opened Decisions

  // ---- reading history by position --------------------------------------------------------------

  lemma {:induction false} EarnedAt(log: Log, j: nat)
    requires HistoryOk(log) && j < |log|
    ensures HistoryOk(log[..j]) && Earned(log[..j], log[j])
  {
    hide Earned;
    if j < |log| - 1 {
      EarnedAt(Init(log), j);
      assert Init(log)[..j] == log[..j];
    }
  }

  /** The runtime did not end between two positions. */
  ghost predicate Uninterrupted(log: Log, pid: Pid, from: nat, to: nat)
    requires to <= |log|
  {
    forall k :: from <= k < to ==> log[k] != Ended(pid)
  }

  lemma {:induction false} SinceMeans(log: Log, e: Event, pid: Pid) returns (i: nat)
    requires Since(log, e, pid) && !e.Ended?
    ensures i < |log| && log[i] == e && Uninterrupted(log, pid, i, |log|)
  {
    if Last(log) == e {
      i := |log| - 1;
    } else {
      i := SinceMeans(Init(log), e, pid);
    }
  }

  lemma {:induction false} WrittenMeans(log: Log, j: nat)
    requires j < |log| && log[j].Wrote?
    ensures log[j].op.id in Written(log)
  {
    if j < |log| - 1 {
      WrittenMeans(Init(log), j);
    }
  }

  ghost function WriteCount(log: Log, id: Id): nat {
    if log == [] then 0
    else WriteCount(Init(log), id) + if Last(log).Wrote? && Last(log).op.id == id then 1 else 0
  }

  lemma {:induction false} CountsWrites(log: Log, id: Id)
    requires HistoryOk(log)
    ensures WriteCount(log, id) == if id in Written(log) then 1 else 0
  {
    hide Justified, CommandFor, Since;
    if log != [] {
      CountsWrites(Init(log), id);
    }
  }

  // ---- at most once, and only when earned -------------------------------------------------------

  /** No two writes on the wire, anywhere in any history, are for the same operation. */
  lemma AtMostOneWrite(run: seq<World>, i: nat, j: nat, k: nat)
    requires IsRun(run) && i < |run|
    requires j < |run[i].log| && k < |run[i].log| && run[i].log[j].Wrote? && run[i].log[k].Wrote?
    requires run[i].log[j].op.id == run[i].log[k].op.id
    ensures j == k
  {
    hide ProcOk, DiskOk, LocksOk, IsRun, Justified, Since;
    RunsAreOk(run, i);
    var log, lo, hi := run[i].log, if j < k then j else k, if j < k then k else j;
    if lo < hi {
      EarnedAt(log, hi);
      WrittenMeans(log[..hi], lo);
    }
  }

  /** The four events that lead to a write, in order, within one uninterrupted run of one runtime. */
  ghost predicate LedTo(log: Log, admitted: nat, observed: nat, crossed: nat, written: nat)
    requires admitted < observed < crossed < written < |log| && log[written].Wrote?
  {
    var e := log[written];
    && log[admitted] == Admitted(e.pid, e.op.id)
    && log[observed] == Observed(e.pid, e.op.id, e.config, e.before)
    && log[crossed] == Barrier(e.pid, e.op.id, e.config, e.before)
    && Uninterrupted(log, e.pid, admitted, written)
  }

  /**
    Every write follows, in this order, the admission, a fresh observation that justifies it, and the committed barrier
    of that same operation, all in the same uninterrupted run of the runtime that writes; and what it writes is the
    fixed command of the request.
   */
  lemma EveryWriteIsEarned(run: seq<World>, i: nat, j: nat) returns (a: nat, o: nat, b: nat)
    requires IsRun(run) && i < |run| && j < |run[i].log| && run[i].log[j].Wrote?
    ensures a < o < b < j && LedTo(run[i].log, a, o, b, j)
    ensures var e := run[i].log[j];
      && Spells(e.command, e.op.node, e.op.kind, e.op.request)
      && Justified(e.op, e.config, e.before)
      && Allows(e.config, e.op.kind, e.before.traffic) && !Fulfilled(e.op, e.before)
  {
    hide ProcOk, DiskOk, LocksOk, IsRun, Justified, Since, CommandFor, Spells, Allows, Fulfilled;
    RunsAreOk(run, i);
    a, o, b := WriteIsEarned(run[i].log, j);
    var e := run[i].log[j];
    CommandDecided(e.op.node, e.op.kind, e.op.request, e.command);
    JustifiedDecided(e.op, e.config, e.before);
  }

  lemma WriteIsEarned(log: Log, j: nat) returns (a: nat, o: nat, b: nat)
    requires HistoryOk(log) && j < |log| && log[j].Wrote?
    ensures a < o < b < j && LedTo(log, a, o, b, j) && Earned(log[..j], log[j])
  {
    hide HistoryOk, Justified, Since, CommandFor, Written, Barriers;
    var e := log[j];
    EarnedAt(log, j);
    b := SinceMeans(log[..j], Barrier(e.pid, e.op.id, e.config, e.before), e.pid);
    EarnedAt(log, b);
    o := SinceMeans(log[..b], Observed(e.pid, e.op.id, e.config, e.before), e.pid);
    EarnedAt(log, o);
    a := SinceMeans(log[..o], Admitted(e.pid, e.op.id), e.pid);
  }

  lemma {:induction false} KnownMeans(log: Log, j: nat)
    requires j < |log| && (log[j].Admitted? || log[j].Orphaned?)
    ensures log[j].id in KnownIds(log)
  {
    if j < |log| - 1 {
      KnownMeans(Init(log), j);
    }
  }

  /** An identifier enters history once, either as admitted or as orphaned. */
  lemma IdsAreFresh(log: Log, j: nat, k: nat)
    requires HistoryOk(log) && j < k < |log|
    requires (log[j].Admitted? || log[j].Orphaned?) && (log[k].Admitted? || log[k].Orphaned?)
    ensures log[j].id != log[k].id
  {
    hide HistoryOk, Since;
    EarnedAt(log, k);
    KnownMeans(log[..k], j);
  }

  /** An admission that was reported as failed never leads to a write, though its row may be stored and seen. */
  lemma OrphansAreNeverWritten(run: seq<World>, i: nat, j: nat, k: nat)
    requires IsRun(run) && i < |run| && j < |run[i].log| && k < |run[i].log|
    requires run[i].log[j].Orphaned? && run[i].log[k].Wrote?
    ensures run[i].log[j].id != run[i].log[k].op.id
  {
    hide ProcOk, DiskOk, LocksOk, IsRun, HistoryOk, Earned;
    RunsAreOk(run, i);
    var a, _, _ := WriteIsEarned(run[i].log, k);
    if a < j {
      IdsAreFresh(run[i].log, a, j);
    } else if j < a {
      IdsAreFresh(run[i].log, j, a);
    }
  }

  /** With the default settings, linking and announcing are only ever written on complete evidence of silence. */
  lemma DefaultWritesNeedSilence(run: seq<World>, i: nat, j: nat)
    requires IsRun(run) && i < |run| && j < |run[i].log|
    requires run[i].log[j].Wrote? && run[i].log[j].config == map[] && run[i].log[j].op.kind in {LinkNode, Announce}
    ensures var before := run[i].log[j].before;
      && before.complete && before.rxKeyed == Some(false) && before.txKeyed == Some(false) && before.directLinks.Some?
      && forall link :: link in before.directLinks.value ==> !link.keyed
  {
    hide IsRun, LedTo;
    var _, _, _ := EveryWriteIsEarned(run, i, j);
    DefaultsDemandSilence(run[i].log[j].op.kind, run[i].log[j].before);
  }

  // ---- the ledger tells the truth ---------------------------------------------------------------

  /** In every reachable world each stored status bounds, from both sides, how often its operation was written. */
  lemma LedgerIsTruthful(run: seq<World>, i: nat, id: Id)
    requires IsRun(run) && i < |run| && id in run[i].disk
    ensures var op, n := run[i].disk[id].document, WriteCount(run[i].log, id);
      && n <= 1
      && (op.dispatch in {QUEUED, NOT_DISPATCHED} ==> n == 0)
      && (op.dispatch in {ACKNOWLEDGED, REJECTED} ==> n == 1)
  {
    hide ProcOk, LocksOk, IsRun, HistoryOk, WriteCount, RowShape, AnswerOk, KeysUnique;
    RunsAreOk(run, i);
    assert RowOk(id, run[i].disk[id], run[i].log);
    ShapeNamesRow(id, run[i].disk[id]);
    CountsWrites(run[i].log, id);
  }

  /**
    Every stored status triple is in the table, a pending effect marks exactly the unfinished operations, a claimed
    observation is what its own stored, complete evidence yields, and the error code says why an operation ended so.
   */
  lemma StatusesAreSound(run: seq<World>, i: nat, id: Id)
    requires IsRun(run) && i < |run| && id in run[i].disk
    ensures var op := run[i].disk[id].document;
      && TripleOk(op) && (op.effect == PENDING <==> !op.terminal) && op.effect != NOT_APPLICABLE
      && (op.effect == OBSERVED_PARTIAL ==> op.kind == LinkNode)
      && EvidenceOk(op) && CodeOk(op)
  {
    hide ProcOk, LocksOk, IsRun, HistoryOk, AnswerOk, KeysUnique, EffectOf, RowCoherent, CommandFor;
    RunsAreOk(run, i);
    assert RowOk(id, run[i].disk[id], run[i].log);
  }

  /** Rows are never dropped or rebound, only move forwards, and stay exactly as they are once terminal. */
  ghost predicate Onwards(disk: Disk, disk': Disk) {
    forall id :: id in disk ==>
      && id in disk' && SameBinding(disk[id], disk'[id]) && Rank(disk[id].document) <= Rank(disk'[id].document)
      && (disk[id].document.terminal ==> disk'[id] == disk[id])
  }

  lemma StepOnwards(w: World, s: Step)
    requires WorldOk(w) && Enabled(w, s)
    ensures Onwards(w.disk, Next(w, s).disk)
  {
    hide ProcOk, HistoryOk, DiskOk, Can, Do, Rank, LogProgress, LocksOk;
    if s.Act? {
      EveryActionKeeps(View(w, s.pid), s.action);
    }
  }

  lemma {:induction false} TerminalIsForever(run: seq<World>, i: nat, j: nat)
    requires IsRun(run) && i <= j < |run|
    ensures Onwards(run[i].disk, run[j].disk)
    decreases j
  {
    hide WorldOk, Boot, Enabled, Next, Rank;
    if i < j {
      TerminalIsForever(run, i, j - 1);
      assert Follows(run[j - 1], run[j]);
      var s :| Enabled(run[j - 1], s) && run[j] == Next(run[j - 1], s);
      RunsAreOk(run, j - 1);
      StepOnwards(run[j - 1], s);
    }
  }

  /** History is only ever added to. */
  lemma HistoryGrows(w: World, s: Step)
    requires WorldOk(w) && Enabled(w, s)
    ensures w.log <= Next(w, s).log
  {
    hide LocksOk, HistoryOk, DiskOk, ProcOk, Can, Do, RowsProgress, Written, Orphans;
    if s.Act? {
      EveryActionKeeps(View(w, s.pid), s.action);
    }
  }

  // ---- idempotency over a whole history ---------------------------------------------------------

  /** A key answers with one operation, for one request, for ever, across restarts and runtimes. */
  lemma OneKeyOneOperation(run: seq<World>, i: nat, j: nat, k: nat)
    requires IsRun(run) && i < |run| && j < |run[i].log| && k < |run[i].log|
    requires var a, b := run[i].log[j], run[i].log[k];
      && a.Answered? && b.Answered? && a.key.Some?
      && (a.node, a.credential, a.key) == (b.node, b.credential, b.key)
    ensures var a, b := run[i].log[j], run[i].log[k];
      a.id == b.id && a.canonical == b.canonical && WriteCount(run[i].log, a.id) <= 1
  {
    hide ProcOk, LocksOk, IsRun, HistoryOk, RowOk, WriteCount;
    RunsAreOk(run, i);
    var log, disk := run[i].log, run[i].disk;
    assert AnswerOk(log[j], disk) && AnswerOk(log[k], disk);
    assert SameKey(disk[log[j].id], disk[log[k].id]);
    CountsWrites(log, log[j].id);
  }

  /** A conflict is reported only for a key bound to another request, so the same key is never answered for this one. */
  lemma ConflictsAreReal(run: seq<World>, i: nat, j: nat, k: nat)
    requires IsRun(run) && i < |run| && j < |run[i].log| && k < |run[i].log|
    requires var a, b := run[i].log[j], run[i].log[k];
      && a.Refused? && b.Answered?
      && (a.node, a.credential, a.key) == (b.node, b.credential, b.key)
    ensures run[i].log[j].canonical != run[i].log[k].canonical
  {
    hide ProcOk, LocksOk, IsRun, HistoryOk, RowOk;
    RunsAreOk(run, i);
    var log, disk := run[i].log, run[i].disk;
    assert AnswerOk(log[j], disk) && AnswerOk(log[k], disk);
    var id :| id in disk && Binds(disk[id], log[j].node, log[j].credential, log[j].key)
      && disk[id].canonical != log[j].canonical;
    assert SameKey(disk[id], disk[log[k].id]);
  }

  /** Between the lookup and the insertion nothing can bind the key: the "not created" branch never runs. */
  lemma ReservationStaysNew(run: seq<World>, i: nat, pid: Pid, id: Id, commit: Commit)
    requires IsRun(run) && i < |run| && Enabled(run[i], Act(pid, Insert(id, commit)))
    ensures var p := run[i].procs[pid];
      FindIdempotent(run[i].disk, p.node, p.main.kind, p.main.request, p.main.credential, p.main.key).Miss?
  {
    hide LocksOk, IsRun, HistoryOk, DiskOk, FindIdempotent, WorkerOk, SlotOk;
    RunsAreOk(run, i);
    assert ProcOk(View(run[i], pid));
  }

  // ---- one owner, one slot ----------------------------------------------------------------------

  /** Two live runtimes never serve one node, so recovery never meets a live worker of that node. */
  lemma OneOwnerPerNode(run: seq<World>, i: nat, p: Pid, q: Pid)
    requires IsRun(run) && i < |run| && p in run[i].procs && q in run[i].procs
    requires !run[i].procs[p].phase.Stopped? && !run[i].procs[q].phase.Stopped?
    requires run[i].procs[p].node == run[i].procs[q].node
    ensures p == q
    ensures run[i].procs[p].phase.Recovering? ==> run[i].procs[p].workers == map[]
  {
    hide IsRun, HistoryOk, DiskOk, WorkerOk, SlotOk, FindIdempotent, RecoverOk;
    RunsAreOk(run, i);
    assert ProcOk(View(run[i], p));
  }

  /**
    The barrier reads the row in one statement and updates it in a transaction of its own; whatever all other runtimes
    did before it, the row it is about to update is still the one it read: this operation, queued and not terminal.
   */
  lemma BarrierNeverRaces(run: seq<World>, i: nat, pid: Pid, id: Id, commit: Commit)
    requires IsRun(run) && i < |run| && Enabled(run[i], Act(pid, CommitBarrier(id, commit)))
    ensures var p := run[i].procs[pid];
      && Has(run[i].disk, p.node, id)
      && run[i].disk[id].document == p.workers[id].op
      && p.workers[id].op.dispatch == QUEUED && !p.workers[id].op.terminal
  {
    hide LocksOk, IsRun, HistoryOk, DiskOk, SlotOk, FindIdempotent, Cleared, Since;
    RunsAreOk(run, i);
    assert WorkerOk(View(run[i], pid), id, run[i].procs[pid].workers[id]);
  }

  /** No operation is worked on by two coroutines, in the same runtime or in different ones. */
  lemma OneWorkerPerOperation(run: seq<World>, i: nat, p: Pid, q: Pid, id: Id)
    requires IsRun(run) && i < |run| && p in run[i].procs && q in run[i].procs
    requires IsWorker(run[i].procs[p], id) && IsWorker(run[i].procs[q], id)
    ensures p == q && run[i].procs[p].workers.Keys == {id}
  {
    hide IsRun, HistoryOk, DiskOk, WorkerOk, ProcOk;
    RunsAreOk(run, i);
    WorkerOwnsRow(View(run[i], p), id);
    WorkerOwnsRow(View(run[i], q), id);
  }

  lemma WorkerOwnsRow(l: Local, id: Id)
    requires ProcOk(l) && IsWorker(l.proc, id)
    ensures Has(l.disk, l.proc.node, id) && l.proc.workers.Keys == {id}
  {
    hide SlotOk, FindIdempotent, Since, Cleared;
    assert forall o :: o in l.proc.workers ==> WorkerOk(l, o, l.proc.workers[o]);
  }

  predicate Serving(p: Proc) {
    p.phase.Running? && p.healthy && !p.closing
  }

  /**
    While a runtime is serving, an unfinished operation of its node is the one that holds the slot, or one whose
    admission was reported to the client as failed although it had become durable.
   */
  lemma UnfinishedHoldsSlot(run: seq<World>, i: nat, pid: Pid, id: Id)
    requires IsRun(run) && i < |run| && pid in run[i].procs && Serving(run[i].procs[pid])
    requires Has(run[i].disk, run[i].procs[pid].node, id) && !run[i].disk[id].document.terminal
    ensures run[i].procs[pid].slot == Held(id) || id in Orphans(run[i].log)
  {
    hide LocksOk, IsRun, HistoryOk, DiskOk, WorkerOk, Orphans, FindIdempotent;
    RunsAreOk(run, i);
    assert ProcOk(View(run[i], pid));
  }

  /** Only an insertion takes the slot, and it records the admission. */
  lemma HeldByAct(l: Local, a: Action, id: Id)
    requires Can(l, a) && Do(l, a).proc.phase.Running? && Do(l, a).proc.slot == Held(id)
    ensures a.Insert? || (l.proc.phase.Running? && l.proc.slot == Held(id)) || l.proc.phase.Recovering?
  {
    hide Quiet, Enumerates, CommandFor, Evident, DoReserve, DoObserve, DoReply, DoVerify, DoInsert, Store,
      HandlerChanges;
    match a
    case Reserve(kind, request, credential, key) => ReserveTakesNothing(l, kind, request, credential, key);
    case Observe(o, state, commit) => ObserveTakesNothing(l, o, state, commit);
    case Reply(o, message, commit) => ReplyTakesNothing(l, o, message, commit);
    case Verify(o, state, expired, commit) => VerifyTakesNothing(l, o, state, expired, commit);
    case _ =>
  }

  predicate TakesNothing(p: Proc, p': Proc) {
    p'.phase == p.phase && (p'.slot.Held? ==> p'.slot == p.slot)
  }

  lemma ReserveTakesNothing(l: Local, kind: Kind, request: Request, credential: string, key: Option<string>)
    ensures TakesNothing(l.proc, DoReserve(l, kind, request, credential, key).proc)
  {
    hide FindIdempotent, Canonical;
  }

  lemma ObserveTakesNothing(l: Local, id: Id, state: NodeState, commit: Commit)
    requires id in l.proc.workers && l.proc.workers[id].Observing?
    ensures TakesNothing(l.proc, DoObserve(l, id, state, commit).proc)
  {
    hide EffectOf, Enforce, CommandFor, Store;
  }

  lemma ReplyTakesNothing(l: Local, id: Id, message: Message, commit: Commit)
    requires id in l.proc.workers && l.proc.workers[id].Awaiting?
    ensures TakesNothing(l.proc, DoReply(l, id, message, commit).proc)
  {
    hide CommandRejected, SaysSuccess, Store;
  }

  lemma VerifyTakesNothing(l: Local, id: Id, state: NodeState, expired: bool, commit: Commit)
    requires id in l.proc.workers && l.proc.workers[id].Verifying?
    ensures TakesNothing(l.proc, DoVerify(l, id, state, expired, commit).proc)
  {
    hide EffectOf, Store;
  }

  lemma HeldByInsert(l: Local, id: Id, o: Id, commit: Commit)
    requires l.proc.main.Admitting? && DoInsert(l, o, commit).proc.slot == Held(id)
    ensures Since(DoInsert(l, o, commit).log, Admitted(l.pid, id), l.pid)
  {
    hide FindIdempotent, Canonical, Since, NewRow;
    var m := l.proc.main;
    var answer := Answer(l, o, m.kind, m.request, m.credential, m.key);
    Grow(l.log, Admitted(l.pid, id));
    Grow(l.log + [Admitted(l.pid, id)], answer);
  }

  lemma RecoveringHoldsNothing(l: Local)
    requires LocalOk(l) && l.proc.phase.Recovering?
    ensures l.proc.slot.Free?
  {
    hide DiskOk, HistoryOk, RecoverOk;
  }

  lemma HeldAfterAct(l: Local, a: Action, id: Id)
    requires LocalOk(l) && Can(l, a) && Do(l, a).proc.phase.Running? && Do(l, a).proc.slot == Held(id)
    requires l.proc.phase.Running? && l.proc.slot == Held(id) ==> Since(l.log, Admitted(l.pid, id), l.pid)
    ensures Since(Do(l, a).log, Admitted(l.pid, id), l.pid)
  {
    HeldByAct(l, a, id);
    if a.Insert? {
      hide DoInsert, LocalOk, Since;
      HeldByInsert(l, id, a.id, a.commit);
    } else {
      hide LocalOk, Can, Do, Since, RowsProgress, Written, Orphans;
      if l.proc.phase.Recovering? {
        RecoveringHoldsNothing(l);
        FinishKeepsSlot(l, a);
      }
      EveryActionKeeps(l, a);
      SinceSurvives(l.log, Do(l, a).log, Admitted(l.pid, id), l.pid);
    }
  }

  lemma FinishKeepsSlot(l: Local, a: Action)
    requires Can(l, a) && l.proc.phase.Recovering?
    ensures Do(l, a).proc.slot == l.proc.slot
  {
  }

  lemma HeldAfterStep(w: World, s: Step, pid: Pid, id: Id)
    requires WorldOk(w) && Enabled(w, s) && pid in Next(w, s).procs
    requires Next(w, s).procs[pid].phase.Running? && Next(w, s).procs[pid].slot == Held(id)
    requires pid in w.procs && w.procs[pid].phase.Running? && w.procs[pid].slot == Held(id) ==>
      Since(w.log, Admitted(pid, id), pid)
    ensures Since(Next(w, s).log, Admitted(pid, id), pid)
  {
    hide LocksOk, HistoryOk, DiskOk, ProcOk, Can, Do, Since, RowsProgress, Written, Orphans;
    var w' := Next(w, s);
    if s.Act? {
      EveryActionKeeps(View(w, s.pid), s.action);
      if s.pid == pid {
        HeldAfterAct(View(w, pid), s.action, id);
      } else {
        SinceSurvives(w.log, w'.log, Admitted(pid, id), pid);
      }
    } else {
      SinceSurvives(w.log, w'.log, Admitted(pid, id), pid);
    }
  }

  /** Whatever holds a running runtime's slot was admitted by it, in the same uninterrupted run. */
  lemma {:induction false} HeldWasAdmitted(run: seq<World>, i: nat, pid: Pid, id: Id)
    requires IsRun(run) && i < |run| && pid in run[i].procs
    requires run[i].procs[pid].phase.Running? && run[i].procs[pid].slot == Held(id)
    ensures Since(run[i].log, Admitted(pid, id), pid)
  {
    hide WorldOk, Enabled, Next, Since;
    if i > 0 {
      assert Follows(run[i - 1], run[i]);
      var s :| Enabled(run[i - 1], s) && run[i] == Next(run[i - 1], s);
      RunsAreOk(run, i - 1);
      if pid in run[i - 1].procs && run[i - 1].procs[pid].phase.Running? && run[i - 1].procs[pid].slot == Held(id) {
        HeldWasAdmitted(run, i - 1, pid, id);
      }
      HeldAfterStep(run[i - 1], s, pid, id);
    }
  }

  lemma {:induction false} AdmittedIsNoOrphan(log: Log, pid: Pid, id: Id)
    requires HistoryOk(log) && Since(log, Admitted(pid, id), pid)
    ensures id !in Orphans(log)
  {
    hide Justified, CommandFor;
    if Last(log) == Admitted(pid, id) {
      HistoryKnows(Init(log));
    } else {
      AdmittedIsNoOrphan(Init(log), pid, id);
      HistoryKnows(Init(log));
    }
  }

  /** Exactly one of the two: holding the slot, or having been reported as failed while becoming durable. */
  lemma UnfinishedDecided(run: seq<World>, i: nat, pid: Pid, id: Id)
    requires IsRun(run) && i < |run| && pid in run[i].procs && Serving(run[i].procs[pid])
    requires Has(run[i].disk, run[i].procs[pid].node, id) && !run[i].disk[id].document.terminal
    ensures run[i].procs[pid].slot == Held(id) <==> id !in Orphans(run[i].log)
  {
    hide IsRun, LocksOk, DiskOk, HistoryOk, ProcOk, Orphans, Since;
    UnfinishedHoldsSlot(run, i, pid, id);
    RunsAreOk(run, i);
    if run[i].procs[pid].slot == Held(id) {
      HeldWasAdmitted(run, i, pid, id);
      AdmittedIsNoOrphan(run[i].log, pid, id);
    }
  }

  /** So of the operations whose admission was not misreported, at most one is unfinished. */
  lemma AtMostOneUnfinished(run: seq<World>, i: nat, pid: Pid, a: Id, b: Id)
    requires IsRun(run) && i < |run| && pid in run[i].procs && Serving(run[i].procs[pid])
    requires Has(run[i].disk, run[i].procs[pid].node, a) && !run[i].disk[a].document.terminal
    requires Has(run[i].disk, run[i].procs[pid].node, b) && !run[i].disk[b].document.terminal
    requires a !in Orphans(run[i].log) && b !in Orphans(run[i].log)
    ensures a == b
  {
    hide IsRun, Serving, Orphans;
    UnfinishedHoldsSlot(run, i, pid, a);
    UnfinishedHoldsSlot(run, i, pid, b);
  }

  /** New rows appear only for a node whose owner is serving at that step. */
  lemma OnlyServingAdmits(run: seq<World>, i: nat, s: Step, id: Id)
    requires IsRun(run) && i < |run| && Enabled(run[i], s)
    requires id in Next(run[i], s).disk && id !in run[i].disk
    ensures s.Act? && s.action.Insert? && Serving(run[i].procs[s.pid])
    ensures Next(run[i], s).disk[id].node == run[i].procs[s.pid].node
  {
    hide LocksOk, IsRun, HistoryOk, DiskOk, FindIdempotent, WorkerOk, SlotOk;
    RunsAreOk(run, i);
    assert s.Act?;
    assert ProcOk(View(run[i], s.pid));
    OnlyInsertAdds(View(run[i], s.pid), s.action, id);
  }

  lemma OnlyInsertAdds(l: Local, a: Action, id: Id)
    requires Can(l, a) && id in Do(l, a).disk && id !in l.disk
    ensures a.Insert? && l.proc.phase.Running? && l.proc.main.Admitting?
    ensures Do(l, a).disk[id].node == l.proc.node
  {
    hide FindIdempotent, Quiet, Enumerates, CommandFor, Canonical, EffectOf, Enforce, Evident;
  }

  /** A runtime that lost a save has no worker left, and the guard at a worker's first step is never needed. */
  lemma WorkersAreHealthy(run: seq<World>, i: nat, pid: Pid, id: Id)
    requires IsRun(run) && i < |run| && pid in run[i].procs && IsWorker(run[i].procs[pid], id)
    ensures run[i].procs[pid].healthy
  {
    hide LocksOk, IsRun, HistoryOk, DiskOk, FindIdempotent, SlotOk, Cleared, Since;
    RunsAreOk(run, i);
    assert WorkerOk(View(run[i], pid), id, run[i].procs[pid].workers[id]);
  }

  /** Recovery ends only when nothing of the node is left unfinished. */
  lemma RecoveryIsComplete(run: seq<World>, i: nat, pid: Pid, id: Id)
    requires IsRun(run) && i < |run| && Enabled(run[i], Act(pid, FinishStart))
    requires Has(run[i].disk, run[i].procs[pid].node, id)
    ensures run[i].disk[id].document.terminal
  {
    hide LocksOk, IsRun, HistoryOk, DiskOk, FindIdempotent, WorkerOk, SlotOk;
    RunsAreOk(run, i);
    assert ProcOk(View(run[i], pid));
  }
}