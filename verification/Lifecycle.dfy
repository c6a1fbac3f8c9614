/** What a runtime cannot do any more once a save was lost, or once it has begun to close. */
module Lifecycle {
  import opened Models
  import opened Policy
  import opened Effects
  import opened CanonicalJson
  import opened Rows
  import opened Ami
  import opened Protocol
  import opened Invariant
  import opened Preservation
  import opened Safety
  import opened Guarantees

  // ---- after a lost save ------------------------------------------------------------------------

  /** No action of a runtime makes it healthy again. */
  lemma HealthNeverReturns(l: Local, a: Action)
    requires Can(l, a)
    ensures Do(l, a).proc.healthy ==> l.proc.healthy
  {
    hide FindIdempotent, Quiet, Enumerates, CommandFor, Canonical, EffectOf, Enforce, Evident;
  }

  /** A runtime that does not end in a step is the same runtime after it, and no healthier. */
  lemma StaysUnhealthy(w: World, s: Step, pid: Pid)
    requires WorldOk(w) && Enabled(w, s) && pid in w.procs && !w.procs[pid].phase.Stopped?
    requires Next(w, s).log != w.log + [Ended(pid)]
    ensures var w' := Next(w, s);
      && pid in w'.procs && !w'.procs[pid].phase.Stopped? && w'.procs[pid].node == w.procs[pid].node
      && (w'.procs[pid].healthy ==> w.procs[pid].healthy)
  {
    hide LocksOk, HistoryOk, DiskOk, ProcOk, Can, Do;
    if s.Act? {
      ActorStaysLive(View(w, s.pid), s.action);
      HealthNeverReturns(View(w, s.pid), s.action);
    }
  }

  /**
    After a lost save there is no way back: until the runtime ends, it stays unhealthy and no operation of its node is
    ever added, by it or by any other runtime.
   */
  lemma {:induction false} UnhealthyAdmitsNothing(run: seq<World>, i: nat, j: nat, pid: Pid)
    requires IsRun(run) && i <= j < |run|
    requires pid in run[i].procs && !run[i].procs[pid].phase.Stopped? && !run[i].procs[pid].healthy
    requires Uninterrupted(run[j].log, pid, |run[i].log|, |run[j].log|)
    ensures |run[i].log| <= |run[j].log|
    ensures pid in run[j].procs && !run[j].procs[pid].phase.Stopped? && !run[j].procs[pid].healthy
    ensures run[j].procs[pid].node == run[i].procs[pid].node
    ensures forall id :: Has(run[j].disk, run[i].procs[pid].node, id) ==> id in run[i].disk
    decreases j
  {
    hide WorldOk, Enabled, Next, Boot;
    if i < j {
      var w, w' := run[j - 1], run[j];
      assert Follows(w, w');
      var s :| Enabled(w, s) && w' == Next(w, s);
      RunsAreOk(run, j - 1);
      HistoryGrows(w, s);
      assert forall k :: 0 <= k < |w.log| ==> w.log[k] == w'.log[k];
      UnhealthyAdmitsNothing(run, i, j - 1, pid);
      NotEnding(w.log, w'.log, pid, |run[i].log|);
      StaysUnhealthy(w, s, pid);
      forall id | Has(w'.disk, run[i].procs[pid].node, id) ensures Has(w.disk, run[i].procs[pid].node, id) {
        NoneAdded(run, j - 1, s, pid, id);
      }
    }
  }

  lemma NotEnding(log: Log, log': Log, pid: Pid, from: nat)
    requires from <= |log| <= |log'| && Uninterrupted(log', pid, from, |log'|)
    ensures log' != log + [Ended(pid)]
  {
    assert (log + [Ended(pid)])[|log|] == Ended(pid);
  }

  lemma NoneAdded(run: seq<World>, i: nat, s: Step, pid: Pid, id: Id)
    requires IsRun(run) && i < |run| && Enabled(run[i], s)
    requires pid in run[i].procs && !run[i].procs[pid].phase.Stopped? && !run[i].procs[pid].healthy
    requires Has(Next(run[i], s).disk, run[i].procs[pid].node, id)
    ensures Has(run[i].disk, run[i].procs[pid].node, id)
  {
    hide WorldOk, IsRun, Can, Next;
    RunsAreOk(run, i);
    if id !in run[i].disk {
      OnlyServingAdmits(run, i, s, id);
      OneOwnerPerNode(run, i, s.pid, pid);
    } else {
      StepOnwards(run[i], s);
    }
  }

  // ---- closing ----------------------------------------------------------------------------------

  /** No coroutine of this runtime is past the barrier's check and short of its write. */
  predicate Shut(p: Proc) {
    forall id :: id in p.workers ==> !p.workers[id].Checked? && !p.workers[id].Crossed?
  }

  predicate Harmless(e: Event) {
    !e.Barrier? && !e.Wrote?
  }

  /** An action of a closing runtime neither crosses a barrier nor writes, nor gets ready to. */
  lemma ClosingActs(l: Local, a: Action)
    requires Can(l, a) && (l.proc.closing ==> Shut(l.proc))
    ensures l.proc.closing ==> Do(l, a).proc.closing
    ensures Do(l, a).proc.closing ==> Shut(Do(l, a).proc)
    ensures l.proc.closing ==> forall k :: |l.log| <= k < |Do(l, a).log| ==> Harmless(Do(l, a).log[k])
  {
    hide Enumerates, CommandFor, Evident, Store, FindIdempotent, Canonical, DoObserve, DoReply, DoVerify, DoInsert,
      HandlerChanges, HasStarted, Synchronous;
    match a
    case Observe(id, state, commit) => ObserveStaysShut(l, id, state, commit);
    case Reply(id, message, commit) => ReplyStaysShut(l, id, message, commit);
    case Verify(id, state, expired, commit) => VerifyStaysShut(l, id, state, expired, commit);
    case Insert(id, commit) => InsertStaysShut(l, id, commit);
    case BeginClose => QuietIsShut(l.proc);
    case _ =>
  }

  lemma QuietIsShut(p: Proc)
    requires Quiet(p)
    ensures Shut(p)
  {
  }

  ghost predicate StaysShut(l: Local, l': Local) {
    && l'.proc.closing == l.proc.closing && (Shut(l.proc) ==> Shut(l'.proc))
    && forall k :: |l.log| <= k < |l'.log| ==> Harmless(l'.log[k])
  }

  lemma SavesStayShut(l: Local, id: Id, commit: Commit)
    ensures forall c: Changes :: StaysShut(l, SaveAndFinish(l, id, c, commit))
  {
    hide Store;
  }

  lemma MovesStayShut(l: Local, id: Id)
    ensures forall w: Worker :: !w.Checked? && !w.Crossed? ==> StaysShut(l, At(l, id, w))
  {
  }

  lemma RecordThenStays(l: Local, e: Event, l': Local)
    requires Harmless(e) && StaysShut(Record(l, e), l') && l.log + [e] <= l'.log
    ensures StaysShut(l, l')
  {
    assert forall k :: |l.log| < k < |l'.log| ==> Harmless(l'.log[k]);
    assert l'.log[|l.log|] == (l.log + [e])[|l.log|];
  }

  lemma ObserveStaysShut(l: Local, id: Id, state: NodeState, commit: Commit)
    requires id in l.proc.workers && l.proc.workers[id].Observing?
    ensures StaysShut(l, DoObserve(l, id, state, commit))
  {
    var e := Observed(l.pid, id, l.proc.config, state);
    ObserveExtends(l, id, state, commit);
    hide EffectOf, Enforce, CommandFor, SaveAndFinish, At, StaysShut;
    SavesStayShut(Record(l, e), id, commit);
    MovesStayShut(Record(l, e), id);
    RecordThenStays(l, e, DoObserve(l, id, state, commit));
  }

  lemma ObserveExtends(l: Local, id: Id, state: NodeState, commit: Commit)
    requires id in l.proc.workers && l.proc.workers[id].Observing?
    ensures DoObserve(l, id, state, commit).log == l.log + [Observed(l.pid, id, l.proc.config, state)]
  {
    hide EffectOf, Enforce, CommandFor, Store;
  }

  lemma ReplyStaysShut(l: Local, id: Id, message: Message, commit: Commit)
    requires id in l.proc.workers && l.proc.workers[id].Awaiting?
    ensures StaysShut(l, DoReply(l, id, message, commit))
  {
    hide CommandRejected, SaysSuccess, Store;
  }

  lemma VerifyStaysShut(l: Local, id: Id, state: NodeState, expired: bool, commit: Commit)
    requires id in l.proc.workers && l.proc.workers[id].Verifying?
    ensures StaysShut(l, DoVerify(l, id, state, expired, commit))
  {
    hide EffectOf, SaveAndFinish, At, StaysShut;
    SavesStayShut(l, id, commit);
    MovesStayShut(l, id);
    UnchangedStaysShut(l);
  }

  lemma UnchangedStaysShut(l: Local)
    ensures StaysShut(l, l)
  {
  }

  lemma InsertStaysShut(l: Local, id: Id, commit: Commit)
    requires l.proc.main.Admitting?
    ensures StaysShut(l, DoInsert(l, id, commit))
  {
    hide FindIdempotent, Canonical;
  }

  lemma StepStaysShut(w: World, s: Step, pid: Pid)
    requires WorldOk(w) && Enabled(w, s) && pid in Next(w, s).procs && Next(w, s).procs[pid].closing
    requires pid in w.procs && w.procs[pid].closing ==> Shut(w.procs[pid])
    ensures Shut(Next(w, s).procs[pid])
  {
    hide LocksOk, HistoryOk, DiskOk, Can, Do, Shut, ProcOk;
    if s.Act? {
      ActorStaysLive(View(w, s.pid), s.action);
      if s.pid == pid {
        ClosingActs(View(w, pid), s.action);
      }
    } else if pid in w.procs {
      WorkersOnly(w, s, pid);
    }
  }

  lemma WorkersOnly(w: World, s: Step, pid: Pid)
    requires WorldOk(w) && Enabled(w, s) && !s.Act? && pid in w.procs
    requires Next(w, s).procs[pid].closing && (w.procs[pid].closing ==> Shut(w.procs[pid]))
    ensures Shut(Next(w, s).procs[pid])
  {
    hide LocksOk, HistoryOk, DiskOk;
    assert ProcOk(View(w, pid));
  }

  lemma {:induction false} ClosingIsShut(run: seq<World>, i: nat, pid: Pid)
    requires IsRun(run) && i < |run| && pid in run[i].procs && run[i].procs[pid].closing
    ensures Shut(run[i].procs[pid])
    decreases i
  {
    hide WorldOk, Enabled, Next, Shut;
    if i > 0 {
      assert Follows(run[i - 1], run[i]);
      var s :| Enabled(run[i - 1], s) && run[i] == Next(run[i - 1], s);
      RunsAreOk(run, i - 1);
      if pid in run[i - 1].procs && run[i - 1].procs[pid].closing {
        ClosingIsShut(run, i - 1, pid);
      }
      StepStaysShut(run[i - 1], s, pid);
    }
  }

  /** In a step of the world a closing runtime stays closing unless it ends, and adds no barrier and no write. */
  lemma StaysClosing(w: World, s: Step, pid: Pid)
    requires WorldOk(w) && Enabled(w, s) && pid in w.procs && !w.procs[pid].phase.Stopped?
    requires w.procs[pid].closing && Shut(w.procs[pid]) && Next(w, s).log != w.log + [Ended(pid)]
    ensures var w' := Next(w, s);
      && pid in w'.procs && !w'.procs[pid].phase.Stopped? && w'.procs[pid].closing
      && w.log <= w'.log && forall k :: |w.log| <= k < |w'.log| && w'.log[k].pid == pid ==> Harmless(w'.log[k])
  {
    hide LocksOk, HistoryOk, DiskOk, ProcOk, Can, Do, Shut, RowsProgress, Written, Orphans;
    HistoryGrows(w, s);
    StaysUnhealthy(w, s, pid);
    if s.Act? {
      EveryActionKeeps(View(w, s.pid), s.action);
      if s.pid == pid {
        ClosingActs(View(w, pid), s.action);
      }
    }
  }

  /** From the moment it begins to close until it ends, a runtime crosses no barrier and writes no command. */
  lemma {:induction false} ClosingWritesNothing(run: seq<World>, i: nat, j: nat, pid: Pid)
    requires IsRun(run) && i <= j < |run|
    requires pid in run[i].procs && !run[i].procs[pid].phase.Stopped? && run[i].procs[pid].closing
    requires Uninterrupted(run[j].log, pid, |run[i].log|, |run[j].log|)
    ensures |run[i].log| <= |run[j].log|
    ensures pid in run[j].procs && !run[j].procs[pid].phase.Stopped? && run[j].procs[pid].closing
    ensures forall k :: |run[i].log| <= k < |run[j].log| && run[j].log[k].pid == pid ==> Harmless(run[j].log[k])
    decreases j
  {
    hide WorldOk, Enabled, Next, Boot, Shut, Harmless;
    if i < j {
      var w, w' := run[j - 1], run[j];
      assert Follows(w, w');
      var s :| Enabled(w, s) && w' == Next(w, s);
      RunsAreOk(run, j - 1);
      HistoryGrows(w, s);
      assert forall k :: 0 <= k < |w.log| ==> w.log[k] == w'.log[k];
      ClosingWritesNothing(run, i, j - 1, pid);
      NotEnding(w.log, w'.log, pid, |run[i].log|);
      ClosingIsShut(run, j - 1, pid);
      StaysClosing(w, s, pid);
    }
  }
}
