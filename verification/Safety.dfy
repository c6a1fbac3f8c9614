/** Safety of the dispatch protocol over every run of every number of runtimes. */
module Safety {
  import opened Base
  import opened Models
  import opened Policy
  import opened CanonicalJson
  import opened Rows
  import opened Protocol
  import opened Invariant
  import opened Preservation

  // ---- the world's invariant --------------------------------------------------------------------

  /** The lock of a node is held exactly by its one runtime that is not stopped. */
  ghost predicate LocksOk(w: World) {
    && (forall pid :: pid in w.procs && !w.procs[pid].phase.Stopped? ==>
          w.procs[pid].node in w.locks && w.locks[w.procs[pid].node] == pid)
    && (forall node :: node in w.locks ==>
          w.locks[node] in w.procs && !w.procs[w.locks[node]].phase.Stopped? && w.procs[w.locks[node]].node == node)
  }

  ghost predicate WorldOk(w: World) {
    && LocksOk(w) && HistoryOk(w.log) && DiskOk(w.disk, w.log)
    && forall pid :: pid in w.procs ==> ProcOk(View(w, pid))
  }

  /** From one runtime's point of view nothing relevant has changed. */
  ghost predicate Undisturbed(l: Local, disk': Disk, log': Log) {
    && (forall id :: Has(l.disk, l.proc.node, id) ==> Has(disk', l.proc.node, id) && disk'[id] == l.disk[id])
    && (forall id :: Has(disk', l.proc.node, id) ==> Has(l.disk, l.proc.node, id))
    && (forall id :: Has(l.disk, l.proc.node, id) ==> (id in Written(log') <==> id in Written(l.log)))
    && Orphans(l.log) <= Orphans(log')
    && l.log <= log' && forall i :: |l.log| <= i < |log'| ==> log'[i] != Ended(l.pid)
  }

  lemma {:induction false} SinceSurvives(log: Log, log': Log, e: Event, pid: Pid)
    requires log <= log' && Since(log, e, pid)
    requires forall i :: |log| <= i < |log'| ==> log'[i] != Ended(pid)
    ensures Since(log', e, pid)
    decreases |log'|
  {
    if log' != log {
      SinceSurvives(log, Init(log'), e, pid);
    } else {
      assert log' == log;
    }
  }

  lemma UndisturbedWorker(l: Local, id: Id, disk': Disk, log': Log)
    requires Undisturbed(l, disk', log') && IsWorker(l.proc, id) && WorkerOk(l, id, l.proc.workers[id])
    ensures WorkerOk(l.(disk := disk', log := log'), id, l.proc.workers[id])
  {
    hide Since, Written, Orphans, Justified;
    SinceSurvives(l.log, log', Admitted(l.pid, id), l.pid);
    var w := l.proc.workers[id];
    if w.Crossed? {
      SinceSurvives(l.log, log', Barrier(l.pid, id, l.proc.config, w.before), l.pid);
    }
    if w.Dispatching? || w.Checked? || w.Crossed? {
      SinceSurvives(l.log, log', Observed(l.pid, w.op.id, l.proc.config, w.before), l.pid);
    }
  }

  lemma UndisturbedProc(l: Local, disk': Disk, log': Log)
    requires Undisturbed(l, disk', log') && ProcOk(l)
    ensures ProcOk(l.(disk := disk', log := log'))
  {
    var l' := l.(disk := disk', log := log');
    if l.proc.phase.Running? {
      UndisturbedRunning(l, disk', log');
    } else {
      hide Written, Orphans, WorkerOk, SlotOk, FindIdempotent;
    }
  }

  lemma UndisturbedRunning(l: Local, disk': Disk, log': Log)
    requires Undisturbed(l, disk', log') && ProcOk(l) && l.proc.phase.Running?
    ensures ProcOk(l.(disk := disk', log := log'))
  {
    hide Since, Written, Orphans, WorkerOk, Canonical, CommandFor;
    forall id | id in l.proc.workers ensures WorkerOk(l.(disk := disk', log := log'), id, l.proc.workers[id]) {
      UndisturbedWorker(l, id, disk', log');
    }
  }

  lemma BootOk()
    ensures WorldOk(Boot())
  {
  }

  /** Another node's step leaves a live runtime undisturbed. */
  lemma ElsewhereIsUndisturbed(l: Local, a: Local, a': Local)
    requires Progress(a, a') && a.disk == l.disk && a.log == l.log && a.pid != l.pid && a.proc.node != l.proc.node
    ensures Undisturbed(l, a'.disk, a'.log)
  {
    hide Written, Orphans, Rank;
  }

  lemma ActKeeps(w: World, pid: Pid, a: Action)
    requires WorldOk(w) && Enabled(w, Act(pid, a))
    ensures WorldOk(Next(w, Act(pid, a)))
  {
    hide DiskOk, HistoryOk, ProcOk, Can, Do, Progress, Undisturbed;
    var l := View(w, pid);
    EveryActionKeeps(l, a);
    ActorStaysLive(l, a);
    var l' := Do(l, a);
    var w' := Merge(w, l');
    forall q | q in w'.procs ensures ProcOk(View(w', q)) {
      if q == pid {
        assert View(w', q) == l';
      } else if !w.procs[q].phase.Stopped? {
        ElsewhereIsUndisturbed(View(w, q), l, l');
        UndisturbedProc(View(w, q), w'.disk, w'.log);
        assert View(w', q) == View(w, q).(disk := w'.disk, log := w'.log);
      } else {
        StoppedIsOk(View(w, q), View(w', q));
      }
    }
  }

  lemma StoppedIsOk(l: Local, l': Local)
    requires ProcOk(l) && l.proc.phase.Stopped? && l'.proc == l.proc
    ensures ProcOk(l')
  {
  }

  lemma ActorStaysLive(l: Local, a: Action)
    requires LocalOk(l) && Can(l, a)
    ensures !l.proc.phase.Stopped? && !Do(l, a).proc.phase.Stopped?
    ensures Do(l, a).pid == l.pid && Do(l, a).proc.node == l.proc.node
  {
    hide LocalOk, Do;
    EveryActionKeeps(l, a);
  }

  lemma ReleaseUndisturbs(l: Local, log: Log, pid: Pid)
    requires l.log == log && l.pid != pid
    ensures Undisturbed(l, l.disk, log + [Ended(pid)])
  {
    hide HistoryOk;
    Grow(log, Ended(pid));
  }

  lemma ReleaseDiskOk(disk: Disk, log: Log, pid: Pid)
    requires DiskOk(disk, log)
    ensures DiskOk(disk, log + [Ended(pid)])
  {
    hide RowShape, AnswerOk, KeysUnique, Since, HistoryOk, Earned, Written, Barriers, KnownIds;
    Grow(log, Ended(pid));
    NotAnAnswer(Ended(pid), disk);
  }

  lemma ReleaseKeeps(w: World, pid: Pid, p: Proc)
    requires WorldOk(w) && pid in w.procs && p.phase.Stopped? && ProcOk(Local(pid, p, w.disk, w.log))
    ensures WorldOk(Release(w, pid, p))
  {
    hide DiskOk, HistoryOk, ProcOk, Undisturbed;
    var w' := Release(w, pid, p);
    Grow(w.log, Ended(pid));
    ReleaseDiskOk(w.disk, w.log, pid);
    forall q | q in w'.procs ensures ProcOk(View(w', q)) {
      if q == pid {
        StoppedIsOk(Local(pid, p, w.disk, w.log), View(w', q));
      } else {
        ReleaseUndisturbs(View(w, q), w.log, pid);
        UndisturbedProc(View(w, q), w.disk, w'.log);
        assert View(w', q) == View(w, q).(disk := w'.disk, log := w'.log);
      }
    }
    assert HistoryOk(w'.log);
  }

  /** The invariant holds initially and every step keeps it. */
  lemma StepKeeps(w: World, s: Step)
    requires WorldOk(w) && Enabled(w, s)
    ensures WorldOk(Next(w, s))
  {
    match s
    case Act(pid, a) => ActKeeps(w, pid, a);
    case Spawn(pid, node, config) => SpawnKeeps(w, pid, node, config);
    case Lock(pid) => LockKeeps(w, pid);
    case AbortStart(pid) => StoppedProcOk(w, pid); ReleaseKeeps(w, pid, w.procs[pid].(phase := Stopped));
    case EndClose(pid) => StoppedProcOk(w, pid); ReleaseKeeps(w, pid, w.procs[pid].(phase := Stopped, slot := Free));
    case CloseStopped(pid) => CloseStoppedKeeps(w, pid);
    case Crash(pid) => StoppedProcOk(w, pid); ReleaseKeeps(w, pid, Fresh(w.procs[pid].node, w.procs[pid].config));
  }

  lemma StoppedProcOk(w: World, pid: Pid)
    requires WorldOk(w) && pid in w.procs
    ensures var p := w.procs[pid];
      && ProcOk(Local(pid, Fresh(p.node, p.config), w.disk, w.log))
      && (p.phase.Starting? || p.phase.Aborting? ==> ProcOk(Local(pid, p.(phase := Stopped), w.disk, w.log)))
      && (p.main.Idle? && p.workers == map[] ==>
            ProcOk(Local(pid, p.(phase := Stopped, slot := Free), w.disk, w.log)))
  {
    hide DiskOk, HistoryOk, LocksOk, WorkerOk, SlotOk, FindIdempotent, CommandFor;
    assert ProcOk(View(w, pid));
  }

  lemma FreshIsOk(l: Local)
    requires ValidNode(l.proc.node) && l.proc == Fresh(l.proc.node, l.proc.config)
    ensures ProcOk(l)
  {
  }

  lemma SpawnKeeps(w: World, pid: Pid, node: Node, config: Config)
    requires WorldOk(w) && Enabled(w, Spawn(pid, node, config))
    ensures WorldOk(Next(w, Spawn(pid, node, config)))
  {
    hide DiskOk, HistoryOk, ProcOk, ValidNode;
    var w' := Next(w, Spawn(pid, node, config));
    FreshIsOk(View(w', pid));
    forall q | q in w'.procs ensures ProcOk(View(w', q)) {
      if q != pid {
        assert View(w', q) == View(w, q);
      }
    }
  }

  lemma LockingIsOk(l: Local)
    requires ProcOk(l) && l.proc.phase.Stopped?
    ensures ProcOk(l.(proc := l.proc.(phase := Starting)))
  {
  }

  lemma ShutIsOk(l: Local)
    requires ProcOk(l) && l.proc.phase.Stopped?
    ensures ProcOk(l.(proc := l.proc.(closing := true)))
  {
  }

  lemma CloseStoppedKeeps(w: World, pid: Pid)
    requires WorldOk(w) && Enabled(w, CloseStopped(pid))
    ensures WorldOk(Next(w, CloseStopped(pid)))
  {
    hide DiskOk, HistoryOk, ProcOk;
    var w' := Next(w, CloseStopped(pid));
    ShutIsOk(View(w, pid));
    forall q | q in w'.procs ensures ProcOk(View(w', q)) {
      if q != pid {
        assert View(w', q) == View(w, q);
      }
    }
  }

  lemma LockKeeps(w: World, pid: Pid)
    requires WorldOk(w) && Enabled(w, Lock(pid))
    ensures WorldOk(Next(w, Lock(pid)))
  {
    hide DiskOk, HistoryOk, ProcOk;
    var w' := Next(w, Lock(pid));
    LockingIsOk(View(w, pid));
    forall q | q in w'.procs ensures ProcOk(View(w', q)) {
      if q != pid {
        assert View(w', q) == View(w, q);
      }
    }
  }

  lemma {:induction false} RunsAreOk(run: seq<World>, i: nat)
    requires IsRun(run) && i < |run|
    ensures WorldOk(run[i])
  {
    if i == 0 {
      BootOk();
    } else {
      hide WorldOk, Boot, Next, Enabled;
      RunsAreOk(run, i - 1);
      assert Follows(run[i - 1], run[i]);
      var s :| Enabled(run[i - 1], s) && run[i] == Next(run[i - 1], s);
      StepKeeps(run[i - 1], s);
    }
  }
}
