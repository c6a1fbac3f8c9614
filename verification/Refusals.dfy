/** Every refusal by policy that is stored was deserved: the observation that caused it is in history and in the row. */
module Refusals {
  import opened Base
  import opened Models
  import opened Policy
  import opened Effects
  import opened CanonicalJson
  import opened Rows
  import opened Ami
  import opened Protocol
  import opened Invariant
  import opened Preservation
  import opened Safety
  import opened Guarantees

  predicate PolicyCode(code: Option<string>) {
    code in {Some("POLICY_DENIED_ACTIVE_TRAFFIC"), Some("POLICY_DENIED_STATE_UNKNOWN")}
  }

  /** An observation of this operation under which its runtime's policy refused it with this code. */
  ghost predicate RefusedOn(log: Log, id: Id, op: Operation) {
    exists i :: 0 <= i < |log| && Refuses(log[i], id, op)
  }

  predicate Refuses(e: Event, id: Id, op: Operation) {
    && e.Observed? && e.id == id && op.evidence == Some(e.before)
    && op.semanticError.Some? && Enforce(e.config, op.kind, e.before) == Some(Problem(409, op.semanticError.value))
  }

  predicate NoNewRefusal(disk: Disk, disk': Disk) {
    forall id :: id in disk' && PolicyCode(disk'[id].document.semanticError) ==>
      id in disk && PolicyCode(disk[id].document.semanticError)
  }

  lemma StoresRefuseNothing(disk: Disk, node: Node, id: Id)
    ensures forall c: Changes, commit: Commit :: !PolicyCode(c.semanticError) ==>
      NoNewRefusal(disk, Store(disk, node, id, c, commit))
  {
  }

  lemma ObserveRefuses(l: Local, id: Id, state: NodeState, commit: Commit, o: Id)
    requires LocalOk(l) && IsWorker(l.proc, id) && l.proc.workers[id].Observing?
    requires var l' := DoObserve(l, id, state, commit);
      o in l'.disk && PolicyCode(l'.disk[o].document.semanticError)
      && !(o in l.disk && PolicyCode(l.disk[o].document.semanticError))
    ensures var l' := DoObserve(l, id, state, commit); RefusedOn(l'.log, o, l'.disk[o].document)
  {
    hide LocalOk, RowOk, Since, EffectOf, CommandFor;
    OneWorker(l, id);
    var l' := DoObserve(l, id, state, commit);
    assert l'.log[|l.log|] == Observed(l.pid, id, l.proc.config, state);
    assert o == id;
    assert Refuses(l'.log[|l.log|], id, l'.disk[id].document);
  }

  lemma OthersRefuseNothing(l: Local, a: Action)
    requires Can(l, a) && !a.Observe?
    ensures NoNewRefusal(l.disk, Do(l, a).disk)
  {
    hide Quiet, Enumerates, CommandFor, Evident, Store, PolicyCode, NoNewRefusal, EffectOf, FindIdempotent, Canonical,
      CommandRejected, SaysSuccess;
    CodesAreOther();
    NothingRefused(l.disk);
    match a
    case RecoverRow(_) => StoresRefuseNothing(l.disk, l.proc.node, l.proc.phase.pending[0].id);
    case Insert(id, commit) => InsertRefusesNothing(l, id, commit);
    case Begin(id, _) => StoresRefuseNothing(l.disk, l.proc.node, id);
    case CommitBarrier(id, _) => StoresRefuseNothing(l.disk, l.proc.node, id);
    case Reply(id, _, _) => StoresRefuseNothing(l.disk, l.proc.node, id);
    case FinishAnnounce(id, _) => StoresRefuseNothing(l.disk, l.proc.node, id);
    case Verify(id, _, _, _) => StoresRefuseNothing(l.disk, l.proc.node, id);
    case Unwind(id, _) => StoresRefuseNothing(l.disk, l.proc.node, id);
    case Cancel(id, _) => StoresRefuseNothing(l.disk, l.proc.node, id);
    case _ =>
  }

  lemma NothingRefused(disk: Disk)
    ensures NoNewRefusal(disk, disk)
  {
  }

  lemma InsertRefusesNothing(l: Local, id: Id, commit: Commit)
    requires l.proc.main.Admitting?
    ensures NoNewRefusal(l.disk, DoInsert(l, id, commit).disk)
  {
    hide FindIdempotent, Canonical;
  }

  lemma CodesAreOther()
    ensures !PolicyCode(None)
    ensures forall code :: code in UNCERTAIN_CODES ==> !PolicyCode(Some(code))
    ensures !PolicyCode(Some("CONTROL_UNAVAILABLE")) && !PolicyCode(Some("WORKER_CANCELLED_BEFORE_DISPATCH"))
    ensures !PolicyCode(Some("DISPATCH_NOT_ATTEMPTED")) && !PolicyCode(Some("PROCESS_RESTART_BEFORE_DISPATCH"))
    ensures !PolicyCode(Some("COMMAND_REJECTED")) && !PolicyCode(Some("PLAYBACK_EFFECT_NOT_OBSERVABLE"))
    ensures !PolicyCode(Some("EFFECT_NOT_CONFIRMED_WITHIN_OBSERVATION_WINDOW"))
    ensures !PolicyCode(Some("POST_DISPATCH_STATE_UNKNOWN"))
  {
  }

  /** Every stored refusal by policy goes back to an observation that policy refuses, stored as the row's evidence. */
  lemma {:induction false} RefusalsAreJustified(run: seq<World>, i: nat, id: Id)
    requires IsRun(run) && i < |run| && id in run[i].disk && PolicyCode(run[i].disk[id].document.semanticError)
    ensures RefusedOn(run[i].log, id, run[i].disk[id].document)
    decreases i
  {
    hide WorldOk, Enabled, Next, RefusedOn, PolicyCode;
    if i > 0 {
      var w, w' := run[i - 1], run[i];
      assert Follows(w, w');
      var s :| Enabled(w, s) && w' == Next(w, s);
      RunsAreOk(run, i - 1);
      if id in w.disk && PolicyCode(w.disk[id].document.semanticError) {
        RefusalsAreJustified(run, i - 1, id);
        RefusedIsTerminal(run, i - 1, id);
        StepOnwards(w, s);
        HistoryGrows(w, s);
        RefusalStands(w.log, w'.log, id, w.disk[id].document);
      } else {
        NewRefusal(w, s, id);
      }
    }
  }

  lemma RefusalStands(log: Log, log': Log, id: Id, op: Operation)
    requires log <= log' && RefusedOn(log, id, op)
    ensures RefusedOn(log', id, op)
  {
    var i :| 0 <= i < |log| && Refuses(log[i], id, op);
    assert log'[i] == log[i];
  }

  lemma RefusedIsTerminal(run: seq<World>, i: nat, id: Id)
    requires IsRun(run) && i < |run| && id in run[i].disk && PolicyCode(run[i].disk[id].document.semanticError)
    ensures run[i].disk[id].document.terminal
  {
    hide IsRun, TripleOk, EvidenceOk;
    StatusesAreSound(run, i, id);
  }

  lemma NewRefusal(w: World, s: Step, id: Id)
    requires WorldOk(w) && Enabled(w, s) && id in Next(w, s).disk
    requires PolicyCode(Next(w, s).disk[id].document.semanticError)
    requires !(id in w.disk && PolicyCode(w.disk[id].document.semanticError))
    ensures RefusedOn(Next(w, s).log, id, Next(w, s).disk[id].document)
  {
    hide LocksOk, HistoryOk, DiskOk, ProcOk, PolicyCode, RefusedOn;
    assert s.Act?;
    NewRefusalByAct(View(w, s.pid), s.action, id);
  }

  lemma NewRefusalByAct(l: Local, a: Action, id: Id)
    requires LocalOk(l) && Can(l, a) && id in Do(l, a).disk && PolicyCode(Do(l, a).disk[id].document.semanticError)
    requires !(id in l.disk && PolicyCode(l.disk[id].document.semanticError))
    ensures RefusedOn(Do(l, a).log, id, Do(l, a).disk[id].document)
  {
    hide LocalOk, PolicyCode, RefusedOn, DoObserve;
    if a.Observe? {
      ObserveRefuses(l, a.id, a.state, a.commit, id);
    } else {
      hide Can, Do;
      OthersRefuseNothing(l, a);
      assert false;
    }
  }

  /** With the default settings no disconnect is ever refused by policy, whatever is known about the node. */
  lemma DefaultsNeverRefuseDisconnect(run: seq<World>, i: nat, id: Id)
    requires IsRun(run) && i < |run| && id in run[i].disk
    requires run[i].disk[id].document.kind in {UnlinkNode, UnlinkAll}
    requires forall k :: 0 <= k < |run[i].log| && run[i].log[k].Observed? ==> run[i].log[k].config == map[]
    ensures !PolicyCode(run[i].disk[id].document.semanticError)
  {
    hide IsRun, PolicyCode;
    if PolicyCode(run[i].disk[id].document.semanticError) {
      RefusalsAreJustified(run, i, id);
      var op := run[i].disk[id].document;
      var k :| 0 <= k < |run[i].log| && Refuses(run[i].log[k], id, op);
      DefaultsAlwaysDisconnect(op.kind, run[i].log[k].before);
    }
  }
}
