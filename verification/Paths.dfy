/** Sequences of protocol actions of one runtime, and what one coroutine's actions leave alone. */
module Paths {
  import opened Base
  import opened Models
  import opened Policy
  import opened Effects
  import opened CanonicalJson
  import opened Rows
  import opened Ami
  import opened Protocol
  import opened Invariant
  import opened Preservation

  /** Only the named operations differ, and none appeared or went away. */
  predicate SameExcept(disk: Disk, disk': Disk, ids: set<Id>) {
    disk'.Keys == disk.Keys && forall id :: id in disk && id !in ids ==> disk'[id] == disk[id]
  }

  lemma NothingChanged(disk: Disk, ids: set<Id>)
    ensures SameExcept(disk, disk, ids)
  {
  }

  lemma SameExceptThen(disk: Disk, disk': Disk, disk'': Disk, ids: set<Id>, more: set<Id>)
    requires SameExcept(disk, disk', ids) && SameExcept(disk', disk'', more) && more <= ids
    ensures SameExcept(disk, disk'', ids)
  {
  }

  /** These actions of one runtime, one after the other, lead from one state to another. */
  ghost predicate Path(l: Local, l': Local, actions: seq<Action>)
    decreases |actions|
  {
    if actions == [] then l' == l
    else Can(l, actions[0]) && Path(Do(l, actions[0]), l', actions[1..])
  }

  /** What can happen while one coroutine runs: its own steps, requests, and the beginning of the close. */
  predicate Concerns(a: Action, id: Id) {
    match a
    case Begin(o, _) => o == id
    case Observe(o, _, _) => o == id
    case CheckBarrier(o) => o == id
    case CommitBarrier(o, _) => o == id
    case Write(o) => o == id
    case Reply(o, _, _) => o == id
    case FinishAnnounce(o, _) => o == id
    case Verify(o, _, _, _) => o == id
    case Raise(o) => o == id
    case Unwind(o, _) => o == id
    case Cancel(o, _) => o == id
    case Reserve(_, _, _, _) => true
    case BeginClose => true
    case _ => false
  }

  /** The protocol leads from one state to the other by steps that concern this coroutine. */
  ghost predicate Works(l: Local, l': Local, id: Id) {
    exists actions :: Path(l, l', actions) && forall i :: 0 <= i < |actions| ==> Concerns(actions[i], id)
  }

  lemma NoWork(l: Local, id: Id)
    ensures Works(l, l, id)
  {
    assert Path(l, l, []);
  }

  lemma OneStep(l: Local, a: Action, id: Id)
    requires Can(l, a) && Concerns(a, id)
    ensures Works(l, Do(l, a), id)
  {
    hide Can, Do;
    var l' := Do(l, a);
    assert Path(l', l', []) && [a][1..] == [];
    assert Path(l, l', [a]);
  }

  lemma {:induction false} PathsJoin(a: Local, b: Local, c: Local, first: seq<Action>, second: seq<Action>)
    requires Path(a, b, first) && Path(b, c, second)
    ensures Path(a, c, first + second)
    decreases |first|
  {
    hide Can, Do;
    if first == [] {
      assert first + second == second;
    } else {
      PathsJoin(Do(a, first[0]), b, c, first[1..], second);
      assert (first + second)[1..] == first[1..] + second;
    }
  }

  lemma WorksOn(a: Local, b: Local, c: Local, id: Id)
    requires Works(a, b, id) && Works(b, c, id)
    ensures Works(a, c, id)
  {
    hide Path, Concerns;
    var first :| Path(a, b, first) && forall i :: 0 <= i < |first| ==> Concerns(first[i], id);
    var second :| Path(b, c, second) && forall i :: 0 <= i < |second| ==> Concerns(second[i], id);
    PathsJoin(a, b, c, first, second);
    assert forall i :: 0 <= i < |first + second| ==> Concerns((first + second)[i], id);
  }

  /** Such steps keep the invariant, change no other operation's row, and only add to history. */
  lemma WorksFrame(l: Local, l': Local, id: Id)
    requires LocalOk(l) && Works(l, l', id)
    ensures LocalOk(l') && SameExcept(l.disk, l'.disk, {id}) && l.log <= l'.log
  {
    hide LocalOk, Path, Concerns, SameExcept;
    var actions :| Path(l, l', actions) && forall i :: 0 <= i < |actions| ==> Concerns(actions[i], id);
    PathFrame(l, l', actions, id);
  }

  lemma {:induction false} PathFrame(l: Local, l': Local, actions: seq<Action>, id: Id)
    requires LocalOk(l) && Path(l, l', actions) && forall i :: 0 <= i < |actions| ==> Concerns(actions[i], id)
    ensures LocalOk(l') && SameExcept(l.disk, l'.disk, {id}) && l.log <= l'.log
    decreases |actions|
  {
    hide LocalOk, Can, Do, Concerns, SameExcept, RowsProgress, Written, Orphans;
    if actions == [] {
      NothingChanged(l.disk, {id});
    } else {
      var mid := Do(l, actions[0]);
      EveryActionKeeps(l, actions[0]);
      ActionFrame(l, actions[0], id);
      PathFrame(mid, l', actions[1..], id);
      SameExceptThen(l.disk, mid.disk, l'.disk, {id}, {id});
    }
  }

  /** The protocol leads from one state to the other. */
  ghost predicate Leads(l: Local, l': Local) {
    exists actions :: Path(l, l', actions)
  }

  lemma WorksLeads(l: Local, l': Local, id: Id)
    requires Works(l, l', id)
    ensures Leads(l, l')
  {
    hide Path, Concerns;
  }

  lemma LeadsOn(a: Local, b: Local, c: Local)
    requires Leads(a, b) && Leads(b, c)
    ensures Leads(a, c)
  {
    hide Path;
    var first, second :| Path(a, b, first) && Path(b, c, second);
    PathsJoin(a, b, c, first, second);
  }

  lemma StoreFrames(disk: Disk, node: Node, id: Id)
    ensures forall c: Changes, commit: Commit :: SameExcept(disk, Store(disk, node, id, c, commit), {id})
  {
  }

  lemma ActionFrame(l: Local, a: Action, id: Id)
    requires Can(l, a) && Concerns(a, id)
    ensures SameExcept(l.disk, Do(l, a).disk, {id})
  {
    hide Quiet, Enumerates, CommandFor, Evident, Store, SameExcept, EffectOf, Enforce, FindIdempotent, Canonical,
      DoInsert, CommandRejected, SaysSuccess, HandlerChanges;
    StoreFrames(l.disk, l.proc.node, id);
    NothingChanged(l.disk, {id});
  }

  lemma BeginWorks(l: Local, id: Id, commit: Commit)
    requires Quiet(l.proc) && IsWorker(l.proc, id) && l.proc.workers[id].Created?
    ensures Works(l, DoBegin(l, id, commit), id)
  {
    hide Quiet, DoBegin, Works;
    OneStep(l, Begin(id, commit), id);
  }

  lemma ObserveWorks(l: Local, id: Id, state: NodeState, commit: Commit)
    requires Quiet(l.proc) && IsWorker(l.proc, id) && l.proc.workers[id].Observing? && Evident(state)
    ensures Works(l, DoObserve(l, id, state, commit), id)
  {
    hide Quiet, DoObserve, Works, Evident;
    OneStep(l, Observe(id, state, commit), id);
  }

  lemma WriteWorks(l: Local, id: Id)
    requires IsWorker(l.proc, id) && l.proc.workers[id].Crossed?
    ensures Works(l, DoWrite(l, id), id)
  {
    hide DoWrite, Works;
    OneStep(l, Write(id), id);
  }

  lemma VerifyWorks(l: Local, id: Id, state: NodeState, expired: bool, commit: Commit)
    requires Quiet(l.proc) && IsWorker(l.proc, id) && l.proc.workers[id].Verifying? && Evident(state)
    ensures Works(l, DoVerify(l, id, state, expired, commit), id)
  {
    hide Quiet, DoVerify, Works, Evident;
    OneStep(l, Verify(id, state, expired, commit), id);
  }

  lemma RaiseWorks(l: Local, id: Id)
    requires IsWorker(l.proc, id)
    requires l.proc.workers[id].Crossed?
      || (Quiet(l.proc) && !l.proc.workers[id].Created? && !l.proc.workers[id].Unwinding?)
    ensures Works(l, At(l, id, Unwinding(HasStarted(l.proc.workers[id]))), id)
  {
    hide Quiet, Works, HasStarted;
    OneStep(l, Raise(id), id);
  }

  lemma UnwindWorks(l: Local, id: Id, commit: Commit)
    requires Quiet(l.proc) && IsWorker(l.proc, id) && l.proc.workers[id].Unwinding?
    ensures Works(l, SaveAndFinish(l, id, HandlerChanges(l.proc.workers[id].started, false), commit), id)
  {
    hide Quiet, Works, SaveAndFinish, HandlerChanges;
    OneStep(l, Unwind(id, commit), id);
  }

  lemma CancelWorks(l: Local, id: Id, commit: Commit)
    requires Quiet(l.proc) && IsWorker(l.proc, id)
    ensures Works(l, DoCancel(l, id, commit), id)
  {
    hide Quiet, Works, DoCancel;
    OneStep(l, Cancel(id, commit), id);
  }

  lemma ReserveWorks(l: Local, kind: Kind, request: Request, credential: string, key: Option<string>, id: Id)
    requires l.proc.phase.Running? && Quiet(l.proc) && l.proc.healthy && !l.proc.closing
    requires CommandFor(l.proc.node, kind, request).Ok?
    ensures Works(l, DoReserve(l, kind, request, credential, key), id)
  {
    hide Quiet, Works, DoReserve, CommandFor;
    OneStep(l, Reserve(kind, request, credential, key), id);
  }

  lemma BeginCloseLeads(l: Local)
    requires l.proc.phase.Running? && Quiet(l.proc)
    ensures Leads(l, l.(proc := l.proc.(closing := true)))
  {
    hide Quiet, Works;
    OneStep(l, BeginClose, "");
    WorksLeads(l, l.(proc := l.proc.(closing := true)), "");
  }

  lemma NothingLeads(l: Local)
    ensures Leads(l, l)
  {
    assert Path(l, l, []);
  }

  lemma CancelLeadsOn(first: Local, l: Local, id: Id, commit: Commit)
    requires Leads(first, l) && Quiet(l.proc) && IsWorker(l.proc, id)
    ensures Leads(first, DoCancel(l, id, commit))
  {
    hide Leads, Quiet, DoCancel, Works;
    CancelWorks(l, id, commit);
    WorksLeads(l, DoCancel(l, id, commit), id);
    LeadsOn(first, l, DoCancel(l, id, commit));
  }
}
