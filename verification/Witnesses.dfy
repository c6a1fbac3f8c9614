/**
  Runs that do happen: the guarantees are not vacuous. Every line of the status table is reached, a command does get
  written, and a misreported commit does leave two unfinished operations.
 */
module Witnesses {
  import opened Base
  import opened Models
  import opened Effects
  import opened CanonicalJson
  import opened Rows
  import opened Ami
  import opened Protocol
  import opened Invariant
  import opened Guarantees

  lemma Continue(run: seq<World>, s: Step) returns (longer: seq<World>)
    requires IsRun(run) && run != [] && Enabled(Last(run), s)
    ensures IsRun(longer) && longer != [] && Last(longer) == Next(Last(run), s)
  {
    hide Enabled, Next, Boot;
    longer := run + [Next(Last(run), s)];
    forall i | 0 < i < |longer| ensures Follows(longer[i - 1], longer[i]) {
      if i < |run| {
        assert Follows(run[i - 1], run[i]);
      }
    }
  }

  // ---- one runtime serving node 1 ---------------------------------------------------------------

  function Server(): Proc {
    Fresh("1", map[]).(phase := Running)
  }

  lemma Booted() returns (run: seq<World>)
    ensures IsRun(run) && run != [] && Last(run).disk == map[] && Last(run).log == []
    ensures 0 in Last(run).procs && Last(run).procs[0] == Server()
  {
    run := [Boot()];
    assert IsRun(run);
    hide IsRun;
    run := Continue(run, Spawn(0, "1", map[]));
    run := Continue(run, Lock(0));
    run := Continue(run, Act(0, ReadRows([])));
    run := Continue(run, Act(0, FinishStart));
  }

  lemma UnkeyedIsNew(disk: Disk, node: Node, kind: Kind, request: Request, credential: string)
    ensures FindIdempotent(disk, node, kind, request, credential, None).Miss?
  {
  }

  /** One accepted request of each kind. */
  function RequestOf(kind: Kind): (r: Request)
    ensures CommandFor("1", kind, r).Ok?
  {
    match kind
    case LinkNode => map["node" := "2", "mode" := "transceive"]
    case UnlinkNode => map["node" := "2"]
    case UnlinkAll => map[]
    case Announce => map["kind" := "status"]
  }

  function RowOf(id: Id, kind: Kind): Row {
    NewRow(id, "1", kind, RequestOf(kind), "operator", None)
  }

  /** One unkeyed admission by a serving runtime whose slot is free. */
  lemma Admit(run: seq<World>, id: Id, kind: Kind, commit: Commit) returns (longer: seq<World>)
    requires IsRun(run) && run != [] && 0 in Last(run).procs && id !in Last(run).disk && !commit.Lost?
    requires Last(run).procs[0] == Server()
    ensures IsRun(longer) && longer != [] && 0 in Last(longer).procs
    ensures Last(longer).disk == Last(run).disk[id := RowOf(id, kind)]
    ensures Last(longer).procs[0] == if commit.Durable? then Server()
      else Server().(slot := Held(id), workers := map[id := Created])
  {
    hide IsRun, Canonical, CommandFor, RequestOf;
    var request := RequestOf(kind);
    UnkeyedIsNew(Last(run).disk, "1", kind, request, "operator");
    longer := Continue(run, Act(0, Reserve(kind, request, "operator", None)));
    longer := Continue(longer, Act(0, Insert(id, commit)));
  }

  /** The condition on misreported commits is needed: one leaves a second unfinished operation beside the slot's. */
  lemma MisreportedCommitLeavesTwo() returns (run: seq<World>)
    ensures IsRun(run) && run != [] && 0 in Last(run).procs && Serving(Last(run).procs[0])
    ensures Has(Last(run).disk, "1", "a") && !Last(run).disk["a"].document.terminal
    ensures Has(Last(run).disk, "1", "b") && !Last(run).disk["b"].document.terminal
    ensures Last(run).procs[0].node == "1" && Last(run).procs[0].slot == Held("b")
  {
    hide IsRun, Canonical, RequestOf;
    run := Booted();
    run := Admit(run, "a", UnlinkAll, Durable);
    run := Admit(run, "b", UnlinkAll, Committed);
  }

  // ---- one operation from admission to any of its ends ------------------------------------------

  function Linked(status: ConnectionStatus): NodeState {
    NodeState("1", None, CLEAR, true, Some(false), Some(false),
      Some([DirectLink("2", Some("2"), T, false, status)]), [])
  }

  function Unlinked(): NodeState {
    NodeState("1", None, CLEAR, true, Some(false), Some(false), Some([]), [])
  }

  /** A state in which the request of a kind is satisfied, and one in which it is not. */
  function Having(kind: Kind): NodeState {
    if kind.LinkNode? then Linked(ESTABLISHED) else Unlinked()
  }

  function Lacking(kind: Kind): NodeState {
    if kind.LinkNode? then Unlinked() else Linked(ESTABLISHED)
  }

  lemma StatesAreEvident()
    ensures forall status :: Evident(Linked(status))
    ensures Evident(Unlinked()) && Evident(UnknownState("1", None, ""))
  {
  }

  lemma EffectsOfStates(kind: Kind)
    requires !kind.Announce?
    ensures EffectOf(kind, RequestOf(kind), Having(kind)) == Ok(OBSERVED_SATISFIED)
    ensures EffectOf(kind, RequestOf(kind), Lacking(kind)) == Ok(OBSERVED_UNSATISFIED)
    ensures EffectOf(kind, RequestOf(kind), UnknownState("1", None, "")) == Ok(UNKNOWN)
    ensures kind.LinkNode? ==> EffectOf(kind, RequestOf(kind), Linked(CONNECTING)) == Ok(OBSERVED_PARTIAL)
  {
    var link := DirectLink("2", Some("2"), T, false, ESTABLISHED);
    assert link in [link];
  }

  function First(kind: Kind): Operation {
    RowOf("a", kind).document
  }

  /** The run has come to where its one operation has this document and its coroutine stands here. */
  ghost predicate Stands(run: seq<World>, kind: Kind, dispatch: Dispatch, w: Worker) {
    && IsRun(run) && run != []
    && 0 in Last(run).procs && Last(run).procs[0] == Server().(slot := Held("a"), workers := map["a" := w])
    && Last(run).disk == map["a" := RowOf("a", kind).(document := First(kind).(dispatch := dispatch))]
  }

  ghost predicate Reaches(run: seq<World>, id: Id, kind: Kind, dispatch: Dispatch, effect: Effect, terminal: bool) {
    && IsRun(run) && run != [] && id in Last(run).disk
    && var op := Last(run).disk[id].document;
       op.kind == kind && op.dispatch == dispatch && op.effect == effect && op.terminal == terminal
  }

  lemma ReachObserving(kind: Kind) returns (run: seq<World>)
    ensures Stands(run, kind, QUEUED, Observing(First(kind)))
  {
    hide IsRun, Canonical, RequestOf;
    run := Booted();
    run := Admit(run, "a", kind, Committed);
    run := Continue(run, Act(0, Begin("a", Committed)));
  }

  lemma ReachDispatching(kind: Kind) returns (run: seq<World>)
    ensures Stands(run, kind, QUEUED, Dispatching(First(kind), Lacking(kind)))
  {
    hide IsRun, Canonical, RequestOf, CommandFor, EffectOf, Evident;
    run := ReachObserving(kind);
    StatesAreEvident();
    if !kind.Announce? {
      EffectsOfStates(kind);
    }
    run := Continue(run, Act(0, Observe("a", Lacking(kind), Committed)));
  }

  lemma ReachChecked(kind: Kind) returns (run: seq<World>)
    ensures Stands(run, kind, QUEUED, Checked(First(kind), Lacking(kind)))
  {
    hide IsRun, Canonical, RequestOf, CommandFor, EffectOf, Evident, Lacking;
    hide DoRecoverRow, DoReserve, DoInsert, DoBegin, DoObserve, DoCommitBarrier, DoWrite, DoReply, DoVerify, DoCancel;
    run := ReachDispatching(kind);
    run := Continue(run, Act(0, CheckBarrier("a")));
  }

  lemma ReachCrossed(kind: Kind) returns (run: seq<World>)
    ensures Stands(run, kind, DISPATCH_STARTED, Crossed(First(kind), Lacking(kind)))
  {
    hide IsRun, Canonical, RequestOf, CommandFor, EffectOf, Evident, Lacking, Quiet;
    hide DoRecoverRow, DoReserve, DoInsert, DoBegin, DoObserve, DoCheckBarrier, DoWrite, DoReply, DoVerify, DoCancel;
    run := ReachChecked(kind);
    run := Continue(run, Act(0, CommitBarrier("a", Committed)));
  }

  /** The command of an operation of any kind does get written. */
  lemma ReachAwaiting(kind: Kind) returns (run: seq<World>)
    ensures Stands(run, kind, DISPATCH_STARTED, Awaiting(First(kind)))
    ensures Last(run).log != [] && Last(Last(run).log).Wrote? && Last(Last(run).log).op == First(kind)
  {
    hide IsRun, Canonical, CommandFor, EffectOf, Evident, Lacking, Quiet;
    hide DoRecoverRow, DoReserve, DoInsert, DoBegin, DoObserve, DoCheckBarrier, DoCommitBarrier, DoReply, DoVerify,
      DoCancel;
    run := ReachCrossed(kind);
    run := Continue(run, Act(0, Write("a")));
  }

  lemma SuccessIsNoRefusal(reply: Message)
    requires reply == map["response" := Scalar("Success")]
    ensures !CommandRejected(reply) && SaysSuccess(reply)
  {
  }

  lemma ReachVerifying(kind: Kind) returns (run: seq<World>)
    ensures Stands(run, kind, ACKNOWLEDGED, if kind.Announce? then Acked(First(kind)) else Verifying(First(kind)))
  {
    hide IsRun, Canonical, RequestOf;
    hide CommandFor, EffectOf, Evident;
    hide DoRecoverRow, DoReserve, DoInsert, DoBegin, DoObserve, DoCheckBarrier, DoCommitBarrier, DoWrite, DoVerify,
      DoCancel;
    run := ReachAwaiting(kind);
    var reply: Message := map["response" := Scalar("Success")];
    SuccessIsNoRefusal(reply);
    hide CommandRejected, SaysSuccess;
    run := Continue(run, Act(0, Reply("a", reply, Committed)));
  }

  /** The operation ends where one more action takes it. */
  lemma EndsWith(run: seq<World>, a: Action, kind: Kind, dispatch: Dispatch, effect: Effect)
    returns (longer: seq<World>)
    requires IsRun(run) && run != [] && Enabled(Last(run), Act(0, a))
    requires "a" in Do(View(Last(run), 0), a).disk
    requires var op := Do(View(Last(run), 0), a).disk["a"].document;
      op.kind == kind && op.dispatch == dispatch && op.effect == effect && op.terminal
    ensures Reaches(longer, "a", kind, dispatch, effect, true)
  {
    hide IsRun, Can, Do;
    longer := Continue(run, Act(0, a));
  }

  /** The operation is cancelled where its coroutine waits. */
  lemma EndsCancelled(run: seq<World>, kind: Kind, dispatch: Dispatch, w: Worker) returns (longer: seq<World>)
    requires Stands(run, kind, dispatch, w) && !w.Created? && !Synchronous(w)
    ensures if HasStarted(w) then Reaches(longer, "a", kind, OUTCOME_UNKNOWN, UNKNOWN, true)
      else Reaches(longer, "a", kind, NOT_DISPATCHED, NOT_ATTEMPTED, true)
  {
    hide IsRun, Canonical, RequestOf, EffectOf, Evident, CommandFor, HasStarted;
    hide DoRecoverRow, DoReserve, DoInsert, DoBegin, DoObserve, DoCheckBarrier, DoCommitBarrier, DoWrite, DoReply,
      DoVerify;
    if HasStarted(w) {
      longer := EndsWith(run, Cancel("a", Committed), kind, OUTCOME_UNKNOWN, UNKNOWN);
    } else {
      longer := EndsWith(run, Cancel("a", Committed), kind, NOT_DISPATCHED, NOT_ATTEMPTED);
    }
  }

  lemma ReachSatisfied(kind: Kind) returns (run: seq<World>)
    requires !kind.Announce?
    ensures Reaches(run, "a", kind, NOT_DISPATCHED, OBSERVED_SATISFIED, true)
  {
    hide IsRun, Canonical, RequestOf, EffectOf, Evident, CommandFor, Lacking;
    hide DoRecoverRow, DoReserve, DoInsert, DoBegin, DoCheckBarrier, DoCommitBarrier, DoWrite, DoReply, DoVerify,
      DoCancel;
    run := ReachObserving(kind);
    StatesAreEvident();
    EffectsOfStates(kind);
    run := EndsWith(run, Observe("a", Having(kind), Committed), kind, NOT_DISPATCHED, OBSERVED_SATISFIED);
  }

  lemma ErrorIsRefusal(reply: Message)
    requires reply == map["response" := Scalar("Error")]
    ensures CommandRejected(reply)
  {
  }

  lemma ReachRejected(kind: Kind) returns (run: seq<World>)
    ensures Reaches(run, "a", kind, REJECTED, NOT_ATTEMPTED, true)
  {
    hide IsRun, Canonical, RequestOf, EffectOf, Evident, CommandFor, CommandRejected, SaysSuccess;
    hide DoRecoverRow, DoReserve, DoInsert, DoBegin, DoObserve, DoCheckBarrier, DoCommitBarrier, DoWrite, DoVerify,
      DoCancel;
    run := ReachAwaiting(kind);
    var reply: Message := map["response" := Scalar("Error")];
    ErrorIsRefusal(reply);
    run := EndsWith(run, Reply("a", reply, Committed), kind, REJECTED, NOT_ATTEMPTED);
  }

  lemma ReachAnnounced() returns (run: seq<World>)
    ensures Reaches(run, "a", Announce, ACKNOWLEDGED, UNKNOWN, true)
  {
    hide IsRun, Canonical, RequestOf, EffectOf, Evident, CommandFor;
    hide DoRecoverRow, DoReserve, DoInsert, DoBegin, DoObserve, DoCheckBarrier, DoCommitBarrier, DoWrite, DoReply,
      DoVerify, DoCancel;
    run := ReachVerifying(Announce);
    run := EndsWith(run, FinishAnnounce("a", Committed), Announce, ACKNOWLEDGED, UNKNOWN);
  }

  /** The watch ends at its deadline, with whatever the last state shows. */
  lemma ReachVerified(kind: Kind, state: NodeState, effect: Effect) returns (run: seq<World>)
    requires !kind.Announce? && Evident(state) && EffectOf(kind, RequestOf(kind), state) == Ok(effect)
    ensures Reaches(run, "a", kind, ACKNOWLEDGED, effect, true)
  {
    hide IsRun, Canonical, RequestOf, EffectOf, Evident, CommandFor;
    hide DoRecoverRow, DoReserve, DoInsert, DoBegin, DoObserve, DoCheckBarrier, DoCommitBarrier, DoWrite, DoReply,
      DoCancel;
    run := ReachVerifying(kind);
    run := EndsWith(run, Verify("a", state, true, Committed), kind, ACKNOWLEDGED, effect);
  }

  lemma ReachAcknowledged(kind: Kind, effect: Effect) returns (run: seq<World>)
    requires InTable(kind, ACKNOWLEDGED, effect, true)
    ensures Reaches(run, "a", kind, ACKNOWLEDGED, effect, true)
  {
    hide Reaches, EffectOf, Evident, RequestOf;
    if kind.Announce? {
      run := ReachAnnounced();
    } else {
      StatesAreEvident();
      EffectsOfStates(kind);
      var state := match effect
        case OBSERVED_SATISFIED => Having(kind)
        case OBSERVED_UNSATISFIED => Lacking(kind)
        case OBSERVED_PARTIAL => Linked(CONNECTING)
        case _ => UnknownState("1", None, "");
      run := ReachVerified(kind, state, effect);
    }
  }

  lemma StandsReaches(run: seq<World>, kind: Kind, dispatch: Dispatch, w: Worker)
    requires Stands(run, kind, dispatch, w)
    ensures Reaches(run, "a", kind, dispatch, PENDING, false)
  {
    hide IsRun, Canonical, RequestOf;
  }

  lemma EveryStatusIsReached(kind: Kind, dispatch: Dispatch, effect: Effect, terminal: bool) returns (run: seq<World>)
    requires InTable(kind, dispatch, effect, terminal)
    ensures Reaches(run, "a", kind, dispatch, effect, terminal)
  {
    hide Stands, Reaches, First;
    match dispatch
    case QUEUED =>
      run := ReachObserving(kind);
      StandsReaches(run, kind, QUEUED, Observing(First(kind)));
    case DISPATCH_STARTED =>
      run := ReachAwaiting(kind);
      StandsReaches(run, kind, DISPATCH_STARTED, Awaiting(First(kind)));
    case ACKNOWLEDGED =>
      if terminal {
        run := ReachAcknowledged(kind, effect);
      } else {
        run := ReachVerifying(kind);
        StandsReaches(run, kind, ACKNOWLEDGED, if kind.Announce? then Acked(First(kind)) else Verifying(First(kind)));
      }
    case REJECTED => run := ReachRejected(kind);
    case OUTCOME_UNKNOWN =>
      run := ReachAwaiting(kind);
      run := EndsCancelled(run, kind, DISPATCH_STARTED, Awaiting(First(kind)));
    case NOT_DISPATCHED =>
      if effect == OBSERVED_SATISFIED {
        run := ReachSatisfied(kind);
      } else {
        run := ReachObserving(kind);
        run := EndsCancelled(run, kind, QUEUED, Observing(First(kind)));
      }
  }

  lemma ReachedIsInTable(run: seq<World>, id: Id, kind: Kind, dispatch: Dispatch, effect: Effect, terminal: bool)
    requires Reaches(run, id, kind, dispatch, effect, terminal)
    ensures InTable(kind, dispatch, effect, terminal)
  {
    hide IsRun, InTable, CodeOk, EvidenceOk;
    StatusesAreSound(run, |run| - 1, id);
  }

  /** The table is exact: a status of an operation of this kind is in it if and only if some run stores it. */
  lemma TableIsExact(kind: Kind, dispatch: Dispatch, effect: Effect, terminal: bool)
    ensures InTable(kind, dispatch, effect, terminal)
      <==> exists run, id :: Reaches(run, id, kind, dispatch, effect, terminal)
  {
    hide Reaches, InTable;
    if InTable(kind, dispatch, effect, terminal) {
      var run := EveryStatusIsReached(kind, dispatch, effect, terminal);
    }
    if run, id :| Reaches(run, id, kind, dispatch, effect, terminal) {
      ReachedIsInTable(run, id, kind, dispatch, effect, terminal);
    }
  }
}
