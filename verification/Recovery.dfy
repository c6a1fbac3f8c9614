/** Crash recovery as a function of the table (vnext/ledger.py, Ledger.recover), and interrupted attempts at it. */
module Recovery {
  import opened Base
  import opened Models
  import opened Rows
  import opened Protocol

  function RecoveredRow(row: Row, node: Node): Row {
    if row.node != node || row.document.terminal then row
    else row.(document := Revise(row.document, RecoveryChanges(row.document)))
  }

  /** The table after one complete, undisturbed recovery of a node. */
  function Recovered(disk: Disk, node: Node): Disk {
    map id | id in disk :: RecoveredRow(disk[id], node)
  }

  /** A table that recovery left behind when it was cut short: some rows done, the others untouched. */
  ghost predicate PartlyRecovered(disk: Disk, disk': Disk, node: Node) {
    && disk'.Keys == disk.Keys
    && forall id :: id in disk ==> disk'[id] == disk[id] || disk'[id] == RecoveredRow(disk[id], node)
  }

  /** The table after as many of the documents read as there are commits, each update ending as its commit says. */
  function RecoverSome(disk: Disk, node: Node, pending: seq<Operation>, commits: seq<Commit>): Disk
    requires |commits| <= |pending|
    decreases |commits|
  {
    if commits == [] then disk
    else
      var before, op := RecoverSome(disk, node, pending, Init(commits)), pending[|commits| - 1];
      if op.terminal then before else Store(before, node, op.id, RecoveryChanges(op), Last(commits))
  }

  predicate AllCommitted(commits: seq<Commit>) {
    forall i :: 0 <= i < |commits| ==> commits[i].Committed?
  }

  /** Recovery stops at the first update that fails, and nowhere else before the end. */
  predicate StopsAtFailure(pending: seq<Operation>, commits: seq<Commit>, completed: bool) {
    if completed then AllCommitted(commits) && |commits| == |pending|
    else
      && 0 < |commits| <= |pending| && AllCommitted(Init(commits))
      && !Last(commits).Committed? && !pending[|commits| - 1].terminal
  }

  /** Recovering a row twice is recovering it once: a finished row is never judged again. */
  lemma RecoveredOnce(row: Row, node: Node)
    ensures RecoveredRow(RecoveredRow(row, node), node) == RecoveredRow(row, node)
    ensures row.node == node ==> RecoveredRow(row, node).document.terminal
  {
  }

  /** Any number of interrupted recoveries, then a complete one, comes to one complete recovery. */
  lemma {:induction false} InterruptionsDoNotMatter(disks: seq<Disk>, node: Node)
    requires disks != []
    requires forall i :: 0 < i < |disks| ==> PartlyRecovered(disks[i - 1], disks[i], node)
    ensures Recovered(Last(disks), node) == Recovered(disks[0], node)
  {
    if |disks| > 1 {
      var first, second := disks[0], disks[1];
      assert PartlyRecovered(first, second, node);
      forall id | id in first ensures RecoveredRow(second[id], node) == RecoveredRow(first[id], node) {
        RecoveredOnce(first[id], node);
      }
      assert Recovered(second, node) == Recovered(first, node);
      forall i | 0 < i < |disks[1..]| ensures PartlyRecovered(disks[1..][i - 1], disks[1..][i], node) {
        assert PartlyRecovered(disks[i], disks[i + 1], node);
      }
      InterruptionsDoNotMatter(disks[1..], node);
    }
  }

  /**
    What a complete recovery leaves: every unfinished operation of the node finished, as known-not-sent exactly if it
    was still queued, with the code that says so, and every other row, finished or of another node, as it was.
   */
  lemma RecoveryIsFramed(disk: Disk, node: Node, id: Id)
    requires id in disk
    ensures var before, after := disk[id], Recovered(disk, node)[id];
      if before.node != node || before.document.terminal then after == before
      else if before.document.dispatch == QUEUED then
        after == before.(document := before.document.(dispatch := NOT_DISPATCHED, effect := NOT_ATTEMPTED,
          terminal := true, semanticError := Some("PROCESS_RESTART_BEFORE_DISPATCH")))
      else
        after == before.(document := before.document.(dispatch := OUTCOME_UNKNOWN, effect := UNKNOWN,
          terminal := true, semanticError := Some("PROCESS_RESTART_AFTER_POSSIBLE_DISPATCH")))
  {
  }
}
