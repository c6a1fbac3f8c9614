/** The ledger over its database (vnext/ledger.py): methods that change rows in place, proved against the table. */
module Ledger {
  import opened Base
  import opened Models
  import opened CanonicalJson
  import opened Rows
  import opened Protocol
  import opened Recovery

  // ---- the stored rows as a table ---------------------------------------------------------------

  ghost predicate Distinct(rows: seq<Row>) {
    forall i, j :: 0 <= i < j < |rows| ==> rows[i].id != rows[j].id
  }

  /** The rows under their primary key. */
  ghost function Table(rows: seq<Row>): Disk {
    if rows == [] then map[] else Table(Init(rows))[Last(rows).id := Last(rows)]
  }

  lemma {:induction false} TableAt(rows: seq<Row>)
    requires Distinct(rows)
    ensures forall i :: 0 <= i < |rows| ==> rows[i].id in Table(rows) && Table(rows)[rows[i].id] == rows[i]
    ensures forall id :: id in Table(rows) ==> exists i :: 0 <= i < |rows| && rows[i].id == id
  {
    if rows != [] {
      var front := Init(rows);
      TableAt(front);
      forall id | id in Table(rows) ensures exists i :: 0 <= i < |rows| && rows[i].id == id {
        if id == Last(rows).id {
          assert rows[|rows| - 1].id == id;
        } else {
          assert id in Table(front);
          var i :| 0 <= i < |front| && front[i].id == id;
          assert rows[i].id == id;
        }
      }
    }
  }

  lemma TableAppend(rows: seq<Row>, row: Row)
    ensures Table(rows + [row]) == Table(rows)[row.id := row]
  {
    assert Init(rows + [row]) == rows;
  }

  lemma {:induction false} TableUpdate(rows: seq<Row>, i: nat, row: Row)
    requires Distinct(rows) && i < |rows| && row.id == rows[i].id
    ensures Distinct(rows[i := row]) && Table(rows[i := row]) == Table(rows)[row.id := row]
  {
    var rows' := rows[i := row];
    if i < |rows| - 1 {
      TableUpdate(Init(rows), i, row);
      assert Init(rows') == Init(rows)[i := row];
    } else {
      assert Init(rows') == Init(rows);
    }
  }

  /** Identifiers are unique, keys are unique, and every document is stored under its own identifier. */
  ghost predicate ValidRows(rows: seq<Row>) {
    && Distinct(rows)
    && KeysUnique(Table(rows))
    && forall i :: 0 <= i < |rows| ==> RowCoherent(rows[i].id, rows[i])
  }

  // ---- queries ----------------------------------------------------------------------------------

  /** SELECT ... WHERE id=? AND node=? */
  function Select(rows: seq<Row>, node: Node, id: Id): (r: Option<nat>)
    ensures r.Some? ==> r.value < |rows| && rows[r.value].id == id && rows[r.value].node == node
    ensures r.None? ==> forall i :: 0 <= i < |rows| ==> !(rows[i].id == id && rows[i].node == node)
  {
    if rows == [] then None
    else if Last(rows).id == id && Last(rows).node == node then Some(|rows| - 1)
    else Select(Init(rows), node, id)
  }

  /** SELECT ... WHERE node=? AND credential=? AND idempotency_key=? */
  function SelectKey(rows: seq<Row>, node: Node, credential: string, key: Option<string>): (r: Option<nat>)
    ensures r.Some? ==> r.value < |rows| && Binds(rows[r.value], node, credential, key)
    ensures r.None? ==> forall i :: 0 <= i < |rows| ==> !Binds(rows[i], node, credential, key)
  {
    if rows == [] then None
    else if Binds(Last(rows), node, credential, key) then Some(|rows| - 1)
    else SelectKey(Init(rows), node, credential, key)
  }

  /** SELECT document ... WHERE node=? */
  function Documents(rows: seq<Row>, node: Node): seq<Operation> {
    if rows == [] then []
    else Documents(Init(rows), node) + if Last(rows).node == node then [Last(rows).document] else []
  }

  predicate UsedId(rows: seq<Row>, id: Id) {
    exists i :: 0 <= i < |rows| && rows[i].id == id
  }

  /** The lock file of one node, and the exclusive lock on it that a live runtime holds. */
  class LockFile {
    var holder: ControlOwner?

    constructor ()
      ensures holder == null
    {
      holder := null;
    }
  }

  class ControlOwner {
    const file: LockFile

    constructor (file: LockFile)
      requires file.holder == null
      modifies file
      ensures this.file == file && file.holder == this
    {
      this.file := file;
      new;
      file.holder := this;
    }

    /** Opening succeeds exactly when nobody holds the lock; a refused opener changes nothing. */
    static method Open(file: LockFile) returns (r: ControlOwner?)
      modifies file
      ensures r != null <==> old(file.holder) == null
      ensures r != null ==> fresh(r) && r.file == file
      ensures file.holder == if r != null then r else old(file.holder)
    {
      if file.holder != null {
        return null;
      }
      r := new ControlOwner(file);
    }

    /** Gives the lock back if this owner still has it; closing again does nothing. */
    method Close()
      modifies file
      ensures file.holder == if old(file.holder) == this then null else old(file.holder)
    {
      if file.holder == this {
        file.holder := null;
      }
    }
  }

  class Database {
    var rows: seq<Row>

    constructor ()
      ensures rows == []
    {
      rows := [];
    }
  }

  class Ledger {
    const node: Node
    const db: Database

    constructor (node: Node, db: Database)
      ensures this.node == node && this.db == db
    {
      this.node := node;
      this.db := db;
    }

    ghost predicate Valid()
      reads this, db
    {
      ValidRows(db.rows)
    }

    ghost function Disk(): Disk
      reads db
    {
      Table(db.rows)
    }

    method Get(id: Id) returns (r: Option<Operation>)
      requires Valid()
      ensures r == if Has(Disk(), node, id) then Some(Disk()[id].document) else None
    {
      hide ValidRows, Table;
      SelectFinds(db.rows, node, id);
      var found := Select(db.rows, node, id);
      r := if found.Some? then Some(db.rows[found.value].document) else None;
    }

    /** The operation a key is bound to; a key bound to another request is a conflict. */
    method FindIdempotent(kind: Kind, request: Request, credential: string, key: Option<string>)
      returns (r: Result<Option<Operation>>)
      requires Valid()
      ensures match Rows.FindIdempotent(Disk(), node, kind, request, credential, key)
        case Miss => r == Ok(None)
        case Found(id) => r == Ok(Some(Disk()[id].document))
        case Clash => r == Err(Problem(409, "IDEMPOTENCY_CONFLICT"))
    {
      hide ValidRows, Table, Canonical, Rows.FindIdempotent;
      SelectKeyFinds(db.rows, node, kind, request, credential, key);
      if key.None? {
        return Ok(None);
      }
      var found := SelectKey(db.rows, node, credential, key);
      if found.None? {
        return Ok(None);
      }
      var row := db.rows[found.value];
      if row.canonical != Canonical(kind, request) {
        return Err(Problem(409, "IDEMPOTENCY_CONFLICT"));
      }
      return Ok(Some(row.document));
    }

    /**
      One transaction: answer from the table, refuse, or insert. A failing commit may or may not have stored the
      row; an identifier already in use fails without storing anything.
     */
    method Admit(kind: Kind, request: Request, credential: string, key: Option<string>, id: Id)
      returns (r: Result<(Operation, bool)>, commit: Commit)
      requires Valid()
      modifies db
      ensures Valid()
      ensures match Rows.FindIdempotent(old(Disk()), node, kind, request, credential, key)
        case Found(bound) => r == Ok((old(Disk())[bound].document, false)) && db.rows == old(db.rows)
        case Clash => r == Err(Problem(409, "IDEMPOTENCY_CONFLICT")) && db.rows == old(db.rows)
        case Miss =>
          var row := NewRow(id, node, kind, request, credential, key);
          if id in old(Disk()) || commit.Lost? then r.Err? && db.rows == old(db.rows)
          else
            && db.rows == old(db.rows) + [row] && Disk() == old(Disk())[id := row]
            && (if commit.Committed? then r == Ok((row.document, true)) else r.Err?)
    {
      hide ValidRows, Table, Canonical, Rows.FindIdempotent, NewRow;
      commit := *;
      var existing := FindIdempotent(kind, request, credential, key);
      match existing
      case Err(error) => return Err(error), commit;
      case Ok(Some(op)) => return Ok((op, false)), commit;
      case Ok(None) =>
      TableIds(db.rows, id);
      if UsedId(db.rows, id) || commit.Lost? {
        return Err(Raised("sqlite3.Error")), commit;
      }
      var row := NewRow(id, node, kind, request, credential, key);
      InsertKeeps(db.rows, node, kind, request, credential, key, id);
      db.rows := db.rows + [row];
      r := if commit.Committed? then Ok((row.document, true)) else Err(Raised("sqlite3.Error"));
    }

    /** One transaction that revises one document; every other row stays as and where it was. */
    method Update(id: Id, c: Changes) returns (r: Result<Operation>, commit: Commit)
      requires Valid()
      modifies db
      ensures Valid()
      ensures Disk() == Store(old(Disk()), node, id, c, commit)
      ensures |db.rows| == |old(db.rows)| && forall i :: 0 <= i < |db.rows| ==> db.rows[i].id == old(db.rows[i].id)
      ensures r.Ok? <==> Has(old(Disk()), node, id) && commit.Committed?
      ensures r.Ok? ==> r.value == Disk()[id].document
    {
      hide ValidRows, Table, Revise;
      commit := *;
      SelectFinds(db.rows, node, id);
      var found := Select(db.rows, node, id);
      if found.None? {
        return Err(Raised("Unknown operation")), commit;
      }
      if commit.Lost? {
        return Err(Raised("sqlite3.Error")), commit;
      }
      var i := found.value;
      var document := Revise(db.rows[i].document, c);
      UpdateKeeps(db.rows, i, c);
      db.rows := db.rows[i := db.rows[i].(document := document)];
      r := if commit.Committed? then Ok(document) else Err(Raised("sqlite3.Error"));
    }

    /** The durable barrier: only a queued, unfinished operation crosses, and success means it is stored. */
    method StartDispatch(id: Id) returns (r: Result<Operation>, commit: Commit)
      requires Valid()
      modifies db
      ensures Valid()
      ensures var row, eligible := old(Disk()), Has(old(Disk()), node, id) && !old(Disk())[id].document.terminal
          && old(Disk())[id].document.dispatch == QUEUED;
        && Disk() == (if eligible then Store(old(Disk()), node, id, ToDispatch(DISPATCH_STARTED), commit)
                      else old(Disk()))
        && (r.Ok? <==> eligible && commit.Committed?)
    {
      hide ValidRows, Table, Revise;
      commit := *;
      var op := Get(id);
      if op.None? || op.value.terminal || op.value.dispatch != QUEUED {
        return Err(Raised("Operation cannot cross dispatch boundary again")), commit;
      }
      r, commit := Update(id, ToDispatch(DISPATCH_STARTED));
    }

    /** Finishes what a previous process left; if a commit fails it raises with part of the rows done. */
    method Recover() returns (r: Result<()>, ghost commits: seq<Commit>)
      requires Valid()
      modifies db
      ensures Valid()
      ensures StopsAtFailure(Documents(old(db.rows), node), commits, r.Ok?)
      ensures Disk() == RecoverSome(old(Disk()), node, Documents(old(db.rows), node), commits)
      ensures PartlyRecovered(old(Disk()), Disk(), node)
      ensures r.Ok? ==> Disk() == Recovered(old(Disk()), node)
    {
      hide ValidRows, Table, Revise, RecoveredRow, Halfway, PartlyRecovered, RecoveryChanges;
      var operations := Documents(db.rows, node);
      ghost var disk := Disk();
      HalfwayStarts(db.rows, node);
      commits := [];
      var i := 0;
      while i < |operations|
        invariant i <= |operations| && Valid() && Halfway(disk, Disk(), node, operations, i)
        invariant |commits| == i && AllCommitted(commits) && Disk() == RecoverSome(disk, node, operations, commits)
      {
        var operation := operations[i];
        ghost var before := Disk();
        var commit := Committed;
        if !operation.terminal {
          var saved;
          saved, commit := Update(operation.id, RecoveryChanges(operation));
          HalfwayAdvances(disk, before, node, operations, i, commit);
          OneMore(disk, node, operations, commits, commit);
          if saved.Err? {
            return Err(saved.error), commits + [commit];
          }
        } else {
          HalfwayAdvances(disk, before, node, operations, i, Committed);
          OneMore(disk, node, operations, commits, Committed);
        }
        commits := commits + [Committed];
        i := i + 1;
      }
      HalfwayEnds(disk, Disk(), node, operations);
      return Ok(()), commits;
    }
  }

  // ---- why the methods meet their contracts -----------------------------------------------------

  lemma SelectFinds(rows: seq<Row>, node: Node, id: Id)
    requires ValidRows(rows)
    ensures var found := Select(rows, node, id);
      && (found.Some? <==> Has(Table(rows), node, id))
      && (found.Some? ==> Table(rows)[id] == rows[found.value])
  {
    hide RowCoherent, KeysUnique, Table;
    TableAt(rows);
  }

  lemma TableIds(rows: seq<Row>, id: Id)
    requires ValidRows(rows)
    ensures UsedId(rows, id) <==> id in Table(rows)
  {
    hide RowCoherent, KeysUnique, Table;
    TableAt(rows);
  }

  lemma SelectKeyFinds(rows: seq<Row>, node: Node, kind: Kind, request: Request, credential: string,
      key: Option<string>)
    requires ValidRows(rows)
    ensures var found := SelectKey(rows, node, credential, key);
      && (found.Some? ==> key.Some?)
      && Rows.FindIdempotent(Table(rows), node, kind, request, credential, key)
         == (if found.None? then Miss
             else if rows[found.value].canonical != Canonical(kind, request) then Clash
             else Found(rows[found.value].id))
      && (found.Some? ==> rows[found.value].id in Table(rows) && Table(rows)[rows[found.value].id] == rows[found.value])
  {
    hide RowCoherent, Table, Canonical;
    TableAt(rows);
    var found := SelectKey(rows, node, credential, key);
    if found.Some? {
      var row := rows[found.value];
      forall id | id in Table(rows) && Binds(Table(rows)[id], node, credential, key) ensures id == row.id {
        assert SameKey(Table(rows)[id], Table(rows)[row.id]);
      }
    } else {
      forall id | id in Table(rows) ensures !Binds(Table(rows)[id], node, credential, key) {
        var i :| 0 <= i < |rows| && rows[i].id == id;
        assert Table(rows)[rows[i].id] == rows[i];
      }
    }
  }

  lemma InsertKeeps(rows: seq<Row>, node: Node, kind: Kind, request: Request, credential: string, key: Option<string>,
      id: Id)
    requires ValidRows(rows) && !UsedId(rows, id)
    requires Rows.FindIdempotent(Table(rows), node, kind, request, credential, key).Miss?
    ensures var row := NewRow(id, node, kind, request, credential, key);
      ValidRows(rows + [row]) && Table(rows + [row]) == Table(rows)[id := row]
  {
    hide Canonical, Table, Rows.FindIdempotent, KeysUnique;
    TableIds(rows, id);
    TableAppend(rows, NewRow(id, node, kind, request, credential, key));
    InsertKeepsKeys(Table(rows), node, kind, request, credential, key, id);
  }

  lemma UpdateKeeps(rows: seq<Row>, i: nat, c: Changes)
    requires ValidRows(rows) && i < |rows|
    ensures var row := rows[i].(document := Revise(rows[i].document, c));
      && ValidRows(rows[i := row]) && Table(rows[i := row]) == Table(rows)[row.id := row]
      && rows[i].id in Table(rows) && Table(rows)[rows[i].id] == rows[i]
  {
    hide Canonical, Table, KeysUnique;
    var row := rows[i].(document := Revise(rows[i].document, c));
    TableAt(rows);
    TableUpdate(rows, i, row);
    UpdateKeepsKeys(Table(rows), row.id, row);
    RevisionIsCoherent(rows[i], c);
  }

  lemma RevisionIsCoherent(row: Row, c: Changes)
    requires RowCoherent(row.id, row)
    ensures RowCoherent(row.id, row.(document := Revise(row.document, c)))
  {
    hide Canonical;
  }

  /** The table while recovery works through the documents it read: the first i are finished, the rest as read. */
  ghost predicate Halfway(start: Disk, now: Disk, node: Node, operations: seq<Operation>, i: nat)
    requires i <= |operations|
  {
    && now.Keys == start.Keys
    && (forall k :: 0 <= k < |operations| ==>
          Has(start, node, operations[k].id) && start[operations[k].id].document == operations[k])
    && (forall j, k :: 0 <= j < k < |operations| ==> operations[j].id != operations[k].id)
    && (forall id :: Has(start, node, id) ==> exists k :: 0 <= k < |operations| && operations[k].id == id)
    && (forall k :: 0 <= k < i ==> now[operations[k].id] == RecoveredRow(start[operations[k].id], node))
    && (forall k :: i <= k < |operations| ==> now[operations[k].id] == start[operations[k].id])
    && (forall id :: id in start && start[id].node != node ==> now[id] == start[id])
  }

  lemma HalfwayStarts(rows: seq<Row>, node: Node)
    requires ValidRows(rows)
    ensures Halfway(Table(rows), Table(rows), node, Documents(rows, node), 0)
  {
    hide KeysUnique, Table, RecoveredRow, Documents, Canonical;
    TableAt(rows);
    var docs := Documents(rows, node);
    forall id | Has(Table(rows), node, id) ensures exists k :: 0 <= k < |docs| && docs[k].id == id {
      var i :| 0 <= i < |rows| && rows[i].id == id;
      var k := RowHasDocument(rows, node, i);
      assert docs[k].id == id;
    }
    forall k | 0 <= k < |docs|
      ensures Has(Table(rows), node, docs[k].id) && Table(rows)[docs[k].id].document == docs[k]
    {
      var i := DocumentHasRow(rows, node, k);
      assert RowCoherent(rows[i].id, rows[i]);
    }
    forall j, k | 0 <= j < k < |docs| ensures docs[j].id != docs[k].id {
      var i, i' := DocumentsAscend(rows, node, j, k);
      assert RowCoherent(rows[i].id, rows[i]) && RowCoherent(rows[i'].id, rows[i']);
    }
  }

  lemma OneMore(disk: Disk, node: Node, pending: seq<Operation>, commits: seq<Commit>, commit: Commit)
    requires |commits| < |pending|
    ensures Init(commits + [commit]) == commits
    ensures var before, op := RecoverSome(disk, node, pending, commits), pending[|commits|];
      RecoverSome(disk, node, pending, commits + [commit]) ==
        if op.terminal then before else Store(before, node, op.id, RecoveryChanges(op), commit)
  {
    assert Init(commits + [commit]) == commits;
  }

  /** What recovery reads is one document for each row of the node. */
  lemma DocumentsEnumerate(rows: seq<Row>, node: Node)
    requires ValidRows(rows)
    ensures Enumerates(Documents(rows, node), Table(rows), node)
  {
    hide ValidRows, Table, Documents, RecoveredRow;
    HalfwayStarts(rows, node);
    var docs, disk := Documents(rows, node), Table(rows);
    forall id | Has(disk, node, id) ensures disk[id].document in docs {
      var k :| 0 <= k < |docs| && docs[k].id == id;
    }
  }

  lemma {:induction false} DocumentHasRow(rows: seq<Row>, node: Node, k: nat) returns (i: nat)
    requires k < |Documents(rows, node)|
    ensures i < |rows| && rows[i].node == node && rows[i].document == Documents(rows, node)[k]
  {
    if k < |Documents(Init(rows), node)| {
      i := DocumentHasRow(Init(rows), node, k);
    } else {
      i := |rows| - 1;
    }
  }

  lemma {:induction false} RowHasDocument(rows: seq<Row>, node: Node, i: nat) returns (k: nat)
    requires i < |rows| && rows[i].node == node
    ensures k < |Documents(rows, node)| && Documents(rows, node)[k] == rows[i].document
  {
    if i < |rows| - 1 {
      k := RowHasDocument(Init(rows), node, i);
    } else {
      k := |Documents(Init(rows), node)|;
    }
  }

  /** Documents come out in the order of their rows. */
  lemma {:induction false} DocumentsAscend(rows: seq<Row>, node: Node, j: nat, k: nat) returns (i: nat, i': nat)
    requires j < k < |Documents(rows, node)|
    ensures i < i' < |rows|
    ensures rows[i].document == Documents(rows, node)[j] && rows[i'].document == Documents(rows, node)[k]
  {
    if k < |Documents(Init(rows), node)| {
      i, i' := DocumentsAscend(Init(rows), node, j, k);
    } else {
      i := DocumentHasRow(Init(rows), node, j);
      i' := |rows| - 1;
    }
  }

  lemma HalfwayAdvances(start: Disk, now: Disk, node: Node, operations: seq<Operation>, i: nat, commit: Commit)
    requires i < |operations| && Halfway(start, now, node, operations, i)
    ensures var op := operations[i];
      var next := if op.terminal then now else Store(now, node, op.id, RecoveryChanges(op), commit);
      && PartlyRecovered(start, next, node)
      && (commit.Committed? ==> Halfway(start, next, node, operations, i + 1))
      && Has(now, node, op.id)
  {
    hide RecoveryChanges, Revise;
    var op := operations[i];
    var next := if op.terminal then now else Store(now, node, op.id, RecoveryChanges(op), commit);
    forall id | id in start ensures next[id] == start[id] || next[id] == RecoveredRow(start[id], node) {
      if start[id].node == node {
        assert Has(start, node, id);
        var k :| 0 <= k < |operations| && operations[k].id == id;
      }
    }
  }

  lemma HalfwayEnds(start: Disk, now: Disk, node: Node, operations: seq<Operation>)
    requires Halfway(start, now, node, operations, |operations|)
    ensures now == Recovered(start, node) && PartlyRecovered(start, now, node)
  {
    hide RecoveryChanges, Revise;
    forall id | id in start ensures now[id] == RecoveredRow(start[id], node) {
      if start[id].node == node {
        assert Has(start, node, id);
        var k :| 0 <= k < |operations| && operations[k].id == id;
      }
    }
  }
}
