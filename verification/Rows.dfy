/** The operations table as a value (vnext/ledger.py): rows under their primary key, and one-row updates. */
module Rows {
  import opened Base
  import opened Models
  import opened CanonicalJson

  datatype Row = Row(
    id: Id,
    node: Node,
    credential: string,
    key: Option<string>,
    canonical: string,
    document: Operation)

  type Disk = map<Id, Row>

  /** How a write transaction ends: stored; refused; or reported as failed after it became durable. */
  datatype Commit = Committed | Lost | Durable

  /** The keyword arguments of Ledger.update. */
  datatype Changes = Changes(
    dispatch: Option<Dispatch>,
    effect: Option<Effect>,
    terminal: bool,
    semanticError: Option<string>,
    evidence: Option<NodeState>)

  function Or<T>(change: Option<T>, current: T): T {
    if change.Some? then change.value else current
  }

  function Revise(op: Operation, c: Changes): Operation {
    op.(dispatch := Or(c.dispatch, op.dispatch),
        effect := Or(c.effect, op.effect),
        terminal := c.terminal || op.terminal,
        semanticError := if c.semanticError.Some? then c.semanticError else op.semanticError,
        evidence := if c.evidence.Some? then c.evidence else op.evidence)
  }

  function ToDispatch(dispatch: Dispatch): Changes {
    Changes(Some(dispatch), None, false, None, None)
  }

  function ToEffect(effect: Effect, code: Option<string>, evidence: Option<NodeState>): Changes {
    Changes(None, Some(effect), true, code, evidence)
  }

  function ToFinal(dispatch: Dispatch, effect: Effect, code: string, evidence: Option<NodeState>): Changes {
    Changes(Some(dispatch), Some(effect), true, Some(code), evidence)
  }

  /** The ledger of one node sees only that node's rows. */
  predicate Has(disk: Disk, node: Node, id: Id) {
    id in disk && disk[id].node == node
  }

  /** The table after an update transaction; an unknown row is never created. */
  function Store(disk: Disk, node: Node, id: Id, c: Changes, commit: Commit): Disk {
    if commit.Lost? || !Has(disk, node, id) then disk
    else disk[id := disk[id].(document := Revise(disk[id].document, c))]
  }

  function NewOperation(id: Id, node: Node, kind: Kind, request: Request, credential: string): Operation {
    Operation(id, node, kind, request, credential, QUEUED, PENDING, false, None, None)
  }

  function NewRow(id: Id, node: Node, kind: Kind, request: Request, credential: string, key: Option<string>): Row {
    Row(id, node, credential, key, Canonical(kind, request), NewOperation(id, node, kind, request, credential))
  }

  // ---- idempotency ------------------------------------------------------------------------------

  predicate Binds(row: Row, node: Node, credential: string, key: Option<string>) {
    key.Some? && row.node == node && row.credential == credential && row.key == key
  }

  predicate SameKey(a: Row, b: Row) {
    Binds(a, b.node, b.credential, b.key)
  }

  /** UNIQUE(node, credential, idempotency_key), where absent keys never collide. */
  ghost predicate KeysUnique(disk: Disk) {
    forall i, j :: i in disk && j in disk && i != j ==> !SameKey(disk[i], disk[j])
  }

  datatype Lookup = Miss | Found(id: Id) | Clash

  ghost function FindIdempotent(disk: Disk, node: Node, kind: Kind, request: Request, credential: string,
      key: Option<string>): (r: Lookup)
    ensures r.Found? ==> r.id in disk && Binds(disk[r.id], node, credential, key)
  {
    if exists id :: id in disk && Binds(disk[id], node, credential, key) then
      var id :| id in disk && Binds(disk[id], node, credential, key);
      if disk[id].canonical == Canonical(kind, request) then Found(id) else Clash
    else Miss
  }

  /** A stored row carries the request it was bound to. */
  predicate RowCoherent(id: Id, row: Row) {
    && row.id == id && row.document.id == id
    && row.node == row.document.node && row.credential == row.document.credential
    && row.canonical == Canonical(row.document.kind, row.document.request)
  }

  /**
    A keyed request is answered from the table, refused, or new, exactly according to whether its key is
    bound to the same request, to a different one, or to none.
   */
  lemma IdempotencyDecided(disk: Disk, node: Node, kind: Kind, request: Request, credential: string,
      key: Option<string>, bound: Id)
    requires KeysUnique(disk) && forall id :: id in disk ==> RowCoherent(id, disk[id])
    requires bound in disk && Binds(disk[bound], node, credential, key)
    ensures var same := disk[bound].document.kind == kind && disk[bound].document.request == request;
      FindIdempotent(disk, node, kind, request, credential, key) == if same then Found(bound) else Clash
  {
    CanonicalInjective(kind, request, disk[bound].document.kind, disk[bound].document.request);
  }

  /** Binding a key that no row binds keeps keys unique. */
  lemma InsertKeepsKeys(disk: Disk, node: Node, kind: Kind, request: Request, credential: string, key: Option<string>,
      id: Id)
    requires KeysUnique(disk) && id !in disk
    requires FindIdempotent(disk, node, kind, request, credential, key).Miss?
    ensures KeysUnique(disk[id := NewRow(id, node, kind, request, credential, key)])
  {
    hide Canonical;
    var disk' := disk[id := NewRow(id, node, kind, request, credential, key)];
    forall i, j | i in disk' && j in disk' && i != j ensures !SameKey(disk'[i], disk'[j]) {
      if i != id && j != id {
        assert !SameKey(disk[i], disk[j]);
      }
    }
  }

  lemma UpdateKeepsKeys(disk: Disk, id: Id, row: Row)
    requires KeysUnique(disk) && id in disk && row == disk[id].(document := row.document)
    ensures KeysUnique(disk[id := row])
  {
    var disk' := disk[id := row];
    forall i, j | i in disk' && j in disk' && i != j ensures !SameKey(disk'[i], disk'[j]) {
      assert !SameKey(disk[i], disk[j]);
    }
  }
}
