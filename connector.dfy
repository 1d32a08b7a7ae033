/**
 * `db/database_connector.py`: the one connection the `db/models.py` functions share.
 *
 * The connection is absent (`None`), open, or closed after `disconnect`. The driver does
 * not autocommit, so the statements run since the last COMMIT form a transaction: they are
 * visible to later statements of the same connection (`pending`) but not yet durable
 * (`committed`). A ROLLBACK, a dropped connection or a closed one discards that transaction.
 */
module Connector {
  import opened Store
  import opened Sql

  datatype Link = NoConnection | Open | Closed

  datatype CursorState = NoCursor | Ready | Shut

  /** What `execute_query` hands back: `None`, a bool, a `lastrowid`, or the fetched rows. */
  datatype Outcome = NoneValue | Flag(b: bool) | RowId(id: int) | Rows(rows: seq<Row>)

  /** Python truthiness of an outcome, the test every caller applies. */
  predicate Truthy(o: Outcome) {
    match o
    case NoneValue => false
    case Flag(b) => b
    case RowId(id) => id != 0
    case Rows(rows) => rows != []
  }

  /** `None if fetch else False` */
  function Failed(fetch: bool): Outcome {
    if fetch then NoneValue else Flag(false)
  }

  datatype Session = Session(
    link: Link,
    cursor: CursorState,
    committed: Store,
    pending: Store,
    lastInsertId: int)
  {
    ghost predicate Valid() {
      && committed.Valid() && pending.Valid() && committed.nextId <= pending.nextId
      && (link == NoConnection <==> cursor == NoCursor)
      && (link == Open <==> cursor == Ready)
      && (link != Open ==> pending == RolledBack(committed, pending))
    }

    predicate IsOpen() {
      link == Open
    }
  }

  /**
   * `execute_query(query, params, fetch, commit)` on statement `st`; `fault` says whether the
   * driver raises while running it.
   */
  function Execute(s: Session, st: Statement, fetch: bool, commit: bool, fault: bool)
    : (r: (Session, Outcome))
    ensures s.Valid() ==> r.0.Valid()
    ensures !commit ==> r.0.committed == s.committed
    ensures s.Valid() ==>
      (Truthy(r.1) <==>
        s.IsOpen() && !fault && (commit || !fetch || Apply(s.pending, st, s.lastInsertId).rows != []))
  {
    if !s.IsOpen() then
      (s, Failed(fetch))
    else if fault then
      (s.(pending := RolledBack(s.committed, s.pending)), Failed(fetch))
    else
      var e := Apply(s.pending, st, s.lastInsertId);
      var t := s.(pending := e.store,
                  lastInsertId := if e.insertId != 0 then e.insertId else s.lastInsertId);
      if commit then
        (t.(committed := e.store), if st.IsInsert() then RowId(e.insertId) else Flag(true))
      else if fetch then
        (t, Rows(e.rows))
      else
        (t, Flag(true))
  }

  /** `connect()`: a new connection, or `None` when the server refuses. */
  function ConnectTo(s: Session, refused: bool): (r: (Session, bool))
    ensures r.1 == !refused
    ensures s.Valid() ==> r.0.Valid()
    ensures r.0.committed == s.committed && r.0.pending == RolledBack(s.committed, s.pending)
  {
    var reset := s.(pending := RolledBack(s.committed, s.pending));
    if refused then (reset.(link := NoConnection, cursor := NoCursor), false)
    else (reset.(link := Open, cursor := Ready, lastInsertId := 0), true)
  }

  /** `disconnect()`: closes an open connection, discarding its open transaction. */
  function Disconnected(s: Session): (r: Session)
    ensures s.Valid() ==> r.Valid()
    ensures !r.IsOpen()
    ensures r.committed == s.committed
  {
    if s.IsOpen() then
      s.(link := Closed, cursor := Shut, pending := RolledBack(s.committed, s.pending))
    else s
  }

  // ---- the promises of execute_query and disconnect ----

  /** Without an open connection nothing runs, and the answer is `None if fetch else False`. */
  lemma NoConnectionRunsNothing(s: Session, st: Statement, fetch: bool, commit: bool, fault: bool)
    requires !s.IsOpen()
    ensures var r := Execute(s, st, fetch, commit, fault);
      r.0 == s && !Truthy(r.1) && (r.1 == NoneValue <==> fetch)
  {
  }

  /**
   * With `commit` the whole transaction becomes durable, and the answer is the new row's id
   * for an INSERT and True otherwise, whatever `fetch` says.
   */
  lemma CommitTakesPrecedence(s: Session, st: Statement, fetch: bool)
    requires s.Valid() && s.IsOpen()
    ensures var r := Execute(s, st, fetch, true, false);
      && r.0.committed == r.0.pending
      && r.0.pending == Apply(s.pending, st, s.lastInsertId).store
      && (st.IsInsert() ==> r.1 == RowId(s.pending.nextId) && r.0.committed.nextId == s.pending.nextId + 1)
      && (!st.IsInsert() ==> r.1 == Flag(true))
  {
  }

  /** With `fetch` alone the rows come back and nothing becomes durable. */
  lemma FetchReturnsRows(s: Session, st: Statement)
    requires s.IsOpen()
    ensures var r := Execute(s, st, true, false, false);
      r.1 == Rows(Apply(s.pending, st, s.lastInsertId).rows) && r.0.committed == s.committed
  {
  }

  /**
   * A driver error caught as intended: the transaction is rolled back, the durable tables are
   * as they were, and the answer is `None if fetch else False`.
   */
  lemma DriverErrorRollsBack(s: Session, st: Statement, fetch: bool, commit: bool)
    requires s.IsOpen()
    ensures var r := Execute(s, st, fetch, commit, true);
      && r.0.committed == s.committed
      && r.0.pending == RolledBack(s.committed, s.pending)
      && !Truthy(r.1) && (r.1 == NoneValue <==> fetch)
  {
  }

  // ---- the except clauses as written ----

  /** How a call ends: with a value, or with an exception that leaves it. */
  datatype Ending<T> = Returned(value: T) | AttributeErrorRaised

  /**
   * `connect()` as written: its except clause names `Error` on the module bound as
   * `mysql_connector_errors`, which is `pymysql.cursors` and has no such attribute. The name
   * is looked up only once the driver has raised, so a refused connection ends with an
   * AttributeError, before any attribute of the connector is assigned.
   */
  function ConnectAsWritten(s: Session, refused: bool): (r: (Session, Ending<bool>))
    ensures r.1.AttributeErrorRaised? <==> refused
    ensures r.1.Returned? ==> (r.0, r.1.value) == ConnectTo(s, refused)
    ensures r.1.AttributeErrorRaised? ==> r.0 == s
  {
    if refused then (s, AttributeErrorRaised)
    else var c := ConnectTo(s, false); (c.0, Returned(c.1))
  }

  /**
   * `execute_query` as written: the same lookup fails once the statement has raised, so a
   * driver error leaves with an AttributeError: no ROLLBACK is issued and no `None`/`False`
   * comes back. The failed statement itself changes nothing.
   */
  function ExecuteAsWritten(s: Session, st: Statement, fetch: bool, commit: bool, fault: bool)
    : (r: (Session, Ending<Outcome>))
    ensures r.1.AttributeErrorRaised? <==> s.IsOpen() && fault
    ensures r.1.Returned? ==> (r.0, r.1.value) == Execute(s, st, fetch, commit, fault)
    ensures r.1.AttributeErrorRaised? ==> r.0 == s
  {
    if s.IsOpen() && fault then (s, AttributeErrorRaised)
    else var e := Execute(s, st, fetch, commit, fault); (e.0, Returned(e.1))
  }

  /**
   * As written, a refused connection is not reported by `False`: the exception escapes, and a
   * connection that was open before stays open with its transaction.
   */
  lemma RefusedConnectionRaisesAsWritten(s: Session)
    requires s.IsOpen()
    ensures var r := ConnectAsWritten(s, true);
      r.1 != Returned(false) && r.0.IsOpen() && r.0.pending == s.pending
    ensures ConnectTo(s, true).1 == false && !ConnectTo(s, true).0.IsOpen()
  {
  }

  /**
   * As written, a driver error in an open transaction escapes without the ROLLBACK that
   * `DriverErrorRollsBack` promises: the statements run before it stay pending.
   */
  lemma DriverErrorRaisesAsWritten(s: Session, st: Statement, fetch: bool, commit: bool)
    requires s.Valid() && s.IsOpen() && s.pending != RolledBack(s.committed, s.pending)
    ensures var r := ExecuteAsWritten(s, st, fetch, commit, true);
      r.1 == AttributeErrorRaised && r.0.pending != RolledBack(s.committed, s.pending)
    ensures Execute(s, st, fetch, commit, true).0.pending == RolledBack(s.committed, s.pending)
  {
  }

  /** A second `disconnect` does nothing. */
  lemma DisconnectIdempotent(s: Session)
    ensures Disconnected(Disconnected(s)) == Disconnected(s)
  {
  }

  class DatabaseConnector {
    var connection: Link
    var cursor: CursorState
    /** The database as other connections see it. */
    var committed: Store
    /** The database as this connection sees it, its open transaction included. */
    var pending: Store
    var lastInsertId: int

    function State(): Session
      reads this
    {
      Session(connection, cursor, committed, pending, lastInsertId)
    }

    ghost predicate Valid()
      reads this
    {
      State().Valid()
    }

    /** `__init__`: no connection yet, over the database `db`. */
    constructor(db: Store)
      requires db.Valid()
      ensures Valid()
      ensures State() == Session(NoConnection, NoCursor, db, db, 0)
    {
      connection := NoConnection;
      cursor := NoCursor;
      committed := db;
      pending := db;
      lastInsertId := 0;
    }

    /** `connect()`: True with a fresh connection and cursor, False with both `None`. */
    method Connect(refused: bool) returns (ok: bool)
      requires Valid()
      modifies this
      ensures Valid()
      ensures (State(), ok) == ConnectTo(old(State()), refused)
      ensures ok ==> connection == Open && cursor == Ready
      ensures !ok ==> connection == NoConnection && cursor == NoCursor
    {
      pending := RolledBack(committed, pending);
      if refused {
        connection := NoConnection;
        cursor := NoCursor;
        return false;
      }
      connection := Open;
      cursor := Ready;
      lastInsertId := 0;
      return true;
    }

    method Disconnect()
      requires Valid()
      modifies this
      ensures Valid()
      ensures State() == Disconnected(old(State()))
      ensures old(connection) != Open ==> unchanged(this)
    {
      if connection == Open {
        cursor := Shut;
        connection := Closed;
        pending := RolledBack(committed, pending);
      }
    }

    method ExecuteQuery(st: Statement, fetch: bool, commit: bool, fault: bool) returns (r: Outcome)
      requires Valid()
      modifies this
      ensures Valid()
      ensures (State(), r) == Execute(old(State()), st, fetch, commit, fault)
    {
      if connection != Open {
        return Failed(fetch);
      }
      if fault {
        pending := RolledBack(committed, pending);
        return Failed(fetch);
      }
      var e := Apply(pending, st, lastInsertId);
      pending := e.store;
      if e.insertId != 0 {
        lastInsertId := e.insertId;
      }
      if commit {
        committed := pending;
        return if st.IsInsert() then RowId(e.insertId) else Flag(true);
      }
      if fetch {
        return Rows(e.rows);
      }
      return Flag(true);
    }
  }

  /** The module-level `connector` and `get_db_connector()`. */
  class Registry {
    const connector: DatabaseConnector

    constructor(db: Store)
      requires db.Valid()
      ensures fresh(connector) && connector.Valid()
      ensures connector.State() == Session(NoConnection, NoCursor, db, db, 0)
    {
      connector := new DatabaseConnector(db);
    }

    /** Always the same instance. */
    method GetDbConnector() returns (c: DatabaseConnector)
      ensures c == connector
    {
      c := connector;
    }
  }
}
