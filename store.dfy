/**
 * The hosted relational store as the core uses it. Each table is a value that a
 * handler receives and returns; whether a call to the store fails for a reason
 * of its own (network, permissions) is an input `fault`. What the store itself
 * guarantees is modelled here: a unique key rejects a second row with SQLSTATE
 * 23505, and an insert or update never touches other rows.
 */
module Store {
  import opened Shared

  /** An error reported by the store; `code` is the PostgreSQL SQLSTATE. */
  datatype DbError = DbError(code: string, message: string)

  const UniqueViolation: string := "23505"
  const DuplicateKeyMessage: string := "duplicate key value violates unique constraint"

  /** The answer to a select: the rows (`data` may be null) or an error. */
  datatype Query<T> = Rows(data: Option<seq<T>>) | QueryFailed(error: DbError)

  /** A row of `student_requests`, keyed by its generated `id`. Columns hold
    * whatever JSON value the handler sent. */
  datatype StudentRequest = StudentRequest(
    email: JsValue,
    requestType: JsValue,
    data: JsValue,
    paid: bool,
    stripeSessionId: Option<string>)

  type RequestTable = map<string, StudentRequest>

  /** `insert` into a table whose rows are keyed by a unique column. */
  function InsertUnique<R>(rows: map<string, R>, key: string, row: R, fault: Option<DbError>)
    : (r: (map<string, R>, Option<DbError>))
    ensures r.1.None? <==> fault.None? && key !in rows
    ensures r.1.None? ==> r.0 == rows[key := row]
    ensures r.1.Some? ==> r.0 == rows
    ensures fault.Some? ==> r.1 == fault
    ensures fault.None? && key in rows ==> r.1.Some? && r.1.value.code == UniqueViolation
  {
    if fault.Some? then (rows, fault)
    else if key in rows then (rows, Some(DbError(UniqueViolation, DuplicateKeyMessage)))
    else (rows[key := row], None)
  }

  /** The column changes an `update` on `student_requests` makes. */
  datatype RequestUpdate = SetSessionId(sessionId: string) | SetPaid

  function ApplyUpdate(row: StudentRequest, u: RequestUpdate): StudentRequest {
    match u
    case SetSessionId(sid) => row.(stripeSessionId := Some(sid))
    case SetPaid => row.(paid := true)
  }

  /** `update(u).eq('id', id)`: the row with that id, if any, is changed and no other.
    * A missing row is not an error. */
  function UpdateById(rows: RequestTable, id: string, u: RequestUpdate, fault: Option<DbError>)
    : (r: (RequestTable, Option<DbError>))
    ensures r.1 == fault
    ensures r.0.Keys == rows.Keys
    ensures forall k :: k in rows && k != id ==> r.0[k] == rows[k]
    ensures id in rows ==> r.0[id] == if fault.None? then ApplyUpdate(rows[id], u) else rows[id]
  {
    if fault.None? && id in rows then (rows[id := ApplyUpdate(rows[id], u)], None) else (rows, fault)
  }

  /** `delete().match({key})` on such a table. */
  function DeleteKey<R>(rows: map<string, R>, key: string, fault: Option<DbError>): (r: map<string, R>)
    ensures fault.None? ==> key !in r && forall k :: k in rows && k != key ==> k in r && r[k] == rows[k]
    ensures fault.None? ==> r.Keys == rows.Keys - {key}
    ensures fault.Some? ==> r == rows
  {
    if fault.Some? then rows else rows - {key}
  }

  /** Deleting a freshly inserted key restores the table: the compensating delete undoes the insert. */
  lemma DeleteUndoesInsert<R>(rows: map<string, R>, key: string, row: R)
    requires key !in rows
    ensures DeleteKey(InsertUnique(rows, key, row, None).0, key, None) == rows
  {
    var r := DeleteKey(rows[key := row], key, None);
    assert r.Keys == rows.Keys;
    assert forall k :: k in r ==> r[k] == rows[k];
  }

  /** `insert` into a table without a unique column: one more row at the end. */
  function Append<R>(rows: seq<R>, row: R, fault: Option<DbError>): (r: (seq<R>, Option<DbError>))
    ensures fault.None? ==> r == (rows + [row], None)
    ensures fault.Some? ==> r == (rows, fault)
  {
    if fault.Some? then (rows, fault) else (rows + [row], None)
  }
}
