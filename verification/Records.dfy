/** Rows, change-log entries, mutations and outcomes of one user's synchronised data. */
module Records {

  /** A UUID. Zero is `uuid.Nil`; numeric order is the byte order the server sorts by. */
  type Uuid = nat

  const NIL: Uuid := 0

  /** A point in time, on the database clock. */
  type Time = int

  datatype Option<+T> = None | Some(value: T)

  const MAX_SOLVE_DURATION_MS: int := 24 * 60 * 60 * 1000

  /** Primary key of a row; the two tables `cube_sessions` and `solves` have disjoint keys. */
  datatype Key = SessionKey(id: Uuid) | SolveKey(id: Uuid)

  /** Client-supplied columns. Columns no server rule depends on travel together in `details`. */
  datatype Body =
    | SessionBody(details: string)
    | SolveBody(sessionRef: Option<Uuid>, durationMs: int, details: string)

  /** A stored row. A tombstone is a row whose `deletedAt` is set. */
  datatype Row = Row(body: Body, version: int, updatedAt: Time, deletedAt: Option<Time>)

  /** Both tables of one user, tombstones included. */
  type Tables = map<Key, Row>

  datatype Operation = Upsert | Delete | UnknownOperation

  datatype Entity = SessionEntity | SolveEntity | UnknownEntity

  /** A `change_log` row. The payload is the whole row as it stands after the write. */
  datatype Change = Change(id: nat, key: Key, op: Operation, row: Row)

  /** The decoded `data` of an upsert. `fieldsValid` is the verdict of the remaining per-field rules. */
  datatype Input = Input(id: Uuid, body: Body, fieldsValid: bool)

  /** A client mutation. `data` is `None` when it does not decode. */
  datatype Mutation = Mutation(id: Uuid, entity: Entity, entityId: Uuid, op: Operation,
                               baseVersion: int, data: Option<Input>)

  datatype Code =
    | InvalidEntity | InvalidMutationId | InvalidEntityId | InvalidVersion | InvalidOperation
    | NotFound | InvalidSession | InvalidSolve

  /** The server's record in a conflict: the whole row, or a stub from protocol version 2 on. */
  datatype Current = FullCurrent(row: Row) | StubCurrent(id: Uuid, version: int, updatedAt: Time)

  datatype Outcome =
    | Accepted(mutationId: Uuid, version: int)
    | Rejected(mutationId: Uuid, code: Code)
    | Conflict(mutationId: Uuid, version: int, current: Current)

  /** The table a mutation addresses; meaningful for the two known entities. */
  function KeyOf(m: Mutation): Key {
    if m.entity.SessionEntity? then SessionKey(m.entityId) else SolveKey(m.entityId)
  }

  function Max(a: int, b: int): int {
    if a < b then b else a
  }
}
