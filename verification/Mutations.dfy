/**
  What one mutation does to the tables: validation, the compare-and-swap on the version,
  tombstones and the reference from a solve to its session.
 */
module Mutations {
  import opened Records

  /** The verdict on one mutation, before anything is stored. */
  datatype Judgement =
    | Settled(outcome: Outcome)            // answered without a write
    | Write(op: Operation, row: Row)       // this row is stored and logged
    | MissingSession                       // the foreign key of a solve fails

  function EnvelopeError(m: Mutation): Option<Code> {
    if m.id == NIL then Some(InvalidMutationId)
    else if m.entityId == NIL then Some(InvalidEntityId)
    else if m.baseVersion < 0 then Some(InvalidVersion)
    else if m.op.UnknownOperation? then Some(InvalidOperation)
    else None
  }

  function InvalidData(m: Mutation): Code {
    if m.entity.SessionEntity? then InvalidSession else InvalidSolve
  }

  /** The data decodes as the entity it is sent for, carries its id and passes the field rules. */
  predicate ValidData(m: Mutation) {
    && m.data.Some?
    && m.data.value.id == m.entityId
    && m.data.value.fieldsValid
    && match m.data.value.body
       case SessionBody(_) => m.entity.SessionEntity?
       case SolveBody(_, duration, _) =>
         m.entity.SolveEntity? && 0 <= duration <= MAX_SOLVE_DURATION_MS
  }

  /** The session a row refers to exists, live or as a tombstone. */
  predicate SessionExists(t: Tables, body: Body) {
    body.SolveBody? && body.sessionRef.Some? ==> SessionKey(body.sessionRef.value) in t
  }

  function ConflictOutcome(m: Mutation, row: Row, proto: int): Outcome {
    Conflict(m.id, row.version,
             if proto >= 2 then StubCurrent(m.entityId, row.version, row.updatedAt) else FullCurrent(row))
  }

  function Judge(t: Tables, m: Mutation, now: Time, proto: int): Judgement {
    if m.entity.UnknownEntity? then Settled(Rejected(m.id, InvalidEntity))
    else if EnvelopeError(m).Some? then Settled(Rejected(m.id, EnvelopeError(m).value))
    else if m.op.Delete? then JudgeDelete(t, m, now, proto)
    else JudgeUpsert(t, m, now, proto)
  }

  function JudgeDelete(t: Tables, m: Mutation, now: Time, proto: int): Judgement {
    var key := KeyOf(m);
    if key !in t then Settled(Rejected(m.id, NotFound))
    else if t[key].version != m.baseVersion then Settled(ConflictOutcome(m, t[key], proto))
    else if t[key].deletedAt.Some? then Settled(Accepted(m.id, t[key].version))
    else Write(Delete, t[key].(version := t[key].version + 1, updatedAt := now, deletedAt := Some(now)))
  }

  function JudgeUpsert(t: Tables, m: Mutation, now: Time, proto: int): Judgement {
    var key := KeyOf(m);
    if !ValidData(m) then Settled(Rejected(m.id, InvalidData(m)))
    else if key !in t && m.baseVersion != 0 then Settled(Rejected(m.id, NotFound))
    else if key in t && t[key].version != m.baseVersion then Settled(ConflictOutcome(m, t[key], proto))
    else if !SessionExists(t, m.data.value.body) then MissingSession
    else Write(Upsert, Row(m.data.value.body, m.baseVersion + 1, now, None))
  }

  /** Mutation `m`, judged on tables `t`, is what produced change `c`. */
  predicate Justifies(t: Tables, m: Mutation, c: Change) {
    && c.key == KeyOf(m)
    && Judge(t, m, c.row.updatedAt, 1) == Write(c.op, c.row)
  }

  /**
    A write is a compare-and-swap: it happens only on the version the client edited, moves that
    version up by one, keeps the solve-to-session reference intact, and is a tombstone exactly
    when the operation is a delete.
   */
  lemma {:induction false} WriteIsCompareAndSwap(t: Tables, m: Mutation, now: Time, proto: int, op: Operation, row: Row)
    requires Judge(t, m, now, proto) == Write(op, row)
    requires forall k <- t :: SessionExists(t, t[k].body)
    ensures op == m.op && (op.Upsert? || op.Delete?)
    ensures KeyOf(m).id != NIL
    ensures m.baseVersion == (if KeyOf(m) in t then t[KeyOf(m)].version else 0)
    ensures row.version == m.baseVersion + 1 && row.updatedAt == now
    ensures op.Delete? <==> row.deletedAt.Some?
    ensures op.Delete? ==> KeyOf(m) in t && t[KeyOf(m)].deletedAt.None?
    ensures SessionExists(t, row.body)
    ensures op.Upsert? ==> && m.data.Some? && m.data.value.id == m.entityId && ValidData(m)
                           && row == Row(m.data.value.body, m.baseVersion + 1, now, None)
    ensures op.Delete? ==> KeyOf(m) in t && row == Row(t[KeyOf(m)].body, m.baseVersion + 1, now, Some(now))
    ensures row.body.SolveBody? && KeyOf(m) !in t ==> KeyOf(m).SolveKey?
    ensures Judge(t, m, now, 1) == Write(op, row)
  {
    if m.op.Delete? {
      assert SessionExists(t, t[KeyOf(m)].body);
    }
  }

  /**
    Of the well-formed mutations, those made against another version of an existing row conflict, and
    the answer shows that row, from protocol version 2 on only its id, version and time; those made against its own version are accepted.
   */
  lemma {:induction false} VersionDecides(t: Tables, m: Mutation, now: Time, proto: int)
    requires !m.entity.UnknownEntity? && EnvelopeError(m).None? && (m.op.Upsert? ==> ValidData(m))
    ensures var v := Judge(t, m, now, proto);
            && (v.Settled? && v.outcome.Conflict? <==> KeyOf(m) in t && t[KeyOf(m)].version != m.baseVersion)
            && (v.Settled? && v.outcome.Conflict? ==>
                  && v.outcome.mutationId == m.id && v.outcome.version == t[KeyOf(m)].version
                  && v.outcome.current == if proto >= 2 then StubCurrent(m.entityId, t[KeyOf(m)].version, t[KeyOf(m)].updatedAt)
                                          else FullCurrent(t[KeyOf(m)]))
            && (KeyOf(m) in t && t[KeyOf(m)].version == m.baseVersion ==>
                  v.Write? || v.MissingSession? || (m.op.Delete? && v == Settled(Accepted(m.id, m.baseVersion))))
            && (KeyOf(m) !in t ==> (v.Write? || v.MissingSession? <==> m.op.Upsert? && m.baseVersion == 0))
            && (v.MissingSession? ==> m.op.Upsert? && !SessionExists(t, m.data.value.body))
  {
  }

  /** Valid data is of the entity it is sent for, carries its id, passes the field rules, and a solve lasts at most a day. */
  lemma {:induction false} DataIsValidExactlyWhen(m: Mutation)
    ensures ValidData(m) <==>
              && m.data.Some? && m.data.value.id == m.entityId && m.data.value.fieldsValid
              && if m.entity.SessionEntity? then m.data.value.body.SessionBody?
                 else m.entity.SolveEntity? && m.data.value.body.SolveBody? && 0 <= m.data.value.body.durationMs <= 24 * 3600 * 1000
  {
  }

  /** Which rejection a mutation gets: the first of these that applies, each only then, under the mutation's own id. */
  lemma {:induction false} RejectionsDecide(t: Tables, m: Mutation, now: Time, proto: int)
    ensures var v := Judge(t, m, now, proto);
            var known := !m.entity.UnknownEntity?;
            var named := known && m.id != NIL && m.entityId != NIL && m.baseVersion >= 0;
            var missing := KeyOf(m) !in t && (m.op.Delete? || m.baseVersion != 0);
            && (v == Settled(Rejected(m.id, InvalidEntity)) <==> !known)
            && (v == Settled(Rejected(m.id, InvalidMutationId)) <==> known && m.id == NIL)
            && (v == Settled(Rejected(m.id, InvalidEntityId)) <==> known && m.id != NIL && m.entityId == NIL)
            && (v == Settled(Rejected(m.id, InvalidVersion)) <==> known && m.id != NIL && m.entityId != NIL && m.baseVersion < 0)
            && (v == Settled(Rejected(m.id, InvalidOperation)) <==> named && m.op.UnknownOperation?)
            && (v == Settled(Rejected(m.id, InvalidSession)) <==> named && m.op.Upsert? && !ValidData(m) && m.entity.SessionEntity?)
            && (v == Settled(Rejected(m.id, InvalidSolve)) <==> named && m.op.Upsert? && !ValidData(m) && m.entity.SolveEntity?)
            && (v == Settled(Rejected(m.id, NotFound)) <==>
                  named && !m.op.UnknownOperation? && (m.op.Upsert? ==> ValidData(m)) && missing)
            && (v.Settled? ==> v.outcome.mutationId == m.id)
  {
  }

  /** The two kinds of entity live under disjoint keys. */
  lemma {:induction false} KeysAreDisjoint(m: Mutation, n: Mutation)
    requires !m.entity.UnknownEntity? && !n.entity.UnknownEntity?
    ensures KeyOf(m) == KeyOf(n) <==> m.entity == n.entity && m.entityId == n.entityId
  {
  }
}
