/**
  When a batch meets a missing session. The canonical order applies sessions before solves, so a
  session may stand anywhere in the request: a batch is stopped by the foreign key only if some solve
  refers to a session that neither exists nor is created by the same request.
 */
module ForeignKeys {
  import opened Records
  import opened Mutations
  import opened Ordering
  import opened Batches

  // ---- What can be told from the request and the database before it ----

  predicate Unrecorded(db: Db, ctx: Context, m: Mutation) {
    m.id == NIL || (ctx.device, m.id) !in db.processed
  }

  /** A well-formed upsert with valid data. */
  predicate Upserts(m: Mutation) {
    !m.entity.UnknownEntity? && EnvelopeError(m).None? && m.op.Upsert? && ValidData(m)
  }

  predicate Creates(m: Mutation, session: Uuid) {
    m.entity.SessionEntity? && m.entityId == session && m.baseVersion == 0 && Upserts(m)
  }

  /** The session exists, or the request creates it. */
  predicate Available(db: Db, ctx: Context, ms: seq<Mutation>, session: Uuid) {
    SessionKey(session) in db.tables || CreatedIn(db, ctx, ms, |ms|, session)
  }

  /** One of the first `n` mutations, not on record, creates the session. */
  predicate CreatedIn(db: Db, ctx: Context, ms: seq<Mutation>, n: nat, session: Uuid)
    requires n <= |ms|
  {
    exists j :: 0 <= j < n && Unrecorded(db, ctx, ms[j]) && Creates(ms[j], session)
  }

  /** `m` is not on record and is a valid solve that refers to a session which is not available. */
  predicate Lacks(db: Db, ctx: Context, ms: seq<Mutation>, m: Mutation) {
    && Unrecorded(db, ctx, m) && m.entity.SolveEntity? && Upserts(m)
    && m.data.value.body.sessionRef.Some?
    && !Available(db, ctx, ms, m.data.value.body.sessionRef.value)
  }

  /** `m` was made against the version the row has, or against none. */
  predicate Current(t: Tables, m: Mutation) {
    m.baseVersion == if KeyOf(m) in t then t[KeyOf(m)].version else 0
  }

  /** No solve is mutated twice. */
  predicate SolvesOnce(ms: seq<Mutation>) {
    forall i, j :: 0 <= i < j < |ms| && ms[i].entity.SolveEntity? && ms[j].entity.SolveEntity? ==> ms[i].entityId != ms[j].entityId
  }

  // ---- One mutation ----

  lemma {:induction false} MissingExactlyWhen(t: Tables, m: Mutation, now: Time, proto: int)
    ensures Judge(t, m, now, proto).MissingSession? <==>
              && Upserts(m) && m.entity.SolveEntity? && Current(t, m)
              && m.data.value.body.sessionRef.Some? && SessionKey(m.data.value.body.sessionRef.value) !in t
  {
  }

  /** A mutation removes no row, and creates a session exactly if it is a new one's valid first upsert. */
  lemma {:induction false} SessionsAfter(db: Db, ctx: Context, m: Mutation, session: Uuid)
    requires ApplyMutation(db, ctx, m).Applied?
    ensures SessionKey(session) in ApplyMutation(db, ctx, m).db.tables <==>
              SessionKey(session) in db.tables || (Unrecorded(db, ctx, m) && Creates(m, session))
  {
  }

  lemma {:induction false} RecordsAfter(db: Db, ctx: Context, m: Mutation, x: Mutation)
    requires ApplyMutation(db, ctx, m).Applied? && x.id != m.id
    ensures Unrecorded(ApplyMutation(db, ctx, m).db, ctx, x) <==> Unrecorded(db, ctx, x)
  {
  }

  lemma {:induction false} RowAfter(db: Db, ctx: Context, m: Mutation, x: Mutation)
    requires ApplyMutation(db, ctx, m).Applied? && x.entity.SolveEntity?
    requires m.entity.SolveEntity? ==> m.entityId != x.entityId
    requires !m.entity.UnknownEntity?
    ensures Current(ApplyMutation(db, ctx, m).db.tables, x) <==> Current(db.tables, x)
  {
  }

  // ---- A prefix of the batch ----

  /** After the first `n` mutations exactly the available sessions among them exist, and no later one is on record. */
  ghost predicate Prefix(db: Db, ctx: Context, ms: seq<Mutation>, n: nat)
    requires n <= |ms|
  {
    && ApplyAll(db, ctx, ms[..n]).Done?
    && var t := ApplyAll(db, ctx, ms[..n]).db;
       && (forall s: Uuid :: SessionKey(s) in t.tables <==> SessionKey(s) in db.tables || CreatedIn(db, ctx, ms, n, s))
       && (forall i :: n <= i < |ms| ==> (Unrecorded(t, ctx, ms[i]) <==> Unrecorded(db, ctx, ms[i])))
  }

  lemma {:induction false} NextApplied(db: Db, ctx: Context, ms: seq<Mutation>, n: nat)
    requires n < |ms| && ApplyAll(db, ctx, ms[..n]).Done?
    ensures var a := ApplyMutation(ApplyAll(db, ctx, ms[..n]).db, ctx, ms[n]);
            && ApplyAll(db, ctx, ms[..n + 1]).Done? == a.Applied?
            && (a.Applied? ==> ApplyAll(db, ctx, ms[..n + 1]).db == a.db)
  {
    assert ms[..n + 1][..n] == ms[..n];
  }

  lemma {:induction false} PrefixStep(db: Db, ctx: Context, ms: seq<Mutation>, n: nat)
    requires n < |ms| && DistinctIds(ms) && Prefix(db, ctx, ms, n)
    requires ApplyMutation(ApplyAll(db, ctx, ms[..n]).db, ctx, ms[n]).Applied?
    ensures Prefix(db, ctx, ms, n + 1)
  {
    var t := ApplyAll(db, ctx, ms[..n]).db;
    NextApplied(db, ctx, ms, n);
    forall s: Uuid
      ensures SessionKey(s) in ApplyMutation(t, ctx, ms[n]).db.tables <==>
                SessionKey(s) in db.tables || CreatedIn(db, ctx, ms, n + 1, s)
    {
      SessionsAfter(t, ctx, ms[n], s);
    }
    forall i | n + 1 <= i < |ms|
      ensures Unrecorded(ApplyMutation(t, ctx, ms[n]).db, ctx, ms[i]) <==> Unrecorded(db, ctx, ms[i])
    {
      RecordsAfter(t, ctx, ms[n], ms[i]);
    }
  }

  /** In a sorted batch every creation of a session stands before every solve. */
  lemma {:induction false} CreatedBefore(db: Db, ctx: Context, ms: seq<Mutation>, n: nat, session: Uuid)
    requires Sorted(ms) && n < |ms| && ms[n].entity.SolveEntity?
    ensures CreatedIn(db, ctx, ms, n, session) <==> CreatedIn(db, ctx, ms, |ms|, session)
  {
    forall j | n <= j < |ms|
      ensures !ms[j].entity.SessionEntity?
    {
      assert j > n ==> !Below(SlotOf(ms[j]), SlotOf(ms[n]));
    }
  }

  /** In its turn, a mutation meets a missing session exactly if it lacks one and is current then. */
  lemma {:induction false} MissingInTurn(db: Db, ctx: Context, ms: seq<Mutation>, n: nat)
    requires Sorted(ms) && DistinctIds(ms) && n < |ms| && Prefix(db, ctx, ms, n)
    ensures var t := ApplyAll(db, ctx, ms[..n]).db;
            Unrecorded(t, ctx, ms[n]) && Judge(t.tables, ms[n], ctx.now, ctx.proto).MissingSession? <==>
              Lacks(db, ctx, ms, ms[n]) && Current(t.tables, ms[n])
  {
    var t := ApplyAll(db, ctx, ms[..n]).db;
    MissingExactlyWhen(t.tables, ms[n], ctx.now, ctx.proto);
    if ms[n].entity.SolveEntity? && Upserts(ms[n]) && ms[n].data.value.body.sessionRef.Some? {
      CreatedBefore(db, ctx, ms, n, ms[n].data.value.body.sessionRef.value);
    }
  }

  /** A mutation that is stopped by the foreign key, and what the database makes of it. */
  lemma {:induction false} StoppedExactlyWhen(db: Db, ctx: Context, m: Mutation)
    requires m.id != NIL
    ensures ApplyMutation(db, ctx, m).Aborted? <==>
              && ctx.onForeignKey.AbortBatch? && Unrecorded(db, ctx, m)
              && Judge(db.tables, m, ctx.now, ctx.proto).MissingSession?
    ensures m.entity.SolveEntity? && Unrecorded(db, ctx, m) && ApplyMutation(db, ctx, m).Applied? ==>
              (ApplyMutation(db, ctx, m).outcome == Rejected(m.id, InvalidSession)
               <==> Judge(db.tables, m, ctx.now, ctx.proto).MissingSession?)
  {
  }

  /** Every prefix that is applied at all leaves the expected sessions. */
  lemma {:induction false} PrefixHolds(db: Db, ctx: Context, ms: seq<Mutation>, n: nat)
    requires DistinctIds(ms) && n <= |ms| && ApplyAll(db, ctx, ms[..n]).Done?
    ensures Prefix(db, ctx, ms, n)
    decreases n
  {
    if n > 0 {
      assert ms[..n][..n - 1] == ms[..n - 1];
      PrefixHolds(db, ctx, ms, n - 1);
      NextApplied(db, ctx, ms, n - 1);
      PrefixStep(db, ctx, ms, n - 1);
    }
  }

  // ---- When the batch goes through ----

  /** The batch is stopped at mutation `i`: its turn comes, it lacks its session and is current then. */
  ghost predicate StopsAt(db: Db, ctx: Context, ms: seq<Mutation>, i: nat)
    requires i < |ms|
  {
    && ApplyAll(db, ctx, ms[..i]).Done?
    && Lacks(db, ctx, ms, ms[i]) && Current(ApplyAll(db, ctx, ms[..i]).db.tables, ms[i])
  }

  /** An applied prefix is followed by an applied prefix, unless the batch aborts right there. */
  lemma {:induction false} NextStops(db: Db, ctx: Context, ms: seq<Mutation>, n: nat)
    requires Sorted(ms) && DistinctIds(ms) && n < |ms| && ApplyAll(db, ctx, ms[..n]).Done?
    ensures ApplyAll(db, ctx, ms[..n + 1]).RolledBack? <==> ctx.onForeignKey.AbortBatch? && StopsAt(db, ctx, ms, n)
  {
    PrefixHolds(db, ctx, ms, n);
    NextApplied(db, ctx, ms, n);
    MissingInTurn(db, ctx, ms, n);
    StoppedExactlyWhen(ApplyAll(db, ctx, ms[..n]).db, ctx, ms[n]);
  }

  lemma {:induction false} StopsWithin(db: Db, ctx: Context, ms: seq<Mutation>, n: nat)
    requires Sorted(ms) && DistinctIds(ms) && n <= |ms|
    ensures ApplyAll(db, ctx, ms[..n]).RolledBack? <==> ctx.onForeignKey.AbortBatch? && StopsBefore(db, ctx, ms, n)
    decreases n
  {
    if n > 0 {
      StopsWithin(db, ctx, ms, n - 1);
      if ApplyAll(db, ctx, ms[..n - 1]).Done? {
        NextStops(db, ctx, ms, n - 1);
      } else {
        StaysRolledBack(db, ctx, ms, n - 1);
      }
    }
  }

  ghost predicate StopsBefore(db: Db, ctx: Context, ms: seq<Mutation>, n: nat)
    requires n <= |ms|
  {
    exists i :: 0 <= i < n && StopsAt(db, ctx, ms, i)
  }

  lemma {:induction false} StaysRolledBack(db: Db, ctx: Context, ms: seq<Mutation>, n: nat)
    requires n < |ms| && ApplyAll(db, ctx, ms[..n]).RolledBack?
    ensures ApplyAll(db, ctx, ms[..n + 1]).RolledBack?
  {
    assert ms[..n + 1][..n] == ms[..n];
  }

  /**
    A sorted batch is rolled back exactly when the database aborts on foreign keys and some mutation,
    in its turn, lacks its session and is current.
   */
  lemma {:induction false} AbortsExactlyWhen(db: Db, ctx: Context, ms: seq<Mutation>)
    requires Sorted(ms) && DistinctIds(ms)
    ensures ApplyAll(db, ctx, ms).RolledBack? <==>
              ctx.onForeignKey.AbortBatch? && StopsBefore(db, ctx, ms, |ms|)
  {
    StopsWithin(db, ctx, ms, |ms|);
    assert ms[..|ms|] == ms;
  }

  /** A solve that is mutated once is current in its turn exactly if it is current before the batch. */
  lemma {:induction false} CurrentInTurn(db: Db, ctx: Context, ms: seq<Mutation>, n: nat, x: Mutation)
    requires n <= |ms| && ApplyAll(db, ctx, ms[..n]).Done? && x.entity.SolveEntity?
    requires forall i :: 0 <= i < n ==> !ms[i].entity.UnknownEntity? && (ms[i].entity.SolveEntity? ==> ms[i].entityId != x.entityId)
    ensures Current(ApplyAll(db, ctx, ms[..n]).db.tables, x) <==> Current(db.tables, x)
    decreases n
  {
    if n > 0 {
      assert ms[..n][..n - 1] == ms[..n - 1];
      CurrentInTurn(db, ctx, ms, n - 1, x);
      NextApplied(db, ctx, ms, n - 1);
      RowAfter(ApplyAll(db, ctx, ms[..n - 1]).db, ctx, ms[n - 1], x);
    }
  }

  lemma {:induction false} KnownBefore(ms: seq<Mutation>, n: nat)
    requires Sorted(ms) && n < |ms| && ms[n].entity.SolveEntity?
    ensures forall i :: 0 <= i < n ==> !ms[i].entity.UnknownEntity?
  {
    forall i | 0 <= i < n
      ensures !ms[i].entity.UnknownEntity?
    {
      assert !Below(SlotOf(ms[n]), SlotOf(ms[i]));
    }
  }

  lemma {:induction false} StopsExactlyWhenCurrent(db: Db, ctx: Context, ms: seq<Mutation>, i: nat)
    requires Sorted(ms) && SolvesOnce(ms) && i < |ms| && ApplyAll(db, ctx, ms[..i]).Done?
    ensures StopsAt(db, ctx, ms, i) <==> Lacks(db, ctx, ms, ms[i]) && Current(db.tables, ms[i])
  {
    if ms[i].entity.SolveEntity? {
      KnownBefore(ms, i);
      CurrentInTurn(db, ctx, ms, i, ms[i]);
    }
  }

  /** Where no solve is mutated twice, all of this can be told before the call. */
  lemma {:induction false} SortedAbortsExactlyWhen(db: Db, ctx: Context, ms: seq<Mutation>)
    requires Sorted(ms) && DistinctIds(ms) && SolvesOnce(ms)
    ensures ApplyAll(db, ctx, ms).RolledBack? <==>
              && ctx.onForeignKey.AbortBatch?
              && exists i :: 0 <= i < |ms| && Lacks(db, ctx, ms, ms[i]) && Current(db.tables, ms[i])
  {
    AbortsExactlyWhen(db, ctx, ms);
    if i :| 0 <= i < |ms| && StopsAt(db, ctx, ms, i) {
      StopsExactlyWhenCurrent(db, ctx, ms, i);
    }
    if ctx.onForeignKey.AbortBatch? {
      if i :| 0 <= i < |ms| && Lacks(db, ctx, ms, ms[i]) && Current(db.tables, ms[i]) {
        StopsWithin(db, ctx, ms, i);
        if ApplyAll(db, ctx, ms[..i]).Done? {
          StopsExactlyWhenCurrent(db, ctx, ms, i);
        }
      }
    }
  }

  // ---- The answers ----

  /** In a batch that goes through, every mutation is answered as its turn decides. */
  lemma {:induction false} AnswerInTurn(db: Db, ctx: Context, ms: seq<Mutation>, i: nat)
    requires DistinctIds(ms) && i < |ms| && ApplyAll(db, ctx, ms).Done?
    ensures ApplyAll(db, ctx, ms[..i]).Done?
    ensures var a := ApplyMutation(ApplyAll(db, ctx, ms[..i]).db, ctx, ms[i]);
            && a.Applied? && ms[i].id in ApplyAll(db, ctx, ms).outcomes
            && ApplyAll(db, ctx, ms).outcomes[ms[i].id] == a.outcome
    decreases |ms|
  {
    var ms' := ms[..|ms| - 1];
    if i < |ms'| {
      AnswerInTurn(db, ctx, ms', i);
      assert ms'[..i] == ms[..i] && ms'[i] == ms[i];
    }
  }

  /** A new solve is answered with a missing session exactly if, in its turn, it lacks one and is current. */
  lemma {:induction false} RejectedInTurn(db: Db, ctx: Context, ms: seq<Mutation>, i: nat)
    requires Sorted(ms) && DistinctIds(ms) && i < |ms| && ApplyAll(db, ctx, ms).Done?
    requires ms[i].entity.SolveEntity? && Unrecorded(db, ctx, ms[i])
    ensures ms[i].id in ApplyAll(db, ctx, ms).outcomes
    ensures ApplyAll(db, ctx, ms).outcomes[ms[i].id] == Rejected(ms[i].id, InvalidSession) <==> StopsAt(db, ctx, ms, i)
  {
    AnswerInTurn(db, ctx, ms, i);
    PrefixHolds(db, ctx, ms, i);
    MissingInTurn(db, ctx, ms, i);
    StoppedExactlyWhen(ApplyAll(db, ctx, ms[..i]).db, ctx, ms[i]);
  }

  // ---- The request, in whatever order it lists its mutations ----

  lemma {:induction false} LacksEitherWay(db: Db, ctx: Context, a: seq<Mutation>, b: seq<Mutation>, m: Mutation)
    requires multiset(a) == multiset(b)
    ensures Lacks(db, ctx, a, m) <==> Lacks(db, ctx, b, m)
  {
    if m.entity.SolveEntity? && Upserts(m) && m.data.value.body.sessionRef.Some? {
      CreatedEitherWay(db, ctx, a, b, m.data.value.body.sessionRef.value);
      CreatedEitherWay(db, ctx, b, a, m.data.value.body.sessionRef.value);
    }
  }

  lemma {:induction false} CreatedEitherWay(db: Db, ctx: Context, a: seq<Mutation>, b: seq<Mutation>, session: Uuid)
    requires multiset(a) == multiset(b)
    ensures CreatedIn(db, ctx, a, |a|, session) ==> CreatedIn(db, ctx, b, |b|, session)
  {
    if j :| 0 <= j < |a| && Unrecorded(db, ctx, a[j]) && Creates(a[j], session) {
      SameElements(a, b, j);
    }
  }

  lemma {:induction false} InsertOnce(s: seq<Mutation>, m: Mutation)
    requires SolvesOnce(s) && forall x <- s :: x.entity.SolveEntity? && m.entity.SolveEntity? ==> x.entityId != m.entityId
    ensures SolvesOnce(InsertStable(s, m))
    ensures forall x <- InsertStable(s, m) :: x == m || x in s
    decreases |s|
  {
    if s != [] && Below(SlotOf(m), SlotOf(s[|s| - 1])) {
      var s', last := s[..|s| - 1], s[|s| - 1];
      InsertOnce(s', m);
      assert forall x <- s' :: x.entity.SolveEntity? && last.entity.SolveEntity? ==> x.entityId != last.entityId;
    }
  }

  lemma {:induction false} OrderedOnce(ms: seq<Mutation>)
    requires SolvesOnce(ms)
    ensures SolvesOnce(Ordered(ms))
    decreases |ms|
  {
    if ms != [] {
      var ms', last := ms[..|ms| - 1], ms[|ms| - 1];
      OrderedOnce(ms');
      forall x <- Ordered(ms') | x.entity.SolveEntity? && last.entity.SolveEntity?
        ensures x.entityId != last.entityId
      {
        OrderedKeeps(ms');
        assert x in multiset(Ordered(ms'));
        assert x in ms';
      }
      InsertOnce(Ordered(ms'), last);
    }
  }

  /** Every valid new solve of the request refers to a session that exists or that the request creates. */
  predicate NoneLacks(db: Db, ctx: Context, ms: seq<Mutation>) {
    forall i :: 0 <= i < |ms| ==> !Lacks(db, ctx, ms, ms[i])
  }

  /**
    A request goes through, on either behaviour of the database, if every valid new solve refers to a
    session that exists or that the same request creates, wherever it stands in the request; and no
    solve is then rejected for its session.
   */
  lemma {:induction false} SessionsMayStandAnywhere(db: Db, ctx: Context, ms: seq<Mutation>)
    requires DistinctIds(ms) && NoneLacks(db, ctx, ms)
    ensures ApplyAll(db, ctx, Ordered(ms)).Done?
    ensures forall i :: 0 <= i < |ms| && ms[i].entity.SolveEntity? && Unrecorded(db, ctx, ms[i]) ==>
              && ms[i].id in ApplyAll(db, ctx, Ordered(ms)).outcomes
              && ApplyAll(db, ctx, Ordered(ms)).outcomes[ms[i].id] != Rejected(ms[i].id, InvalidSession)
  {
    var sorted := Ordered(ms);
    OrderedDistinct(ms);
    OrderedSorted(ms);
    OrderedKeeps(ms);
    forall i | 0 <= i < |sorted|
      ensures !Lacks(db, ctx, sorted, sorted[i])
    {
      SameElements(sorted, ms, i);
      LacksEitherWay(db, ctx, sorted, ms, sorted[i]);
    }
    AbortsExactlyWhen(db, ctx, sorted);
    forall i | 0 <= i < |ms| && ms[i].entity.SolveEntity? && Unrecorded(db, ctx, ms[i])
      ensures ms[i].id in ApplyAll(db, ctx, sorted).outcomes
      ensures ApplyAll(db, ctx, sorted).outcomes[ms[i].id] != Rejected(ms[i].id, InvalidSession)
    {
      SameElements(ms, sorted, i);
      var j :| 0 <= j < |sorted| && sorted[j] == ms[i];
      RejectedInTurn(db, ctx, sorted, j);
    }
  }

  /** The request holds a current mutation that lacks its session. */
  predicate Dangles(db: Db, ctx: Context, ms: seq<Mutation>) {
    exists i :: 0 <= i < |ms| && Lacks(db, ctx, ms, ms[i]) && Current(db.tables, ms[i])
  }

  lemma {:induction false} DanglesEitherWay(db: Db, ctx: Context, a: seq<Mutation>, b: seq<Mutation>)
    requires multiset(a) == multiset(b) && Dangles(db, ctx, a)
    ensures Dangles(db, ctx, b)
  {
    var i :| 0 <= i < |a| && Lacks(db, ctx, a, a[i]) && Current(db.tables, a[i]);
    SameElements(a, b, i);
    LacksEitherWay(db, ctx, a, b, a[i]);
  }

  /**
    Where no solve is mutated twice, a request is rolled back if and only if the database aborts on
    foreign keys and the request holds a current solve whose session is nowhere to be found.
   */
  lemma {:induction false} RequestAbortsExactlyWhen(db: Db, ctx: Context, ms: seq<Mutation>)
    requires DistinctIds(ms) && SolvesOnce(ms)
    ensures ApplyAll(db, ctx, Ordered(ms)).RolledBack? <==> ctx.onForeignKey.AbortBatch? && Dangles(db, ctx, ms)
  {
    OrderedDistinct(ms);
    OrderedSorted(ms);
    OrderedKeeps(ms);
    OrderedOnce(ms);
    SortedAbortsExactlyWhen(db, ctx, Ordered(ms));
    if Dangles(db, ctx, ms) {
      DanglesEitherWay(db, ctx, ms, Ordered(ms));
    }
    if Dangles(db, ctx, Ordered(ms)) {
      DanglesEitherWay(db, ctx, Ordered(ms), ms);
    }
  }

  /** And where the request goes through, exactly the new solves that lack their session and are current are rejected for it. */
  lemma {:induction false} SolveRejectedExactlyWhen(db: Db, ctx: Context, ms: seq<Mutation>, i: nat)
    requires DistinctIds(ms) && SolvesOnce(ms) && ApplyAll(db, ctx, Ordered(ms)).Done?
    requires i < |ms| && ms[i].entity.SolveEntity? && Unrecorded(db, ctx, ms[i])
    ensures ms[i].id in ApplyAll(db, ctx, Ordered(ms)).outcomes
    ensures ApplyAll(db, ctx, Ordered(ms)).outcomes[ms[i].id] == Rejected(ms[i].id, InvalidSession) <==>
              Lacks(db, ctx, ms, ms[i]) && Current(db.tables, ms[i])
  {
    var sorted := Ordered(ms);
    OrderedDistinct(ms);
    OrderedSorted(ms);
    OrderedKeeps(ms);
    OrderedOnce(ms);
    SameElements(ms, sorted, i);
    var j :| 0 <= j < |sorted| && sorted[j] == ms[i];
    RejectedInTurn(db, ctx, sorted, j);
    AnswerInTurn(db, ctx, sorted, j);
    StopsExactlyWhenCurrent(db, ctx, sorted, j);
    LacksEitherWay(db, ctx, ms, sorted, ms[i]);
  }

  // ---- Two requests ----

  function EmptyDb(): Db {
    Db(map[], [], map[], map[], 1)
  }

  function SolveIn(session: Uuid): Mutation {
    Mutation(1, SolveEntity, 9, Upsert, 0, Some(Input(9, SolveBody(Some(session), 12_340, "R U"), true)))
  }

  function NewSession(session: Uuid): Mutation {
    Mutation(2, SessionEntity, session, Upsert, 0, Some(Input(session, SessionBody("3x3"), true)))
  }

  /** One solve without its session takes the whole request with it, an unrelated new session included. */
  lemma {:induction false} LoneSolveAborts(ctx: Context)
    requires ctx.onForeignKey.AbortBatch?
    ensures ApplyAll(EmptyDb(), ctx, Ordered([SolveIn(5), NewSession(6)])).RolledBack?
  {
    var ms := [SolveIn(5), NewSession(6)];
    assert Lacks(EmptyDb(), ctx, ms, ms[0]) && Current(EmptyDb().tables, ms[0]);
    RequestAbortsExactlyWhen(EmptyDb(), ctx, ms);
  }

  /** With its session behind it in the request the solve is applied; applied as listed it would not be. */
  lemma {:induction false} SessionBehindSolve(ctx: Context)
    ensures ApplyAll(EmptyDb(), ctx, Ordered([SolveIn(6), NewSession(6)])).Done?
    ensures ctx.onForeignKey.AbortBatch? ==> ApplyAll(EmptyDb(), ctx, [SolveIn(6), NewSession(6)]).RolledBack?
  {
    var ms := [SolveIn(6), NewSession(6)];
    assert Unrecorded(EmptyDb(), ctx, ms[1]) && Creates(ms[1], 6);
    SessionsMayStandAnywhere(EmptyDb(), ctx, ms);
    if ctx.onForeignKey.AbortBatch? {
      ListedOrderAborts(ctx, ms);
    }
  }

  lemma {:induction false} ListedOrderAborts(ctx: Context, ms: seq<Mutation>)
    requires ctx.onForeignKey.AbortBatch? && ms == [SolveIn(6), NewSession(6)]
    ensures ApplyAll(EmptyDb(), ctx, ms).RolledBack?
  {
    var first := ms[..1];
    MissingExactlyWhen(EmptyDb().tables, SolveIn(6), ctx.now, ctx.proto);
    assert ApplyMutation(EmptyDb(), ctx, first[0]).Aborted?;
    assert first[..0] == [] && ApplyAll(EmptyDb(), ctx, first[..0]) == Done(EmptyDb(), map[]);
    assert ApplyAll(EmptyDb(), ctx, first).RolledBack?;
    assert ms[..|ms| - 1] == first;
  }
}
