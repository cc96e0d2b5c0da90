/** Applying a batch of mutations to one user's data: effects, outcomes and dedup records. */
module Batches {
  import opened Records
  import opened Mutations
  import opened History
  import opened Devices
  import opened Ordering

  /** A `processed_mutations` row. */
  datatype Record = Record(outcome: Outcome, createdAt: Time)

  /** Dedup records by device and mutation id. */
  type Processed = map<(Uuid, Uuid), Record>

  /** One user's slice of the database and the global id sequence. */
  datatype Db = Db(tables: Tables, log: seq<Change>, processed: Processed, devices: DeviceTable, nextId: nat)

  /**
    A failing foreign key is meant to reject one mutation, but the database aborts the whole
    transaction; which of the two happens is left open.
   */
  datatype ForeignKeyFailure = RejectOne | AbortBatch

  /** The request and the moment it is applied. `skip` says how many ids other users take in between. */
  datatype Context = Context(device: Uuid, now: Time, proto: int, onForeignKey: ForeignKeyFailure, skip: nat -> nat)

  datatype Applied = Applied(db: Db, outcome: Outcome) | Aborted

  datatype BatchResult = Done(db: Db, outcomes: map<Uuid, Outcome>) | RolledBack

  function Remember(db: Db, ctx: Context, m: Mutation, outcome: Outcome): Db {
    if m.id == NIL then db
    else db.(processed := db.processed[(ctx.device, m.id) := Record(outcome, ctx.now)])
  }

  /** Store the row and append its change under the next id of the sequence. */
  function Store(db: Db, ctx: Context, key: Key, op: Operation, row: Row): Db {
    var id := db.nextId + ctx.skip(db.nextId);
    db.(tables := db.tables[key := row], log := db.log + [Change(id, key, op, row)], nextId := id + 1)
  }

  function ApplyMutation(db: Db, ctx: Context, m: Mutation): Applied {
    if m.id != NIL && (ctx.device, m.id) in db.processed then
      Applied(db, db.processed[(ctx.device, m.id)].outcome)
    else
      match Judge(db.tables, m, ctx.now, ctx.proto)
      case Settled(outcome) => Applied(Remember(db, ctx, m, outcome), outcome)
      case Write(op, row) =>
        var outcome := Accepted(m.id, row.version);
        Applied(Remember(Store(db, ctx, KeyOf(m), op, row), ctx, m, outcome), outcome)
      case MissingSession =>
        if ctx.onForeignKey.AbortBatch? then Aborted
        else Applied(Remember(db, ctx, m, Rejected(m.id, InvalidSession)), Rejected(m.id, InvalidSession))
  }

  /** Apply mutations one after the other; an abort leaves nothing. */
  function ApplyAll(db: Db, ctx: Context, ms: seq<Mutation>): BatchResult
    decreases |ms|
  {
    if ms == [] then Done(db, map[])
    else
      match ApplyAll(db, ctx, ms[..|ms| - 1])
      case RolledBack => RolledBack
      case Done(db', outcomes) =>
        match ApplyMutation(db', ctx, ms[|ms| - 1])
        case Aborted => RolledBack
        case Applied(db'', outcome) => Done(db'', outcomes[ms[|ms| - 1].id := outcome])
  }

  predicate DistinctIds(ms: seq<Mutation>) {
    && (forall i :: 0 <= i < |ms| ==> ms[i].id != NIL)
    && (forall i, j :: 0 <= i < j < |ms| ==> ms[i].id != ms[j].id)
  }

  // ---- Effects ----

  /** Mutation `m` took `db` to `db'` by storing one row and logging it as change `c`. */
  predicate Wrote(db: Db, db': Db, m: Mutation, c: Change) {
    && Justifies(db.tables, m, c)
    && db'.tables == db.tables[c.key := c.row]
    && db'.log == db.log + [c]
    && db.nextId <= c.id < db'.nextId
  }

  /**
    One mutation either changes neither tables nor log, or stores exactly one row and logs exactly
    that row; conflicts, rejections and repeated deletes are of the first kind.
   */
  lemma {:induction false} MutationEffect(db: Db, ctx: Context, m: Mutation)
    requires ApplyMutation(db, ctx, m).Applied?
    ensures var db', outcome := ApplyMutation(db, ctx, m).db, ApplyMutation(db, ctx, m).outcome;
            || (db'.tables == db.tables && db'.log == db.log && db'.nextId == db.nextId)
            || (&& outcome == Accepted(m.id, m.baseVersion + 1)
                && exists c :: Wrote(db, db', m, c))
    ensures !ApplyMutation(db, ctx, m).outcome.Accepted? ==>
              ApplyMutation(db, ctx, m).db.tables == db.tables && ApplyMutation(db, ctx, m).db.log == db.log
    ensures ApplyMutation(db, ctx, m).db.devices == db.devices
  {
    match Judge(db.tables, m, ctx.now, ctx.proto)
    case Write(op, row) =>
      var c := Change(db.nextId + ctx.skip(db.nextId), KeyOf(m), op, row);
      assert m.op == op && row.version == m.baseVersion + 1 && row.updatedAt == ctx.now;
      assert !(m.id != NIL && (ctx.device, m.id) in db.processed) ==> Wrote(db, ApplyMutation(db, ctx, m).db, m, c);
    case _ =>
  }

  /** The history behind a database: legal, replaying to its tables, below the next id. */
  ghost predicate Backed(db: Db, h: seq<Change>, causes: seq<Mutation>) {
    && Legal(h, causes)
    && db.tables == Replay(map[], h)
    && LastId(h) < db.nextId
  }

  /** The history has grown to `h'`, and the log of `db'` by exactly the new changes. */
  ghost predicate Grew(db: Db, h: seq<Change>, causes: seq<Mutation>, db': Db, h': seq<Change>, causes': seq<Mutation>) {
    && h <= h' && causes <= causes'
    && db'.log == db.log + h'[|h|..]
  }

  lemma {:induction false} GrewTwice(db: Db, h: seq<Change>, causes: seq<Mutation>, db1: Db, h1: seq<Change>,
                                     causes1: seq<Mutation>, db2: Db, h2: seq<Change>, causes2: seq<Mutation>)
    requires Grew(db, h, causes, db1, h1, causes1) && Grew(db1, h1, causes1, db2, h2, causes2)
    ensures Grew(db, h, causes, db2, h2, causes2)
  {
    assert h2[|h|..] == h1[|h|..] + h2[|h1|..];
  }

  lemma {:induction false} MutationExtends(db: Db, ctx: Context, m: Mutation, h: seq<Change>, causes: seq<Mutation>)
    returns (h': seq<Change>, causes': seq<Mutation>)
    requires Backed(db, h, causes) && ApplyMutation(db, ctx, m).Applied?
    ensures Backed(ApplyMutation(db, ctx, m).db, h', causes')
    ensures Grew(db, h, causes, ApplyMutation(db, ctx, m).db, h', causes')
  {
    var db' := ApplyMutation(db, ctx, m).db;
    MutationEffect(db, ctx, m);
    if db'.tables == db.tables && db'.log == db.log && db'.nextId == db.nextId {
      h', causes' := h, causes;
    } else {
      var c :| Wrote(db, db', m, c);
      h', causes' := h + [c], causes + [m];
      WriteExtends(db, db', m, c, h, causes);
    }
  }

  lemma {:induction false} WriteExtends(db: Db, db': Db, m: Mutation, c: Change, h: seq<Change>, causes: seq<Mutation>)
    requires Backed(db, h, causes) && Wrote(db, db', m, c)
    ensures Backed(db', h + [c], causes + [m]) && Grew(db, h, causes, db', h + [c], causes + [m])
  {
    LegalSnoc(h, causes, c, m);
    ReplaySnoc(map[], h, c);
    assert (h + [c])[|h|..] == [c];
  }

  /**
    A batch that commits extends the user's history by exactly the changes it logged: each is
    justified by a mutation on the tables as they stood, with a new and greater id.
   */
  lemma {:induction false} BatchExtends(db: Db, ctx: Context, ms: seq<Mutation>, h: seq<Change>, causes: seq<Mutation>)
    returns (h': seq<Change>, causes': seq<Mutation>)
    requires Backed(db, h, causes) && ApplyAll(db, ctx, ms).Done?
    ensures Backed(ApplyAll(db, ctx, ms).db, h', causes')
    ensures Grew(db, h, causes, ApplyAll(db, ctx, ms).db, h', causes')
    decreases |ms|
  {
    if ms == [] {
      h', causes' := h, causes;
    } else {
      var h1, causes1 := BatchExtends(db, ctx, ms[..|ms| - 1], h, causes);
      var db1 := ApplyAll(db, ctx, ms[..|ms| - 1]).db;
      h', causes' := MutationExtends(db1, ctx, ms[|ms| - 1], h1, causes1);
      GrewTwice(db, h, causes, db1, h1, causes1, ApplyAll(db, ctx, ms).db, h', causes');
    }
  }

  // ---- Dedup records ----

  /** Every stored outcome carries the mutation id it is stored under. */
  ghost predicate RecordsOk(db: Db) {
    forall key <- db.processed :: db.processed[key].outcome.mutationId == key.1
  }

  lemma {:induction false} MutationRecords(db: Db, ctx: Context, m: Mutation)
    requires RecordsOk(db) && m.id != NIL && ApplyMutation(db, ctx, m).Applied?
    ensures var db', outcome := ApplyMutation(db, ctx, m).db, ApplyMutation(db, ctx, m).outcome;
            && RecordsOk(db') && outcome.mutationId == m.id
            && (ctx.device, m.id) in db'.processed && db'.processed[(ctx.device, m.id)].outcome == outcome
            && (forall key <- db.processed :: key in db'.processed && db'.processed[key] == db.processed[key])
  {
  }

  /** A new record is of a mutation of this device in the batch, and carries the time of the batch. */
  lemma {:induction false} NewRecords(db: Db, ctx: Context, ms: seq<Mutation>, key: (Uuid, Uuid))
    requires ApplyAll(db, ctx, ms).Done? && key !in db.processed && key in ApplyAll(db, ctx, ms).db.processed
    ensures RecordedBy(ctx, ms, key) && ApplyAll(db, ctx, ms).db.processed[key].createdAt == ctx.now
    decreases |ms|
  {
    if ms != [] {
      var ms' := ms[..|ms| - 1];
      var db' := ApplyAll(db, ctx, ms').db;
      if key in db'.processed {
        NewRecords(db, ctx, ms', key);
        var i :| 0 <= i < |ms'| && key == (ctx.device, ms'[i].id);
        assert key == (ctx.device, ms[i].id);
        OldRecord(db', ctx, ms[|ms| - 1], key);
      } else {
        NewRecord(db', ctx, ms[|ms| - 1], key);
      }
    }
  }

  lemma {:induction false} OldRecord(db: Db, ctx: Context, m: Mutation, key: (Uuid, Uuid))
    requires ApplyMutation(db, ctx, m).Applied? && key in db.processed
    ensures key in ApplyMutation(db, ctx, m).db.processed && ApplyMutation(db, ctx, m).db.processed[key] == db.processed[key]
  {
  }

  lemma {:induction false} NewRecord(db: Db, ctx: Context, m: Mutation, key: (Uuid, Uuid))
    requires ApplyMutation(db, ctx, m).Applied? && key !in db.processed && key in ApplyMutation(db, ctx, m).db.processed
    ensures key == (ctx.device, m.id)
    ensures ApplyMutation(db, ctx, m).db.processed[key] == Record(ApplyMutation(db, ctx, m).outcome, ctx.now)
  {
  }

  predicate RecordedBy(ctx: Context, ms: seq<Mutation>, key: (Uuid, Uuid)) {
    exists i :: 0 <= i < |ms| && key == (ctx.device, ms[i].id)
  }

  /**
    After a batch, every mutation of it has an outcome with its own id, recorded under that id,
    and no earlier record has changed.
   */
  lemma {:induction false} BatchRecords(db: Db, ctx: Context, ms: seq<Mutation>)
    requires RecordsOk(db) && DistinctIds(ms) && ApplyAll(db, ctx, ms).Done?
    ensures var r := ApplyAll(db, ctx, ms);
            && RecordsOk(r.db)
            && (forall i :: 0 <= i < |ms| ==>
                  && ms[i].id in r.outcomes && r.outcomes[ms[i].id].mutationId == ms[i].id
                  && (ctx.device, ms[i].id) in r.db.processed
                  && r.db.processed[(ctx.device, ms[i].id)].outcome == r.outcomes[ms[i].id])
            && (forall key <- db.processed :: key in r.db.processed && r.db.processed[key] == db.processed[key])
    decreases |ms|
  {
    if ms != [] {
      var ms', last := ms[..|ms| - 1], ms[|ms| - 1];
      BatchRecords(db, ctx, ms');
      MutationRecords(ApplyAll(db, ctx, ms').db, ctx, last);
      assert forall i :: 0 <= i < |ms'| ==> ms'[i] == ms[i] && ms[i].id != last.id;
    }
  }

  /** The outcomes, in the order of the request. */
  function OutcomeList(ms: seq<Mutation>, outcomes: map<Uuid, Outcome>): (list: seq<Outcome>)
    requires forall i :: 0 <= i < |ms| ==> ms[i].id in outcomes
    ensures |list| == |ms| && forall i :: 0 <= i < |ms| ==> list[i] == outcomes[ms[i].id]
  {
    seq(|ms|, i requires 0 <= i < |ms| => outcomes[ms[i].id])
  }

  /** A batch whose mutations are all on record changes nothing and returns the recorded outcomes. */
  lemma {:induction false} RecordedBatchIsInert(db: Db, ctx: Context, ms: seq<Mutation>)
    requires forall i :: 0 <= i < |ms| ==> ms[i].id != NIL && (ctx.device, ms[i].id) in db.processed
    ensures var r := ApplyAll(db, ctx, ms);
            && r.Done? && r.db == db
            && forall i :: 0 <= i < |ms| ==>
                 ms[i].id in r.outcomes && r.outcomes[ms[i].id] == db.processed[(ctx.device, ms[i].id)].outcome
    decreases |ms|
  {
    if ms != [] {
      RecordedBatchIsInert(db, ctx, ms[..|ms| - 1]);
    }
  }

  /** The records of these mutations are still there in the later database. */
  ghost predicate Retained(first: Db, later: Db, device: Uuid, ms: seq<Mutation>) {
    forall i :: 0 <= i < |ms| ==>
      && (device, ms[i].id) in first.processed && (device, ms[i].id) in later.processed
      && later.processed[(device, ms[i].id)] == first.processed[(device, ms[i].id)]
  }

  /**
    Idempotent retry: sending a batch again, in any order, at any later time and protocol version,
    while its records are retained, returns the outcomes of the first time and changes nothing,
    whatever else has happened to the data in between.
   */
  lemma {:induction false} RetryIsIdempotent(db: Db, ctx: Context, ms: seq<Mutation>,
                                             later: Db, ctx': Context, ms': seq<Mutation>)
    requires RecordsOk(db) && DistinctIds(ms) && ApplyAll(db, ctx, ms).Done?
    requires ctx'.device == ctx.device && multiset(ms') == multiset(ms)
    requires Retained(ApplyAll(db, ctx, ms).db, later, ctx.device, ms)
    ensures var r, r' := ApplyAll(db, ctx, ms), ApplyAll(later, ctx', ms');
            && r'.Done? && r'.db == later
            && forall i :: 0 <= i < |ms| ==>
                 ms[i].id in r.outcomes && ms[i].id in r'.outcomes && r'.outcomes[ms[i].id] == r.outcomes[ms[i].id]
  {
    BatchRecords(db, ctx, ms);
    forall i | 0 <= i < |ms'|
      ensures ms'[i].id != NIL && (ctx.device, ms'[i].id) in later.processed
    {
      SameElements(ms', ms, i);
    }
    RecordedBatchIsInert(later, ctx', ms');
    forall i | 0 <= i < |ms|
      ensures ms[i].id in ApplyAll(later, ctx', ms').outcomes
      ensures ApplyAll(later, ctx', ms').outcomes[ms[i].id] == ApplyAll(db, ctx, ms).outcomes[ms[i].id]
    {
      SameElements(ms, ms', i);
    }
  }

  lemma {:induction false} SameElements(a: seq<Mutation>, b: seq<Mutation>, i: nat)
    requires multiset(a) == multiset(b) && i < |a|
    ensures exists j :: 0 <= j < |b| && b[j] == a[i]
  {
    assert a[i] in multiset(a);
    assert a[i] in b;
  }

  // ---- The order in the request does not matter ----

  /** Mutations of an unknown entity change neither tables nor log, nor any other outcome. */
  lemma {:induction false} UnknownTail(db: Db, ctx: Context, ms: seq<Mutation>, n: nat)
    requires n <= |ms| && RecordsOk(db) && DistinctIds(ms)
    requires forall i :: n <= i < |ms| ==> !IsKnown(ms[i])
    ensures ApplyAll(db, ctx, ms).Done? <==> ApplyAll(db, ctx, ms[..n]).Done?
    ensures ApplyAll(db, ctx, ms).Done? ==>
              var r, r' := ApplyAll(db, ctx, ms[..n]), ApplyAll(db, ctx, ms);
              && r'.db.tables == r.db.tables && r'.db.log == r.db.log && r'.db.nextId == r.db.nextId
              && (forall i :: 0 <= i < n ==> ms[i].id in r.outcomes && ms[i].id in r'.outcomes
                                             && r'.outcomes[ms[i].id] == r.outcomes[ms[i].id])
    decreases |ms|
  {
    if n == |ms| {
      assert ms[..n] == ms;
      if ApplyAll(db, ctx, ms).Done? {
        BatchRecords(db, ctx, ms);
      }
    } else {
      var ms' := ms[..|ms| - 1];
      assert ms'[..n] == ms[..n];
      UnknownTail(db, ctx, ms', n);
      assert forall i :: 0 <= i < n ==> ms'[i] == ms[i] && ms[i].id != ms[|ms| - 1].id;
    }
  }

  /**
    Two batches that agree on each session's and each solve's own mutations leave the same tables
    and the same log, and answer each of those mutations alike, wherever they stand in the request.
   */
  lemma {:induction false} BatchOrderIsCanonical(db: Db, ctx: Context, a: seq<Mutation>, b: seq<Mutation>)
    requires RecordsOk(db) && DistinctIds(a) && DistinctIds(b)
    requires forall slot: Slot :: slot.rank < 2 ==> Own(a, slot) == Own(b, slot)
    ensures var ra, rb := ApplyAll(db, ctx, Ordered(a)), ApplyAll(db, ctx, Ordered(b));
            && (ra.Done? <==> rb.Done?)
            && (ra.Done? ==> && ra.db.tables == rb.db.tables && ra.db.log == rb.db.log && ra.db.nextId == rb.db.nextId
                             && forall i :: 0 <= i < |Known(Ordered(a))| ==>
                                  var id := Known(Ordered(a))[i].id;
                                  id in ra.outcomes && id in rb.outcomes && ra.outcomes[id] == rb.outcomes[id])
    ensures Known(Ordered(a)) == Known(Ordered(b))
  {
    var sa, sb := Ordered(a), Ordered(b);
    SameKnownOrder(a, b);
    OrderedSorted(a);
    OrderedSorted(b);
    KnownFirst(sa);
    KnownFirst(sb);
    OrderedDistinct(a);
    OrderedDistinct(b);
    UnknownTail(db, ctx, sa, |Known(sa)|);
    UnknownTail(db, ctx, sb, |Known(sb)|);
  }

  lemma {:induction false} OrderedDistinct(ms: seq<Mutation>)
    requires DistinctIds(ms)
    ensures DistinctIds(Ordered(ms))
    decreases |ms|
  {
    if ms != [] {
      var ms', last := ms[..|ms| - 1], ms[|ms| - 1];
      OrderedDistinct(ms');
      forall x <- Ordered(ms')
        ensures x.id != last.id
      {
        OrderedKeeps(ms');
        assert x in multiset(Ordered(ms'));
        assert x in ms';
      }
      InsertDistinct(Ordered(ms'), last);
    }
  }

  lemma {:induction false} InsertDistinct(s: seq<Mutation>, m: Mutation)
    requires DistinctIds(s) && m.id != NIL && forall x <- s :: x.id != m.id
    ensures DistinctIds(InsertStable(s, m))
    ensures forall x <- InsertStable(s, m) :: x == m || x in s
    decreases |s|
  {
    if s != [] && Below(SlotOf(m), SlotOf(s[|s| - 1])) {
      var s', last := s[..|s| - 1], s[|s| - 1];
      InsertDistinct(s', m);
      assert forall x <- s' :: x.id != last.id;
    }
  }
}
