/** The sync and snapshot operations as they run against one user's stored data. */
module SyncService {
  import opened Records
  import opened Mutations
  import opened History
  import opened Paging
  import opened Snapshots
  import opened Devices
  import opened Replica
  import opened Ordering
  import opened Batches
  import opened ForeignKeys
  import opened Replication

  const MAX_DEVICE_NAME: nat := 120
  const MAX_DEVICE_PLATFORM: nat := 40

  datatype DeviceInfo = DeviceInfo(id: Uuid, name: string, platform: string)

  datatype Request = Request(cursor: int, device: DeviceInfo, mutations: seq<Mutation>, limit: int)

  datatype Response = Response(outcomes: seq<Outcome>, page: Page)

  datatype ClientError =
    | InvalidCursor | InvalidDevice | TooManyMutations | InvalidMutation | DuplicateMutation
    | CursorExpired | InvalidSnapshotEntity | Failed

  datatype Result<+T> = Ok(value: T) | Err(error: ClientError)

  /** The answer of one mutation, or the abort of its transaction by the database. */
  datatype Answer = Answer(outcome: Outcome) | Abort

  /** A snapshot page and where to continue: in this entity, with the solves, or nowhere. */
  datatype SnapshotResponse = SnapshotResponse(items: seq<Item>, cursor: int, hasMore: bool, next: Option<Phase>)

  /** Mutation ids are non-zero and unique within a request. */
  method CheckMutationIds(ms: seq<Mutation>) returns (error: Option<ClientError>)
    ensures error.None? <==> DistinctIds(ms)
    ensures error == Some(InvalidMutation) ==> exists i :: 0 <= i < |ms| && ms[i].id == NIL
    ensures error == Some(DuplicateMutation) ==> exists i, j :: 0 <= i < j < |ms| && ms[i].id == ms[j].id
    ensures error.Some? ==> error.value.InvalidMutation? || error.value.DuplicateMutation?
  {
    var seen: set<Uuid> := {};
    for i := 0 to |ms|
      invariant forall j :: 0 <= j < i ==> ms[j].id != NIL && ms[j].id in seen
      invariant forall x <- seen :: exists j :: 0 <= j < i && ms[j].id == x
      invariant forall j, k :: 0 <= j < k < i ==> ms[j].id != ms[k].id
    {
      if ms[i].id == NIL {
        return Some(InvalidMutation);
      }
      if ms[i].id in seen {
        return Some(DuplicateMutation);
      }
      seen := seen + {ms[i].id};
    }
    return None;
  }

  class UserStore {
    var tables: Tables
    var log: seq<Change>
    var processed: Processed
    var devices: DeviceTable
    var nextId: nat

    const maxMutations: nat
    const maxChanges: nat
    const maxResponseBytes: int
    const inactiveDeviceWindow: Time
    const payloadSize: Payload -> nat
    const rowSize: Row -> nat

    ghost function State(): Db
      reads this
    {
      Db(tables, log, processed, devices, nextId)
    }

    ghost predicate Valid()
      reads this
    {
      RecordsOk(State()) && maxChanges > 0
    }

    constructor (maxMutations: nat, maxChanges: nat, maxResponseBytes: int, window: Time,
                 payloadSize: Payload -> nat, rowSize: Row -> nat)
      requires maxChanges > 0
      ensures Valid() && State() == Db(map[], [], map[], map[], 1)
      ensures this.maxMutations == maxMutations && this.maxChanges == maxChanges
      ensures this.maxResponseBytes == maxResponseBytes && this.inactiveDeviceWindow == window
    {
      tables, log, processed, devices, nextId := map[], [], map[], map[], 1;
      this.maxMutations, this.maxChanges, this.maxResponseBytes := maxMutations, maxChanges, maxResponseBytes;
      this.inactiveDeviceWindow, this.payloadSize, this.rowSize := window, payloadSize, rowSize;
    }

    // ---- Single statements ----

    /** `UPDATE ... SET deleted_at = now() WHERE version = base AND deleted_at IS NULL RETURNING *`. */
    method DeleteRow(key: Key, base: int, now: Time) returns (row: Option<Row>)
      modifies this`tables
      ensures row.Some? <==> key in old(tables) && old(tables)[key].version == base && old(tables)[key].deletedAt.None?
      ensures row.Some? ==>
                && row.value == old(tables)[key].(version := base + 1, updatedAt := now, deletedAt := Some(now))
                && tables == old(tables)[key := row.value]
      ensures row.None? ==> tables == old(tables)
    {
      row := None;
      if key in tables && tables[key].version == base && tables[key].deletedAt.None? {
        row := Some(tables[key].(version := tables[key].version + 1, updatedAt := now, deletedAt := Some(now)));
        tables := tables[key := row.value];
      }
    }

    /** Insert at version 1, or update the row if it has the base version; fails on a missing session. */
    method PutRow(key: Key, body: Body, base: int, now: Time) returns (row: Option<Row>)
      modifies this`tables
      ensures row.Some? <==> SessionExists(old(tables), body) && (key in old(tables) ==> old(tables)[key].version == base)
      ensures row.Some? ==> && row.value == Row(body, if key in old(tables) then base + 1 else 1, now, None)
                            && tables == old(tables)[key := row.value]
      ensures row.None? ==> tables == old(tables)
    {
      if key in tables && tables[key].version != base {
        return None;
      }
      if body.SolveBody? && body.sessionRef.Some? && SessionKey(body.sessionRef.value) !in tables {
        return None;
      }
      if key !in tables {
        row := Some(Row(body, 1, now, None));
      } else {
        row := Some(Row(body, tables[key].version + 1, now, None));
      }
      tables := tables[key := row.value];
    }

    /** Append a change under the next value of the shared sequence. */
    method AppendChange(key: Key, op: Operation, row: Row, skip: nat -> nat)
      modifies this`log, this`nextId
      ensures log == old(log) + [Change(old(nextId) + skip(old(nextId)), key, op, row)]
      ensures nextId == old(nextId) + skip(old(nextId)) + 1
    {
      var id := nextId + skip(nextId);
      log := log + [Change(id, key, op, row)];
      nextId := id + 1;
    }

    // ---- Applying mutations ----

    /** Apply a session or solve mutation to the tables and the log. */
    method ApplyEntity(ctx: Context, m: Mutation) returns (answer: Answer)
      requires !m.entity.UnknownEntity?
      modifies this`tables, this`log, this`nextId
      ensures match Judge(old(tables), m, ctx.now, ctx.proto)
              case Settled(outcome) => answer == Answer(outcome) && State() == old(State())
              case Write(op, row) => answer == Answer(Accepted(m.id, row.version))
                                     && State() == Store(old(State()), ctx, KeyOf(m), op, row)
              case MissingSession => State() == old(State())
                                     && answer == if ctx.onForeignKey.AbortBatch? then Abort
                                                  else Answer(Rejected(m.id, InvalidSession))
    {
      var invalid := EnvelopeError(m);
      if invalid.Some? {
        return Answer(Rejected(m.id, invalid.value));
      }
      var key := KeyOf(m);
      if m.op.Delete? {
        if key !in tables {
          return Answer(Rejected(m.id, NotFound));
        }
        var current := tables[key];
        if current.version != m.baseVersion {
          return Answer(ConflictOutcome(m, current, ctx.proto));
        }
        if current.deletedAt.Some? {
          return Answer(Accepted(m.id, current.version));
        }
        var deleted := DeleteRow(key, m.baseVersion, ctx.now);
        AppendChange(key, Delete, deleted.value, ctx.skip);
        return Answer(Accepted(m.id, deleted.value.version));
      }
      if !ValidData(m) {
        return Answer(Rejected(m.id, InvalidData(m)));
      }
      if key !in tables {
        if m.baseVersion != 0 {
          return Answer(Rejected(m.id, NotFound));
        }
      } else if tables[key].version != m.baseVersion {
        return Answer(ConflictOutcome(m, tables[key], ctx.proto));
      }
      var row := PutRow(key, m.data.value.body, m.baseVersion, ctx.now);
      if row.None? {
        return if ctx.onForeignKey.AbortBatch? then Abort else Answer(Rejected(m.id, InvalidSession));
      }
      AppendChange(key, Upsert, row.value, ctx.skip);
      return Answer(Accepted(m.id, row.value.version));
    }

    /** Answer from the dedup record, or apply the mutation and record its outcome. */
    method ApplyOne(ctx: Context, m: Mutation) returns (answer: Answer)
      modifies this
      ensures match ApplyMutation(old(State()), ctx, m)
              case Applied(db, outcome) => answer == Answer(outcome) && State() == db
              case Aborted => answer == Abort
      ensures old(nextId) <= nextId
    {
      if m.id != NIL && (ctx.device, m.id) in processed {
        return Answer(processed[(ctx.device, m.id)].outcome);
      }
      if m.entity.UnknownEntity? {
        answer := Answer(Rejected(m.id, InvalidEntity));
      } else {
        answer := ApplyEntity(ctx, m);
      }
      if answer.Answer? && m.id != NIL {
        processed := processed[(ctx.device, m.id) := Record(answer.outcome, ctx.now)];
      }
    }

    /** Apply an ordered batch, collecting outcomes by mutation id. */
    method ApplyBatch(ctx: Context, ordered: seq<Mutation>) returns (done: bool, outcomes: map<Uuid, Outcome>)
      modifies this
      ensures match ApplyAll(old(State()), ctx, ordered)
              case Done(db, outs) => done && State() == db && outcomes == outs
              case RolledBack => !done
      ensures old(nextId) <= nextId
    {
      outcomes := map[];
      for i := 0 to |ordered|
        invariant ApplyAll(old(State()), ctx, ordered[..i]) == Done(State(), outcomes)
        invariant old(nextId) <= nextId
      {
        assert ordered[..i + 1][..i] == ordered[..i];
        var answer := ApplyOne(ctx, ordered[i]);
        if answer.Abort? {
          RollbackSpreads(old(State()), ctx, ordered, i + 1);
          return false, map[];
        }
        outcomes := outcomes[ordered[i].id := answer.outcome];
      }
      assert ordered[..|ordered|] == ordered;
      done := true;
    }

    static lemma {:induction false} RollbackSpreads(db: Db, ctx: Context, ms: seq<Mutation>, n: nat)
      requires n <= |ms| && ApplyAll(db, ctx, ms[..n]).RolledBack?
      ensures ApplyAll(db, ctx, ms).RolledBack?
      decreases |ms|
    {
      if n < |ms| {
        assert ms[..|ms| - 1][..n] == ms[..n];
        RollbackSpreads(db, ctx, ms[..|ms| - 1], n);
      } else {
        assert ms[..n] == ms;
      }
    }

    // ---- Requests ----

    function Limit(limit: int): (n: nat)
      requires maxChanges > 0
      ensures 0 < n <= maxChanges
      ensures 0 < limit <= maxChanges ==> n == limit
      ensures limit <= 0 || limit > maxChanges ==> n == maxChanges
    {
      if limit <= 0 || limit > maxChanges then maxChanges else limit
    }

    /** The database the mutations of a request are applied to: its device has just been seen. */
    static ghost function Entered(db: Db, req: Request, now: Time): Db {
      db.(devices := Touch(db.devices, req.device.id, now))
    }

    /** A request that is served acknowledges its cursor. */
    static ghost function Left(db: Db, req: Request): Db {
      if req.cursor > 0 then db.(devices := Acknowledge(db.devices, req.device.id, req.cursor)) else db
    }

    /** A positive cursor below the minimum acknowledgement of the devices active now. */
    ghost predicate CursorIsExpired(cursor: int, now: Time)
      reads this
    {
      var cutoff := now - EffectiveInactiveWindow(inactiveDeviceWindow);
      exists min :: IsMinAck(devices, cutoff, min) && 0 < cursor < min
    }

    method CheckCursorNotExpired(cursor: int, now: Time) returns (expired: bool)
      ensures expired <==> CursorIsExpired(cursor, now)
    {
      if cursor <= 0 {
        return false;
      }
      var cutoff := now - EffectiveInactiveWindow(inactiveDeviceWindow);
      var min := MinValidCursor(devices, cutoff);
      expired := min > 0 && cursor < min;
      assert expired <==> 0 < cursor < min;
      forall m: nat | IsMinAck(devices, cutoff, m)
        ensures m == min
      {
        MinAckIsUnique(devices, cutoff, m, min);
      }
      if expired {
        assert IsMinAck(devices, now - EffectiveInactiveWindow(inactiveDeviceWindow), min) && 0 < cursor < min;
      }
    }

    /** What a request must satisfy before the database is asked anything. */
    predicate ValidRequest(req: Request) {
      && req.cursor >= 0 && req.device.id != NIL
      && |req.device.name| <= MAX_DEVICE_NAME && |req.device.platform| <= MAX_DEVICE_PLATFORM
      && |req.mutations| <= maxMutations && DistinctIds(req.mutations)
    }

    method ValidateRequest(req: Request) returns (error: Option<ClientError>)
      ensures error.None? <==> ValidRequest(req)
      ensures error == Some(InvalidCursor) <==> req.cursor < 0
      ensures error == Some(InvalidDevice) ==>
                req.device.id == NIL || |req.device.name| > MAX_DEVICE_NAME || |req.device.platform| > MAX_DEVICE_PLATFORM
      ensures error == Some(TooManyMutations) ==> |req.mutations| > maxMutations
      ensures error == Some(InvalidMutation) ==> exists i :: 0 <= i < |req.mutations| && req.mutations[i].id == NIL
      ensures error == Some(DuplicateMutation) ==>
                exists i, j :: 0 <= i < j < |req.mutations| && req.mutations[i].id == req.mutations[j].id
      ensures error.Some? ==> !error.value.CursorExpired? && !error.value.Failed?
    {
      if req.cursor < 0 {
        return Some(InvalidCursor);
      }
      if req.device.id == NIL {
        return Some(InvalidDevice);
      }
      if |req.device.name| > MAX_DEVICE_NAME || |req.device.platform| > MAX_DEVICE_PLATFORM {
        return Some(InvalidDevice);
      }
      if |req.mutations| > maxMutations {
        return Some(TooManyMutations);
      }
      error := CheckMutationIds(req.mutations);
    }

    /** Raise the device's acknowledgement to the cursor of its request. */
    method AckRequest(req: Request)
      modifies this`devices
      ensures State() == Left(old(State()), req)
    {
      if req.cursor > 0 && req.device.id in devices && devices[req.device.id].ack < req.cursor {
        devices := devices[req.device.id := devices[req.device.id].(ack := req.cursor)];
      }
    }

    method UpsertDevice(d: Uuid, now: Time)
      modifies this`devices
      ensures devices == Touch(old(devices), d, now)
    {
      if d in devices {
        devices := devices[d := devices[d].(lastSeen := now)];
      } else {
        devices := devices[d := Device(now, 0)];
      }
    }

    /** A request without mutations only reads a page; data, log and records stay as they are. */
    method PullOnly(req: Request, now: Time, proto: int) returns (response: Response)
      requires Valid()
      modifies this`devices
      ensures Valid() && State() == Left(Entered(old(State()), req, now), req)
      ensures response.outcomes == [] && Delivers(log, req.cursor, proto, response.page)
      ensures Fills(log, req.cursor, Limit(req.limit), proto, maxResponseBytes, payloadSize, response.page)
    {
      UpsertDevice(req.device.id, now);
      var page := ReadPage(log, req.cursor, Limit(req.limit), proto, maxResponseBytes, payloadSize);
      AckRequest(req);
      response := Response([], page);
    }

    /**
      A sync request. An error leaves everything unchanged but the id sequence,
      which an abort does not turn back. Otherwise the mutations have been
      applied in canonical order, the outcomes answer the request position by position, the page
      continues the log from the request's cursor, and that cursor is acknowledged.
     */
    method Sync(req: Request, ctx: Context) returns (result: Result<Response>)
      requires Valid() && ctx.device == req.device.id
      modifies this
      ensures Valid()
      ensures result.Err? ==> State() == old(State()).(nextId := nextId)
      ensures result.Err? && !result.error.Failed? ==> nextId == old(nextId)
      ensures result == Err(CursorExpired) <==> ValidRequest(req) && old(CursorIsExpired(req.cursor, ctx.now))
      ensures result == Err(Failed) <==>
                && ValidRequest(req) && !old(CursorIsExpired(req.cursor, ctx.now)) && req.mutations != []
                && ApplyAll(Entered(old(State()), req, ctx.now), ctx, Ordered(req.mutations)).RolledBack?
      ensures NoneLacks(old(State()), ctx, req.mutations) ==> result != Err(Failed)
      ensures SolvesOnce(req.mutations) ==>
                (result == Err(Failed) <==>
                   && ValidRequest(req) && !old(CursorIsExpired(req.cursor, ctx.now))
                   && ctx.onForeignKey.AbortBatch? && Dangles(old(State()), ctx, req.mutations))
      ensures result.Err? && !result.error.CursorExpired? && !result.error.Failed? <==> !ValidRequest(req)
      ensures result.Ok? ==> && |result.value.outcomes| == |req.mutations|
                             && (forall i :: 0 <= i < |req.mutations| ==>
                                   result.value.outcomes[i].mutationId == req.mutations[i].id)
                             && Delivers(log, req.cursor, ctx.proto, result.value.page)
                             && Fills(log, req.cursor, Limit(req.limit), ctx.proto, maxResponseBytes, payloadSize, result.value.page)
      ensures result.Ok? && req.mutations == [] ==> State() == Left(Entered(old(State()), req, ctx.now), req)
      ensures result.Ok? && req.mutations != [] ==>
                var r := ApplyAll(Entered(old(State()), req, ctx.now), ctx, Ordered(req.mutations));
                && r.Done? && State() == Left(r.db, req)
                && forall i :: 0 <= i < |req.mutations| ==>
                     req.mutations[i].id in r.outcomes
                     && result.value.outcomes[i] == r.outcomes[req.mutations[i].id]
    {
      var error := ValidateRequest(req);
      if error.Some? {
        return Err(error.value);
      }
      var expired := CheckCursorNotExpired(req.cursor, ctx.now);
      if expired {
        return Err(CursorExpired);
      }
      if req.mutations == [] {
        var response := PullOnly(req, ctx.now, ctx.proto);
        return Ok(response);
      }
      var done, outcomes := ApplyTransaction(req, ctx);
      if !done {
        return Err(Failed);
      }
      var page := ReadPage(log, req.cursor, Limit(req.limit), ctx.proto, maxResponseBytes, payloadSize);
      AckRequest(req);
      result := Ok(Response(OutcomeList(req.mutations, outcomes), page));
    }

    /** Apply the request's mutations in canonical order; an abort rolls everything back. */
    method ApplyTransaction(req: Request, ctx: Context) returns (done: bool, outcomes: map<Uuid, Outcome>)
      requires Valid() && DistinctIds(req.mutations)
      modifies this
      ensures Valid()
      ensures !done ==> State() == old(State()).(nextId := nextId) && old(nextId) <= nextId
      ensures done <==> ApplyAll(Entered(old(State()), req, ctx.now), ctx, Ordered(req.mutations)).Done?
      ensures done ==> ApplyAll(Entered(old(State()), req, ctx.now), ctx, Ordered(req.mutations)) == Done(State(), outcomes)
      ensures done ==> Answers(req.mutations, outcomes)
      ensures NoneLacks(old(State()), ctx, req.mutations) ==> done
      ensures SolvesOnce(req.mutations) ==> (done <==> !(ctx.onForeignKey.AbortBatch? && Dangles(old(State()), ctx, req.mutations)))
    {
      var t, l, p, d := tables, log, processed, devices;
      UpsertDevice(req.device.id, ctx.now);
      ghost var entered := State();
      assert entered == Entered(old(State()), req, ctx.now) && RecordsOk(entered);
      WhenItGoesThrough(old(State()), entered, ctx, req.mutations);
      done, outcomes := ApplyBatch(ctx, Ordered(req.mutations));
      assert done ==> ApplyAll(entered, ctx, Ordered(req.mutations)) == Done(State(), outcomes);
      if done {
        OutcomesComplete(entered, ctx, req.mutations);
      } else {
        tables, log, processed, devices := t, l, p, d;
      }
    }

    /** Seeing the device first makes no difference to the sessions a request needs. */
    static lemma {:induction false} WhenItGoesThrough(db: Db, entered: Db, ctx: Context, ms: seq<Mutation>)
      requires DistinctIds(ms) && entered.tables == db.tables && entered.processed == db.processed
      ensures NoneLacks(db, ctx, ms) ==> ApplyAll(entered, ctx, Ordered(ms)).Done?
      ensures SolvesOnce(ms) ==>
                (ApplyAll(entered, ctx, Ordered(ms)).Done? <==> !(ctx.onForeignKey.AbortBatch? && Dangles(db, ctx, ms)))
    {
      assert forall i :: 0 <= i < |ms| ==> Lacks(entered, ctx, ms, ms[i]) == Lacks(db, ctx, ms, ms[i]);
      if NoneLacks(db, ctx, ms) {
        SessionsMayStandAnywhere(entered, ctx, ms);
      }
      if SolvesOnce(ms) {
        RequestAbortsExactlyWhen(entered, ctx, ms);
      }
    }

    /** Every mutation has an outcome of its own. */
    static ghost predicate Answers(ms: seq<Mutation>, outcomes: map<Uuid, Outcome>) {
      forall i :: 0 <= i < |ms| ==> ms[i].id in outcomes && outcomes[ms[i].id].mutationId == ms[i].id
    }

    /** Every mutation of the request has an outcome of its own after the ordered batch. */
    static lemma {:induction false} OutcomesComplete(db: Db, ctx: Context, ms: seq<Mutation>)
      requires RecordsOk(db) && DistinctIds(ms) && ApplyAll(db, ctx, Ordered(ms)).Done?
      ensures var r := ApplyAll(db, ctx, Ordered(ms));
              RecordsOk(r.db) && Answers(ms, r.outcomes)
    {
      OrderedDistinct(ms);
      BatchRecords(db, ctx, Ordered(ms));
      OrderedKeeps(ms);
      forall i | 0 <= i < |ms|
        ensures var r := ApplyAll(db, ctx, Ordered(ms)); ms[i].id in r.outcomes && r.outcomes[ms[i].id].mutationId == ms[i].id
      {
        SameElements(ms, Ordered(ms), i);
      }
    }

    /**
      A snapshot request: the device is tracked, the first page reads the watermark, and the page
      is a keyset page of the table it asks for.
     */
    method Snapshot(device: Uuid, cursor: int, afterId: Uuid, entity: Option<Entity>, pageSize: int, now: Time)
      returns (result: Result<SnapshotResponse>)
      requires Valid()
      modifies this`devices
      ensures Valid()
      ensures result.Err? ==> State() == old(State())
      ensures result.Err? <==> device == NIL || (entity.Some? && entity.value.UnknownEntity?)
      ensures result.Ok? ==> devices == Touch(old(devices), device, now)
      ensures result.Ok? ==>
                var sessions := entity == None || entity == Some(SessionEntity);
                var phase := if sessions then CollectSessions(afterId) else CollectSolves(afterId);
                && IsKeysetPage(TableOf(tables, phase), afterId, result.value.items, result.value.hasMore)
                && FillsSnapshot(TableOf(tables, phase), afterId, PageSize(pageSize), maxResponseBytes, rowSize, result.value.items)
                && result.value.cursor == (if cursor <= 0 && afterId == NIL && sessions then LastId(log) else cursor)
                && result.value.next == (if result.value.hasMore && sessions then Some(CollectSessions(LastItemId(result.value.items, NIL)))
                                         else if result.value.hasMore then Some(CollectSolves(LastItemId(result.value.items, NIL)))
                                         else if sessions then Some(CollectSolves(NIL))
                                         else None)
                && (result.value.hasMore ==> result.value.items != [] && LastItemId(result.value.items, NIL) > afterId)
    {
      if device == NIL {
        return Err(InvalidDevice);
      }
      if entity.Some? && entity.value.UnknownEntity? {
        return Err(InvalidSnapshotEntity);
      }
      var sessions := entity == None || entity == Some(SessionEntity);
      var phase := if sessions then CollectSessions(afterId) else CollectSolves(afterId);
      UpsertDevice(device, now);
      var watermark := cursor;
      if watermark <= 0 && afterId == NIL && sessions {
        watermark := LastId(log);
      }
      var items, hasMore := ReadSnapshotPage(TableOf(tables, phase), afterId, pageSize, maxResponseBytes, rowSize);
      RunCovers(TableOf(tables, phase), afterId, items);
      assert items != [] ==> items[|items| - 1].id > afterId;
      var next := NextPhase(phase, items, hasMore);
      result := Ok(SnapshotResponse(items, watermark, hasMore, if next.Following? then None else Some(next)));
    }
  }

  /**
    A committed sync is one commit step of the replication protocol: with the user's history
    behind the store, the protocol's commit of the new changes is enabled and leaves the same
    tables and log.
   */
  lemma {:induction false} SyncIsCommit(db: Db, ctx: Context, ms: seq<Mutation>, w: World) returns (step: Step)
    requires Backed(db, w.history, w.causes) && w.tables == db.tables && w.log == db.log
    requires ApplyAll(db, ctx, Ordered(ms)).Done?
    ensures step.Commit? && Enabled(w, step)
    ensures var r := ApplyAll(db, ctx, Ordered(ms)).db;
            && Do(w, step).tables == r.tables && Do(w, step).log == r.log
            && Backed(r, Do(w, step).history, Do(w, step).causes)
  {
    var h, causes := BatchExtends(db, ctx, Ordered(ms), w.history, w.causes);
    var news, newCauses := h[|w.history|..], causes[|w.causes|..];
    PrefixAndRest(w.history, h);
    PrefixAndRest(w.causes, causes);
    step := Commit(news, newCauses);
    ReplayConcat(map[], w.history, news);
  }

  lemma {:induction false} PrefixAndRest<T>(a: seq<T>, b: seq<T>)
    requires a <= b
    ensures a + b[|a|..] == b
  {
  }
}
