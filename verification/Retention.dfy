/** The background job that prunes, for every user, what all active devices have acknowledged. */
module Retention {
  import opened Records
  import opened History
  import opened Paging
  import opened Devices
  import opened Batches
  import opened Replication

  /** Dedup records not older than the cutoff. */
  function Recent(processed: Processed, cutoff: Time): Processed {
    map key <- processed | processed[key].createdAt >= cutoff :: processed[key]
  }

  /**
    What a pass leaves of one user's data when the least acknowledged cursor is `min`: everything but
    the changes below `min` and the dedup records older than the cutoff.
   */
  ghost predicate Pruned(before: Db, cutoff: Time, min: nat, after: Db) {
    && after.tables == before.tables && after.devices == before.devices && after.nextId == before.nextId
    && (exists n: nat :: CutAt(before.log, min, n) && after.log == before.log[n..])
    && (forall key :: key in after.processed <==> key in before.processed && before.processed[key].createdAt >= cutoff)
    && (forall key <- after.processed :: key in before.processed && after.processed[key] == before.processed[key])
  }

  /** The changes below `min` are the first `n`. */
  predicate CutAt(log: seq<Change>, min: nat, n: nat) {
    && n <= |log|
    && (forall i :: 0 <= i < n ==> log[i].id < min)
    && (forall i :: n <= i < |log| ==> log[i].id >= min)
  }

  /** What a pass may do to one user: nothing without changes or below a minimum of 0, otherwise prune. */
  ghost predicate Passed(before: Db, cutoff: Time, after: Db) {
    if before.log == [] then after == before
    else exists min :: IsMinAck(before.devices, cutoff, min) && if min > 0 then Pruned(before, cutoff, min, after) else after == before
  }

  lemma {:induction false} KeptIsCut(log: seq<Change>, min: nat)
    requires Increasing(log)
    ensures exists n: nat :: CutAt(log, min, n) && Kept(log, min) == log[n..]
  {
    AboveCursor(log, min - 1);
    assert CutAt(log, min, Position(log, min - 1));
  }

  /** There is only one way to prune. */
  lemma {:induction false} PrunedIsKept(before: Db, cutoff: Time, min: nat, after: Db)
    requires Increasing(before.log) && min > 0 && Pruned(before, cutoff, min, after)
    ensures after.log == Kept(before.log, min)
    ensures forall c :: c in after.log <==> c in before.log && c.id >= min
  {
    var n: nat :| CutAt(before.log, min, n) && after.log == before.log[n..];
    PositionIsUnique(before.log, min - 1, n);
    KeptIsFilter(before.log, min);
  }

  /** The users in `left` are as they were, all others have been passed. */
  ghost predicate Visited(before: map<Uuid, Db>, cutoff: Time, left: set<Uuid>, users: map<Uuid, Db>) {
    && users.Keys == before.Keys && left <= users.Keys
    && (forall u <- left :: users[u] == before[u] && before[u].log != [] && Increasing(before[u].log))
    && (forall u <- users :: u !in left ==> Passed(before[u], cutoff, users[u]))
  }

  lemma {:induction false} VisitOne(before: map<Uuid, Db>, cutoff: Time, left: set<Uuid>, users: map<Uuid, Db>,
                                    u: Uuid, db: Db)
    requires Visited(before, cutoff, left, users) && u in left && Passed(before[u], cutoff, db)
    ensures Visited(before, cutoff, left - {u}, users[u := db])
  {
  }

  lemma {:induction false} VisitNone(users: map<Uuid, Db>, cutoff: Time)
    requires forall u <- users :: Increasing(users[u].log)
    ensures Visited(users, cutoff, (set u <- users | users[u].log != []), users)
  {
  }

  class RetentionService {
    var users: map<Uuid, Db>
    const inactiveDeviceWindow: Time

    /** The log is stored by its ids. */
    ghost predicate Valid()
      reads this
    {
      forall u <- users :: Increasing(users[u].log)
    }

    constructor (users: map<Uuid, Db>, window: Time)
      requires forall u <- users :: Increasing(users[u].log)
      ensures Valid() && this.users == users && inactiveDeviceWindow == window
    {
      this.users := users;
      inactiveDeviceWindow := window;
    }

    /** Visit every user with changes; every user is pruned by its own devices and no other user's. */
    method RunOnce(now: Time)
      requires Valid()
      modifies this`users
      ensures users.Keys == old(users).Keys
      ensures forall u <- users :: Passed(old(users)[u], now - EffectiveInactiveWindow(inactiveDeviceWindow), users[u])
    {
      var cutoff := now - EffectiveInactiveWindow(inactiveDeviceWindow);
      var left := set u <- users | users[u].log != [];
      VisitNone(users, cutoff);
      while left != {}
        invariant Visited(old(users), cutoff, left, users)
        decreases left
      {
        var u :| u in left;
        var db := PruneUser(users[u], cutoff);
        VisitOne(old(users), cutoff, left, users, u, db);
        users := users[u := db];
        left := left - {u};
      }
    }

    /** Read the minimum cursor, then delete the log below it and the records older than the window. */
    static method PruneUser(before: Db, cutoff: Time) returns (after: Db)
      requires before.log != [] && Increasing(before.log)
      ensures Passed(before, cutoff, after)
    {
      after := before;
      var min := MinValidCursor(before.devices, cutoff);
      if min > 0 {
        after := after.(log := Kept(after.log, min));
        after := after.(processed := Recent(after.processed, cutoff));
      }
      KeptIsCut(before.log, min);
      assert min > 0 ==> Pruned(before, cutoff, min, after);
    }
  }

  /**
    A pass over one user is the protocol's plan step followed by its prune step: afterwards the database
    and the protocol still agree on everything, and the database still has its history behind it.
   */
  lemma {:induction false} PassIsPlanThenPrune(db: Db, cutoff: Time, min: nat, db': Db, w: World) returns (w': World)
    requires IsMinAck(db.devices, cutoff, min) && min > 0 && Increasing(db.log) && Pruned(db, cutoff, min, db')
    requires w.tables == db.tables && w.log == db.log && w.devices == db.devices && Backed(db, w.history, w.causes)
    ensures Enabled(w, PlanPrune(cutoff, min))
    ensures Next(Do(w, PlanPrune(cutoff, min)), Prune(min), w')
    ensures w'.tables == db'.tables && w'.log == db'.log && w'.devices == db'.devices && Backed(db', w'.history, w'.causes)
    ensures w'.history == w.history && w'.causes == w.causes && w'.clients == w.clients
  {
    PrunedIsKept(db, cutoff, min, db');
    w' := Do(Do(w, PlanPrune(cutoff, min)), Prune(min));
  }

  /** A pass keeps every record younger than the window, so retries of those mutations stay idempotent. */
  lemma {:induction false} PassRetainsRecent(db: Db, cutoff: Time, min: nat, db': Db, device: Uuid, ms: seq<Mutation>)
    requires Pruned(db, cutoff, min, db')
    requires forall i :: 0 <= i < |ms| ==>
               (device, ms[i].id) in db.processed && db.processed[(device, ms[i].id)].createdAt >= cutoff
    ensures Retained(db, db', device, ms)
    ensures RecordsOk(db) ==> RecordsOk(db')
  {
  }

  /**
    So a batch can be repeated for the length of the window: after a pass whose cutoff is not after the
    moment the batch was applied, sending it again returns the first outcomes and changes nothing.
   */
  lemma {:induction false} BatchOutlivesPass(db: Db, ctx: Context, ms: seq<Mutation>, cutoff: Time, min: nat, later: Db,
                                             ctx': Context, ms': seq<Mutation>)
    requires RecordsOk(db) && DistinctIds(ms) && ApplyAll(db, ctx, ms).Done?
    requires forall i :: 0 <= i < |ms| ==> (ctx.device, ms[i].id) !in db.processed
    requires Pruned(ApplyAll(db, ctx, ms).db, cutoff, min, later) && cutoff <= ctx.now
    requires ctx'.device == ctx.device && multiset(ms') == multiset(ms)
    ensures var r, r' := ApplyAll(db, ctx, ms), ApplyAll(later, ctx', ms');
            && r'.Done? && r'.db == later
            && forall i :: 0 <= i < |ms| ==>
                 ms[i].id in r.outcomes && ms[i].id in r'.outcomes && r'.outcomes[ms[i].id] == r.outcomes[ms[i].id]
  {
    BatchRecords(db, ctx, ms);
    forall i | 0 <= i < |ms|
      ensures ApplyAll(db, ctx, ms).db.processed[(ctx.device, ms[i].id)].createdAt >= cutoff
    {
      NewRecords(db, ctx, ms, (ctx.device, ms[i].id));
    }
    PassRetainsRecent(ApplyAll(db, ctx, ms).db, cutoff, min, later, ctx.device, ms);
    RetryIsIdempotent(db, ctx, ms, later, ctx', ms');
  }
}
