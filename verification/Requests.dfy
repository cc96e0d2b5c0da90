/** Whole sync and snapshot requests, as the service executes them, are short runs of the replication protocol. */
module Requests {
  import opened Records
  import opened History
  import opened Paging
  import opened Snapshots
  import opened Devices
  import opened Replica
  import opened Replication
  import opened Ordering
  import opened Batches
  import opened SyncService

  /** The world holds what the database holds, with the user's full history behind it. */
  ghost predicate Matches(db: Db, w: World) {
    && Backed(db, w.history, w.causes)
    && w.tables == db.tables && w.log == db.log && w.devices == db.devices
  }

  /** The device of the request follows the log and sends the cursor it holds. */
  ghost predicate SentBy(w: World, req: Request, proto: int) {
    && req.device.id in w.clients
    && var c := w.clients[req.device.id];
       c.phase.Following? && c.cursor == req.cursor && c.proto == proto
  }

  ghost function Acked(w: World, req: Request): World
    requires req.cursor > 0 ==> Enabled(w, Ack(req.device.id, req.cursor))
  {
    if req.cursor > 0 then Do(w, Ack(req.device.id, req.cursor)) else w
  }

  /** The device is seen, the mutations commit with the page read among them, and the request's cursor is acknowledged. */
  ghost predicate Served(w: World, req: Request, now: Time, commit: Step, page: Page, w': World) {
    var seen := Do(w, Seen(req.device.id, now));
    && commit.Commit? && Enabled(seen, commit)
    && var committed := Do(seen, commit);
       && Enabled(committed, Pull(req.device.id, page))
       && var pulled := Do(committed, Pull(req.device.id, page));
          && (req.cursor > 0 ==> Enabled(pulled, Ack(req.device.id, req.cursor)))
          && w' == Acked(pulled, req)
  }

  lemma {:induction false} BatchKeepsDevices(db: Db, ctx: Context, ms: seq<Mutation>)
    requires ApplyAll(db, ctx, ms).Done?
    ensures ApplyAll(db, ctx, ms).db.devices == db.devices
    decreases |ms|
  {
    if ms != [] {
      BatchKeepsDevices(db, ctx, ms[..|ms| - 1]);
      MutationEffect(ApplyAll(db, ctx, ms[..|ms| - 1]).db, ctx, ms[|ms| - 1]);
    }
  }

  /**
    Every sync request that is answered, with or without mutations, takes the protocol through its
    seen, commit, pull and acknowledge steps, and leaves the database and the protocol in the same state.
   */
  lemma {:induction false} SyncIsRun(db: Db, ctx: Context, req: Request, page: Page, w: World) returns (commit: Step, w': World)
    requires Inv(w) && Matches(db, w) && SentBy(w, req, ctx.proto)
    requires var r := ApplyAll(UserStore.Entered(db, req, ctx.now), ctx, Ordered(req.mutations));
             r.Done? && Delivers(r.db.log, req.cursor, ctx.proto, page)
    ensures Served(w, req, ctx.now, commit, page, w') && Inv(w')
    ensures var r := ApplyAll(UserStore.Entered(db, req, ctx.now), ctx, Ordered(req.mutations));
            Matches(UserStore.Left(r.db, req), w')
  {
    var entered := UserStore.Entered(db, req, ctx.now);
    var seen := Do(w, Seen(req.device.id, ctx.now));
    InvStep(w, Seen(req.device.id, ctx.now), seen);
    BatchKeepsDevices(entered, ctx, Ordered(req.mutations));
    commit := SyncIsCommit(entered, ctx, req.mutations, seen);
    var r := ApplyAll(entered, ctx, Ordered(req.mutations)).db;
    var committed := Do(seen, commit);
    InvStep(seen, commit, committed);
    assert Matches(r, committed);
    w' := PullAndAck(r, req, ctx.proto, page, committed);
  }

  /** The second half of a request: the page, then the acknowledgement. */
  lemma {:induction false} PullAndAck(db: Db, req: Request, proto: int, page: Page, w: World) returns (w': World)
    requires Inv(w) && Matches(db, w) && SentBy(w, req, proto) && Delivers(db.log, req.cursor, proto, page)
    ensures Enabled(w, Pull(req.device.id, page))
    ensures var pulled := Do(w, Pull(req.device.id, page));
            (req.cursor > 0 ==> Enabled(pulled, Ack(req.device.id, req.cursor))) && w' == Acked(pulled, req)
    ensures Inv(w') && Matches(UserStore.Left(db, req), w')
  {
    var pulled := Do(w, Pull(req.device.id, page));
    PullAdvances(w, req.device.id, page);
    InvStep(w, Pull(req.device.id, page), pulled);
    w' := Acked(pulled, req);
    if req.cursor > 0 {
      InvStep(pulled, Ack(req.device.id, req.cursor), w');
    }
    assert w'.tables == w.tables && w'.log == w.log && w'.history == w.history && w'.causes == w.causes;
  }

  // ---- Snapshot requests ----

  /** The request that opens a snapshot: no watermark yet, first page of the sessions. */
  predicate Opens(cursor: int, phase: Phase) {
    cursor <= 0 && phase == CollectSessions(NIL)
  }

  /** The device is seen, and bootstraps if its request opens a snapshot. */
  ghost function Started(w: World, d: Uuid, now: Time, proto: int, policy: Policy, opens: bool): (w': World)
    ensures w'.tables == w.tables && w'.log == w.log && w'.devices == Touch(w.devices, d, now)
    ensures opens ==> d in w'.clients && w'.clients[d].phase == CollectSessions(NIL) && w'.clients[d].cursor == LastId(w.log)
    ensures !opens ==> w'.clients == w.clients
  {
    var seen := Do(w, Seen(d, now));
    if opens then Do(seen, Bootstrap(d, proto, policy)) else seen
  }

  /**
    A snapshot request that opens a snapshot, or that echoes the watermark and the position of one
    under way, takes the protocol through its seen, bootstrap and collect steps: the watermark is the
    newest id in the log as the request found it, the page is read from the tables, and the device
    continues where the answer says.
   */
  lemma {:induction false} SnapshotIsRun(w: World, d: Uuid, now: Time, proto: int, policy: Policy, cursor: int, phase: Phase,
                                         items: seq<Item>, more: bool)
    returns (w': World)
    requires !phase.Following? && IsKeysetPage(TableOf(w.tables, phase), phase.after, items, more)
    requires Opens(cursor, phase) || (d in w.clients && w.clients[d].phase == phase && w.clients[d].cursor == cursor)
    ensures Next(Started(w, d, now, proto, policy, Opens(cursor, phase)), Collect(d, items, more), w')
    ensures w'.tables == w.tables && w'.log == w.log && w'.devices == Touch(w.devices, d, now)
    ensures d in w'.clients && w'.clients[d].phase == NextPhase(phase, items, more)
    ensures w'.clients[d].cursor == if Opens(cursor, phase) then LastId(w.log) else cursor
  {
    var started := Started(w, d, now, proto, policy, Opens(cursor, phase));
    w' := Collects(started, d, phase, items, more);
  }

  lemma {:induction false} Collects(w: World, d: Uuid, phase: Phase, items: seq<Item>, more: bool) returns (w': World)
    requires d in w.clients && w.clients[d].phase == phase && !phase.Following?
    requires IsKeysetPage(TableOf(w.tables, phase), phase.after, items, more)
    ensures Next(w, Collect(d, items, more), w')
    ensures w'.tables == w.tables && w'.log == w.log && w'.devices == w.devices
    ensures d in w'.clients && w'.clients[d].phase == NextPhase(phase, items, more) && w'.clients[d].cursor == w.clients[d].cursor
  {
    w' := Do(w, Collect(d, items, more));
  }
}
