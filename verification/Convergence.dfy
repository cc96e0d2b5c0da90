/** What the protocol promises over whole runs: convergence, safe retention, safe watermarks. */
module Convergence {
  import opened Records
  import opened History
  import opened Paging
  import opened Devices
  import opened Replica
  import opened Replication

  // ---- The log against the history ----

  /** From any cursor at or above the floor the retained log misses nothing. */
  lemma {:induction false} GapFree(w: World, cursor: int)
    requires StoreInv(w) && LogInv(w) && cursor >= w.floor - 1
    ensures After(w.log, cursor) == After(w.history, cursor)
  {
    AfterAfter(w.history, w.floor - 1, cursor);
  }

  /** Replaying the retained log over the tables as of any retained cursor gives the current tables. */
  lemma {:induction false} LogRefinesTables(w: World, cursor: int)
    requires Inv(w) && cursor >= w.floor - 1
    ensures w.tables == Replay(TablesAt(w.history, Position(w.history, cursor)), After(w.log, cursor))
  {
    GapFree(w, cursor);
    ReplaySplit(w.history, Position(w.history, cursor));
  }

  lemma {:induction false} ReplaySplit(h: seq<Change>, n: nat)
    requires n <= |h|
    ensures Replay(map[], h) == Replay(TablesAt(h, n), h[n..])
  {
    assert h == h[..n] + h[n..];
    ReplayConcat(map[], h[..n], h[n..]);
  }

  // ---- A tracked device ----

  /** No floor retention has read lies above the device's cursor. */
  ghost predicate Covered(w: World, d: Uuid) {
    d in w.clients && forall p <- w.plans :: p <= w.clients[d].cursor
  }

  /** The device is covered and its copy is faithful at its cursor. */
  ghost predicate Tracked(w: World, d: Uuid) {
    && Covered(w, d)
    && FaithfulAt(w.clients[d], w.history)
  }

  ghost predicate FaithfulAt(c: Client, h: seq<Change>) {
    Faithful(c.local, c.proto, c.phase, h, Position(h, c.cursor))
  }

  lemma {:induction false} EndPosition(h: seq<Change>)
    requires Increasing(h)
    ensures Position(h, LastId(h)) == |h|
  {
    PositionIsUnique(h, LastId(h), |h|);
  }

  /** A first snapshot request starts a tracked device, whatever was pruned before it. */
  lemma {:induction false} BootstrapTracks(w: World, s: Step, w': World)
    requires Inv(w) && s.Bootstrap? && Next(w, s, w')
    ensures Tracked(w', s.d)
  {
    NewestIsRetained(w);
    EndPosition(w.history);
    EmptyIsFaithful(s.proto, w.history, w.causes);
  }

  /** Nothing has been collected yet, so nothing can be wrong. */
  lemma {:induction false} EmptyIsFaithful(proto: int, h: seq<Change>, causes: seq<Mutation>)
    requires Legal(h, causes)
    ensures Faithful(map[], proto, CollectSessions(NIL), h, |h|)
  {
    LegalTables(h, causes);
  }

  /** A device may also follow from cursor 0, as long as retention has never found anything to prune. */
  lemma {:induction false} StartAtZeroTracks(w: World, s: Step, w': World)
    requires Inv(w) && s.StartAtZero? && Next(w, s, w') && w.plans == {}
    ensures Tracked(w', s.d)
  {
    PositionIsUnique(w.history, 0, 0);
    NothingAppliedYet(s.proto, w.history);
    assert FaithfulAt(w'.clients[s.d], w'.history);
  }

  /** A device that has applied nothing misses exactly the keys of the whole history. */
  lemma {:induction false} NothingAppliedYet(proto: int, h: seq<Change>)
    ensures Faithful(map[], proto, Following, h, 0)
  {
    forall k | !Touched(h[0..], k)
      ensures SameAt(map[], proto, Replay(map[], h), k)
    {
      assert h[0..] == h;
      ReplayAt(map[], h, k);
    }
  }

  lemma {:induction false} CommitTracks(w: World, s: Step, w': World, d: Uuid)
    requires Inv(w) && Tracked(w, d) && s.Commit? && Next(w, s, w')
    ensures Tracked(w', d)
  {
    AppendTracks(w.clients[d], w.history, w'.causes, s.news);
    CommitLog(w.history, w'.causes, s.news, 0);
  }

  lemma {:induction false} AppendTracks(c: Client, h: seq<Change>, causes: seq<Mutation>, news: seq<Change>)
    requires Legal(h + news, causes) && FaithfulAt(c, h) && c.cursor <= LastId(h)
    ensures FaithfulAt(c, h + news)
  {
    NewIdsPositive(h, causes, news);
    PositionOfAppend(h, news, c.cursor);
    FaithfulAppend(c.local, c.proto, c.phase, h, causes, Position(h, c.cursor), news);
  }

  lemma {:induction false} PullTracks(w: World, s: Step, w': World, d: Uuid)
    requires Inv(w) && Tracked(w, d) && s.Pull? && s.d == d && Next(w, s, w')
    ensures Tracked(w', d)
    ensures !s.page.hasMore ==> Position(w.history, s.page.next) == |w.history|
  {
    PullAdvances(w, d, s.page);
    GapFree(w, w.clients[d].cursor);
    PageTracks(w.clients[d], w.history, w.causes, s.page);
  }

  /** What a covered device pulls is a slice of the full history, starting at its cursor. */
  lemma {:induction false} PullIsSlice(w: World, d: Uuid, page: Page)
    requires Inv(w) && Covered(w, d) && Delivers(w.log, w.clients[d].cursor, w.clients[d].proto, page)
    ensures page.next >= 0
    ensures Position(w.history, w.clients[d].cursor) <= Position(w.history, page.next)
    ensures page.changes == WireAll(w.clients[d].proto,
                                    w.history[Position(w.history, w.clients[d].cursor)..Position(w.history, page.next)])
    ensures !page.hasMore ==> Position(w.history, page.next) == |w.history|
  {
    var c := w.clients[d];
    PullAdvances(w, d, page);
    assert Delivers(w.history, c.cursor, c.proto, page) by {
      GapFree(w, c.cursor);
      DeliversSame(w.log, w.history, c.cursor, c.proto, page);
    }
    SlicePositions(w.history, w.causes, c.cursor, c.proto, page);
  }

  lemma {:induction false} SlicePositions(h: seq<Change>, causes: seq<Mutation>, cursor: int, proto: int, page: Page)
    requires Legal(h, causes) && Delivers(h, cursor, proto, page)
    ensures Position(h, cursor) <= Position(h, page.next)
    ensures page.changes == WireAll(proto, h[Position(h, cursor)..Position(h, page.next)])
    ensures !page.hasMore ==> Position(h, page.next) == |h|
  {
    PageIsSlice(h, cursor, proto, page);
  }

  /** Applying a page of the history itself keeps a device faithful at the page's cursor. */
  lemma {:induction false} PageTracks(c: Client, h: seq<Change>, causes: seq<Mutation>, page: Page)
    requires Legal(h, causes) && FaithfulAt(c, h) && Delivers(h, c.cursor, c.proto, page) && page.next >= 0
    ensures FaithfulAt(c.(local := ApplyPage(c.local, c.proto, c.policy, page.changes), cursor := page.next), h)
    ensures !page.hasMore ==> Position(h, page.next) == |h|
  {
    SlicePositions(h, causes, c.cursor, c.proto, page);
    FaithfulPage(c.local, c.proto, c.policy, c.phase, h, causes, Position(h, c.cursor), Position(h, page.next));
  }

  lemma {:induction false} CollectTracks(w: World, s: Step, w': World, d: Uuid)
    requires Inv(w) && Tracked(w, d) && s.Collect? && s.d == d && Next(w, s, w')
    ensures Tracked(w', d)
  {
    var c := w.clients[d];
    FaithfulCollect(c.local, c.proto, c.phase, w.history, w.causes, Position(w.history, c.cursor), s.items, s.more);
  }

  lemma {:induction false} PlanTracks(w: World, s: Step, w': World, d: Uuid)
    requires Inv(w) && Tracked(w, d) && s.PlanPrune? && Next(w, s, w')
    requires Active(w.devices, d, s.cutoff)
    ensures Tracked(w', d)
  {
    PlanCovers(w, s, w', d);
    OtherTracks(w, w', d);
  }

  lemma {:induction false} PlanCovers(w: World, s: Step, w': World, d: Uuid)
    requires CursorInv(w) && Covered(w, d) && s.PlanPrune? && Next(w, s, w') && Active(w.devices, d, s.cutoff)
    ensures Covered(w', d)
  {
    MinIsCovered(w, d, s.cutoff, s.min);
  }

  /** The minimum of the active devices is at most the cursor of each of them. */
  lemma {:induction false} MinIsCovered(w: World, d: Uuid, cutoff: Time, min: nat)
    requires CursorInv(w) && d in w.clients && Active(w.devices, d, cutoff) && IsMinAck(w.devices, cutoff, min)
    ensures min > 0 ==> min <= w.clients[d].cursor
  {
  }

  /** A step that leaves the history and this client alone, and the client covered, keeps it tracked. */
  lemma {:induction false} OtherTracks(w: World, w': World, d: Uuid)
    requires Tracked(w, d) && w'.history == w.history && (w'.plans == w.plans || Covered(w', d))
    requires d in w'.clients && w'.clients[d] == w.clients[d]
    ensures Tracked(w', d)
  {
  }

  /** Every step keeps a device tracked, provided retention finds it active whenever it plans. */
  lemma {:induction false} TrackedStep(w: World, s: Step, w': World, d: Uuid)
    requires Inv(w) && Tracked(w, d) && Next(w, s, w')
    requires s.PlanPrune? ==> Active(w.devices, d, s.cutoff)
    ensures Tracked(w', d)
  {
    match s
    case Commit(_, _) => CommitTracks(w, s, w', d);
    case PlanPrune(_, _) => PlanTracks(w, s, w', d);
    case Bootstrap(e, _, _) => if e == d { BootstrapTracks(w, s, w'); } else { OtherTracks(w, w', d); }
    case Collect(e, _, _) => if e == d { CollectTracks(w, s, w', d); } else { OtherTracks(w, w', d); }
    case Pull(e, _) => if e == d { PullTracks(w, s, w', d); } else { OtherTracks(w, w', d); }
    case _ => OtherTracks(w, w', d);
  }

  /** Step `b` of the run bootstraps `d`, or starts it at 0 before anything could be pruned. */
  ghost predicate Starts(ws: seq<World>, ss: seq<Step>, b: nat, d: Uuid)
    requires Run(ws, ss) && b < |ss|
  {
    && (ss[b].Bootstrap? || (ss[b].StartAtZero? && ws[b].plans == {}))
    && ss[b].d == d
  }

  /** Every time retention planned between `b` and `e`, it saw `d` inside the window. */
  ghost predicate SeenByRetention(ws: seq<World>, ss: seq<Step>, b: nat, e: nat, d: Uuid)
    requires Run(ws, ss) && e <= |ss|
  {
    forall i :: b <= i < e && ss[i].PlanPrune? ==> Active(ws[i].devices, d, ss[i].cutoff)
  }

  lemma {:induction false} StartsTracked(ws: seq<World>, ss: seq<Step>, b: nat, d: Uuid)
    requires Run(ws, ss) && b < |ss| && Starts(ws, ss, b, d)
    ensures Tracked(ws[b + 1], d)
  {
    InvHolds(ws, ss, b);
    if ss[b].Bootstrap? {
      BootstrapTracks(ws[b], ss[b], ws[b + 1]);
    } else {
      StartAtZeroTracks(ws[b], ss[b], ws[b + 1]);
    }
  }

  lemma {:induction false} TrackedNext(ws: seq<World>, ss: seq<Step>, i: nat, d: Uuid)
    requires Run(ws, ss) && i < |ss| && Tracked(ws[i], d)
    requires ss[i].PlanPrune? ==> Active(ws[i].devices, d, ss[i].cutoff)
    ensures Tracked(ws[i + 1], d)
  {
    InvHolds(ws, ss, i);
    TrackedStep(ws[i], ss[i], ws[i + 1], d);
  }

  lemma {:induction false} StaysTracked(ws: seq<World>, ss: seq<Step>, b: nat, e: nat, d: Uuid)
    requires Run(ws, ss) && b < e <= |ss|
    requires Starts(ws, ss, b, d) && SeenByRetention(ws, ss, b, e, d)
    ensures Tracked(ws[e], d)
    decreases e
  {
    if b == e - 1 {
      StartsTracked(ws, ss, b, d);
    } else {
      StaysTracked(ws, ss, b, e - 1, d);
      TrackedNext(ws, ss, e - 1, d);
    }
  }

  /**
    Convergence. A device that bootstraps by snapshot and then pulls, and that retention saw as
    active each time it planned, holds exactly the server's rows whenever a pull answers that
    there is no more, whatever other devices wrote and retention pruned in between.
   */
  lemma {:induction false} Converges(ws: seq<World>, ss: seq<Step>, b: nat, e: nat, d: Uuid)
    requires Run(ws, ss) && b < e < |ss|
    requires Starts(ws, ss, b, d) && SeenByRetention(ws, ss, b, e, d)
    requires ss[e].Pull? && ss[e].d == d && !ss[e].page.hasMore
    ensures d in ws[e + 1].clients
    ensures var c := ws[e + 1].clients[d]; c.local == ObserveAll(c.proto, ws[e + 1].tables)
  {
    InvHolds(ws, ss, e);
    InvHolds(ws, ss, e + 1);
    StaysTracked(ws, ss, b, e, d);
    assert Next(ws[e], ss[e], ws[e + 1]);
    PullTracks(ws[e], ss[e], ws[e + 1], d);
    var c := ws[e + 1].clients[d];
    FaithfulAtEnd(c.local, c.proto, ws[e + 1].history);
  }

  /** Every floor retention has read is at most the watermark or at most what the device has acknowledged. */
  ghost predicate PlansBelow(w: World, d: Uuid, watermark: nat) {
    forall p <- w.plans :: p <= watermark || (d in w.devices && p <= w.devices[d].ack)
  }

  lemma {:induction false} StartBelow(w: World, s: Step, w': World)
    requires Inv(w) && Next(w, s, w') && (s.Bootstrap? || (s.StartAtZero? && w.plans == {}))
    ensures s.d in w'.clients && PlansBelow(w', s.d, w'.clients[s.d].cursor)
  {
    NewestIsRetained(w);
  }

  lemma {:induction false} BelowStep(w: World, s: Step, w': World, d: Uuid, watermark: nat)
    requires PlansBelow(w, d, watermark) && Next(w, s, w')
    requires s.PlanPrune? ==> Active(w.devices, d, s.cutoff)
    ensures PlansBelow(w', d, watermark)
  {
    if d in w.devices {
      AckStep(w, s, w', d);
    }
  }

  lemma {:induction false} StartsBelow(ws: seq<World>, ss: seq<Step>, b: nat, d: Uuid)
    requires Run(ws, ss) && b < |ss| && Starts(ws, ss, b, d)
    ensures d in ws[b + 1].clients && PlansBelow(ws[b + 1], d, ws[b + 1].clients[d].cursor)
  {
    InvHolds(ws, ss, b);
    StartBelow(ws[b], ss[b], ws[b + 1]);
  }

  lemma {:induction false} StaysBelow(ws: seq<World>, ss: seq<Step>, b: nat, e: nat, d: Uuid, watermark: nat)
    requires Run(ws, ss) && b < e <= |ss| && SeenByRetention(ws, ss, b, e, d)
    requires PlansBelow(ws[b + 1], d, watermark)
    ensures PlansBelow(ws[e], d, watermark)
    decreases e
  {
    if b + 1 < e {
      StaysBelow(ws, ss, b, e - 1, d, watermark);
      BelowNext(ws, ss, e - 1, d, watermark);
    }
  }

  lemma {:induction false} BelowNext(ws: seq<World>, ss: seq<Step>, i: nat, d: Uuid, watermark: nat)
    requires Run(ws, ss) && i < |ss| && PlansBelow(ws[i], d, watermark)
    requires ss[i].PlanPrune? ==> Active(ws[i].devices, d, ss[i].cutoff)
    ensures PlansBelow(ws[i + 1], d, watermark)
  {
    BelowStep(ws[i], ss[i], ws[i + 1], d, watermark);
  }

  /**
    A fuzzy snapshot is repaired by replay. Whatever was written between its pages, a device that has
    read them all reaches the current tables by applying every later change, and by applying only
    those newer than its own rows.
   */
  lemma {:induction false} SnapshotIsRepaired(ws: seq<World>, ss: seq<Step>, b: nat, e: nat, d: Uuid, policy: Policy)
    requires Run(ws, ss) && b < e <= |ss|
    requires Starts(ws, ss, b, d) && SeenByRetention(ws, ss, b, e, d)
    requires d in ws[e].clients && ws[e].clients[d].phase.Following?
    ensures var c := ws[e].clients[d];
            && After(ws[e].log, c.cursor) == After(ws[e].history, c.cursor)
            && ApplyPage(c.local, c.proto, policy, WireAll(c.proto, After(ws[e].log, c.cursor))) == ObserveAll(c.proto, ws[e].tables)
  {
    var w, c := ws[e], ws[e].clients[d];
    InvHolds(ws, ss, e);
    StaysTracked(ws, ss, b, e, d);
    GapFree(w, c.cursor);
    ReplayRepairsSnapshot(c.local, c.proto, policy, w.history, w.causes, Position(w.history, c.cursor));
  }

  /** A cursor the device may pull from: its own, or any at or above both its watermark and its acknowledgement. */
  ghost predicate MayPullFrom(w: World, d: Uuid, watermark: nat, cursor: int)
    requires d in w.clients
  {
    || cursor >= w.clients[d].cursor
    || (cursor >= watermark && (d in w.devices ==> cursor >= w.devices[d].ack))
  }

  /**
    Every pull of a device retention kept seeing is gap-free, however pruning falls around it: from
    its own cursor, and when it repeats a pull, from any cursor at or above its acknowledgement and
    the watermark it started from.
   */
  lemma {:induction false} PullsAreGapFree(ws: seq<World>, ss: seq<Step>, b: nat, e: nat, d: Uuid, cursor: int)
    requires Run(ws, ss) && b < e <= |ss|
    requires Starts(ws, ss, b, d) && SeenByRetention(ws, ss, b, e, d)
    ensures d in ws[e].clients && d in ws[b + 1].clients
    ensures MayPullFrom(ws[e], d, ws[b + 1].clients[d].cursor, cursor) ==> After(ws[e].log, cursor) == After(ws[e].history, cursor)
  {
    InvHolds(ws, ss, e);
    StaysTracked(ws, ss, b, e, d);
    StartsBelow(ws, ss, b, d);
    StaysBelow(ws, ss, b, e, d, ws[b + 1].clients[d].cursor);
    if MayPullFrom(ws[e], d, ws[b + 1].clients[d].cursor, cursor) {
      assert ws[e].floor <= Max(cursor, 0);
      GapFree(ws[e], cursor);
    }
  }

  // ---- Retention ----

  lemma {:induction false} AckStep(w: World, s: Step, w': World, d: Uuid)
    requires Next(w, s, w') && d in w.devices
    ensures d in w'.devices && w.devices[d].ack <= w'.devices[d].ack
  {
  }

  lemma {:induction false} AcksGrow(ws: seq<World>, ss: seq<Step>, i: nat, j: nat, d: Uuid)
    requires Run(ws, ss) && i <= j < |ws| && d in ws[i].devices
    ensures d in ws[j].devices && ws[i].devices[d].ack <= ws[j].devices[d].ack
    decreases j
  {
    if i < j {
      AcksGrow(ws, ss, i, j - 1, d);
      AckStep(ws[j - 1], ss[j - 1], ws[j], d);
    }
  }

  /**
    No floor planned while a device was active lies above what that device has acknowledged, then or
    later, so deleting below that floor at any later time removes no change the device may still need.
   */
  lemma {:induction false} RetentionSafety(ws: seq<World>, ss: seq<Step>, i: nat, j: nat, d: Uuid)
    requires Run(ws, ss) && i < |ss| && i <= j < |ws|
    requires ss[i].PlanPrune? && Active(ws[i].devices, d, ss[i].cutoff)
    ensures d in ws[j].devices && ss[i].min <= ws[j].devices[d].ack
    ensures forall c <- ws[j].log :: c !in Kept(ws[j].log, ss[i].min) ==> c.id < ws[j].devices[d].ack
  {
    assert Next(ws[i], ss[i], ws[i + 1]);
    AcksGrow(ws, ss, i, j, d);
    InvHolds(ws, ss, j);
    LogIncreasing(ws[j]);
    KeptIsFilter(ws[j].log, ss[i].min);
  }

  /**
    Watermark safety, in every reachable world: the newest change is never pruned, the log is
    exactly the history at or above the highest floor applied, and a watermark read now lies at or
    above every pruned change.
   */
  lemma {:induction false} WatermarkSafety(ws: seq<World>, ss: seq<Step>, i: nat)
    requires Run(ws, ss) && i < |ws|
    ensures LastId(ws[i].log) == LastId(ws[i].history)
    ensures forall c :: c in ws[i].log <==> c in ws[i].history && c.id >= ws[i].floor
    ensures forall c <- ws[i].history :: c !in ws[i].log ==> c.id < ws[i].floor <= LastId(ws[i].log)
  {
    InvHolds(ws, ss, i);
    NewestIsRetained(ws[i]);
    KeptIsFilter(ws[i].history, ws[i].floor);
  }

  /**
    No lost updates over whole runs, whatever retention has deleted: of all mutations that ever took
    effect, no two are equal, and no two on the same entity carry the same base version.
   */
  lemma {:induction false} NoMutationTakesEffectTwice(ws: seq<World>, ss: seq<Step>, e: nat, i: nat, j: nat)
    requires Run(ws, ss) && e < |ws| && i < j < |ws[e].history| == |ws[e].causes|
    ensures ws[e].causes[i] != ws[e].causes[j]
    ensures KeyOf(ws[e].causes[i]) == KeyOf(ws[e].causes[j]) ==> ws[e].causes[i].baseVersion < ws[e].causes[j].baseVersion
  {
    InvHolds(ws, ss, e);
    CausesDiffer(ws[e].history, ws[e].causes, i, j);
  }

  lemma {:induction false} CausesDiffer(h: seq<Change>, causes: seq<Mutation>, i: nat, j: nat)
    requires Legal(h, causes) && i < j < |h|
    ensures causes[i] != causes[j]
    ensures KeyOf(causes[i]) == KeyOf(causes[j]) ==> causes[i].baseVersion < causes[j].baseVersion
  {
    assert h[i].key == KeyOf(causes[i]) && h[j].key == KeyOf(causes[j]);
    if h[i].key == h[j].key {
      NoLostUpdates(h, causes, i, j);
    }
  }
}
