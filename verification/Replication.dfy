/**
  The replication protocol as a state machine over one user's data: committed writes, device
  bookkeeping, retention in its two separate statements, snapshot pages and pulls, in any order.
 */
module Replication {
  import opened Records
  import opened History
  import opened Paging
  import opened Snapshots
  import opened Devices
  import opened Replica

  /**
    The tables, the retained log and the device table are what the server stores; `history` and
    `causes` record every change ever committed and the mutation behind it, `plans` every floor
    retention has read, `floor` the highest one it has applied.
   */
  datatype World = World(tables: Tables, log: seq<Change>, devices: DeviceTable,
                         history: seq<Change>, causes: seq<Mutation>,
                         plans: set<nat>, floor: nat, clients: map<Uuid, Client>)

  datatype Step =
    | Commit(news: seq<Change>, newCauses: seq<Mutation>)     // a mutation sync commits
    | Seen(d: Uuid, at: Time)                                 // a request upserts its device
    | Ack(d: Uuid, cursor: nat)                               // a request acknowledges its cursor
    | PlanPrune(cutoff: Time, min: nat)                       // retention reads the minimum cursor
    | Prune(target: nat)                                      // retention deletes below a minimum it read
    | Bootstrap(d: Uuid, proto: int, policy: Policy)          // first snapshot request: the watermark
    | StartAtZero(d: Uuid, proto: int, policy: Policy)        // a new device follows the log from 0
    | Collect(d: Uuid, items: seq<Item>, more: bool)          // a snapshot page
    | Pull(d: Uuid, page: Page)                               // a change page

  ghost predicate Enabled(w: World, s: Step) {
    match s
    case Commit(news, newCauses) => Legal(w.history + news, w.causes + newCauses)
    case Seen(_, _) => true
    case Ack(d, cursor) => d in w.clients && 0 < cursor <= w.clients[d].cursor
    case PlanPrune(cutoff, min) => IsMinAck(w.devices, cutoff, min)
    case Prune(target) => target in w.plans
    case Bootstrap(_, _, _) => true
    case StartAtZero(d, _, _) => d !in w.clients
    case Collect(d, items, more) =>
      && d in w.clients && !w.clients[d].phase.Following?
      && IsKeysetPage(TableOf(w.tables, w.clients[d].phase), w.clients[d].phase.after, items, more)
    case Pull(d, page) =>
      && d in w.clients && w.clients[d].phase.Following?
      && Delivers(w.log, w.clients[d].cursor, w.clients[d].proto, page)
  }

  /** Retention keeps the changes at or above its floor. */
  function Kept(log: seq<Change>, target: nat): seq<Change> {
    After(log, target - 1)
  }

  ghost function Do(w: World, s: Step): World
    requires Enabled(w, s)
  {
    match s
    case Commit(news, newCauses) =>
      w.(tables := Replay(w.tables, news), log := w.log + news,
         history := w.history + news, causes := w.causes + newCauses)
    case Seen(d, at) => w.(devices := Touch(w.devices, d, at))
    case Ack(d, cursor) => w.(devices := Acknowledge(w.devices, d, cursor))
    case PlanPrune(_, min) => if min > 0 then w.(plans := w.plans + {min}) else w
    case Prune(target) => w.(log := Kept(w.log, target), floor := Max(w.floor, target))
    case Bootstrap(d, proto, policy) =>
      w.(clients := w.clients[d := Client(map[], proto, policy, CollectSessions(NIL), LastId(w.log))])
    case StartAtZero(d, proto, policy) =>
      w.(clients := w.clients[d := Client(map[], proto, policy, Following, 0)])
    case Collect(d, items, more) =>
      var c := w.clients[d];
      w.(clients := w.clients[d := c.(local := ApplyItems(c.local, c.proto, c.phase, items),
                                      phase := NextPhase(c.phase, items, more))])
    case Pull(d, page) =>
      var c := w.clients[d];
      w.(clients := w.clients[d := c.(local := ApplyPage(c.local, c.proto, c.policy, page.changes),
                                      cursor := page.next)])
  }

  ghost predicate Next(w: World, s: Step, w': World) {
    Enabled(w, s) && w' == Do(w, s)
  }

  ghost predicate Init(w: World) {
    w == World(map[], [], map[], [], [], {}, 0, map[])
  }

  /** A run: a first world and one step between each two worlds. */
  ghost predicate Run(ws: seq<World>, ss: seq<Step>) {
    && |ws| == |ss| + 1
    && Init(ws[0])
    && forall i :: 0 <= i < |ss| ==> Next(ws[i], ss[i], ws[i + 1])
  }

  /** One more world on a run. */
  lemma {:induction false} ExtendRun(ws: seq<World>, ss: seq<Step>, s: Step)
    requires Run(ws, ss) && Enabled(ws[|ws| - 1], s)
    ensures Run(ws + [Do(ws[|ws| - 1], s)], ss + [s])
  {
  }

  // ---- The invariant of every reachable world ----

  /** The tables are the replay of a legal history. */
  ghost predicate StoreInv(w: World) {
    && Legal(w.history, w.causes)
    && w.tables == Replay(map[], w.history)
  }

  ghost predicate PlansOk(plans: set<nat>, newest: nat) {
    forall p <- plans :: 0 < p <= newest
  }

  /** The log is the history from the floor on; no floor ever passes the newest change. */
  ghost predicate LogInv(w: World) {
    && w.log == Kept(w.history, w.floor)
    && (w.floor == 0 || w.floor in w.plans)
    && PlansOk(w.plans, LastId(w.history))
  }

  /** An acknowledgement is a cursor its device has held, and cursors come from the history. */
  ghost predicate CursorInv(w: World) {
    && (forall d <- w.clients :: w.clients[d].cursor <= LastId(w.history))
    && (forall d <- w.devices :: w.devices[d].ack > 0 ==>
          d in w.clients && w.devices[d].ack <= w.clients[d].cursor)
  }

  ghost predicate Inv(w: World) {
    StoreInv(w) && LogInv(w) && CursorInv(w)
  }

  lemma {:induction false} LastIdGrows(h: seq<Change>, news: seq<Change>)
    requires Increasing(h + news)
    ensures LastId(h) <= LastId(h + news)
  {
    if h != [] && news != [] {
      assert (h + news)[|h| - 1].id < (h + news)[|h + news| - 1].id;
    }
  }

  /** Retention keeps exactly the changes at or above a floor, in particular the newest. */
  lemma {:induction false} KeptIsFilter(h: seq<Change>, target: nat)
    requires Increasing(h)
    ensures forall c :: c in Kept(h, target) <==> c in h && c.id >= target
    ensures target <= LastId(h) ==> LastId(Kept(h, target)) == LastId(h)
  {
    var p := Position(h, target - 1);
    var kept := h[p..];
    AboveCursor(h, target - 1);
    forall i | 0 <= i < |h| && h[i].id >= target
      ensures h[i] in kept
    {
      assert h[i] == kept[i - p];
    }
  }

  /** The greatest change ever committed is still in the log. */
  lemma {:induction false} NewestIsRetained(w: World)
    requires StoreInv(w) && LogInv(w)
    ensures LastId(w.log) == LastId(w.history)
  {
    KeptIsFilter(w.history, w.floor);
  }

  lemma {:induction false} PositionOfAppend(h: seq<Change>, news: seq<Change>, cursor: int)
    requires Increasing(h + news) && cursor <= LastId(h)
    requires forall i :: 0 <= i < |news| ==> news[i].id > 0
    ensures Position(h + news, cursor) == Position(h, cursor)
  {
    var p := Position(h, cursor);
    assert forall i :: 0 <= i < |h| ==> (h + news)[i] == h[i];
    assert Increasing(h);
    if news != [] {
      assert (h + news)[|h|] == news[0];
      assert h != [] ==> h[|h| - 1].id < news[0].id;
    }
    PositionIsUnique(h + news, cursor, p);
  }

  lemma {:induction false} StoreStep(w: World, s: Step, w': World)
    requires StoreInv(w) && Next(w, s, w')
    ensures StoreInv(w')
  {
    if s.Commit? {
      ReplayConcat(map[], w.history, s.news);
    }
  }

  lemma {:induction false} NewIdsPositive(h: seq<Change>, causes: seq<Mutation>, news: seq<Change>)
    requires Legal(h + news, causes)
    ensures Increasing(h + news)
    ensures forall i :: 0 <= i < |news| ==> news[i].id > 0
  {
    assert forall i :: 0 <= i < |news| ==> news[i] == (h + news)[|h| + i];
  }

  lemma {:induction false} KeptOfAppend(h: seq<Change>, news: seq<Change>, floor: nat)
    requires Increasing(h + news) && floor <= LastId(h)
    requires forall i :: 0 <= i < |news| ==> news[i].id > 0
    ensures Kept(h + news, floor) == Kept(h, floor) + news
  {
    PositionOfAppend(h, news, floor - 1);
  }

  lemma {:induction false} CommitLog(h: seq<Change>, causes: seq<Mutation>, news: seq<Change>, floor: nat)
    requires Legal(h + news, causes) && floor <= LastId(h)
    ensures Kept(h + news, floor) == Kept(h, floor) + news
    ensures LastId(h) <= LastId(h + news)
  {
    NewIdsPositive(h, causes, news);
    LastIdGrows(h, news);
    KeptOfAppend(h, news, floor);
  }

  lemma {:induction false} CommitStep(w: World, s: Step, w': World)
    requires Inv(w) && s.Commit? && Next(w, s, w')
    ensures LogInv(w') && CursorInv(w')
  {
    assert w.floor <= LastId(w.history);
    CommitLog(w.history, w'.causes, s.news, w.floor);
  }

  lemma {:induction false} PlanStep(w: World, s: Step, w': World)
    requires LogInv(w) && CursorInv(w) && s.PlanPrune? && Next(w, s, w')
    ensures LogInv(w') && CursorInv(w')
  {
    if s.min > 0 {
      MinBelowNewest(w, s.cutoff, s.min);
      AddPlan(w, s.min);
    }
  }

  lemma {:induction false} AddPlan(w: World, min: nat)
    requires LogInv(w) && 0 < min <= LastId(w.history)
    ensures LogInv(w.(plans := w.plans + {min}))
  {
    assert PlansOk(w.plans + {min}, LastId(w.history));
  }

  /** What an active device has acknowledged is not above the newest change. */
  lemma {:induction false} MinBelowNewest(w: World, cutoff: Time, min: nat)
    requires CursorInv(w) && IsMinAck(w.devices, cutoff, min) && min > 0
    ensures min <= LastId(w.history)
  {
    var d :| Active(w.devices, d, cutoff) && w.devices[d].ack == min;
    assert min <= w.clients[d].cursor;
  }

  lemma {:induction false} PruneStep(w: World, s: Step, w': World)
    requires Increasing(w.history) && LogInv(w) && CursorInv(w) && s.Prune? && Next(w, s, w')
    ensures LogInv(w') && CursorInv(w')
  {
    PruneLog(w, s.target);
    SameCursors(w, w');
  }

  lemma {:induction false} HistoryIncreasing(w: World)
    requires StoreInv(w)
    ensures Increasing(w.history)
  {
  }

  lemma {:induction false} SameCursors(w: World, w': World)
    requires CursorInv(w) && w'.devices == w.devices && w'.clients == w.clients && w'.history == w.history
    ensures CursorInv(w')
  {
  }

  /** Deleting below a floor that was read keeps the log a suffix of the history. */
  lemma {:induction false} PruneLog(w: World, target: nat)
    requires LogInv(w) && target in w.plans && Increasing(w.history)
    ensures LogInv(w.(log := Kept(w.log, target), floor := Max(w.floor, target)))
  {
    KeptKept(w.history, w.floor, target);
  }

  lemma {:induction false} KeptKept(h: seq<Change>, a: nat, b: nat)
    requires Increasing(h)
    ensures Kept(Kept(h, a), b) == Kept(h, Max(a, b))
  {
    AfterAfter(h, a - 1, b - 1);
  }

  lemma {:induction false} DeviceStep(w: World, s: Step, w': World)
    requires CursorInv(w) && (s.Seen? || s.Ack?) && Next(w, s, w')
    ensures CursorInv(w')
  {
  }

  lemma {:induction false} PullStep(w: World, s: Step, w': World)
    requires Inv(w) && s.Pull? && Next(w, s, w')
    ensures CursorInv(w')
  {
    PullAdvances(w, s.d, s.page);
    AdvanceCursor(w, s.d, w'.clients[s.d]);
  }

  lemma {:induction false} PullAdvances(w: World, d: Uuid, page: Page)
    requires Inv(w) && d in w.clients && Delivers(w.log, w.clients[d].cursor, w.clients[d].proto, page)
    ensures w.clients[d].cursor <= page.next <= LastId(w.history)
  {
    NewestIsRetained(w);
    LogIncreasing(w);
    PageStaysInLog(w.log, w.clients[d].cursor, w.clients[d].proto, page);
  }

  lemma {:induction false} AdvanceCursor(w: World, d: Uuid, c: Client)
    requires CursorInv(w) && d in w.clients && w.clients[d].cursor <= c.cursor <= LastId(w.history)
    ensures CursorInv(w.(clients := w.clients[d := c]))
  {
  }

  lemma {:induction false} BootstrapStep(w: World, s: Step, w': World)
    requires Inv(w) && s.Bootstrap? && Next(w, s, w')
    ensures CursorInv(w')
  {
    NewestIsRetained(w);
  }

  lemma {:induction false} StartStep(w: World, s: Step, w': World)
    requires CursorInv(w) && s.StartAtZero? && Next(w, s, w')
    ensures CursorInv(w')
  {
  }

  lemma {:induction false} LogIncreasing(w: World)
    requires StoreInv(w) && LogInv(w)
    ensures Increasing(w.log)
  {
    SuffixIncreasing(w.history, Position(w.history, w.floor - 1));
  }

  lemma {:induction false} PageStaysInLog(log: seq<Change>, cursor: int, proto: int, page: Page)
    requires Increasing(log) && Delivers(log, cursor, proto, page)
    ensures cursor <= page.next <= Max(cursor, LastId(log))
  {
    PageAdvances(log, cursor, proto, page);
    var p, n := Position(log, cursor), |page.changes|;
    if n > 0 {
      assert page.next == log[p + n - 1].id <= log[|log| - 1].id;
    }
  }

  lemma {:induction false} InvStep(w: World, s: Step, w': World)
    requires Inv(w) && Next(w, s, w')
    ensures Inv(w')
  {
    StoreStep(w, s, w');
    if s.Commit? {
      CommitStep(w, s, w');
    } else if s.PlanPrune? {
      PlanStep(w, s, w');
    } else if s.Prune? {
      HistoryIncreasing(w);
      PruneStep(w, s, w');
    } else {
      ClientSideStep(w, s, w');
    }
  }

  lemma {:induction false} SameLog(w: World, w': World)
    requires LogInv(w) && w'.log == w.log && w'.history == w.history && w'.plans == w.plans && w'.floor == w.floor
    ensures LogInv(w')
  {
  }

  /** Requests that write nothing but device rows and clients. */
  lemma {:induction false} ClientSideStep(w: World, s: Step, w': World)
    requires Inv(w) && Next(w, s, w') && !s.Commit? && !s.PlanPrune? && !s.Prune?
    ensures LogInv(w') && CursorInv(w')
  {
    SameLog(w, w');
    match s
    case Seen(_, _) => DeviceStep(w, s, w');
    case Ack(_, _) => DeviceStep(w, s, w');
    case Bootstrap(_, _, _) => BootstrapStep(w, s, w');
    case StartAtZero(_, _, _) => StartStep(w, s, w');
    case Collect(d, _, _) => AdvanceCursor(w, d, w'.clients[d]);
    case Pull(_, _) => PullStep(w, s, w');
  }

  lemma {:induction false} InitInv(w: World)
    requires Init(w)
    ensures Inv(w)
  {
  }

  /** Every world of every run satisfies the invariant. */
  lemma {:induction false} InvHolds(ws: seq<World>, ss: seq<Step>, i: nat)
    requires Run(ws, ss) && i < |ws|
    ensures Inv(ws[i])
  {
    if i == 0 {
      InitInv(ws[0]);
    } else {
      InvHolds(ws, ss, i - 1);
      InvStep(ws[i - 1], ss[i - 1], ws[i]);
    }
  }
}
