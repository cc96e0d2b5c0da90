/**
  Over whole runs: from which page boundary on a device holds a past state of the server, and from
  which its solves all have their sessions.
 */
module PageBoundaries {
  import opened Records
  import opened History
  import opened Paging
  import opened Replica
  import opened Replication
  import opened Convergence
  import opened References

  /** Everything stored so far is stock of the device. */
  ghost predicate StockedIn(w: World, d: Uuid) {
    d in w.clients && Stocked(w.clients[d], w.history, |w.history|)
  }

  ghost predicate SettledIn(w: World, d: Uuid, n: nat) {
    d in w.clients && Settled(w.clients[d], w.history, n)
  }

  lemma {:induction false} CommitKeepsPosition(w: World, s: Step, d: Uuid)
    requires Inv(w) && s.Commit? && Enabled(w, s) && d in w.clients
    ensures Position(w.history + s.news, w.clients[d].cursor) == Position(w.history, w.clients[d].cursor)
  {
    NewIdsPositive(w.history, w.causes + s.newCauses, s.news);
    PositionOfAppend(w.history, s.news, w.clients[d].cursor);
  }

  /** A pull of a tracked device applies a run of the history. */
  lemma {:induction false} PullIsPulled(w: World, d: Uuid, page: Page)
    requires Inv(w) && Tracked(w, d) && Enabled(w, Pull(d, page))
    ensures page.next >= 0 && Position(w.history, w.clients[d].cursor) <= Position(w.history, page.next)
    ensures Do(w, Pull(d, page)).clients[d] == Pulled(w.clients[d], w.history, page.next)
  {
    PullIsSlice(w, d, page);
  }

  // ---- Before the last snapshot page ----

  lemma {:induction false} StartStocks(w: World, s: Step, w': World)
    requires Inv(w) && Next(w, s, w') && (s.Bootstrap? || s.StartAtZero?)
    ensures StockedIn(w', s.d)
  {
    StockedAtFirst(w'.clients[s.d], w.history, w.causes);
  }

  lemma {:induction false} CollectStocks(w: World, s: Step, w': World)
    requires StoreInv(w) && Next(w, s, w') && s.Collect? && StockedIn(w, s.d)
    ensures StockedIn(w', s.d)
  {
    var c := w.clients[s.d];
    StockedCollect(c, w.history, w.causes, s.items, s.more);
    var c' := c.(local := ApplyItems(c.local, c.proto, c.phase, s.items), phase := NextPhase(c.phase, s.items, s.more));
    assert w'.history == w.history && w'.clients[s.d] == c';
  }

  lemma {:induction false} CommitStocks(w: World, s: Step, w': World, d: Uuid)
    requires Inv(w) && Next(w, s, w') && s.Commit? && StockedIn(w, d)
    ensures StockedIn(w', d)
  {
    CommitKeepsPosition(w, s, d);
    StockedAppend(w.clients[d], w.history, s.news, |w.history|, |w.history + s.news|);
  }

  lemma {:induction false} PullStocks(w: World, s: Step, w': World)
    requires Inv(w) && Next(w, s, w') && s.Pull? && Tracked(w, s.d) && StockedIn(w, s.d)
    ensures StockedIn(w', s.d)
  {
    PullIsPulled(w, s.d, s.page);
    StockedPull(w.clients[s.d], w.history, w.causes, |w.history|, |w.history|, s.page.next);
  }

  /** The step moves this device's client. */
  predicate Moves(s: Step, d: Uuid) {
    (s.Bootstrap? || s.StartAtZero? || s.Collect? || s.Pull?) && s.d == d
  }

  lemma {:induction false} OthersUntouched(w: World, s: Step, w': World, d: Uuid)
    requires Next(w, s, w') && d in w.clients && !s.Commit? && !Moves(s, d)
    ensures d in w'.clients && w'.clients[d] == w.clients[d] && w'.history == w.history
  {
  }

  lemma {:induction false} MoveStocks(w: World, s: Step, w': World, d: Uuid)
    requires Inv(w) && Tracked(w, d) && StockedIn(w, d) && Next(w, s, w') && Moves(s, d)
    ensures StockedIn(w', d)
  {
    if s.Collect? {
      CollectStocks(w, s, w');
    } else if s.Pull? {
      PullStocks(w, s, w');
    } else {
      StartStocks(w, s, w');
    }
  }

  lemma {:induction false} StockedStep(w: World, s: Step, w': World, d: Uuid)
    requires Inv(w) && Tracked(w, d) && StockedIn(w, d) && Next(w, s, w')
    ensures StockedIn(w', d)
  {
    if s.Commit? {
      CommitStocks(w, s, w', d);
    } else if Moves(s, d) {
      MoveStocks(w, s, w', d);
    } else {
      OthersUntouched(w, s, w', d);
    }
  }

  lemma {:induction false} StaysStocked(ws: seq<World>, ss: seq<Step>, b: nat, e: nat, d: Uuid)
    requires Run(ws, ss) && b < e <= |ss|
    requires Starts(ws, ss, b, d) && SeenByRetention(ws, ss, b, e, d)
    ensures StockedIn(ws[e], d)
    decreases e
  {
    InvHolds(ws, ss, e - 1);
    assert Next(ws[e - 1], ss[e - 1], ws[e]);
    if b == e - 1 {
      StartStocks(ws[b], ss[b], ws[e]);
    } else {
      StaysTracked(ws, ss, b, e - 1, d);
      StaysStocked(ws, ss, b, e - 1, d);
      StockedStep(ws[e - 1], ss[e - 1], ws[e], d);
    }
  }

  // ---- After the last snapshot page ----

  /**
    Since step `s` the device only follows the log: there it read its last snapshot page, or started
    at 0. It has been tracked since `b` and does not bootstrap again.
   */
  ghost predicate FollowsSince(ws: seq<World>, ss: seq<Step>, b: nat, s: nat, e: nat, d: Uuid)
    requires Run(ws, ss)
  {
    && b <= s < e <= |ss|
    && Starts(ws, ss, b, d) && SeenByRetention(ws, ss, b, e, d)
    && (if ss[s].StartAtZero? then s == b
        else ss[s].Collect? && ss[s].d == d && d in ws[s + 1].clients && ws[s + 1].clients[d].phase.Following?)
    && forall i :: s < i < e && ss[i].Bootstrap? ==> ss[i].d != d
  }

  /** How many changes there were when the device read its last snapshot page. */
  ghost function LastRead(ws: seq<World>, ss: seq<Step>, s: nat): nat
    requires s < |ws| && s < |ss|
  {
    if ss[s].StartAtZero? then 0 else |ws[s].history|
  }

  lemma {:induction false} CommitSettles(w: World, s: Step, w': World, d: Uuid, n: nat)
    requires Inv(w) && Next(w, s, w') && s.Commit? && SettledIn(w, d, n)
    ensures SettledIn(w', d, n)
  {
    CommitKeepsPosition(w, s, d);
    SettledAppend(w.clients[d], w.history, s.news, n);
  }

  lemma {:induction false} PullSettles(w: World, s: Step, w': World, n: nat)
    requires Inv(w) && Next(w, s, w') && s.Pull? && Tracked(w, s.d) && SettledIn(w, s.d, n)
    ensures SettledIn(w', s.d, n)
  {
    PullIsPulled(w, s.d, s.page);
    SettledPull(w.clients[s.d], w.history, w.causes, n, s.page.next);
  }

  /** A settled device that does not bootstrap again only ever pulls. */
  lemma {:induction false} OnlyPullsMove(w: World, s: Step, d: Uuid, n: nat)
    requires SettledIn(w, d, n) && Enabled(w, s) && Moves(s, d) && !s.Bootstrap?
    ensures s.Pull?
  {
  }

  lemma {:induction false} SettledStep(w: World, s: Step, w': World, d: Uuid, n: nat)
    requires Inv(w) && Tracked(w, d) && SettledIn(w, d, n) && Next(w, s, w')
    requires s.Bootstrap? ==> s.d != d
    ensures SettledIn(w', d, n)
  {
    if s.Commit? {
      CommitSettles(w, s, w', d, n);
    } else if Moves(s, d) {
      OnlyPullsMove(w, s, d, n);
      PullSettles(w, s, w', n);
    } else {
      OthersUntouched(w, s, w', d);
    }
  }

  /** The last snapshot page, or a start at 0, settles the device. */
  lemma {:induction false} LastPageSettles(ws: seq<World>, ss: seq<Step>, b: nat, s: nat, d: Uuid)
    requires Run(ws, ss) && FollowsSince(ws, ss, b, s, s + 1, d)
    ensures SettledIn(ws[s + 1], d, LastRead(ws, ss, s))
  {
    InvHolds(ws, ss, s);
    assert Next(ws[s], ss[s], ws[s + 1]);
    if ss[s].StartAtZero? {
      SettledAtZero(ws[s + 1].clients[d], ws[s].history, ws[s].causes);
    } else {
      StaysTracked(ws, ss, b, s + 1, d);
      StaysStocked(ws, ss, b, s + 1, d);
      SettledAtLastPage(ws[s + 1].clients[d], ws[s].history);
    }
  }

  lemma {:induction false} FollowedBefore(ws: seq<World>, ss: seq<Step>, b: nat, s: nat, e: nat, e': nat, d: Uuid)
    requires Run(ws, ss) && FollowsSince(ws, ss, b, s, e, d) && s < e' <= e
    ensures FollowsSince(ws, ss, b, s, e', d)
  {
  }

  lemma {:induction false} SettledNext(ws: seq<World>, ss: seq<Step>, b: nat, s: nat, e: nat, d: Uuid)
    requires Run(ws, ss) && FollowsSince(ws, ss, b, s, e + 1, d) && s < e && SettledIn(ws[e], d, LastRead(ws, ss, s))
    ensures SettledIn(ws[e + 1], d, LastRead(ws, ss, s))
  {
    InvHolds(ws, ss, e);
    StaysTracked(ws, ss, b, e, d);
    assert Next(ws[e], ss[e], ws[e + 1]);
    SettledStep(ws[e], ss[e], ws[e + 1], d, LastRead(ws, ss, s));
  }

  lemma {:induction false} StaysSettled(ws: seq<World>, ss: seq<Step>, b: nat, s: nat, e: nat, d: Uuid)
    requires Run(ws, ss) && FollowsSince(ws, ss, b, s, e, d)
    ensures SettledIn(ws[e], d, LastRead(ws, ss, s))
    decreases e
  {
    if e == s + 1 {
      LastPageSettles(ws, ss, b, s, d);
    } else {
      FollowedBefore(ws, ss, b, s, e, e - 1, d);
      StaysSettled(ws, ss, b, s, e - 1, d);
      SettledNext(ws, ss, b, s, e - 1, d);
    }
  }

  // ---- The page boundaries ----

  /** How many changes lie at or below the cursor of a device. */
  ghost function Reached(w: World, d: Uuid): nat
    requires d in w.clients
  {
    Position(w.history, w.clients[d].cursor)
  }

  /** From the newest change its last snapshot page could show on, the copy is a past state of the server. */
  lemma {:induction false} CopyIsPastState(ws: seq<World>, ss: seq<Step>, b: nat, s: nat, e: nat, d: Uuid)
    requires Run(ws, ss) && FollowsSince(ws, ss, b, s, e, d)
    ensures d in ws[e].clients
    ensures Reached(ws[e], d) >= LastRead(ws, ss, s) ==>
              ws[e].clients[d].local == ObserveAll(ws[e].clients[d].proto, TablesAt(ws[e].history, Reached(ws[e], d)))
  {
    StaysSettled(ws, ss, b, s, e, d);
    if Reached(ws[e], d) >= LastRead(ws, ss, s) {
      SettledIsAtPrefix(ws[e].clients[d], ws[e].history, LastRead(ws, ss, s));
    }
  }

  /** From one change earlier on, every solve the device knows has its session. */
  lemma {:induction false} PageBoundaryKeepsReferences(ws: seq<World>, ss: seq<Step>, b: nat, s: nat, e: nat, d: Uuid)
    requires Run(ws, ss) && FollowsSince(ws, ss, b, s, e, d)
    ensures d in ws[e].clients
    ensures Reached(ws[e], d) + 1 >= LastRead(ws, ss, s) ==> ReferencesIntact(ws[e].clients[d].local)
  {
    StaysSettled(ws, ss, b, s, e, d);
    InvHolds(ws, ss, e);
    if Reached(ws[e], d) + 1 >= LastRead(ws, ss, s) {
      SettledKeepsReferences(ws[e].clients[d], ws[e].history, ws[e].causes, LastRead(ws, ss, s));
    }
  }

  /** Along a run the history grows and a device that follows only moves its cursor up. */
  lemma {:induction false} CursorStep(w: World, s: Step, w': World, d: Uuid)
    requires Inv(w) && Next(w, s, w') && d in w.clients && (s.Bootstrap? ==> s.d != d)
    ensures d in w'.clients && w.clients[d].cursor <= w'.clients[d].cursor && w.history <= w'.history
  {
    if !s.Commit? && !Moves(s, d) {
      OthersUntouched(w, s, w', d);
    } else if s.Pull? {
      PullAdvances(w, d, s.page);
    }
  }

  lemma {:induction false} CursorsGrow(ws: seq<World>, ss: seq<Step>, i: nat, j: nat, d: Uuid)
    requires Run(ws, ss) && i <= j < |ws| && d in ws[i].clients
    requires forall k :: i <= k < j && ss[k].Bootstrap? ==> ss[k].d != d
    ensures d in ws[j].clients && ws[i].clients[d].cursor <= ws[j].clients[d].cursor && ws[i].history <= ws[j].history
    decreases j
  {
    if i < j {
      CursorsGrow(ws, ss, i, j - 1, d);
      InvHolds(ws, ss, j - 1);
      CursorStep(ws[j - 1], ss[j - 1], ws[j], d);
    }
  }

  /** What was once the whole history stays below a cursor that had reached its end. */
  lemma {:induction false} EndIsReached(h: seq<Change>, h': seq<Change>, n: nat, cursor: int)
    requires Increasing(h') && h <= h' && n <= |h| && cursor >= LastId(h)
    ensures Position(h', cursor) >= n
  {
    forall i | 0 <= i < n
      ensures h'[i].id <= cursor
    {
      assert h'[|h| - 1] == h[|h| - 1];
    }
  }

  /**
    A caller can tell: once the cursor is at or above the newest id in the log at the last snapshot
    page, in particular from the first pull on that reports no more, the copy is a past state of the
    server, and every solve in it has its session.
   */
  lemma {:induction false} CaughtUpIsPastState(ws: seq<World>, ss: seq<Step>, b: nat, s: nat, e: nat, d: Uuid)
    requires Run(ws, ss) && FollowsSince(ws, ss, b, s, e, d) && d in ws[e].clients
    requires || ss[s].StartAtZero?
             || ws[e].clients[d].cursor >= LastId(ws[s].log)
             || exists p :: s < p < e && ss[p].Pull? && ss[p].d == d && !ss[p].page.hasMore
    ensures AtPrefix(ws[e].clients[d], ws[e].history) && ReferencesIntact(ws[e].clients[d].local)
  {
    InvHolds(ws, ss, e);
    InvHolds(ws, ss, s);
    NewestIsRetained(ws[s]);
    LastPageSettles(ws, ss, b, s, d);
    CursorsGrow(ws, ss, s + 1, e, d);
    assert Next(ws[s], ss[s], ws[s + 1]) && ws[s].history <= ws[s + 1].history;
    if p :| s < p < e && ss[p].Pull? && ss[p].d == d && !ss[p].page.hasMore {
      FinalPullReaches(ws, ss, b, s, p, e, d);
    }
    if !ss[s].StartAtZero? && Reached(ws[e], d) < |ws[s].history| {
      EndIsReached(ws[s].history, ws[e].history, |ws[s].history|, ws[e].clients[d].cursor);
    }
    CopyIsPastState(ws, ss, b, s, e, d);
    PageBoundaryKeepsReferences(ws, ss, b, s, e, d);
  }

  lemma {:induction false} FinalPullReaches(ws: seq<World>, ss: seq<Step>, b: nat, s: nat, p: nat, e: nat, d: Uuid)
    requires Run(ws, ss) && FollowsSince(ws, ss, b, s, e, d) && d in ws[e].clients
    requires s < p < e && ss[p].Pull? && ss[p].d == d && !ss[p].page.hasMore
    ensures Reached(ws[e], d) >= |ws[s].history|
  {
    LastPageSettles(ws, ss, b, s, d);
    assert Next(ws[s], ss[s], ws[s + 1]) && ws[s].history <= ws[s + 1].history;
    CursorsGrow(ws, ss, s + 1, p, d);
    InvHolds(ws, ss, p);
    InvHolds(ws, ss, e);
    StaysTracked(ws, ss, b, p, d);
    assert Next(ws[p], ss[p], ws[p + 1]);
    PullTracks(ws[p], ss[p], ws[p + 1], d);
    CursorsGrow(ws, ss, p + 1, e, d);
    var h, h' := ws[p].history, ws[e].history;
    assert h <= h' && Increasing(h');
    PositionInLonger(h, h', ss[p].page.next, ws[e].clients[d].cursor);
  }

  /** A cursor past all of a history is past its changes in any longer one. */
  lemma {:induction false} PositionInLonger(h: seq<Change>, h': seq<Change>, cursor: int, cursor': int)
    requires h <= h' && Position(h, cursor) == |h| && cursor <= cursor'
    ensures Position(h', cursor') >= |h|
  {
    assert forall i :: 0 <= i < |h| ==> h'[i] == h[i];
  }
}
