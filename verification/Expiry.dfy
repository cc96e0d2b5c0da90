/**
  The cursor expiry check against what retention has really pruned. The check compares a cursor
  with the minimum acknowledgement of the devices active now; it does not remember past floors.
 */
module Expiry {
  import opened Records
  import opened History
  import opened Paging
  import opened Devices
  import opened Replica
  import opened Replication
  import opened Convergence
  import opened SmallRuns

  /** A positive cursor passes the check although retained changes do not cover it. */
  predicate SlipsThrough(w: World, min: nat, cursor: int) {
    cursor > 0 && !Expired(cursor, min) && After(w.log, cursor) != After(w.history, cursor)
  }

  /** As long as the active minimum has not fallen below an applied floor, no gap slips through. */
  lemma {:induction false} NothingSlipsThrough(w: World, cutoff: Time, min: nat, cursor: int)
    requires Inv(w) && IsMinAck(w.devices, cutoff, min) && w.floor <= min
    ensures !SlipsThrough(w, min, cursor)
  {
    if cursor > 0 && !Expired(cursor, min) {
      GapFree(w, cursor);
    }
  }

  /**
    Exactly when the check is sound for every cursor: no pruned change lies above the least
    positive cursor it lets through.
   */
  lemma {:induction false} CheckIsSoundExactlyWhen(w: World, min: nat)
    requires Inv(w)
    ensures (forall cursor: int :: !SlipsThrough(w, min, cursor))
       <==> (forall c <- w.history :: c !in w.log ==> c.id <= Max(1, min))
  {
    if forall c <- w.history :: c !in w.log ==> c.id <= Max(1, min) {
      forall cursor: int
        ensures !SlipsThrough(w, min, cursor)
      {
        LogCovers(w, min, cursor);
      }
    } else {
      var c :| c in w.history && c !in w.log && c.id > Max(1, min);
      LogMisses(w, min, c);
    }
  }

  lemma {:induction false} LogCovers(w: World, min: nat, cursor: int)
    requires Inv(w) && forall c <- w.history :: c !in w.log ==> c.id <= Max(1, min)
    ensures !SlipsThrough(w, min, cursor)
  {
    KeptIsFilter(w.history, w.floor);
    if cursor > 0 && !Expired(cursor, min) {
      CoveredCursor(w.history, w.floor, cursor);
    }
  }

  lemma {:induction false} LogMisses(w: World, min: nat, c: Change)
    requires c in w.history && c !in w.log && c.id > Max(1, min)
    ensures SlipsThrough(w, min, Max(1, min))
  {
    LaterChangeListed(w.history, Max(1, min), c);
    assert c !in After(w.log, Max(1, min));
  }

  lemma {:induction false} LaterChangeListed(h: seq<Change>, cursor: int, c: Change)
    requires c in h && c.id > cursor
    ensures c in After(h, cursor)
  {
    var i :| 0 <= i < |h| && h[i] == c;
    assert After(h, cursor)[i - Position(h, cursor)] == c;
  }

  /** A cursor above every pruned change reads the same from the log as from the history. */
  lemma {:induction false} CoveredCursor(h: seq<Change>, floor: nat, cursor: int)
    requires Increasing(h)
    requires forall c <- h :: c.id < floor ==> c.id <= cursor
    ensures After(Kept(h, floor), cursor) == After(h, cursor)
  {
    AfterAfter(h, floor - 1, cursor);
    if cursor < floor - 1 {
      var q := Position(h, floor - 1);
      assert q > 0 ==> h[q - 1] in h;
      PositionIsUnique(h, cursor, q);
    }
  }

  // ---- A run in which a stale cursor passes ----

  lemma {:induction false} FirstCommit() returns (ws: seq<World>, ss: seq<Step>)
    ensures Run(ws, ss)
    ensures var w := ws[|ws| - 1];
            && w.history == w.log == Edits(1) && w.causes == EditMutations(1)
            && w.devices == map[] && w.plans == {} && w.floor == 0 && w.clients == map[]
  {
    ws, ss := [World(map[], [], map[], [], [], {}, 0, map[])], [];
    EditsAreLegal(1);
    assert [] + Edits(1) == Edits(1) && [] + EditMutations(1) == EditMutations(1);
    ws, ss := Take(ws, ss, Commit(Edits(1), EditMutations(1)));
  }

  /** Device 5 follows the log from 0 and receives the first change. */
  lemma {:induction false} FirstPull() returns (ws: seq<World>, ss: seq<Step>)
    ensures Run(ws, ss)
    ensures var w := ws[|ws| - 1];
            && w.history == w.log == Edits(1) && w.causes == EditMutations(1)
            && w.devices == map[5 := Device(1, 0)] && w.plans == {} && w.floor == 0
            && w.clients.Keys == {5} && w.clients[5].cursor == 1
  {
    ws, ss := FirstCommit();
    ws, ss := Take(ws, ss, StartAtZero(5, 1, Overwrite));
    ws, ss := Take(ws, ss, Seen(5, 1));
    var page := Page([WireOf(1, Edit(1))], 1, false);
    FirstPage(page);
    ws, ss := Take(ws, ss, Pull(5, page));
  }

  lemma {:induction false} FirstPage(page: Page)
    requires page == Page([WireOf(1, Edit(1))], 1, false)
    ensures Delivers(Edits(1), 0, 1, page)
  {
    assert Edits(1) == [Edit(1)];
    PositionIsUnique(Edits(1), 0, 0);
  }

  /** Two more changes; device 6 bootstraps and acknowledges the newest. */
  lemma {:induction false} SecondDevice() returns (ws: seq<World>, ss: seq<Step>)
    ensures Run(ws, ss)
    ensures var w := ws[|ws| - 1];
            && w.history == w.log == Edits(3) && w.plans == {} && w.floor == 0
            && w.devices == map[5 := Device(1, 0), 6 := Device(10, 3)]
            && 5 in w.clients && w.clients[5].cursor == 1
  {
    ws, ss := FirstPull();
    var news, causes := [Edit(2), Edit(3)], [EditMutation(2), EditMutation(3)];
    EditsAreLegal(3);
    assert Edits(1) + news == Edits(3) && EditMutations(1) + causes == EditMutations(3);
    ws, ss := Take(ws, ss, Commit(news, causes));
    ws, ss := Take(ws, ss, Bootstrap(6, 1, Overwrite));
    ws, ss := Take(ws, ss, Seen(6, 10));
    ws, ss := Take(ws, ss, Ack(6, 3));
  }

  /** Retention finds only device 6 active and prunes everything it has acknowledged but the newest. */
  lemma {:induction false} PrunedRun() returns (ws: seq<World>, ss: seq<Step>)
    ensures Run(ws, ss)
    ensures var w := ws[|ws| - 1];
            && w.history == Edits(3) && w.log == [Edit(3)]
            && w.devices == map[5 := Device(1, 0), 6 := Device(10, 3)]
            && 5 in w.clients && w.clients[5].cursor == 1
  {
    ws, ss := SecondDevice();
    assert Active(ws[|ws| - 1].devices, 6, 5);
    ws, ss := Take(ws, ss, PlanPrune(5, 3));
    ws, ss := Take(ws, ss, Prune(3));
    PositionIsUnique(Edits(3), 2, 2);
  }

  /**
    The check does not catch every pruned cursor: once a device that has acknowledged nothing
    joins, a device can be let through with a cursor whose next change is gone.
   */
  lemma {:induction false} StaleCursorCanPass() returns (ws: seq<World>, ss: seq<Step>)
    ensures Run(ws, ss)
    ensures var w := ws[|ws| - 1];
            && IsMinAck(w.devices, 5, 0)
            && 5 in w.clients && SlipsThrough(w, 0, w.clients[5].cursor)
  {
    ws, ss := PrunedRun();
    ws, ss := Take(ws, ss, Seen(7, 10));
    var w := ws[|ws| - 1];
    assert Active(w.devices, 7, 5);
    PositionIsUnique(Edits(3), 1, 1);
    assert w.history[1] == Edit(2) && After(w.history, 1)[0] == Edit(2);
    assert Position([Edit(3)], 1) == 0;
  }
}
