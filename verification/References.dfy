/**
  What a device holds when it stops between two change pages. Once its cursor has reached the newest
  change its last snapshot page could show, the copy is a past state of the server; until then a
  solve page may be ahead of its session.
 */
module References {
  import opened Records
  import opened History
  import opened Paging
  import opened Snapshots
  import opened Replica
  import opened Convergence

  /** Every solve the device knows in full refers to a session it knows. */
  ghost predicate ReferencesIntact(local: Local) {
    forall k <- local :: local[k].Whole? && local[k].row.body.SolveBody? && local[k].row.body.sessionRef.Some?
                         ==> SessionKey(local[k].row.body.sessionRef.value) in local
  }

  /** Every local row was stored by one of the first `m` changes. */
  ghost predicate RowsFrom(local: Local, proto: int, h: seq<Change>, m: nat)
    requires m <= |h|
  {
    forall k <- local :: Stored(local[k], proto, h, m, k)
  }

  ghost predicate Stored(row: Replica.Seen, proto: int, h: seq<Change>, m: nat, k: Key)
    requires m <= |h|
  {
    exists i :: 0 <= i < m && h[i].key == k && row == Observe(proto, h[i].row)
  }

  /** The device knows every collected key of these tables. */
  ghost predicate NoneMissing(local: Local, phase: Phase, t: Tables) {
    forall k <- t :: Collected(phase, k) ==> k in local
  }

  /** The device's rows come from the first `m` changes, and it knows the keys up to its cursor. */
  ghost predicate Stocked(c: Client, h: seq<Change>, m: nat) {
    && m <= |h|
    && RowsFrom(c.local, c.proto, h, m)
    && NoneMissing(c.local, c.phase, TablesAt(h, Position(h, c.cursor)))
  }

  /**
    The device follows the log, and its last snapshot page was read when the history had `n` changes:
    it is faithful to the history cut at `n` or at its cursor, whichever is later.
   */
  ghost predicate Settled(c: Client, h: seq<Change>, n: nat) {
    var q := Position(h, c.cursor);
    && c.phase.Following? && n <= |h|
    && Faithful(c.local, c.proto, Following, h[..Max(n, q)], q)
    && Stocked(c, h, Max(n, q))
  }

  // ---- Keys and rows of a history ----

  lemma {:induction false} RowsAreStored(h: seq<Change>, k: Key)
    requires k in Replay(map[], h)
    ensures exists i :: 0 <= i < |h| && h[i].key == k && h[i].row == Replay(map[], h)[k]
    decreases |h|
  {
    var n := |h| - 1;
    if h[n].key != k {
      RowsAreStored(h[..n], k);
      var i :| 0 <= i < n && h[..n][i].key == k && h[..n][i].row == Replay(map[], h[..n])[k];
      assert h[i].key == k;
    }
  }

  lemma {:induction false} TouchedKeys(h: seq<Change>, n: nat, k: Key)
    requires n <= |h|
    ensures k in TablesAt(h, n) <==> exists i :: 0 <= i < n && h[i].key == k
  {
    ReplayAt(map[], h[..n], k);
    if Touched(h[..n], k) {
      var i :| 0 <= i < |h[..n]| && h[..n][i].key == k;
      assert h[i].key == k;
    }
    if i :| 0 <= i < n && h[i].key == k {
      assert h[..n][i].key == k;
    }
  }

  lemma {:induction false} RowsFromMore(local: Local, proto: int, h: seq<Change>, m: nat, h': seq<Change>, m': nat)
    requires m <= |h| && m <= m' <= |h'| && h[..m] == h'[..m] && RowsFrom(local, proto, h, m)
    ensures RowsFrom(local, proto, h', m')
  {
    forall k <- local
      ensures Stored(local[k], proto, h', m', k)
    {
      var i :| 0 <= i < m && h[i].key == k && local[k] == Observe(proto, h[i].row);
      assert h[..m][i] == h'[..m][i];
    }
  }

  // ---- The device applies a change page ----

  lemma {:induction false} StockApply(local: Local, proto: int, policy: Policy, h: seq<Change>, causes: seq<Mutation>, n: nat, m: nat)
    requires Legal(h, causes) && n < m <= |h|
    requires RowsFrom(local, proto, h, m) && NoneMissing(local, Following, TablesAt(h, n))
    ensures var local' := ApplyChange(local, proto, policy, WireOf(proto, h[n]));
            RowsFrom(local', proto, h, m) && NoneMissing(local', Following, TablesAt(h, n + 1))
  {
    var local' := ApplyChange(local, proto, policy, WireOf(proto, h[n]));
    assert Learn(proto, PayloadOf(proto, h[n])) == Observe(proto, h[n].row) by {
      HistoryIsGapless(h, causes, n);
    }
    forall k <- local'
      ensures Stored(local'[k], proto, h, m, k)
    {
      assert k in local ==> Stored(local[k], proto, h, m, k);
    }
    assert h[..n + 1] == h[..n] + [h[n]];
    ReplaySnoc(map[], h[..n], h[n]);
  }

  lemma {:induction false} StockPage(local: Local, proto: int, policy: Policy, h: seq<Change>, causes: seq<Mutation>, n: nat, q: nat, m: nat)
    requires Legal(h, causes) && n <= q <= m <= |h|
    requires RowsFrom(local, proto, h, m) && NoneMissing(local, Following, TablesAt(h, n))
    ensures var local' := ApplyPage(local, proto, policy, WireAll(proto, h[n..q]));
            RowsFrom(local', proto, h, m) && NoneMissing(local', Following, TablesAt(h, q))
    decreases q - n
  {
    if n < q {
      var ws := WireAll(proto, h[n..q]);
      StockApply(local, proto, policy, h, causes, n, m);
      StockPage(ApplyChange(local, proto, policy, WireOf(proto, h[n])), proto, policy, h, causes, n + 1, q, m);
      assert ws[0] == WireOf(proto, h[n]) && ws[1..] == WireAll(proto, h[n + 1..q]);
    }
  }

  /** A client after applying the changes up to the cursor `next`. */
  function Pulled(c: Client, h: seq<Change>, next: nat): Client
    requires Position(h, c.cursor) <= Position(h, next)
  {
    c.(local := ApplyPage(c.local, c.proto, c.policy, WireAll(c.proto, h[Position(h, c.cursor)..Position(h, next)])),
       cursor := next)
  }

  lemma {:induction false} StockedPull(c: Client, h: seq<Change>, causes: seq<Mutation>, m: nat, m': nat, next: nat)
    requires Legal(h, causes) && c.phase.Following? && Stocked(c, h, m)
    requires Position(h, c.cursor) <= Position(h, next) <= m' && m <= m' <= |h|
    ensures Stocked(Pulled(c, h, next), h, m')
  {
    RowsFromMore(c.local, c.proto, h, m, h, m');
    StockPage(c.local, c.proto, c.policy, h, causes, Position(h, c.cursor), Position(h, next), m');
  }

  lemma {:induction false} FaithfulToCut(local: Local, proto: int, h: seq<Change>, causes: seq<Mutation>, q: nat, m: nat, m': nat)
    requires Legal(h, causes) && q <= m <= m' <= |h| && Faithful(local, proto, Following, h[..m], q)
    ensures Faithful(local, proto, Following, h[..m'], q)
  {
    LegalPrefix(h, causes, m');
    assert h[..m'] == h[..m] + h[m..m'];
    FaithfulAppend(local, proto, Following, h[..m], causes[..m'], q, h[m..m']);
  }

  lemma {:induction false} FaithfulInCut(local: Local, proto: int, policy: Policy, h: seq<Change>, causes: seq<Mutation>,
                                         q: nat, q': nat, m: nat)
    requires Legal(h, causes) && q <= q' <= m <= |h| && Faithful(local, proto, Following, h[..m], q)
    ensures Faithful(ApplyPage(local, proto, policy, WireAll(proto, h[q..q'])), proto, Following, h[..m], q')
  {
    LegalPrefix(h, causes, m);
    FaithfulPage(local, proto, policy, Following, h[..m], causes[..m], q, q');
    assert h[..m][q..q'] == h[q..q'];
  }

  lemma {:induction false} SettledPull(c: Client, h: seq<Change>, causes: seq<Mutation>, n: nat, next: nat)
    requires Legal(h, causes) && Settled(c, h, n) && Position(h, c.cursor) <= Position(h, next)
    ensures Settled(Pulled(c, h, next), h, n)
  {
    var m, m' := Max(n, Position(h, c.cursor)), Max(n, Position(h, next));
    FaithfulToCut(c.local, c.proto, h, causes, Position(h, c.cursor), m, m');
    FaithfulInCut(c.local, c.proto, c.policy, h, causes, Position(h, c.cursor), Position(h, next), m');
    StockedPull(c, h, causes, m, m', next);
  }

  // ---- The server moves ----

  lemma {:induction false} StockedAppend(c: Client, h: seq<Change>, news: seq<Change>, m: nat, m': nat)
    requires Stocked(c, h, m) && m <= m' <= |h + news| && Position(h + news, c.cursor) == Position(h, c.cursor)
    ensures Stocked(c, h + news, m')
  {
    var q := Position(h, c.cursor);
    assert (h + news)[..q] == h[..q] && (h + news)[..m] == h[..m];
    RowsFromMore(c.local, c.proto, h, m, h + news, m');
  }

  lemma {:induction false} SettledAppend(c: Client, h: seq<Change>, news: seq<Change>, n: nat)
    requires Settled(c, h, n) && Position(h + news, c.cursor) == Position(h, c.cursor)
    ensures Settled(c, h + news, n)
  {
    var m := Max(n, Position(h, c.cursor));
    assert (h + news)[..m] == h[..m];
    StockedAppend(c, h, news, m, m);
  }

  // ---- The device collects a snapshot page ----

  lemma {:induction false} StockCollect(local: Local, proto: int, phase: Phase, h: seq<Change>, causes: seq<Mutation>, q: nat,
                                        items: seq<Item>, more: bool)
    requires Legal(h, causes) && q <= |h| && !phase.Following?
    requires RowsFrom(local, proto, h, |h|) && NoneMissing(local, phase, TablesAt(h, q))
    requires IsKeysetPage(TableOf(Replay(map[], h), phase), phase.after, items, more)
    ensures var local' := ApplyItems(local, proto, phase, items);
            RowsFrom(local', proto, h, |h|) && NoneMissing(local', NextPhase(phase, items, more), TablesAt(h, q))
  {
    var t := Replay(map[], h);
    var local' := ApplyItems(local, proto, phase, items);
    RunCovers(TableOf(t, phase), phase.after, items);
    assert ItemsFrom(t, phase, items);
    forall k <- local'
      ensures Stored(local'[k], proto, h, |h|, k)
    {
      ItemsAt(local, proto, phase, items, t, k);
      if OnPage(phase, items, k) {
        RowsAreStored(h, k);
      }
    }
    forall k <- TablesAt(h, q) | Collected(NextPhase(phase, items, more), k)
      ensures k in local'
    {
      TouchedKeys(h, q, k);
      TouchedKeys(h, |h|, k);
      assert h[..|h|] == h;
      CollectedKey(phase, h, causes, items, more, k);
      ItemsAt(local, proto, phase, items, t, k);
    }
  }

  lemma {:induction false} StockedCollect(c: Client, h: seq<Change>, causes: seq<Mutation>, items: seq<Item>, more: bool)
    requires Legal(h, causes) && !c.phase.Following? && Stocked(c, h, |h|)
    requires IsKeysetPage(TableOf(Replay(map[], h), c.phase), c.phase.after, items, more)
    ensures Stocked(c.(local := ApplyItems(c.local, c.proto, c.phase, items), phase := NextPhase(c.phase, items, more)), h, |h|)
  {
    StockCollect(c.local, c.proto, c.phase, h, causes, Position(h, c.cursor), items, more);
  }

  /** A device that has read nothing yet. */
  lemma {:induction false} StockedAtFirst(c: Client, h: seq<Change>, causes: seq<Mutation>)
    requires Legal(h, causes) && c.local == map[]
    requires c.phase == CollectSessions(NIL) || (c.phase.Following? && c.cursor == 0)
    ensures Stocked(c, h, |h|)
  {
    var q := Position(h, c.cursor);
    LegalPrefix(h, causes, q);
    LegalTables(h[..q], causes[..q]);
    if c.phase.Following? {
      PositionIsUnique(h, 0, 0);
    }
  }

  /** A device that starts at 0 has nothing from any snapshot. */
  lemma {:induction false} SettledAtZero(c: Client, h: seq<Change>, causes: seq<Mutation>)
    requires Legal(h, causes) && c.local == map[] && c.phase.Following? && c.cursor == 0
    ensures Settled(c, h, 0)
  {
    PositionIsUnique(h, 0, 0);
    NothingAppliedYet(c.proto, h[..0]);
  }

  /** The last snapshot page settles a device at the history it was read from. */
  lemma {:induction false} SettledAtLastPage(c: Client, h: seq<Change>)
    requires c.phase.Following? && FaithfulAt(c, h) && Stocked(c, h, |h|)
    ensures Settled(c, h, |h|)
  {
    assert h[..|h|] == h;
  }

  // ---- What a settled device holds ----

  /** The copy is exactly the server's tables as of the device's cursor. */
  ghost predicate AtPrefix(c: Client, h: seq<Change>) {
    c.local == ObserveAll(c.proto, TablesAt(h, Position(h, c.cursor)))
  }

  lemma {:induction false} SettledIsAtPrefix(c: Client, h: seq<Change>, n: nat)
    requires Settled(c, h, n) && n <= Position(h, c.cursor)
    ensures AtPrefix(c, h)
  {
    FaithfulAtEnd(c.local, c.proto, h[..Position(h, c.cursor)]);
  }

  /** One change behind its last snapshot page, a device already knows every session it refers to. */
  lemma {:induction false} SettledKeepsReferences(c: Client, h: seq<Change>, causes: seq<Mutation>, n: nat)
    requires Legal(h, causes) && Settled(c, h, n) && n <= Position(h, c.cursor) + 1
    ensures ReferencesIntact(c.local)
  {
    var q := Position(h, c.cursor);
    forall k <- c.local | c.local[k].Whole? && c.local[k].row.body.SolveBody? && c.local[k].row.body.sessionRef.Some?
      ensures SessionKey(c.local[k].row.body.sessionRef.value) in c.local
    {
      assert Stored(c.local[k], c.proto, h, Max(n, q), k);
      var i :| 0 <= i < Max(n, q) && h[i].key == k && c.local[k] == Observe(c.proto, h[i].row);
      SessionIsEarlier(h, causes, i, q);
    }
  }

  lemma {:induction false} SessionIsEarlier(h: seq<Change>, causes: seq<Mutation>, i: nat, q: nat)
    requires Legal(h, causes) && i < |h| && i <= q <= |h|
    requires h[i].row.body.SolveBody? && h[i].row.body.sessionRef.Some?
    ensures SessionKey(h[i].row.body.sessionRef.value) in TablesAt(h, q)
  {
    var session := SessionKey(h[i].row.body.sessionRef.value);
    HistoryIsGapless(h, causes, i);
    var j :| 0 <= j < |h[..i]| && h[..i][j].key == session;
    assert h[j].key == session;
    TouchedKeys(h, q, session);
  }
}
