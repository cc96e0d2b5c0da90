/** A device's local copy: collected by snapshot pages, kept current by change pages. */
module Replica {
  import opened Records
  import opened History
  import opened Paging
  import opened Snapshots

  /**
    What a device knows of a row. From protocol version 2 on, a tombstone is known only by its
    version and deletion time.
   */
  datatype Seen = Whole(row: Row) | Tombstone(version: int, deletedAt: Option<Time>)

  type Local = map<Key, Seen>

  /** Apply every change, or only those newer than the local version. */
  datatype Policy = Overwrite | NewerOnly

  datatype Phase = CollectSessions(after: Uuid) | CollectSolves(after: Uuid) | Following

  /** A device. While collecting, `cursor` is the watermark read at the start of the snapshot. */
  datatype Client = Client(local: Local, proto: int, policy: Policy, phase: Phase, cursor: nat)

  function Observe(proto: int, row: Row): Seen {
    if proto >= 2 && row.deletedAt.Some? then Tombstone(row.version, row.deletedAt) else Whole(row)
  }

  function ObserveAll(proto: int, t: Tables): Local {
    map k <- t :: Observe(proto, t[k])
  }

  function SeenVersion(s: Seen): int {
    match s
    case Whole(row) => row.version
    case Tombstone(version, _) => version
  }

  function Learn(proto: int, payload: Payload): Seen {
    match payload
    case FullPayload(row) => Observe(proto, row)
    case StubPayload(_, version, deletedAt) => Tombstone(version, deletedAt)
  }

  function ApplyChange(local: Local, proto: int, policy: Policy, w: WireChange): Local {
    if policy.NewerOnly? && w.key in local && SeenVersion(local[w.key]) >= w.version then local
    else local[w.key := Learn(proto, w.payload)]
  }

  function ApplyPage(local: Local, proto: int, policy: Policy, ws: seq<WireChange>): Local
    decreases |ws|
  {
    if ws == [] then local else ApplyPage(ApplyChange(local, proto, policy, ws[0]), proto, policy, ws[1..])
  }

  function TableOf(t: Tables, phase: Phase): Table {
    if phase.CollectSessions? then map k <- t | k.SessionKey? :: k.id := t[k]
    else map k <- t | k.SolveKey? :: k.id := t[k]
  }

  function KeyIn(phase: Phase, id: Uuid): Key {
    if phase.CollectSessions? then SessionKey(id) else SolveKey(id)
  }

  function ApplyItems(local: Local, proto: int, phase: Phase, items: seq<Item>): Local
    decreases |items|
  {
    if items == [] then local
    else ApplyItems(local, proto, phase, items[..|items| - 1])
         [KeyIn(phase, items[|items| - 1].id) := Observe(proto, items[|items| - 1].row)]
  }

  /** Where a snapshot goes after a page: on in the same table, to the solves, or to following. */
  function NextPhase(phase: Phase, items: seq<Item>, hasMore: bool): Phase
    requires !phase.Following?
  {
    if phase.CollectSessions? then
      if hasMore then CollectSessions(LastItemId(items, phase.after)) else CollectSolves(NIL)
    else
      if hasMore then CollectSolves(LastItemId(items, phase.after)) else Following
  }

  /** The part of the key space a device has read so far. */
  predicate Collected(phase: Phase, k: Key) {
    match phase
    case CollectSessions(after) => k.SessionKey? && k.id <= after
    case CollectSolves(after) => k.SessionKey? || k.id <= after
    case Following => true
  }

  /** A locally known row is the server's current one, or strictly older by version. */
  predicate NotAhead(local: Local, proto: int, t: Tables) {
    forall k <- local ::
      k in t && (SeenVersion(local[k]) < t[k].version || local[k] == Observe(proto, t[k]))
  }

  predicate SameAt(local: Local, proto: int, t: Tables, k: Key) {
    k in t ==> k in local && local[k] == Observe(proto, t[k])
  }

  /**
    The replica invariant. With the first `n` changes behind its cursor, a device is already right
    about every collected row that no later change touches.
   */
  ghost predicate Faithful(local: Local, proto: int, phase: Phase, h: seq<Change>, n: nat)
    requires n <= |h|
  {
    var t := Replay(map[], h);
    && NotAhead(local, proto, t)
    && forall k :: Collected(phase, k) && !Touched(h[n..], k) ==> SameAt(local, proto, t, k)
  }

  // ---- The server moves ----

  lemma {:induction false} FaithfulAppend(local: Local, proto: int, phase: Phase,
                                          h: seq<Change>, causes: seq<Mutation>, n: nat, news: seq<Change>)
    requires n <= |h| && Legal(h + news, causes) && Faithful(local, proto, phase, h, n)
    ensures Faithful(local, proto, phase, h + news, n)
    decreases |news|
  {
    if news == [] {
      assert h + news == h;
    } else {
      var h' := h + [news[0]];
      assert h + news == h' + news[1..] && (h' + news[1..])[..|h'|] == h';
      LegalPrefix(h + news, causes, |h'|);
      FaithfulSnoc(local, proto, phase, h, causes[..|h'|], n, news[0]);
      FaithfulAppend(local, proto, phase, h', causes, n, news[1..]);
    }
  }

  lemma {:induction false} FaithfulSnoc(local: Local, proto: int, phase: Phase,
                     h: seq<Change>, causes: seq<Mutation>, n: nat, last: Change)
    requires n <= |h| && Legal(h + [last], causes) && Faithful(local, proto, phase, h, n)
    ensures Faithful(local, proto, phase, h + [last], n)
  {
    var h' := h + [last];
    var t, t' := Replay(map[], h), Replay(map[], h');
    ReplaySnoc(map[], h, last);
    assert last.key in t ==> last.row.version > t[last.key].version by {
      assert h'[..|h|] == h;
      LegalPrefix(h', causes, |h|);
      LegalTables(h, causes[..|h|]);
      VersionIsCount(h', causes, |h|);
    }
    forall k | Collected(phase, k) && !Touched(h'[n..], k)
      ensures SameAt(local, proto, t', k)
    {
      assert h'[n..][|h| - n] == last;
      assert forall i :: 0 <= i < |h[n..]| ==> h[n..][i] == h'[n..][i];
      assert !Touched(h[n..], k);
    }
  }

  // ---- The device applies a change page ----

  /** Applying the next change of the history, by either policy, keeps the invariant one further on. */
  lemma {:induction false} FaithfulApply(local: Local, proto: int, policy: Policy, phase: Phase,
                      h: seq<Change>, causes: seq<Mutation>, n: nat)
    requires Legal(h, causes) && n < |h| && Faithful(local, proto, phase, h, n)
    ensures Faithful(ApplyChange(local, proto, policy, WireOf(proto, h[n])), proto, phase, h, n + 1)
  {
    var w, t := WireOf(proto, h[n]), Replay(map[], h);
    var local' := ApplyChange(local, proto, policy, w);
    HistoryIsGapless(h, causes, n);
    assert Learn(proto, w.payload) == Observe(proto, h[n].row);
    PastRow(h, causes, n);
    forall k | Collected(phase, k) && !Touched(h[n + 1..], k)
      ensures SameAt(local', proto, t, k)
    {
      if k == h[n].key {
        LastTouchWins(map[], h, n);
      } else {
        UntouchedFrom(h, n, k);
      }
    }
  }

  lemma {:induction false} UntouchedFrom(h: seq<Change>, n: nat, k: Key)
    requires n < |h| && k != h[n].key && !Touched(h[n + 1..], k)
    ensures !Touched(h[n..], k)
  {
    assert forall i :: 0 < i < |h[n..]| ==> h[n..][i] == h[n + 1..][i - 1];
  }

  lemma {:induction false} FaithfulPage(local: Local, proto: int, policy: Policy, phase: Phase,
                                        h: seq<Change>, causes: seq<Mutation>, n: nat, m: nat)
    requires Legal(h, causes) && n <= m <= |h| && Faithful(local, proto, phase, h, n)
    ensures Faithful(ApplyPage(local, proto, policy, WireAll(proto, h[n..m])), proto, phase, h, m)
    decreases m - n
  {
    if n < m {
      var ws := WireAll(proto, h[n..m]);
      FaithfulApply(local, proto, policy, phase, h, causes, n);
      FaithfulPage(ApplyChange(local, proto, policy, WireOf(proto, h[n])), proto, policy, phase, h, causes, n + 1, m);
      assert ws[0] == WireOf(proto, h[n]) && ws[1..] == WireAll(proto, h[n + 1..m]);
    }
  }

  /** With nothing left to apply, the copy equals the tables. */
  lemma {:induction false} FaithfulAtEnd(local: Local, proto: int, h: seq<Change>)
    requires Faithful(local, proto, Following, h, |h|)
    ensures local == ObserveAll(proto, Replay(map[], h))
  {
    var t := Replay(map[], h);
    forall k <- t
      ensures SameAt(local, proto, t, k)
    {
      assert !Touched(h[|h|..], k);
    }
  }

  /**
    A fuzzy snapshot is repaired by replay: over the collected pages, replaying every change after
    the watermark gives the current tables, and applying only newer changes gives the same.
   */
  lemma {:induction false} ReplayRepairsSnapshot(local: Local, proto: int, policy: Policy, h: seq<Change>, causes: seq<Mutation>, n: nat)
    requires Legal(h, causes) && n <= |h| && Faithful(local, proto, Following, h, n)
    ensures ApplyPage(local, proto, policy, WireAll(proto, h[n..])) == ObserveAll(proto, Replay(map[], h))
  {
    assert h[n..|h|] == h[n..];
    FaithfulPage(local, proto, policy, Following, h, causes, n, |h|);
    FaithfulAtEnd(ApplyPage(local, proto, policy, WireAll(proto, h[n..])), proto, h);
  }

  // ---- The device collects a snapshot page ----

  predicate OnPage(phase: Phase, items: seq<Item>, k: Key) {
    exists i :: 0 <= i < |items| && KeyIn(phase, items[i].id) == k
  }

  predicate ItemsFrom(t: Tables, phase: Phase, items: seq<Item>) {
    forall i :: 0 <= i < |items| ==> KeyIn(phase, items[i].id) in t && t[KeyIn(phase, items[i].id)] == items[i].row
  }

  lemma {:induction false} ItemsAt(local: Local, proto: int, phase: Phase, items: seq<Item>, t: Tables, k: Key)
    requires ItemsFrom(t, phase, items)
    ensures k in ApplyItems(local, proto, phase, items) <==> k in local || OnPage(phase, items, k)
    ensures OnPage(phase, items, k) ==> k in t
    ensures k in ApplyItems(local, proto, phase, items) ==>
              ApplyItems(local, proto, phase, items)[k]
              == if OnPage(phase, items, k) then Observe(proto, t[k]) else local[k]
    decreases |items|
  {
    if items != [] {
      var n := |items| - 1;
      ItemsAt(local, proto, phase, items[..n], t, k);
      assert forall i :: 0 <= i < n ==> items[..n][i] == items[i];
    }
  }

  /** Reading one more page, whatever was written since the last, keeps the invariant. */
  lemma {:induction false} FaithfulCollect(local: Local, proto: int, phase: Phase, h: seq<Change>, causes: seq<Mutation>, n: nat,
                        items: seq<Item>, hasMore: bool)
    requires Legal(h, causes) && n <= |h| && !phase.Following? && Faithful(local, proto, phase, h, n)
    requires IsKeysetPage(TableOf(Replay(map[], h), phase), phase.after, items, hasMore)
    ensures Faithful(ApplyItems(local, proto, phase, items), proto, NextPhase(phase, items, hasMore), h, n)
  {
    var t := Replay(map[], h);
    var local', phase' := ApplyItems(local, proto, phase, items), NextPhase(phase, items, hasMore);
    RunCovers(TableOf(t, phase), phase.after, items);
    assert ItemsFrom(t, phase, items);
    forall k ensures k in local' ==> k in t && (SeenVersion(local'[k]) < t[k].version || local'[k] == Observe(proto, t[k]))
    {
      ItemsAt(local, proto, phase, items, t, k);
    }
    forall k | Collected(phase', k) && !Touched(h[n..], k)
      ensures SameAt(local', proto, t, k)
    {
      if k in t {
        CollectedKey(phase, h, causes, items, hasMore, k);
        ItemsAt(local, proto, phase, items, t, k);
      }
    }
  }

  /** A key newly inside the collected range is on the page; an older one was collected before. */
  lemma {:induction false} CollectedKey(phase: Phase, h: seq<Change>, causes: seq<Mutation>, items: seq<Item>, hasMore: bool, k: Key)
    requires Legal(h, causes) && !phase.Following?
    requires IsKeysetPage(TableOf(Replay(map[], h), phase), phase.after, items, hasMore)
    requires k in Replay(map[], h) && Collected(NextPhase(phase, items, hasMore), k)
    ensures Collected(phase, k) || OnPage(phase, items, k)
  {
    LegalTables(h, causes);
    var table := TableOf(Replay(map[], h), phase);
    var last := LastItemId(items, phase.after);
    RunCovers(table, phase.after, items);
    if !Collected(phase, k) {
      assert k.id in table && k == KeyIn(phase, k.id);
      assert k.id > last ==> k.id in Beyond(table, last);
    }
  }
}
