/**
  Runs in which a snapshot is read while the server moves on. They show that the page boundaries of
  PageBoundaries are exact: before them a device can differ from every past state, and can know a
  solve whose session it does not know.
 */
module FuzzyRuns {
  import opened Records
  import opened Mutations
  import opened History
  import opened Paging
  import opened Snapshots
  import opened Replica
  import opened Replication
  import opened References
  import opened PageBoundaries
  import opened SmallRuns

  lemma {:induction false} UntouchedByPage(local: Local, proto: int, policy: Policy, s: seq<Change>, k: Key)
    requires forall i :: 0 <= i < |s| ==> s[i].key != k
    ensures var local' := ApplyPage(local, proto, policy, WireAll(proto, s));
            (k in local' <==> k in local) && (k in local ==> local'[k] == local[k])
    decreases |s|
  {
    if s != [] {
      assert WireAll(proto, s)[1..] == WireAll(proto, s[1..]);
      UntouchedByPage(ApplyChange(local, proto, policy, WireOf(proto, s[0])), proto, policy, s[1..], k);
    }
  }

  /** What a device has read after a page of sessions, a page of solves and the changes `s`. */
  function Gathered(proto: int, policy: Policy, sessions: seq<Item>, solves: seq<Item>, s: seq<Change>): Local {
    ApplyPage(ApplyItems(ApplyItems(map[], proto, CollectSessions(NIL), sessions), proto, CollectSolves(NIL), solves),
              proto, policy, WireAll(proto, s))
  }

  /** A server with this history, and device 5 with this copy and cursor. */
  ghost predicate Staged(w: World, h: seq<Change>, causes: seq<Mutation>, c: Client) {
    && w.tables == Replay(map[], h) && w.log == h && w.history == h && w.causes == causes && w.plans == {}
    && 5 in w.clients && w.clients[5] == c
  }

  /** The run ends in such a state. */
  ghost predicate EndsStaged(ws: seq<World>, ss: seq<Step>, h: seq<Change>, causes: seq<Mutation>, c: Client) {
    Run(ws, ss) && Staged(ws[|ws| - 1], h, causes, c)
  }

  lemma {:induction false} StartStaged(proto: int, policy: Policy) returns (ws: seq<World>, ss: seq<Step>)
    ensures EndsStaged(ws, ss, [], [], Client(map[], proto, policy, CollectSessions(NIL), 0))
    ensures ss == [Bootstrap(5, proto, policy)]
  {
    ws, ss := [World(map[], [], map[], [], [], {}, 0, map[])], [];
    ws, ss := Take(ws, ss, Bootstrap(5, proto, policy));
  }

  lemma {:induction false} CommitStaged(ws: seq<World>, ss: seq<Step>, h: seq<Change>, causes: seq<Mutation>, c: Client,
                                        news: seq<Change>, newCauses: seq<Mutation>)
    returns (ws': seq<World>, ss': seq<Step>)
    requires EndsStaged(ws, ss, h, causes, c) && Legal(h + news, causes + newCauses)
    ensures EndsStaged(ws', ss', h + news, causes + newCauses, c)
    ensures ss' == ss + [Commit(news, newCauses)]
  {
    ReplayConcat(map[], h, news);
    ws', ss' := Take(ws, ss, Commit(news, newCauses));
  }

  lemma {:induction false} CollectStaged(ws: seq<World>, ss: seq<Step>, h: seq<Change>, causes: seq<Mutation>, c: Client, items: seq<Item>)
    returns (ws': seq<World>, ss': seq<Step>)
    requires EndsStaged(ws, ss, h, causes, c) && !c.phase.Following?
    requires IsKeysetPage(TableOf(Replay(map[], h), c.phase), c.phase.after, items, false)
    ensures EndsStaged(ws', ss', h, causes, c.(local := ApplyItems(c.local, c.proto, c.phase, items), phase := NextPhase(c.phase, items, false)))
    ensures ss' == ss + [Collect(5, items, false)]
    ensures |ws'| == |ws| + 1 && ws'[|ws| - 1].history == h
  {
    ws', ss' := Take(ws, ss, Collect(5, items, false));
  }

  lemma {:induction false} PullStaged(ws: seq<World>, ss: seq<Step>, h: seq<Change>, causes: seq<Mutation>, c: Client, q: nat)
    returns (ws': seq<World>, ss': seq<Step>)
    requires EndsStaged(ws, ss, h, causes, c) && c.phase.Following? && c.cursor == 0
    requires Legal(h, causes) && 0 < q <= |h|
    ensures EndsStaged(ws', ss', h, causes,
                       c.(local := ApplyPage(c.local, c.proto, c.policy, WireAll(c.proto, h[..q])), cursor := h[q - 1].id))
    ensures |ws'| == |ws| + 1 && ws'[..|ws|] == ws && |ss'| == |ss| + 1 && ss'[..|ss|] == ss && ss'[|ss|].Pull?
    ensures Position(h, h[q - 1].id) == q
  {
    FirstChanges(h, causes, c.proto, q);
    ws', ss' := Take(ws, ss, Pull(5, Page(WireAll(c.proto, h[..q]), h[q - 1].id, q < |h|)));
  }

  lemma {:induction false} FirstChanges(h: seq<Change>, causes: seq<Mutation>, proto: int, q: nat)
    requires Legal(h, causes) && 0 < q <= |h|
    ensures Delivers(h, 0, proto, Page(WireAll(proto, h[..q]), h[q - 1].id, q < |h|)) && Position(h, h[q - 1].id) == q
  {
    PositionIsUnique(h, 0, 0);
    PositionIsUnique(h, h[q - 1].id, q);
    assert h[0..] == h;
  }

  /** The steps of a fuzzy run: bootstrap, write, read sessions, write, read solves, and perhaps pull. */
  predicate Scripted(ss: seq<Step>) {
    && |ss| >= 5 && ss[0].Bootstrap? && ss[0].d == 5 && ss[1].Commit? && ss[2].Collect? && ss[3].Commit?
    && ss[4].Collect? && ss[4].d == 5 && forall i :: 5 <= i < |ss| ==> ss[i].Pull?
  }

  lemma {:induction false} ScriptFollows(ws: seq<World>, ss: seq<Step>, n: nat)
    requires Run(ws, ss) && Scripted(ss) && |ws[4].history| == n
    requires 5 in ws[5].clients && ws[5].clients[5].phase.Following?
    ensures FollowsSince(ws, ss, 0, 4, |ss|, 5) && LastRead(ws, ss, 4) == n
  {
  }

  /** Device `d` read its last snapshot page after `n` changes and has now reached change `q`. */
  ghost predicate StandsAt(ws: seq<World>, ss: seq<Step>, s: nat, e: nat, d: Uuid, n: nat, q: nat)
    requires s < |ss| && e < |ws| && |ws| == |ss| + 1
  {
    LastRead(ws, ss, s) == n && d in ws[e].clients && Reached(ws[e], d) == q
  }

  // ---- A solve page ahead of its session ----

  /** Session 2 is created by change `id`. */
  function NewSession(id: nat): Change {
    Change(id, SessionKey(2), Upsert, Row(SessionBody("4x4"), 1, 0, None))
  }

  function NewSessionMutation(id: nat): Mutation {
    Mutation(id, SessionEntity, 2, Upsert, 0, Some(Input(2, SessionBody("4x4"), true)))
  }

  /** Solve 9, in session 2 if there is one, is created by change `id`. */
  function NewSolve(id: nat): Change {
    Change(id, SolveKey(9), Upsert, Row(SolveBody(if id > 1 then Some(2) else None, 12_340, "R U"), 1, 0, None))
  }

  function NewSolveMutation(id: nat): Mutation {
    Mutation(id, SolveEntity, 9, Upsert, 0, Some(Input(9, NewSolve(id).row.body, true)))
  }

  /** What lands between the two snapshot pages: change `n` is the solve, change `n - 1` its session. */
  function Late(n: nat): seq<Change>
    requires n > 0
  {
    if n == 1 then [NewSolve(1)] else [NewSession(n - 1), NewSolve(n)]
  }

  function LateMutations(n: nat): seq<Mutation>
    requires n > 0
  {
    if n == 1 then [NewSolveMutation(1)] else [NewSessionMutation(n - 1), NewSolveMutation(n)]
  }

  function Early(n: nat): nat {
    if n < 2 then 0 else n - 2
  }

  lemma {:induction false} SessionJustified(t: Tables, n: nat)
    requires n > 1 && SessionKey(2) !in t
    ensures Justifies(t, NewSessionMutation(n - 1), NewSession(n - 1))
  {
  }

  lemma {:induction false} SolveJustified(t: Tables, n: nat)
    requires n > 0 && SolveKey(9) !in t && (n > 1 ==> SessionKey(2) in t)
    ensures Justifies(t, NewSolveMutation(n), NewSolve(n))
  {
  }

  /** The history once the session, if there is one, is in. */
  function WithSession(n: nat): seq<Change>
    requires n > 0
  {
    if n == 1 then [] else Edits(n - 2) + [NewSession(n - 1)]
  }

  function WithSessionMutations(n: nat): seq<Mutation>
    requires n > 0
  {
    if n == 1 then [] else EditMutations(n - 2) + [NewSessionMutation(n - 1)]
  }

  lemma {:induction false} WithSessionIsLegal(n: nat)
    requires n > 0
    ensures Legal(WithSession(n), WithSessionMutations(n))
    ensures var t := Replay(map[], WithSession(n));
            && |WithSession(n)| == n - 1 && LastId(WithSession(n)) == n - 1
            && (forall k <- t :: k.SessionKey?) && (n > 1 ==> SessionKey(2) in t)
  {
    if n > 1 {
      EditsAreLegal(n - 2);
      SessionJustified(Replay(map[], Edits(n - 2)), n);
      LegalSnoc(Edits(n - 2), EditMutations(n - 2), NewSession(n - 1), NewSessionMutation(n - 1));
      OneSession(Edits(n - 2), NewSession(n - 1));
    }
  }

  lemma {:induction false} OneSession(h: seq<Change>, c: Change)
    requires c.key.SessionKey? && forall k <- Replay(map[], h) :: k.SessionKey?
    ensures c.key in Replay(map[], h + [c]) && forall k <- Replay(map[], h + [c]) :: k.SessionKey?
  {
    ReplaySnoc(map[], h, c);
  }

  lemma {:induction false} LateIsLegal(n: nat)
    requires n > 0
    ensures Legal(Edits(Early(n)) + Late(n), EditMutations(Early(n)) + LateMutations(n))
    ensures Edits(Early(n)) + Late(n) == WithSession(n) + [NewSolve(n)]
    ensures Replay(map[], Edits(Early(n)) + Late(n)) == Replay(map[], WithSession(n))[SolveKey(9) := NewSolve(n).row]
  {
    WithSessionIsLegal(n);
    assert Edits(Early(n)) + Late(n) == WithSession(n) + [NewSolve(n)];
    assert EditMutations(Early(n)) + LateMutations(n) == WithSessionMutations(n) + [NewSolveMutation(n)];
    SolveJustified(Replay(map[], WithSession(n)), n);
    LegalSnoc(WithSession(n), WithSessionMutations(n), NewSolve(n), NewSolveMutation(n));
    ReplaySnoc(map[], WithSession(n), NewSolve(n));
  }

  function EarlyPage(n: nat): seq<Item> {
    if Early(n) == 0 then [] else [Item(1, Edit(Early(n)).row)]
  }

  lemma {:induction false} EarlyPageIsPage(n: nat)
    ensures IsKeysetPage(TableOf(Replay(map[], Edits(Early(n))), CollectSessions(NIL)), NIL, EarlyPage(n), false)
  {
    EditsAreLegal(Early(n));
    var t := TableOf(Replay(map[], Edits(Early(n))), CollectSessions(NIL));
    if Early(n) == 0 {
      assert Beyond(t, NIL) == {};
    } else {
      assert t == map[1 := Edit(Early(n)).row];
      OnlyRow(t, 1, Edit(Early(n)).row);
    }
  }

  lemma {:induction false} OnlyRow(t: Table, id: Uuid, row: Row)
    requires id > NIL && t == map[id := row]
    ensures IsKeysetPage(t, NIL, [Item(id, row)], false)
  {
    assert IsKeysetRun(t, NIL, []);
    assert [Item(id, row)][..0] == [];
    assert IsNext(t, NIL, Item(id, row));
    assert Beyond(t, id) == {};
  }

  lemma {:induction false} LatePageIsPage(n: nat)
    requires n > 0
    ensures IsKeysetPage(TableOf(Replay(map[], Edits(Early(n)) + Late(n)), CollectSolves(NIL)), NIL, [Item(9, NewSolve(n).row)], false)
  {
    LateIsLegal(n);
    WithSessionIsLegal(n);
    OnlySolve(Replay(map[], WithSession(n)), NewSolve(n).row);
  }

  lemma {:induction false} OnlySolve(t: Tables, row: Row)
    requires forall k <- t :: k.SessionKey?
    ensures IsKeysetPage(TableOf(t[SolveKey(9) := row], CollectSolves(NIL)), NIL, [Item(9, row)], false)
  {
    assert TableOf(t[SolveKey(9) := row], CollectSolves(NIL)) == map[9 := row];
    OnlyRow(map[9 := row], 9, row);
  }

  lemma {:induction false} OneItem(local: Local, proto: int, phase: Phase, item: Item)
    ensures ApplyItems(local, proto, phase, [item]) == local[KeyIn(phase, item.id) := Observe(proto, item.row)]
  {
    assert [item][..0] == [];
  }

  lemma {:induction false} PagesRead(n: nat, proto: int, policy: Policy) returns (local: Local)
    requires n > 0
    ensures local == Gathered(proto, policy, EarlyPage(n), [Item(9, NewSolve(n).row)], [])
    ensures SolveKey(9) in local && local[SolveKey(9)] == Whole(NewSolve(n).row) && SessionKey(2) !in local
  {
    var first := ApplyItems(map[], proto, CollectSessions(NIL), EarlyPage(n));
    if Early(n) > 0 {
      OneItem(map[], proto, CollectSessions(NIL), Item(1, Edit(Early(n)).row));
    }
    OneItem(first, proto, CollectSolves(NIL), Item(9, NewSolve(n).row));
    local := first[SolveKey(9) := Whole(NewSolve(n).row)];
  }

  /** The first changes touch neither the solve nor, two changes back, its session. */
  lemma {:induction false} FirstChangesTouch(n: nat, q: nat)
    requires q < n
    ensures var h := Edits(Early(n)) + Late(n);
            && |h| == n
            && (forall i :: 0 <= i < q ==> h[i].key != SolveKey(9))
            && (q + 1 < n ==> forall i :: 0 <= i < q ==> h[i].key != SessionKey(2))
  {
  }

  /** The device knows solve 9 before its cursor has reached it, and two changes back without its session. */
  lemma {:induction false} Ahead(n: nat, q: nat, proto: int, policy: Policy, h: seq<Change>, local: Local)
    requires q < n && h == Edits(Early(n)) + Late(n)
    requires q <= |h| && local == Gathered(proto, policy, EarlyPage(n), [Item(9, NewSolve(n).row)], h[..q])
    ensures SolveKey(9) in local && local[SolveKey(9)] == Whole(NewSolve(n).row) && SolveKey(9) !in TablesAt(h, q)
    ensures q + 1 < n ==> SessionKey(2) !in local
  {
    var read := PagesRead(n, proto, policy);
    FirstChangesTouch(n, q);
    UntouchedByPage(read, proto, policy, h[..q], SolveKey(9));
    ReplayAt(map[], h[..q], SolveKey(9));
    if q + 1 < n {
      UntouchedByPage(read, proto, policy, h[..q], SessionKey(2));
    }
  }

  /** The history of the run, once the late changes are in, and its causes. */
  function Full(n: nat): seq<Change>
    requires n > 0
  {
    Edits(Early(n)) + Late(n)
  }

  function FullMutations(n: nat): seq<Mutation>
    requires n > 0
  {
    EditMutations(Early(n)) + LateMutations(n)
  }

  function AfterSessions(n: nat, proto: int, policy: Policy): Client {
    Client(ApplyItems(map[], proto, CollectSessions(NIL), EarlyPage(n)), proto, policy, CollectSolves(NIL), 0)
  }

  function AfterSolves(n: nat, proto: int, policy: Policy): Client
    requires n > 0
  {
    Client(Gathered(proto, policy, EarlyPage(n), [Item(9, NewSolve(n).row)], []), proto, policy, Following, 0)
  }

  lemma {:induction false} ReadSessions(n: nat, proto: int, policy: Policy) returns (ws: seq<World>, ss: seq<Step>)
    ensures EndsStaged(ws, ss, Edits(Early(n)), EditMutations(Early(n)), AfterSessions(n, proto, policy))
    ensures |ss| == 3 && ss[0].Bootstrap? && ss[0].d == 5 && ss[1].Commit? && ss[2].Collect?
  {
    var c := Client(map[], proto, policy, CollectSessions(NIL), 0);
    ws, ss := StartStaged(proto, policy);
    EditsAreLegal(Early(n));
    assert [] + Edits(Early(n)) == Edits(Early(n)) && [] + EditMutations(Early(n)) == EditMutations(Early(n));
    ws, ss := CommitStaged(ws, ss, [], [], c, Edits(Early(n)), EditMutations(Early(n)));
    EarlyPageIsPage(n);
    ws, ss := CollectStaged(ws, ss, Edits(Early(n)), EditMutations(Early(n)), c, EarlyPage(n));
  }

  lemma {:induction false} CommitLate(ws: seq<World>, ss: seq<Step>, n: nat, c: Client) returns (ws': seq<World>, ss': seq<Step>)
    requires n > 0 && EndsStaged(ws, ss, Edits(Early(n)), EditMutations(Early(n)), c)
    ensures EndsStaged(ws', ss', Full(n), FullMutations(n), c)
    ensures ss' == ss + [Commit(Late(n), LateMutations(n))]
  {
    LateIsLegal(n);
    ws', ss' := CommitStaged(ws, ss, Edits(Early(n)), EditMutations(Early(n)), c, Late(n), LateMutations(n));
  }

  lemma {:induction false} CollectLate(ws: seq<World>, ss: seq<Step>, n: nat, proto: int, policy: Policy)
    returns (ws': seq<World>, ss': seq<Step>)
    requires n > 0 && EndsStaged(ws, ss, Full(n), FullMutations(n), AfterSessions(n, proto, policy))
    ensures EndsStaged(ws', ss', Full(n), FullMutations(n), AfterSolves(n, proto, policy))
    ensures |ws'| == |ws| + 1 && ws'[|ws| - 1].history == Full(n)
    ensures ss' == ss + [Collect(5, [Item(9, NewSolve(n).row)], false)]
  {
    LatePageIsPage(n);
    ws', ss' := CollectStaged(ws, ss, Full(n), FullMutations(n), AfterSessions(n, proto, policy), [Item(9, NewSolve(n).row)]);
  }

  lemma {:induction false} ReadSolves(n: nat, proto: int, policy: Policy) returns (ws: seq<World>, ss: seq<Step>)
    requires n > 0
    ensures EndsStaged(ws, ss, Full(n), FullMutations(n), AfterSolves(n, proto, policy))
    ensures Scripted(ss) && |ss| == 5 && |ws| == 6 && ws[4].history == Full(n)
  {
    ws, ss := ReadSessions(n, proto, policy);
    ws, ss := CommitLate(ws, ss, n, AfterSessions(n, proto, policy));
    ws, ss := CollectLate(ws, ss, n, proto, policy);
  }

  /** The device once it has then pulled the first `q` changes. */
  function AfterPull(n: nat, q: nat, proto: int, policy: Policy): Client
    requires n > 0 && q <= |Full(n)|
  {
    Client(Gathered(proto, policy, EarlyPage(n), [Item(9, NewSolve(n).row)], Full(n)[..q]), proto, policy, Following,
           if q == 0 then 0 else Full(n)[q - 1].id)
  }

  lemma {:induction false} PullSome(ws: seq<World>, ss: seq<Step>, n: nat, q: nat, proto: int, policy: Policy)
    returns (ws': seq<World>, ss': seq<Step>)
    requires 0 < q < n && q <= |Full(n)| && EndsStaged(ws, ss, Full(n), FullMutations(n), AfterSolves(n, proto, policy))
    ensures EndsStaged(ws', ss', Full(n), FullMutations(n), AfterPull(n, q, proto, policy))
    ensures |ws'| == |ws| + 1 && ws'[..|ws|] == ws && |ss'| == |ss| + 1 && ss'[..|ss|] == ss && ss'[|ss|].Pull?
  {
    LateIsLegal(n);
    ws', ss' := PullStaged(ws, ss, Full(n), FullMutations(n), AfterSolves(n, proto, policy), q);
  }

  lemma {:induction false} PulledReaches(n: nat, q: nat, proto: int, policy: Policy)
    requires q < n && q <= |Full(n)|
    ensures Position(Full(n), AfterPull(n, q, proto, policy).cursor) == q
  {
    LateIsLegal(n);
    if q == 0 {
      PositionIsUnique(Full(n), 0, 0);
    } else {
      FirstChanges(Full(n), FullMutations(n), proto, q);
    }
  }

  lemma {:induction false} NothingPulled(n: nat, proto: int, policy: Policy)
    requires n > 0
    ensures AfterPull(n, 0, proto, policy) == AfterSolves(n, proto, policy)
  {
    assert Full(n)[..0] == [];
  }

  lemma {:induction false} PulledIsAhead(n: nat, q: nat, proto: int, policy: Policy)
    requires q < n && q <= |Full(n)|
    ensures !AtPrefix(AfterPull(n, q, proto, policy), Full(n))
    ensures q + 1 < n ==> !ReferencesIntact(AfterPull(n, q, proto, policy).local)
    ensures Position(Full(n), AfterPull(n, q, proto, policy).cursor) == q
  {
    var c := AfterPull(n, q, proto, policy);
    PulledReaches(n, q, proto, policy);
    Ahead(n, q, proto, policy, Full(n), c.local);
    SolveIsAhead(n, c, Full(n), q);
  }

  /** The run ends with the device at change `q`; so far it has only followed its script. */
  ghost predicate AheadAt(ws: seq<World>, ss: seq<Step>, n: nat, q: nat) {
    && Run(ws, ss) && |ss| > 4 && FollowsSince(ws, ss, 0, 4, |ss|, 5) && StandsAt(ws, ss, 4, |ss|, 5, n, q)
    && !AtPrefix(ws[|ss|].clients[5], ws[|ss|].history)
    && (q + 1 < n ==> !ReferencesIntact(ws[|ss|].clients[5].local))
  }

  lemma {:induction false} ScriptIsAhead(ws: seq<World>, ss: seq<Step>, n: nat, q: nat, c: Client)
    requires q < n && EndsStaged(ws, ss, Full(n), FullMutations(n), c)
    requires Run(ws, ss) && |ss| > 4 && FollowsSince(ws, ss, 0, 4, |ss|, 5) && LastRead(ws, ss, 4) == n
    requires Position(Full(n), c.cursor) == q && !AtPrefix(c, Full(n)) && (q + 1 < n ==> !ReferencesIntact(c.local))
    ensures AheadAt(ws, ss, n, q)
  {
    assert ws[|ss|].clients[5] == c && ws[|ss|].history == Full(n);
  }

  lemma {:induction false} AheadWithoutPull(n: nat, proto: int, policy: Policy) returns (ws: seq<World>, ss: seq<Step>)
    requires n > 0
    ensures AheadAt(ws, ss, n, 0)
  {
    ws, ss := ReadSolves(n, proto, policy);
    SolvesAreAhead(n, proto, policy);
    assert ws[5].clients[5] == AfterSolves(n, proto, policy);
    ScriptFollows(ws, ss, n);
    ScriptIsAhead(ws, ss, n, 0, AfterSolves(n, proto, policy));
  }

  lemma {:induction false} SolvesAreAhead(n: nat, proto: int, policy: Policy)
    requires n > 0
    ensures |Full(n)| == n
    ensures var c := AfterSolves(n, proto, policy);
            Position(Full(n), c.cursor) == 0 && !AtPrefix(c, Full(n)) && (1 < n ==> !ReferencesIntact(c.local))
  {
    FirstChangesTouch(n, 0);
    NothingPulled(n, proto, policy);
    PulledIsAhead(n, 0, proto, policy);
  }

  lemma {:induction false} AheadWithPull(n: nat, q: nat, proto: int, policy: Policy) returns (ws: seq<World>, ss: seq<Step>)
    requires 0 < q < n
    ensures AheadAt(ws, ss, n, q)
  {
    FirstChangesTouch(n, q);
    var ws0, ss0 := ReadSolves(n, proto, policy);
    ws, ss := PullSome(ws0, ss0, n, q, proto, policy);
    PulledScript(ws0, ss0, ws, ss, n);
    PulledIsAhead(n, q, proto, policy);
    ScriptIsAhead(ws, ss, n, q, AfterPull(n, q, proto, policy));
  }

  /** At every earlier change there is a run, for either protocol and policy, that stops there. */
  lemma {:induction false} AheadRun(n: nat, q: nat, proto: int, policy: Policy) returns (ws: seq<World>, ss: seq<Step>)
    requires q < n
    ensures AheadAt(ws, ss, n, q)
  {
    if q == 0 {
      ws, ss := AheadWithoutPull(n, proto, policy);
    } else {
      ws, ss := AheadWithPull(n, q, proto, policy);
    }
  }

  lemma {:induction false} PulledScript(ws0: seq<World>, ss0: seq<Step>, ws: seq<World>, ss: seq<Step>, n: nat)
    requires Run(ws, ss) && Scripted(ss0) && |ss0| == 5 && |ws0| == 6 && |ws0[4].history| == n
    requires 5 in ws0[5].clients && ws0[5].clients[5].phase.Following?
    requires |ws| >= |ws0| && ws[..|ws0|] == ws0
    requires |ss| >= |ss0| && ss[..|ss0|] == ss0 && forall i :: |ss0| <= i < |ss| ==> ss[i].Pull?
    ensures FollowsSince(ws, ss, 0, 4, |ss|, 5) && LastRead(ws, ss, 4) == n
  {
    assert forall i :: 0 <= i < 5 ==> ss[i] == ss0[i];
    assert ws[4] == ws0[4] && ws[5] == ws0[5];
    ScriptFollows(ws, ss, n);
  }

  lemma {:induction false} SolveIsAhead(n: nat, c: Client, h: seq<Change>, q: nat)
    requires q < n && q == Position(h, c.cursor)
    requires SolveKey(9) in c.local && c.local[SolveKey(9)] == Whole(NewSolve(n).row) && SolveKey(9) !in TablesAt(h, q)
    ensures !AtPrefix(c, h)
    ensures n > 1 && SessionKey(2) !in c.local ==> !ReferencesIntact(c.local)
  {
  }

  // ---- The exact boundaries ----

  /** Some device that read its last snapshot page after `n` changes and now stands at change `q` holds no past state. */
  ghost predicate CanDiffer(n: nat, q: nat) {
    exists ws: seq<World>, ss: seq<Step>, b: nat, s: nat, e: nat, d: Uuid ::
      Run(ws, ss) && FollowsSince(ws, ss, b, s, e, d) && StandsAt(ws, ss, s, e, d, n, q)
      && !AtPrefix(ws[e].clients[d], ws[e].history)
  }

  /** Some such device knows a solve without its session. */
  ghost predicate CanDangle(n: nat, q: nat) {
    exists ws: seq<World>, ss: seq<Step>, b: nat, s: nat, e: nat, d: Uuid ::
      Run(ws, ss) && FollowsSince(ws, ss, b, s, e, d) && StandsAt(ws, ss, s, e, d, n, q)
      && !ReferencesIntact(ws[e].clients[d].local)
  }

  /** A device can hold something other than a past state exactly before the change its last page was read at. */
  lemma {:induction false} CopyIsPastStateExactlyFrom(n: nat, q: nat)
    ensures CanDiffer(n, q) <==> q < n
  {
    if CanDiffer(n, q) {
      var ws: seq<World>, ss: seq<Step>, b: nat, s: nat, e: nat, d: Uuid :|
        Run(ws, ss) && FollowsSince(ws, ss, b, s, e, d) && StandsAt(ws, ss, s, e, d, n, q)
        && !AtPrefix(ws[e].clients[d], ws[e].history);
      CopyIsPastState(ws, ss, b, s, e, d);
    }
    if q < n {
      var ws, ss := AheadRun(n, q, 1, Overwrite);
      assert StandsAt(ws, ss, 4, |ss|, 5, n, q);
    }
  }

  /** A device can know a solve without its session exactly up to two changes before. */
  lemma {:induction false} ReferencesHoldExactlyFrom(n: nat, q: nat)
    ensures CanDangle(n, q) <==> q + 1 < n
  {
    if CanDangle(n, q) {
      var ws: seq<World>, ss: seq<Step>, b: nat, s: nat, e: nat, d: Uuid :|
        Run(ws, ss) && FollowsSince(ws, ss, b, s, e, d) && StandsAt(ws, ss, s, e, d, n, q)
        && !ReferencesIntact(ws[e].clients[d].local);
      PageBoundaryKeepsReferences(ws, ss, b, s, e, d);
    }
    if q + 1 < n {
      var ws, ss := AheadRun(n, q, 1, Overwrite);
      assert StandsAt(ws, ss, 4, |ss|, 5, n, q);
    }
  }
}
