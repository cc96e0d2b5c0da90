/**
  The server statement by statement: many users, one global id sequence with gaps, aborts, and an
  advisory lock per user that a mutation transaction holds to its end. Everything else, from page
  reads to the two halves of a retention pass, runs between those statements, takes no lock and sees
  what is committed. This is what justifies treating a committed batch as one step elsewhere.
 */
module Transactions {
  import opened Records
  import opened Mutations
  import opened History
  import opened Paging
  import opened Replication

  /** An open transaction holding its user's lock: the changes it has written but not committed. */
  datatype Tx = Tx(user: Uuid, pending: seq<Change>, causes: seq<Mutation>)

  /** What is committed for every user, and what is open. */
  datatype System = System(users: map<Uuid, World>, open: map<nat, Tx>, nextId: nat)

  datatype Statement =
    | Begin(tx: nat, user: Uuid)                    // begin and acquire the advisory lock
    | Apply(tx: nat, m: Mutation, now: Time)        // judge one mutation, write and log it
    | BurnId                                        // the sequence skips a value
    | CommitTx(tx: nat)
    | AbortTx(tx: nat)
    | Serve(user: Uuid, step: Step)                 // a read, a device row or a retention statement

  function Committed(s: System, u: Uuid): World {
    if u in s.users then s.users[u] else World(map[], [], map[], [], [], {}, 0, map[])
  }

  /** A statement of a transaction reads what is committed now, overlaid with its own writes. */
  function View(s: System, tx: Tx): Tables {
    Replay(Committed(s, tx.user).tables, tx.pending)
  }

  /** The lock of `user` is free; distinct users may share a lock key. */
  ghost predicate LockFree(s: System, lockKey: Uuid -> int, user: Uuid) {
    forall t <- s.open :: lockKey(s.open[t].user) != lockKey(user)
  }

  /** The statement makes sense, locks aside. */
  ghost predicate Possible(s: System, st: Statement) {
    match st
    case Begin(tx, _) => tx !in s.open
    case BurnId => true
    case Apply(tx, _, _) => tx in s.open
    case CommitTx(tx) => tx in s.open
    case AbortTx(tx) => tx in s.open
    case Serve(user, step) => !step.Commit? && Enabled(Committed(s, user), step)
  }

  ghost predicate Allowed(s: System, lockKey: Uuid -> int, st: Statement) {
    Possible(s, st) && (st.Begin? ==> LockFree(s, lockKey, st.user))
  }

  /** The transaction after one more write, logged under the next id of the sequence. */
  function Written(s: System, tx: Tx, m: Mutation, op: Operation, row: Row): Tx {
    Tx(tx.user, tx.pending + [Change(s.nextId, KeyOf(m), op, row)], tx.causes + [m])
  }

  function ApplyIn(s: System, t: nat, m: Mutation, now: Time): System
    requires t in s.open
  {
    var tx := s.open[t];
    match Judge(View(s, tx), m, now, 1)
    case Write(op, row) => System(s.users, s.open[t := Written(s, tx, m, op, row)], s.nextId + 1)
    case _ => s
  }

  /** The writes of a transaction become visible together. */
  function Published(w: World, tx: Tx): World {
    w.(tables := Replay(w.tables, tx.pending), log := w.log + tx.pending,
       history := w.history + tx.pending, causes := w.causes + tx.causes)
  }

  function CommitIn(s: System, t: nat): System
    requires t in s.open
  {
    var tx := s.open[t];
    System(s.users[tx.user := Published(Committed(s, tx.user), tx)], s.open - {t}, s.nextId)
  }

  ghost function Execute(s: System, st: Statement): System
    requires Possible(s, st)
  {
    match st
    case Begin(tx, user) => s.(open := s.open[tx := Tx(user, [], [])])
    case Apply(tx, m, now) => ApplyIn(s, tx, m, now)
    case BurnId => s.(nextId := s.nextId + 1)
    case CommitTx(tx) => CommitIn(s, tx)
    case AbortTx(tx) => s.(open := s.open - {tx})
    case Serve(user, step) => s.(users := s.users[user := Do(Committed(s, user), step)])
  }

  /** Any interleaving of statements of any transactions and requests of any users, locks aside. */
  ghost predicate Interleaving(states: seq<System>, sts: seq<Statement>) {
    && |states| == |sts| + 1
    && states[0] == System(map[], map[], 1)
    && forall i :: 0 <= i < |sts| ==> Possible(states[i], sts[i]) && states[i + 1] == Execute(states[i], sts[i])
  }

  /** A schedule: an interleaving that respects the locks. */
  ghost predicate Schedule(lockKey: Uuid -> int, states: seq<System>, sts: seq<Statement>) {
    && Interleaving(states, sts)
    && forall i :: 0 <= i < |sts| ==> Allowed(states[i], lockKey, sts[i])
  }

  // ---- The invariant ----

  ghost predicate DataOk(w: World, nextId: nat) {
    StoreInv(w) && LastId(w.history) < nextId
  }

  /** What a transaction has written would extend its user's history legally, with fresh ids. */
  ghost predicate TxOk(w: World, tx: Tx, nextId: nat) {
    && Legal(w.history + tx.pending, w.causes + tx.causes)
    && LastId(w.history + tx.pending) < nextId
  }

  /** No two open transactions hold the same lock key. */
  ghost predicate Exclusive(s: System, lockKey: Uuid -> int) {
    forall t <- s.open, t' <- s.open :: t != t' ==> lockKey(s.open[t].user) != lockKey(s.open[t'].user)
  }

  ghost predicate SystemOk(s: System, lockKey: Uuid -> int) {
    && s.nextId > 0
    && Exclusive(s, lockKey)
    && (forall u <- s.users :: DataOk(s.users[u], s.nextId))
    && (forall t <- s.open :: TxOk(Committed(s, s.open[t].user), s.open[t], s.nextId))
  }

  lemma {:induction false} CommittedOk(s: System, lockKey: Uuid -> int, u: Uuid)
    requires SystemOk(s, lockKey)
    ensures DataOk(Committed(s, u), s.nextId)
  {
  }

  /** One more write: judged on the view, numbered by the sequence, it keeps the extension legal. */
  lemma {:induction false} WriteKeepsTx(w: World, tx: Tx, nextId: nat, m: Mutation, now: Time, op: Operation, row: Row)
    requires DataOk(w, nextId) && TxOk(w, tx, nextId)
    requires Judge(Replay(w.tables, tx.pending), m, now, 1) == Write(op, row)
    ensures TxOk(w, Tx(tx.user, tx.pending + [Change(nextId, KeyOf(m), op, row)], tx.causes + [m]), nextId + 1)
  {
    var h, causes := w.history + tx.pending, w.causes + tx.causes;
    var c := Change(nextId, KeyOf(m), op, row);
    var t := Replay(map[], h);
    ReplayConcat(map[], w.history, tx.pending);
    LegalTables(h, causes);
    WriteIsCompareAndSwap(t, m, now, 1, op, row);
    LegalSnoc(h, causes, c, m);
    assert w.history + (tx.pending + [c]) == h + [c];
    assert w.causes + (tx.causes + [m]) == causes + [m];
  }

  lemma {:induction false} WrittenOk(s: System, lockKey: Uuid -> int, t: nat, m: Mutation, now: Time, op: Operation, row: Row)
    requires SystemOk(s, lockKey) && t in s.open
    requires Judge(View(s, s.open[t]), m, now, 1) == Write(op, row)
    ensures TxOk(Committed(s, s.open[t].user), Written(s, s.open[t], m, op, row), s.nextId + 1)
  {
    var tx := s.open[t];
    CommittedOk(s, lockKey, tx.user);
    assert TxOk(Committed(s, tx.user), tx, s.nextId);
    WriteKeepsTx(Committed(s, tx.user), tx, s.nextId, m, now, op, row);
  }

  /** One statement on an open transaction: judge, write, log. */
  lemma {:induction false} ApplyKeeps(s: System, lockKey: Uuid -> int, t: nat, m: Mutation, now: Time)
    requires SystemOk(s, lockKey) && t in s.open
    ensures SystemOk(ApplyIn(s, t, m, now), lockKey)
  {
    var verdict := Judge(View(s, s.open[t]), m, now, 1);
    if verdict.Write? {
      WriteKeeps(s, lockKey, t, m, now, verdict.op, verdict.row);
    } else {
      assert ApplyIn(s, t, m, now) == s;
    }
  }

  lemma {:induction false} WriteKeeps(s: System, lockKey: Uuid -> int, t: nat, m: Mutation, now: Time, op: Operation, row: Row)
    requires SystemOk(s, lockKey) && t in s.open
    requires Judge(View(s, s.open[t]), m, now, 1) == Write(op, row)
    ensures SystemOk(System(s.users, s.open[t := Written(s, s.open[t], m, op, row)], s.nextId + 1), lockKey)
  {
    WrittenOk(s, lockKey, t, m, now, op, row);
    ReplaceTx(s, lockKey, t, Written(s, s.open[t], m, op, row));
  }

  /** Taking ids from the sequence invalidates nothing. */
  lemma {:induction false} BurnKeeps(s: System, lockKey: Uuid -> int, nextId: nat)
    requires SystemOk(s, lockKey) && s.nextId <= nextId
    ensures SystemOk(s.(nextId := nextId), lockKey)
  {
    forall u | u in s.users
      ensures DataOk(s.users[u], nextId)
    {
      assert DataOk(s.users[u], s.nextId);
    }
    forall t | t in s.open
      ensures TxOk(Committed(s, s.open[t].user), s.open[t], nextId)
    {
      assert TxOk(Committed(s, s.open[t].user), s.open[t], s.nextId);
    }
  }

  lemma {:induction false} ReplaceTx(s: System, lockKey: Uuid -> int, t: nat, tx: Tx)
    requires SystemOk(s, lockKey) && t in s.open && tx.user == s.open[t].user
    requires TxOk(Committed(s, tx.user), tx, s.nextId + 1)
    ensures SystemOk(System(s.users, s.open[t := tx], s.nextId + 1), lockKey)
  {
    BurnKeeps(s, lockKey, s.nextId + 1);
    PutTx(s.(nextId := s.nextId + 1), lockKey, t, tx);
  }

  lemma {:induction false} PutTx(s: System, lockKey: Uuid -> int, t: nat, tx: Tx)
    requires SystemOk(s, lockKey) && t in s.open && tx.user == s.open[t].user
    requires TxOk(Committed(s, tx.user), tx, s.nextId)
    ensures SystemOk(s.(open := s.open[t := tx]), lockKey)
  {
    var s' := s.(open := s.open[t := tx]);
    forall t' | t' in s'.open
      ensures TxOk(Committed(s', s'.open[t'].user), s'.open[t'], s.nextId)
    {
      assert t' != t ==> TxOk(Committed(s, s.open[t'].user), s.open[t'], s.nextId);
    }
  }

  lemma {:induction false} AbortKeeps(s: System, lockKey: Uuid -> int, t: nat)
    requires SystemOk(s, lockKey)
    ensures SystemOk(s.(open := s.open - {t}), lockKey)
  {
    var s' := s.(open := s.open - {t});
    forall t' | t' in s'.open
      ensures TxOk(Committed(s', s'.open[t'].user), s'.open[t'], s.nextId)
    {
      assert TxOk(Committed(s, s.open[t'].user), s.open[t'], s.nextId);
    }
  }

  lemma {:induction false} PublishedOk(w: World, tx: Tx, nextId: nat)
    requires DataOk(w, nextId) && TxOk(w, tx, nextId)
    ensures DataOk(Published(w, tx), nextId)
  {
    ReplayConcat(map[], w.history, tx.pending);
  }

  lemma {:induction false} CommitKeeps(s: System, lockKey: Uuid -> int, t: nat)
    requires SystemOk(s, lockKey) && t in s.open
    ensures SystemOk(CommitIn(s, t), lockKey)
  {
    var tx := s.open[t];
    CommittedOk(s, lockKey, tx.user);
    assert TxOk(Committed(s, tx.user), tx, s.nextId);
    PublishedOk(Committed(s, tx.user), tx, s.nextId);
    var s' := CommitIn(s, t);
    forall t' | t' in s'.open
      ensures TxOk(Committed(s', s'.open[t'].user), s'.open[t'], s.nextId)
    {
      assert TxOk(Committed(s, s.open[t'].user), s.open[t'], s.nextId);
      assert lockKey(s.open[t'].user) != lockKey(tx.user);
    }
  }

  lemma {:induction false} BeginKeeps(s: System, lockKey: Uuid -> int, t: nat, u: Uuid)
    requires SystemOk(s, lockKey) && t !in s.open && LockFree(s, lockKey, u)
    ensures SystemOk(s.(open := s.open[t := Tx(u, [], [])]), lockKey)
  {
    CommittedOk(s, lockKey, u);
    EmptyTxOk(Committed(s, u), u, s.nextId);
  }

  lemma {:induction false} EmptyTxOk(w: World, u: Uuid, nextId: nat)
    requires DataOk(w, nextId)
    ensures TxOk(w, Tx(u, [], []), nextId)
  {
    assert w.history + [] == w.history && w.causes + [] == w.causes;
  }

  /** No step but a commit changes the tables or the history. */
  lemma {:induction false} ServeLeavesData(w: World, step: Step)
    requires Enabled(w, step) && !step.Commit?
    ensures var w' := Do(w, step); w'.tables == w.tables && w'.history == w.history && w'.causes == w.causes
  {
  }

  lemma {:induction false} ServeKeeps(s: System, lockKey: Uuid -> int, u: Uuid, w': World)
    requires SystemOk(s, lockKey)
    requires var w := Committed(s, u); w'.tables == w.tables && w'.history == w.history && w'.causes == w.causes
    ensures SystemOk(s.(users := s.users[u := w']), lockKey)
  {
    var s' := s.(users := s.users[u := w']);
    CommittedOk(s, lockKey, u);
    SameDataOk(Committed(s, u), w', s.nextId);
    forall t | t in s'.open
      ensures TxOk(Committed(s', s'.open[t].user), s'.open[t], s.nextId)
    {
      assert TxOk(Committed(s, s.open[t].user), s.open[t], s.nextId);
    }
  }

  lemma {:induction false} SameDataOk(w: World, w': World, nextId: nat)
    requires DataOk(w, nextId) && w'.tables == w.tables && w'.history == w.history && w'.causes == w.causes
    ensures DataOk(w', nextId)
  {
  }

  lemma {:induction false} StatementKeeps(s: System, lockKey: Uuid -> int, st: Statement)
    requires SystemOk(s, lockKey) && Allowed(s, lockKey, st)
    ensures SystemOk(Execute(s, st), lockKey)
  {
    match st
    case Begin(t, u) => BeginKeeps(s, lockKey, t, u);
    case Apply(t, m, now) => ApplyKeeps(s, lockKey, t, m, now);
    case BurnId => BurnKeeps(s, lockKey, s.nextId + 1);
    case CommitTx(t) => CommitKeeps(s, lockKey, t);
    case AbortTx(t) => AbortKeeps(s, lockKey, t);
    case Serve(u, step) => ServeStepKeeps(s, lockKey, u, step);
  }

  lemma {:induction false} ServeStepKeeps(s: System, lockKey: Uuid -> int, u: Uuid, step: Step)
    requires SystemOk(s, lockKey) && Possible(s, Serve(u, step))
    ensures SystemOk(Execute(s, Serve(u, step)), lockKey)
  {
    ServeLeavesData(Committed(s, u), step);
    ServeKeeps(s, lockKey, u, Do(Committed(s, u), step));
  }

  /** In every schedule, every user's committed tables are the replay of a legal history. */
  lemma {:induction false} ScheduleKeeps(lockKey: Uuid -> int, states: seq<System>, sts: seq<Statement>, i: nat)
    requires Schedule(lockKey, states, sts) && i < |states|
    ensures SystemOk(states[i], lockKey)
  {
    if i > 0 {
      ScheduleKeeps(lockKey, states, sts, i - 1);
      StatementKeeps(states[i - 1], lockKey, sts[i - 1]);
    }
  }

  // ---- One user's view of a statement ----

  /** The protocol step a statement is for user `u`, if it changes anything committed for `u`. */
  ghost function StepFor(s: System, st: Statement, u: Uuid): Option<Step>
    requires Possible(s, st)
  {
    match st
    case CommitTx(t) => if s.open[t].user == u then Some(Commit(s.open[t].pending, s.open[t].causes)) else None
    case Serve(user, step) => if user == u then Some(step) else None
    case _ => None
  }

  /** A commit publishes a transaction as one enabled commit step of its user. */
  lemma {:induction false} CommitRefines(s: System, lockKey: Uuid -> int, t: nat)
    requires SystemOk(s, lockKey) && t in s.open
    ensures var w := Committed(s, s.open[t].user);
            Next(w, Commit(s.open[t].pending, s.open[t].causes), Committed(CommitIn(s, t), s.open[t].user))
    ensures forall u :: u != s.open[t].user ==> Committed(CommitIn(s, t), u) == Committed(s, u)
  {
    assert TxOk(Committed(s, s.open[t].user), s.open[t], s.nextId);
  }

  /** Of all statements only the user's own commits and requests show, each as one step of the protocol. */
  lemma {:induction false} StatementRefines(s: System, lockKey: Uuid -> int, st: Statement, u: Uuid)
    requires SystemOk(s, lockKey) && Possible(s, st)
    ensures StepFor(s, st, u).None? ==> Committed(Execute(s, st), u) == Committed(s, u)
    ensures StepFor(s, st, u).Some? ==> Next(Committed(s, u), StepFor(s, st, u).value, Committed(Execute(s, st), u))
  {
    if st.CommitTx? {
      CommitRefines(s, lockKey, st.tx);
    }
  }

  /**
    Seen from one user, every schedule is a run of the replication protocol: commits, device rows,
    retention, snapshot pages and pulls, in the order of their statements.
   */
  lemma {:induction false} ScheduleRefines(lockKey: Uuid -> int, states: seq<System>, sts: seq<Statement>, i: nat, u: Uuid)
    returns (ws: seq<World>, ss: seq<Step>)
    requires Schedule(lockKey, states, sts) && i < |states|
    ensures Run(ws, ss) && ws[|ws| - 1] == Committed(states[i], u)
    decreases i
  {
    if i == 0 {
      ws, ss := [World(map[], [], map[], [], [], {}, 0, map[])], [];
    } else {
      ws, ss := ScheduleRefines(lockKey, states, sts, i - 1, u);
      ScheduleKeeps(lockKey, states, sts, i - 1);
      StatementRefines(states[i - 1], lockKey, sts[i - 1], u);
      var step := StepFor(states[i - 1], sts[i - 1], u);
      if step.Some? {
        ExtendRun(ws, ss, step.value);
        ws, ss := ws + [Do(ws[|ws| - 1], step.value)], ss + [step.value];
      }
    }
  }

  /** So the invariant of the protocol holds of what is committed for every user at every moment. */
  lemma {:induction false} CommittedInv(lockKey: Uuid -> int, states: seq<System>, sts: seq<Statement>, i: nat, u: Uuid)
    requires Schedule(lockKey, states, sts) && i < |states|
    ensures Inv(Committed(states[i], u))
  {
    var ws, ss := ScheduleRefines(lockKey, states, sts, i, u);
    InvHolds(ws, ss, |ws| - 1);
  }

  // ---- Commit order ----

  lemma {:induction false} StatementExtends(s: System, st: Statement, u: Uuid)
    requires Possible(s, st)
    ensures Committed(s, u).history <= Committed(Execute(s, st), u).history
    ensures Committed(s, u).floor <= Committed(Execute(s, st), u).floor
  {
    if st.Serve? {
      ServeLeavesData(Committed(s, st.user), st.step);
    }
  }

  lemma {:induction false} HistoryOnlyGrows(lockKey: Uuid -> int, states: seq<System>, sts: seq<Statement>, i: nat, j: nat, u: Uuid)
    requires Schedule(lockKey, states, sts) && i <= j < |states|
    ensures Committed(states[i], u).history <= Committed(states[j], u).history
    ensures Committed(states[i], u).floor <= Committed(states[j], u).floor
    decreases j
  {
    if i < j {
      HistoryOnlyGrows(lockKey, states, sts, i, j - 1, u);
      ExtendsNext(lockKey, states, sts, j - 1, u);
    }
  }

  lemma {:induction false} ExtendsNext(lockKey: Uuid -> int, states: seq<System>, sts: seq<Statement>, i: nat, u: Uuid)
    requires Schedule(lockKey, states, sts) && i < |sts|
    ensures Committed(states[i], u).history <= Committed(states[i + 1], u).history
    ensures Committed(states[i], u).floor <= Committed(states[i + 1], u).floor
  {
    StatementExtends(states[i], sts[i], u);
  }

  /**
    Commit order is id order: once a reader has seen a change of a user, no change of that user
    with a smaller id ever becomes visible, under any interleaving, with aborts, gaps in the
    global sequence and colliding lock keys.
   */
  lemma {:induction false} CommitOrderIsIdOrder(lockKey: Uuid -> int, states: seq<System>, sts: seq<Statement>,
                                                i: nat, j: nat, u: Uuid, seen: Change, later: Change)
    requires Schedule(lockKey, states, sts) && i <= j < |states|
    requires seen in Committed(states[i], u).history
    requires later in Committed(states[j], u).history && later !in Committed(states[i], u).history
    ensures seen.id < later.id
  {
    HistoryOnlyGrows(lockKey, states, sts, i, j, u);
    ScheduleKeeps(lockKey, states, sts, j);
    CommittedOk(states[j], lockKey, u);
    LaterIsGreater(Committed(states[i], u).history, Committed(states[j], u).history, seen, later);
  }

  lemma {:induction false} LaterIsGreater(h: seq<Change>, h': seq<Change>, seen: Change, later: Change)
    requires h <= h' && Increasing(h') && seen in h && later in h' && later !in h
    ensures seen.id < later.id
  {
    var a :| 0 <= a < |h| && h[a] == seen;
    var b :| 0 <= b < |h'| && h'[b] == later;
    assert h'[a] == seen;
    assert forall i :: 0 <= i < |h| ==> h'[i] in h;
  }

  // ---- A page read inside the transaction ----

  /** From state `i` to state `j` transaction `t` is open and writes nothing more. */
  ghost predicate Holds(states: seq<System>, t: nat, tx: Tx, i: nat, j: nat)
    requires i <= j < |states|
  {
    forall k :: i <= k <= j ==> t in states[k].open && states[k].open[t] == tx
  }

  /** While a transaction is open no other one of its user commits. */
  lemma {:induction false} HeldStill(s: System, lockKey: Uuid -> int, st: Statement, t: nat, u: Uuid)
    requires Exclusive(s, lockKey) && Possible(s, st)
    requires t in s.open && s.open[t].user == u && t in Execute(s, st).open
    ensures Committed(Execute(s, st), u).history == Committed(s, u).history
  {
    if st.Serve? {
      ServeLeavesData(Committed(s, st.user), st.step);
    } else if st.CommitTx? {
      assert lockKey(s.open[st.tx].user) != lockKey(u);
    }
  }

  lemma {:induction false} HeldNext(lockKey: Uuid -> int, states: seq<System>, sts: seq<Statement>, i: nat, t: nat, u: Uuid)
    requires Schedule(lockKey, states, sts) && i < |sts|
    requires t in states[i].open && states[i].open[t].user == u && t in states[i + 1].open
    ensures Committed(states[i + 1], u).history == Committed(states[i], u).history
  {
    ScheduleKeeps(lockKey, states, sts, i);
    HeldStill(states[i], lockKey, sts[i], t, u);
  }

  lemma {:induction false} HeldHistory(lockKey: Uuid -> int, states: seq<System>, sts: seq<Statement>, t: nat, tx: Tx, i: nat, j: nat)
    requires Schedule(lockKey, states, sts) && i <= j < |states| && Holds(states, t, tx, i, j)
    ensures Committed(states[j], tx.user).history == Committed(states[i], tx.user).history
    decreases j
  {
    if i < j {
      HeldHistory(lockKey, states, sts, t, tx, i, j - 1);
      HeldNext(lockKey, states, sts, j - 1, t, tx.user);
    }
  }

  lemma {:induction false} OpenOk(lockKey: Uuid -> int, states: seq<System>, sts: seq<Statement>, i: nat, t: nat)
    requires Schedule(lockKey, states, sts) && i < |states| && t in states[i].open
    ensures TxOk(Committed(states[i], states[i].open[t].user), states[i].open[t], states[i].nextId)
  {
    ScheduleKeeps(lockKey, states, sts, i);
  }

  /** Log and own writes, read from a cursor at or above the floor, are the history and own writes. */
  lemma {:induction false} OwnReadIsComplete(w: World, news: seq<Change>, causes: seq<Mutation>, cursor: int)
    requires LogInv(w) && w.floor <= LastId(w.history) && Legal(w.history + news, causes) && cursor >= w.floor - 1
    ensures After(w.log + news, cursor) == After(w.history + news, cursor)
  {
    CommitLog(w.history, causes, news, w.floor);
    NewIdsPositive(w.history, causes, news);
    AfterAfter(w.history + news, w.floor - 1, cursor);
  }

  /** What an open transaction reads at state `i` from a cursor at or above the floor. */
  lemma {:induction false} OwnRead(lockKey: Uuid -> int, states: seq<System>, sts: seq<Statement>, i: nat, t: nat, tx: Tx, cursor: int)
    requires Schedule(lockKey, states, sts) && i < |states| && t in states[i].open && states[i].open[t] == tx
    requires Committed(states[i], tx.user).floor <= cursor + 1
    ensures var w := Committed(states[i], tx.user); After(w.log + tx.pending, cursor) == After(w.history + tx.pending, cursor)
  {
    var w := Committed(states[i], tx.user);
    CommittedInv(lockKey, states, sts, i, tx.user);
    OpenOk(lockKey, states, sts, i, t);
    OwnReadIsComplete(w, tx.pending, w.causes + tx.causes, cursor);
  }

  /**
    A mutation request reads its page inside its transaction, before it commits. Retention, other
    devices and other users may come in between; still, at the moment of the commit the page answers
    a pull, unless retention has meanwhile gone beyond the request's cursor. Read and commit are one
    point of the atomic protocol.
   */
  lemma {:induction false} ReadThenCommitIsOnePoint(lockKey: Uuid -> int, states: seq<System>, sts: seq<Statement>,
                                                    t: nat, tx: Tx, i: nat, j: nat, cursor: int, proto: int, page: Page)
    requires Schedule(lockKey, states, sts) && i <= j < |sts| && Holds(states, t, tx, i, j) && sts[j] == CommitTx(t)
    requires Delivers(Committed(states[i], tx.user).log + tx.pending, cursor, proto, page)
    requires Committed(states[j], tx.user).floor <= cursor + 1
    ensures Delivers(Committed(states[j + 1], tx.user).log, cursor, proto, page)
  {
    HeldHistory(lockKey, states, sts, t, tx, i, j);
    HistoryOnlyGrows(lockKey, states, sts, i, j, tx.user);
    OwnRead(lockKey, states, sts, i, t, tx, cursor);
    OwnRead(lockKey, states, sts, j, t, tx, cursor);
    DeliversSame(Committed(states[i], tx.user).log + tx.pending, Committed(states[j], tx.user).log + tx.pending, cursor, proto, page);
    PublishedLog(lockKey, states, sts, j, t, tx);
  }

  lemma {:induction false} PublishedLog(lockKey: Uuid -> int, states: seq<System>, sts: seq<Statement>, j: nat, t: nat, tx: Tx)
    requires Schedule(lockKey, states, sts) && j < |sts| && sts[j] == CommitTx(t)
    requires t in states[j].open && states[j].open[t] == tx
    ensures Committed(states[j + 1], tx.user).log == Committed(states[j], tx.user).log + tx.pending
  {
    assert states[j + 1] == Execute(states[j], sts[j]);
  }

  // ---- Why there is a lock ----

  function NewSession(id: Uuid): Mutation {
    Mutation(id, SessionEntity, id, Upsert, 0, Some(Input(id, SessionBody("3x3"), true)))
  }

  function NewSessionChange(id: Uuid): Change {
    Change(id, SessionKey(id), Upsert, Row(SessionBody("3x3"), 1, 0, None))
  }

  lemma {:induction false} NewSessionWrites(s: System, t: nat, id: Uuid)
    requires t in s.open && s.open[t].pending == [] && s.open[t].causes == [] && s.users == map[] && id == s.nextId > 0
    ensures ApplyIn(s, t, NewSession(id), 0) ==
            System(map[], s.open[t := Tx(s.open[t].user, [NewSessionChange(id)], [NewSession(id)])], id + 1)
  {
    assert View(s, s.open[t]) == map[];
    assert Judge(map[], NewSession(id), 0, 1) == Write(Upsert, NewSessionChange(id).row);
    assert Written(s, s.open[t], NewSession(id), Upsert, NewSessionChange(id).row)
        == Tx(s.open[t].user, [NewSessionChange(id)], [NewSession(id)]);
  }

  lemma {:induction false} Then(states: seq<System>, sts: seq<Statement>, st: Statement, s: System)
    returns (states': seq<System>, sts': seq<Statement>)
    requires Interleaving(states, sts) && Possible(states[|sts|], st) && s == Execute(states[|sts|], st)
    ensures Interleaving(states', sts') && states' == states + [s] && sts' == sts + [st]
  {
    states', sts' := states + [s], sts + [st];
  }

  /** Two transactions of user `u` are open at once, each with one new session. */
  lemma {:induction false} TwoOpen(u: Uuid) returns (states: seq<System>, sts: seq<Statement>)
    ensures Interleaving(states, sts) && |sts| == 4
    ensures states[4] == System(map[], map[1 := Tx(u, [NewSessionChange(1)], [NewSession(1)]),
                                           2 := Tx(u, [NewSessionChange(2)], [NewSession(2)])], 3)
  {
    var tx1, tx2 := Tx(u, [NewSessionChange(1)], [NewSession(1)]), Tx(u, [NewSessionChange(2)], [NewSession(2)]);
    states, sts := [System(map[], map[], 1)], [];
    states, sts := Then(states, sts, Begin(1, u), System(map[], map[1 := Tx(u, [], [])], 1));
    states, sts := Then(states, sts, Begin(2, u), System(map[], map[1 := Tx(u, [], []), 2 := Tx(u, [], [])], 1));
    NewSessionWrites(states[2], 1, 1);
    states, sts := Then(states, sts, Apply(1, NewSession(1), 0), System(map[], map[1 := tx1, 2 := Tx(u, [], [])], 2));
    NewSessionWrites(states[3], 2, 2);
    states, sts := Then(states, sts, Apply(2, NewSession(2), 0), System(map[], map[1 := tx1, 2 := tx2], 3));
  }

  /**
    Without the lock the order breaks: two transactions of one user, begun from the empty system, take
    their ids in one order and commit in the other. A reader sees change 2, and change 1 only later.
   */
  lemma {:induction false} LockIsNeeded(u: Uuid) returns (states: seq<System>, sts: seq<Statement>)
    ensures Interleaving(states, sts) && |sts| == 6
    ensures NewSessionChange(2) in Committed(states[5], u).history
    ensures NewSessionChange(1) in Committed(states[6], u).history && NewSessionChange(1) !in Committed(states[5], u).history
  {
    states, sts := TwoOpen(u);
    var s4 := states[4];
    var s5 := CommitIn(s4, 2);
    states, sts := Then(states, sts, CommitTx(2), s5);
    var s6 := CommitIn(s5, 1);
    states, sts := Then(states, sts, CommitTx(1), s6);
    CommittedBackwards(u, s4, s5, s6);
  }

  lemma {:induction false} CommittedBackwards(u: Uuid, s4: System, s5: System, s6: System)
    requires s4 == System(map[], map[1 := Tx(u, [NewSessionChange(1)], [NewSession(1)]), 2 := Tx(u, [NewSessionChange(2)], [NewSession(2)])], 3)
    requires s5 == CommitIn(s4, 2) && 1 in s5.open && s6 == CommitIn(s5, 1)
    ensures Committed(s5, u).history == [NewSessionChange(2)]
    ensures NewSessionChange(1) in Committed(s6, u).history
  {
    assert Committed(s6, u).history == [NewSessionChange(2), NewSessionChange(1)];
    assert Committed(s6, u).history[1] == NewSessionChange(1);
  }
}
