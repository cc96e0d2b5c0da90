/**
  The full history of one user's changes, replaying it, and what the compare-and-swap makes of it.
  The retained change log is a suffix of this history.
 */
module History {
  import opened Records
  import opened Mutations

  /** Change ids grow along the sequence, as `ORDER BY change_id` delivers them. */
  predicate Increasing(s: seq<Change>) {
    forall i, j :: 0 <= i < j < |s| ==> s[i].id < s[j].id
  }

  function LastId(s: seq<Change>): nat {
    if s == [] then 0 else s[|s| - 1].id
  }

  /** Overwrite the tables with each change in turn. */
  function Replay(t: Tables, s: seq<Change>): Tables
    decreases |s|
  {
    if s == [] then t
    else Replay(t, s[..|s| - 1])[s[|s| - 1].key := s[|s| - 1].row]
  }

  function TablesAt(h: seq<Change>, n: nat): Tables
    requires n <= |h|
  {
    Replay(map[], h[..n])
  }

  /**
    A legal history: ids are positive and increasing, and every change is the verdict on its
    causing mutation, judged on exactly the tables the earlier changes produce.
   */
  ghost predicate Legal(h: seq<Change>, causes: seq<Mutation>) {
    && |h| == |causes|
    && Increasing(h)
    && forall i :: 0 <= i < |h| ==> h[i].id > 0 && Justifies(TablesAt(h, i), causes[i], h[i])
  }

  predicate Touched(s: seq<Change>, k: Key) {
    exists i :: 0 <= i < |s| && s[i].key == k
  }

  /** How many changes of `s` belong to key `k`. */
  function Count(s: seq<Change>, k: Key): nat {
    if s == [] then 0
    else Count(s[..|s| - 1], k) + if s[|s| - 1].key == k then 1 else 0
  }

  // ---- Replay ----

  lemma {:induction false} ReplaySnoc(t: Tables, s: seq<Change>, c: Change)
    ensures Replay(t, s + [c]) == Replay(t, s)[c.key := c.row]
  {
    assert (s + [c])[..|s|] == s;
  }

  lemma {:induction false} ReplayConcat(t: Tables, a: seq<Change>, b: seq<Change>)
    ensures Replay(t, a + b) == Replay(Replay(t, a), b)
    decreases |b|
  {
    if b == [] {
      assert a + b == a;
    } else {
      var b' := b[..|b| - 1];
      assert a + b == (a + b') + [b[|b| - 1]];
      ReplaySnoc(t, a + b', b[|b| - 1]);
      ReplayConcat(t, a, b');
    }
  }

  /** The last change of a key decides its row; a key no change touches keeps its row. */
  lemma {:induction false} ReplayAt(t: Tables, s: seq<Change>, k: Key)
    ensures k in Replay(t, s) <==> k in t || Touched(s, k)
    ensures !Touched(s, k) && k in t ==> Replay(t, s)[k] == t[k]
    decreases |s|
  {
    if s != [] {
      var s' := s[..|s| - 1];
      ReplayAt(t, s', k);
      assert forall i :: 0 <= i < |s'| ==> s'[i] == s[i];
    }
  }

  lemma {:induction false} LastTouchWins(t: Tables, s: seq<Change>, i: nat)
    requires i < |s| && !Touched(s[i + 1..], s[i].key)
    ensures s[i].key in Replay(t, s) && Replay(t, s)[s[i].key] == s[i].row
  {
    assert s == s[..i + 1] + s[i + 1..];
    assert s[..i + 1] == s[..i] + [s[i]];
    ReplayConcat(t, s[..i + 1], s[i + 1..]);
    ReplaySnoc(t, s[..i], s[i]);
    ReplayAt(Replay(t, s[..i + 1]), s[i + 1..], s[i].key);
  }

  // ---- Legal histories ----

  lemma {:induction false} LegalPrefix(h: seq<Change>, causes: seq<Mutation>, n: nat)
    requires Legal(h, causes) && n <= |h|
    ensures Legal(h[..n], causes[..n])
  {
    forall i | 0 <= i < n
      ensures Justifies(TablesAt(h[..n], i), causes[..n][i], h[..n][i])
    {
      assert h[..n][..i] == h[..i];
    }
  }

  lemma {:induction false} LegalSnoc(h: seq<Change>, causes: seq<Mutation>, c: Change, m: Mutation)
    requires Legal(h, causes)
    requires c.id > LastId(h) && Justifies(Replay(map[], h), m, c)
    ensures Legal(h + [c], causes + [m])
  {
    IncreasingSnoc(h, c);
    TablesAtSnoc(h, c, |h|);
    assert h[..|h|] == h;
    forall i | 0 <= i < |h|
      ensures h[i].id > 0 && Justifies(TablesAt(h + [c], i), causes[i], h[i])
    {
      TablesAtSnoc(h, c, i);
    }
  }

  lemma {:induction false} IncreasingSnoc(h: seq<Change>, c: Change)
    requires Increasing(h) && c.id > LastId(h)
    ensures Increasing(h + [c])
  {
  }

  lemma {:induction false} TablesAtSnoc(h: seq<Change>, c: Change, i: nat)
    requires i <= |h|
    ensures TablesAt(h + [c], i) == TablesAt(h, i)
  {
    assert (h + [c])[..i] == h[..i];
  }

  /** What holds of the tables a legal history produces. */
  ghost predicate TablesOk(t: Tables, h: seq<Change>) {
    && (forall k <- t :: k.id != NIL && SessionExists(t, t[k].body) && t[k].version == Count(h, k))
    && (forall k :: k in t <==> Count(h, k) > 0)
  }

  lemma {:induction false} LegalTables(h: seq<Change>, causes: seq<Mutation>)
    requires Legal(h, causes)
    ensures TablesOk(Replay(map[], h), h)
    decreases |h|
  {
    if h != [] {
      var n := |h| - 1;
      var t := TablesAt(h, n);
      var c := h[n];
      LegalPrefix(h, causes, n);
      LegalTables(h[..n], causes[..n]);
      WriteIsCompareAndSwap(t, causes[n], c.row.updatedAt, 1, c.op, c.row);
    }
  }

  /**
    Versions of an entity run 1, 2, 3, ... along the history with no gap, and no change refers to
    a session that the history before it has not created.
   */
  lemma {:induction false} HistoryIsGapless(h: seq<Change>, causes: seq<Mutation>, i: nat)
    requires Legal(h, causes) && i < |h|
    ensures h[i].row.version == Count(h[..i], h[i].key) + 1
    ensures h[i].row.body.SolveBody? && h[i].row.body.sessionRef.Some? ==>
              Touched(h[..i], SessionKey(h[i].row.body.sessionRef.value))
    ensures h[i].op.Delete? <==> h[i].row.deletedAt.Some?
  {
    LegalPrefix(h, causes, i);
    LegalTables(h[..i], causes[..i]);
    WriteIsCompareAndSwap(TablesAt(h, i), causes[i], h[i].row.updatedAt, 1, h[i].op, h[i].row);
    if h[i].row.body.SolveBody? && h[i].row.body.sessionRef.Some? {
      ReplayAt(map[], h[..i], SessionKey(h[i].row.body.sessionRef.value));
    }
  }

  /** Every prefix of a legal history leaves tables in which each solve's session is present. */
  lemma {:induction false} PrefixKeepsReferences(h: seq<Change>, causes: seq<Mutation>, n: nat, k: Key)
    requires Legal(h, causes) && n <= |h|
    requires k in TablesAt(h, n)
    ensures SessionExists(TablesAt(h, n), TablesAt(h, n)[k].body)
    ensures TablesAt(h, n)[k].version == Count(h[..n], k) > 0
  {
    LegalPrefix(h, causes, n);
    LegalTables(h[..n], causes[..n]);
  }

  lemma {:induction false} CountMonotone(s: seq<Change>, n: nat, k: Key)
    requires n <= |s|
    ensures Count(s[..n], k) <= Count(s, k)
    decreases |s|
  {
    if n < |s| {
      assert s[..|s| - 1][..n] == s[..n];
      CountMonotone(s[..|s| - 1], n, k);
    } else {
      assert s[..n] == s;
    }
  }

  /**
    No lost updates: along any legal history the mutations that took effect on one entity carry
    strictly growing base versions, so each base version is consumed at most once and no mutation
    takes effect twice.
   */
  lemma {:induction false} NoLostUpdates(h: seq<Change>, causes: seq<Mutation>, i: nat, j: nat)
    requires Legal(h, causes) && i < j < |h|
    requires h[i].key == h[j].key
    ensures causes[i].baseVersion < causes[j].baseVersion
    ensures causes[i] != causes[j]
  {
    BaseVersionIsCount(h, causes, i);
    BaseVersionIsCount(h, causes, j);
    assert h[..j][..i + 1] == h[..i + 1];
    assert h[..i + 1][..i] == h[..i];
    CountMonotone(h[..j], i + 1, h[i].key);
  }

  lemma {:induction false} BaseVersionIsCount(h: seq<Change>, causes: seq<Mutation>, i: nat)
    requires Legal(h, causes) && i < |h|
    ensures causes[i].baseVersion == Count(h[..i], h[i].key)
  {
    HistoryIsGapless(h, causes, i);
    LegalPrefix(h, causes, i);
    LegalTables(h[..i], causes[..i]);
    WriteIsCompareAndSwap(TablesAt(h, i), causes[i], h[i].row.updatedAt, 1, h[i].op, h[i].row);
  }

  lemma {:induction false} TwoTouchesCount(s: seq<Change>, i: nat, j: nat)
    requires i < j < |s| && s[i].key == s[j].key
    ensures Count(s[..i], s[i].key) + 2 <= Count(s, s[i].key)
  {
    var k := s[i].key;
    assert s[..j + 1][..j] == s[..j] && s[..i + 1][..i] == s[..i] && s[..j][..i + 1] == s[..i + 1];
    CountMonotone(s[..j], i + 1, k);
    CountMonotone(s, j + 1, k);
  }

  /** A row the history once held is the current row, or strictly older by version. */
  lemma {:induction false} PastRow(h: seq<Change>, causes: seq<Mutation>, i: nat)
    requires Legal(h, causes) && i < |h|
    ensures var t := Replay(map[], h);
            h[i].key in t && (h[i].row.version < t[h[i].key].version || h[i].row == t[h[i].key])
  {
    var k := h[i].key;
    var t := Replay(map[], h);
    assert k in t by {
      ReplayAt(map[], h, k);
    }
    if Touched(h[i + 1..], k) {
      var j :| 0 <= j < |h[i + 1..]| && h[i + 1..][j].key == k;
      TwoTouchesCount(h, i, i + 1 + j);
      VersionIsCount(h, causes, i);
      LegalTables(h, causes);
    } else {
      LastTouchWins(map[], h, i);
    }
  }

  lemma {:induction false} VersionIsCount(h: seq<Change>, causes: seq<Mutation>, i: nat)
    requires Legal(h, causes) && i < |h|
    ensures h[i].row.version == Count(h[..i], h[i].key) + 1
  {
    HistoryIsGapless(h, causes, i);
  }

  /** Rows stand in the table of their kind, and no stored solve lasts longer than a day. */
  ghost predicate RowsValid(t: Tables) {
    forall k <- t ::
      match t[k].body
      case SessionBody(_) => k.SessionKey?
      case SolveBody(_, duration, _) => k.SolveKey? && 0 <= duration <= 24 * 3600 * 1000
  }

  lemma {:induction false} StoredRowsAreValid(h: seq<Change>, causes: seq<Mutation>)
    requires Legal(h, causes)
    ensures RowsValid(Replay(map[], h))
    decreases |h|
  {
    if h != [] {
      var n := |h| - 1;
      LegalPrefix(h, causes, n);
      StoredRowsAreValid(h[..n], causes[..n]);
      WriteIsValid(TablesAt(h, n), causes[n], h[n]);
    }
  }

  lemma {:induction false} WriteIsValid(t: Tables, m: Mutation, c: Change)
    requires RowsValid(t) && Justifies(t, m, c)
    ensures RowsValid(t[c.key := c.row])
  {
    DataIsValidExactlyWhen(m);
  }
}
