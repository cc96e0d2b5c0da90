/** Reading the change log page by page: cut by row count and by bytes, never losing a change. */
module Paging {
  import opened Records
  import opened History

  /** A conservative size of the JSON around each change's payload. */
  const CHANGE_ENVELOPE_OVERHEAD: nat := 200

  /** What a change carries on the wire: the whole row, or only a stub for a version 2 delete. */
  datatype Payload = FullPayload(row: Row) | StubPayload(id: Uuid, version: int, deletedAt: Option<Time>)

  datatype WireChange = WireChange(cursor: nat, key: Key, op: Operation, version: int, payload: Payload)

  datatype Page = Page(changes: seq<WireChange>, next: int, hasMore: bool)

  /** How many leading changes lie at or below the cursor. */
  function Position(s: seq<Change>, cursor: int): (n: nat)
    ensures n <= |s|
    ensures forall i :: 0 <= i < n ==> s[i].id <= cursor
    ensures n < |s| ==> s[n].id > cursor
  {
    if s == [] || s[0].id > cursor then 0 else 1 + Position(s[1..], cursor)
  }

  /** The changes after a cursor, in id order. */
  function After(s: seq<Change>, cursor: int): seq<Change> {
    s[Position(s, cursor)..]
  }

  lemma {:induction false} PositionIsUnique(s: seq<Change>, cursor: int, n: nat)
    requires Increasing(s) && n <= |s|
    requires n > 0 ==> s[n - 1].id <= cursor
    requires n < |s| ==> s[n].id > cursor
    ensures Position(s, cursor) == n
  {
  }

  lemma {:induction false} SuffixIncreasing(s: seq<Change>, n: nat)
    requires Increasing(s) && n <= |s|
    ensures Increasing(s[n..])
  {
  }

  lemma {:induction false} PositionMonotone(s: seq<Change>, a: int, b: int)
    requires a <= b
    ensures Position(s, a) <= Position(s, b)
  {
  }

  /** Reading after one cursor and then after a second is reading after the greater of the two. */
  lemma {:induction false} AfterAfter(s: seq<Change>, a: int, b: int)
    requires Increasing(s)
    ensures After(After(s, a), b) == After(s, Max(a, b))
  {
    var p, m := Position(s, a), Max(a, b);
    var q := Position(s, m);
    PositionMonotone(s, a, m);
    AboveCursor(s, a);
    PositionInSuffix(s, p, b, q);
    SuffixOfSuffix(s, p, q);
  }

  lemma {:induction false} SuffixOfSuffix(s: seq<Change>, p: nat, q: nat)
    requires p <= q <= |s|
    ensures s[p..][q - p..] == s[q..]
  {
  }

  lemma {:induction false} AboveCursor(s: seq<Change>, cursor: int)
    requires Increasing(s)
    ensures forall i :: Position(s, cursor) <= i < |s| ==> s[i].id > cursor
  {
    var p := Position(s, cursor);
    assert forall i :: p < i < |s| ==> s[p].id < s[i].id;
  }

  lemma {:induction false} PositionInSuffix(s: seq<Change>, p: nat, cursor: int, q: nat)
    requires Increasing(s) && p <= q <= |s|
    requires p < q ==> s[q - 1].id <= cursor
    requires q < |s| ==> s[q].id > cursor
    ensures Position(s[p..], cursor) == q - p
  {
    SuffixIncreasing(s, p);
    PositionIsUnique(s[p..], cursor, q - p);
  }

  /** Advancing the cursor over the first `n` later changes leaves exactly the others. */
  lemma {:induction false} AfterAdvances(s: seq<Change>, cursor: int, n: nat)
    requires Increasing(s) && 0 < n <= |After(s, cursor)|
    ensures After(s, After(s, cursor)[n - 1].id) == After(s, cursor)[n..]
    ensures After(s, cursor)[n - 1].id > cursor
  {
    var p := Position(s, cursor);
    PositionIsUnique(s, s[p + n - 1].id, p + n);
    assert s[p].id <= s[p + n - 1].id;
  }

  // ---- One page ----

  function PayloadOf(proto: int, c: Change): Payload {
    if proto >= 2 && c.op.Delete? then StubPayload(c.key.id, c.row.version, c.row.deletedAt)
    else FullPayload(c.row)
  }

  function WireOf(proto: int, c: Change): WireChange {
    WireChange(c.id, c.key, c.op, c.row.version, PayloadOf(proto, c))
  }

  function WireAll(proto: int, s: seq<Change>): (w: seq<WireChange>)
    ensures |w| == |s| && forall i :: 0 <= i < |s| ==> w[i] == WireOf(proto, s[i])
  {
    seq(|s|, i requires 0 <= i < |s| => WireOf(proto, s[i]))
  }

  lemma {:induction false} WireAllSplit(proto: int, s: seq<Change>, n: nat)
    requires n <= |s|
    ensures WireAll(proto, s) == WireAll(proto, s[..n]) + WireAll(proto, s[n..])
  {
  }

  lemma {:induction false} WireAllPrefix(proto: int, s: seq<Change>, n: nat, w: seq<WireChange>)
    requires n <= |s| && w <= WireAll(proto, s[..n])
    ensures w == WireAll(proto, s[..|w|])
  {
    assert forall i :: 0 <= i < |w| ==> s[..n][i] == s[..|w|][i];
  }

  /** Estimated response bytes of a run of changes. */
  function Bytes(changes: seq<WireChange>, size: Payload -> nat): nat {
    if changes == [] then 0
    else Bytes(changes[..|changes| - 1], size) + size(changes[|changes| - 1].payload) + CHANGE_ENVELOPE_OVERHEAD
  }

  /** The estimate is the payloads plus 200 bytes for each change. */
  lemma {:induction false} BytesAddUp(a: seq<WireChange>, b: seq<WireChange>, size: Payload -> nat)
    ensures Bytes(a + b, size) == Bytes(a, size) + Bytes(b, size)
    ensures |b| == 1 ==> Bytes(b, size) == size(b[0].payload) + 200
    decreases |b|
  {
    if b == [] {
      assert a + b == a;
    } else {
      assert (a + b)[..|a + b| - 1] == a + b[..|b| - 1];
      BytesAddUp(a, b[..|b| - 1], size);
    }
  }

  /**
    The page answers a pull from `cursor`: it is a run of the later changes starting at the first,
    is empty only when nothing is later, says `hasMore` exactly when something remains, and its
    cursor is that of the last change delivered.
   */
  ghost predicate Delivers(log: seq<Change>, cursor: int, proto: int, page: Page) {
    var rest := After(log, cursor);
    var n := |page.changes|;
    && n <= |rest|
    && page.changes == WireAll(proto, rest[..n])
    && (n == 0 ==> rest == [])
    && (page.hasMore <==> n < |rest|)
    && page.next == (if n == 0 then cursor else rest[n - 1].id)
  }

  lemma {:induction false} DeliversSame(a: seq<Change>, b: seq<Change>, cursor: int, proto: int, page: Page)
    requires Delivers(a, cursor, proto, page) && After(a, cursor) == After(b, cursor)
    ensures Delivers(b, cursor, proto, page)
  {
  }

  /**
    What a page shows of each change: its id as cursor, its entity, operation and version, and the
    whole row, or from protocol version 2 on, for a delete, only id, version and deletion time.
   */
  lemma {:induction false} PageShows(log: seq<Change>, cursor: int, proto: int, page: Page)
    requires Delivers(log, cursor, proto, page)
    ensures |page.changes| <= |After(log, cursor)|
    ensures forall i :: 0 <= i < |page.changes| ==>
              && page.changes[i].cursor == After(log, cursor)[i].id && page.changes[i].key == After(log, cursor)[i].key
              && page.changes[i].op == After(log, cursor)[i].op && page.changes[i].version == After(log, cursor)[i].row.version
              && page.changes[i].payload == if proto >= 2 && After(log, cursor)[i].op.Delete?
                                   then StubPayload(After(log, cursor)[i].key.id, After(log, cursor)[i].row.version, After(log, cursor)[i].row.deletedAt)
                                   else FullPayload(After(log, cursor)[i].row)
    ensures page.changes != [] ==> page.next == page.changes[|page.changes| - 1].cursor
    ensures page.changes == [] ==> page.next == cursor
  {
    var rest := After(log, cursor);
    assert forall i :: 0 <= i < |page.changes| ==> page.changes[i] == WireOf(proto, rest[i]);
  }

  /** The change carries the row's id as cursor, its entity, operation and version, and its payload. */
  predicate Shows(proto: int, w: WireChange, c: Change) {
    && w.cursor == c.id && w.key == c.key && w.op == c.op && w.version == c.row.version
    && w.payload == if proto >= 2 && c.op.Delete? then StubPayload(c.key.id, c.row.version, c.row.deletedAt) else FullPayload(c.row)
  }

  ghost predicate ShowsAll(log: seq<Change>, cursor: int, proto: int, page: Page) {
    && |page.changes| <= |After(log, cursor)|
    && forall i :: 0 <= i < |page.changes| ==> Shows(proto, page.changes[i], After(log, cursor)[i])
  }

  lemma {:induction false} PageShowsAll(log: seq<Change>, cursor: int, proto: int, page: Page)
    requires Delivers(log, cursor, proto, page)
    ensures ShowsAll(log, cursor, proto, page)
    ensures page.changes != [] ==> page.next == page.changes[|page.changes| - 1].cursor
    ensures page.changes == [] ==> page.next == cursor
  {
    PageShows(log, cursor, proto, page);
  }

  /** Convert log rows to wire changes, remembering the last id. */
  method BuildChanges(rows: seq<Change>, baseCursor: int, proto: int)
    returns (changes: seq<WireChange>, nextCursor: int)
    ensures changes == WireAll(proto, rows)
    ensures |changes| == |rows|
    ensures forall i :: 0 <= i < |changes| ==>
              && changes[i].cursor == rows[i].id && changes[i].key == rows[i].key
              && changes[i].op == rows[i].op && changes[i].version == rows[i].row.version
              && changes[i].payload == if proto >= 2 && rows[i].op.Delete?
                                   then StubPayload(rows[i].key.id, rows[i].row.version, rows[i].row.deletedAt)
                                   else FullPayload(rows[i].row)
    ensures nextCursor == (if rows == [] then baseCursor else rows[|rows| - 1].id)
  {
    changes, nextCursor := [], baseCursor;
    for i := 0 to |rows|
      invariant changes == WireAll(proto, rows[..i])
      invariant nextCursor == (if i == 0 then baseCursor else rows[i - 1].id)
    {
      changes := changes + [WireOf(proto, rows[i])];
      nextCursor := rows[i].id;
    }
    assert rows[..|rows|] == rows;
  }

  /**
    Cut a page at the byte budget: the longest run within the budget, but never less than one
    change, so that a client always makes progress.
   */
  method ApplyByteLimit(changes: seq<WireChange>, rows: seq<Change>, baseCursor: int, hasMore: bool,
                        budget: int, size: Payload -> nat)
    returns (kept: seq<WireChange>, more: bool, nextCursor: int)
    ensures kept <= changes && (changes != [] ==> kept != [])
    ensures |kept| > 1 ==> Bytes(kept, size) <= budget
    ensures |kept| < |changes| ==> Bytes(changes[..|kept| + 1], size) > budget
    ensures more <==> hasMore || |kept| < |changes|
    ensures nextCursor == (if kept == [] || rows == [] then baseCursor
                           else if |kept| <= |rows| then rows[|kept| - 1].id else rows[|rows| - 1].id)
  {
    var total := 0;
    nextCursor := baseCursor;
    for i := 0 to |changes|
      invariant total == Bytes(changes[..i], size)
      invariant i > 1 ==> total <= budget
      invariant nextCursor == (if i == 0 || rows == [] then baseCursor
                               else if i <= |rows| then rows[i - 1].id else rows[|rows| - 1].id)
    {
      assert changes[..i + 1][..i] == changes[..i];
      total := total + size(changes[i].payload) + CHANGE_ENVELOPE_OVERHEAD;
      if total > budget && i > 0 {
        return changes[..i], true, nextCursor;
      }
      if i < |rows| {
        nextCursor := rows[i].id;
      }
    }
    assert changes[..|changes|] == changes;
    return changes, hasMore, nextCursor;
  }

  /** The page is within both limits, and stops short only where one more change would break one of them. */
  ghost predicate Fills(log: seq<Change>, cursor: int, limit: nat, proto: int, budget: int, size: Payload -> nat, page: Page) {
    var rest, n := After(log, cursor), |page.changes|;
    && n <= limit
    && (budget > 0 && n > 1 ==> Bytes(page.changes, size) <= budget)
    && (n < limit && n < |rest| ==> budget > 0 && Bytes(WireAll(proto, rest[..n + 1]), size) > budget)
  }

  /** `ListChanges` with one row more than the page, then the two cuts. */
  method ReadPage(log: seq<Change>, cursor: int, limit: nat, proto: int, budget: int, size: Payload -> nat)
    returns (page: Page)
    requires limit > 0
    ensures Delivers(log, cursor, proto, page) && ShowsAll(log, cursor, proto, page)
    ensures page.changes != [] ==> page.next == page.changes[|page.changes| - 1].cursor
    ensures page.changes == [] ==> page.next == cursor
    ensures Fills(log, cursor, limit, proto, budget, size, page)
  {
    ghost var rest := After(log, cursor);
    var rows := After(log, cursor);
    if |rows| > limit + 1 {
      rows := rows[..limit + 1];
    }
    var hasMore := |rows| > limit;
    if hasMore {
      rows := rows[..limit];
    }
    ghost var k := |rows|;
    assert rows == rest[..k] && (hasMore <==> k < |rest|);
    var changes, next := BuildChanges(rows, cursor, proto);
    ghost var built := changes;
    assert built == WireAll(proto, rest[..k]);
    if budget > 0 {
      changes, hasMore, next := ApplyByteLimit(changes, rows, cursor, hasMore, budget, size);
    }
    page := Page(changes, next, hasMore);
    CutDelivers(log, cursor, proto, k, page);
    CutFills(log, cursor, limit, proto, budget, size, k, page);
    PageShowsAll(log, cursor, proto, page);
  }

  /** The first changes of a read of `k` rows, with the flag and the cursor the cut leaves, answer the pull. */
  lemma {:induction false} CutDelivers(log: seq<Change>, cursor: int, proto: int, k: nat, page: Page)
    requires var rest, n := After(log, cursor), |page.changes|;
             && k <= |rest| && page.changes <= WireAll(proto, rest[..k]) && (k > 0 ==> n > 0) && (k == 0 ==> rest == [])
             && (page.hasMore <==> k < |rest| || n < k)
             && page.next == if n == 0 then cursor else rest[n - 1].id
    ensures Delivers(log, cursor, proto, page)
  {
    WireAllPrefix(proto, After(log, cursor), k, page.changes);
  }

  lemma {:induction false} CutFills(log: seq<Change>, cursor: int, limit: nat, proto: int, budget: int, size: Payload -> nat,
                                    k: nat, page: Page)
    requires var rest, n := After(log, cursor), |page.changes|;
             && k <= |rest| && k <= limit && (k < limit ==> k == |rest|) && page.changes <= WireAll(proto, rest[..k])
             && (budget > 0 && n > 1 ==> Bytes(page.changes, size) <= budget)
             && (n < k ==> budget > 0 && Bytes(WireAll(proto, rest[..k])[..n + 1], size) > budget)
    ensures Fills(log, cursor, limit, proto, budget, size, page)
  {
    var rest, n := After(log, cursor), |page.changes|;
    if n < k {
      WireAllPrefix(proto, rest, k, WireAll(proto, rest[..k])[..n + 1]);
    }
  }

  // ---- Walking the log ----

  /** A walk: each page answers a pull from the cursor before it, and the last has no more to come. */
  ghost predicate Walk(log: seq<Change>, cursor: int, proto: int, pages: seq<Page>)
    decreases |pages|
  {
    && pages != []
    && Delivers(log, cursor, proto, pages[0])
    && (if pages[0].hasMore then Walk(log, pages[0].next, proto, pages[1..]) else |pages| == 1)
  }

  function Flatten(pages: seq<Page>): seq<WireChange> {
    if pages == [] then [] else pages[0].changes + Flatten(pages[1..])
  }

  /** A page with more to come strictly advances the cursor and strictly shortens what remains. */
  lemma {:induction false} PageAdvances(log: seq<Change>, cursor: int, proto: int, page: Page)
    requires Increasing(log) && Delivers(log, cursor, proto, page)
    ensures After(log, page.next) == After(log, cursor)[|page.changes|..]
    ensures page.hasMore ==> page.next > cursor && |After(log, page.next)| < |After(log, cursor)|
    ensures page.next >= cursor
  {
    if page.changes != [] {
      AfterAdvances(log, cursor, |page.changes|);
    }
  }

  /** A page is a slice of the sequence it reads, and its cursor stands just behind that slice. */
  lemma {:induction false} PageIsSlice(s: seq<Change>, cursor: int, proto: int, page: Page)
    requires Increasing(s) && Delivers(s, cursor, proto, page)
    ensures Position(s, cursor) + |page.changes| <= |s|
    ensures page.changes == WireAll(proto, s[Position(s, cursor)..Position(s, cursor) + |page.changes|])
    ensures Position(s, page.next) == Position(s, cursor) + |page.changes|
    ensures !page.hasMore ==> Position(s, page.next) == |s|
  {
    var p, n := Position(s, cursor), |page.changes|;
    assert s[p..p + n] == s[p..][..n];
    if n > 0 {
      PositionIsUnique(s, s[p + n - 1].id, p + n);
    }
  }

  /**
    However the limits cut the pages, a walk delivers exactly the changes after its first cursor,
    in order, each once, in at most one page per change.
   */
  lemma {:induction false} WalkDeliversAll(log: seq<Change>, cursor: int, proto: int, pages: seq<Page>)
    requires Increasing(log) && Walk(log, cursor, proto, pages)
    ensures Flatten(pages) == WireAll(proto, After(log, cursor))
    ensures |pages| <= Max(1, |After(log, cursor)|)
    ensures After(log, pages[|pages| - 1].next) == []
    decreases |pages|
  {
    var page := pages[0];
    PageAdvances(log, cursor, proto, page);
    FirstAndRest(log, cursor, proto, page);
    if page.hasMore {
      WalkDeliversAll(log, page.next, proto, pages[1..]);
      assert pages[|pages| - 1] == pages[1..][|pages| - 2];
    } else {
      assert pages[1..] == [];
    }
  }

  /** A page and what is left after it make up everything that was later. */
  lemma {:induction false} FirstAndRest(log: seq<Change>, cursor: int, proto: int, page: Page)
    requires Increasing(log) && Delivers(log, cursor, proto, page)
    ensures WireAll(proto, After(log, cursor)) == page.changes + WireAll(proto, After(log, page.next))
    ensures !page.hasMore ==> After(log, page.next) == []
  {
    PageAdvances(log, cursor, proto, page);
    WireAllSplit(proto, After(log, cursor), |page.changes|);
  }
}
