/** Keyset pages over the tables: the bootstrap of a new or resyncing device. */
module Snapshots {
  import opened Records

  const DEFAULT_SNAPSHOT_PAGE_SIZE: nat := 500
  const MAX_SNAPSHOT_PAGE_SIZE: nat := 2000
  const ENTITY_ENVELOPE_OVERHEAD: nat := 120

  datatype Item = Item(id: Uuid, row: Row)

  /** One SQL table of a user, by id. */
  type Table = map<Uuid, Row>

  function Beyond(t: Table, after: Uuid): set<Uuid> {
    set id <- t | id > after
  }

  function LastItemId(items: seq<Item>, after: Uuid): Uuid {
    if items == [] then after else items[|items| - 1].id
  }

  /** `item` is the row with the smallest id greater than `prev`. */
  ghost predicate IsNext(t: Table, prev: Uuid, item: Item) {
    && item.id in t && item.id > prev
    && t[item.id] == item.row
    && forall x <- t :: x > prev ==> item.id <= x
  }

  /** Rows in id order, starting just after `after` and skipping none. */
  ghost predicate IsKeysetRun(t: Table, after: Uuid, items: seq<Item>)
    decreases |items|
  {
    items == []
    || (var n := |items| - 1;
        IsKeysetRun(t, after, items[..n]) && IsNext(t, LastItemId(items[..n], after), items[n]))
  }

  /** A page: a keyset run that is empty only at the end and reports exactly whether rows remain. */
  ghost predicate IsKeysetPage(t: Table, after: Uuid, items: seq<Item>, hasMore: bool) {
    && IsKeysetRun(t, after, items)
    && (hasMore <==> Beyond(t, LastItemId(items, after)) != {})
    && (items == [] ==> !hasMore)
  }

  method Smallest(s: set<Uuid>) returns (m: Uuid)
    requires s != {}
    ensures m in s && forall x <- s :: m <= x
  {
    m :| m in s;
    var rest := s - {m};
    while rest != {}
      invariant m in s && rest <= s
      invariant forall x <- s :: x in rest || m <= x
      decreases rest
    {
      var x :| x in rest;
      if x < m {
        m := x;
      }
      rest := rest - {x};
    }
  }

  /** `SELECT ... WHERE id > after ORDER BY id LIMIT limit`. */
  method KeysetQuery(t: Table, after: Uuid, limit: nat) returns (items: seq<Item>)
    ensures IsKeysetRun(t, after, items)
    ensures |items| <= limit
    ensures |items| < limit ==> Beyond(t, LastItemId(items, after)) == {}
  {
    items := [];
    var left := Beyond(t, after);
    while left != {} && |items| < limit
      invariant IsKeysetRun(t, after, items)
      invariant |items| <= limit
      invariant left == Beyond(t, LastItemId(items, after))
      decreases left
    {
      var id := Smallest(left);
      var item := Item(id, t[id]);
      assert IsNext(t, LastItemId(items, after), item) by {
        assert forall x <- t :: x > LastItemId(items, after) ==> x in left;
      }
      assert (items + [item])[..|items|] == items;
      items := items + [item];
      left := left - {id};
    }
  }

  lemma {:induction false} RunPrefix(t: Table, after: Uuid, items: seq<Item>, n: nat)
    requires IsKeysetRun(t, after, items) && n <= |items|
    ensures IsKeysetRun(t, after, items[..n])
    ensures n < |items| ==> IsNext(t, LastItemId(items[..n], after), items[n])
    decreases |items|
  {
    if n == |items| {
      assert items[..n] == items;
    } else if n < |items| - 1 {
      RunPrefix(t, after, items[..|items| - 1], n);
      assert items[..|items| - 1][..n] == items[..n];
    }
  }

  /** A run holds exactly the rows between its start and its last id, each as the table has it. */
  lemma {:induction false} RunCovers(t: Table, after: Uuid, items: seq<Item>)
    requires IsKeysetRun(t, after, items)
    ensures after <= LastItemId(items, after)
    ensures forall i :: 0 <= i < |items| ==>
              after < items[i].id <= LastItemId(items, after) && items[i].id in t && t[items[i].id] == items[i].row
    ensures forall id <- t :: after < id <= LastItemId(items, after) ==> exists i :: 0 <= i < |items| && items[i].id == id
    decreases |items|
  {
    if items != [] {
      var n := |items| - 1;
      var items', last := items[..n], items[n];
      RunCovers(t, after, items');
      forall id <- t | after < id <= last.id
        ensures exists i :: 0 <= i < |items| && items[i].id == id
      {
        if id <= LastItemId(items', after) {
          var i :| 0 <= i < n && items'[i].id == id;
          assert items[i].id == id;
        } else {
          assert items[n].id == id;
        }
      }
    }
  }

  function ItemBytes(items: seq<Item>, size: Row -> nat): nat {
    if items == [] then 0
    else ItemBytes(items[..|items| - 1], size) + size(items[|items| - 1].row) + ENTITY_ENVELOPE_OVERHEAD
  }

  /** The estimate is the rows plus 120 bytes for each. */
  lemma {:induction false} ItemBytesAddUp(a: seq<Item>, b: seq<Item>, size: Row -> nat)
    ensures ItemBytes(a + b, size) == ItemBytes(a, size) + ItemBytes(b, size)
    ensures |b| == 1 ==> ItemBytes(b, size) == size(b[0].row) + 120
    decreases |b|
  {
    if b == [] {
      assert a + b == a;
    } else {
      assert (a + b)[..|a + b| - 1] == a + b[..|b| - 1];
      ItemBytesAddUp(a, b[..|b| - 1], size);
    }
  }

  /** Keep the longest run within the byte budget, but at least one item. */
  method TrimByBytes(items: seq<Item>, budget: int, size: Row -> nat) returns (kept: seq<Item>, trimmed: bool)
    ensures kept <= items && (items != [] ==> kept != [])
    ensures trimmed <==> |kept| < |items|
    ensures budget > 0 && |kept| > 1 ==> ItemBytes(kept, size) <= budget
    ensures trimmed ==> ItemBytes(items[..|kept| + 1], size) > budget
  {
    if budget <= 0 || |items| <= 1 {
      return items, false;
    }
    var total, keep := 0, 0;
    while keep < |items|
      invariant 0 <= keep <= |items|
      invariant total == ItemBytes(items[..keep], size)
      invariant keep > 1 ==> total <= budget
    {
      var bytes := size(items[keep].row) + ENTITY_ENVELOPE_OVERHEAD;
      assert items[..keep + 1][..keep] == items[..keep];
      if total + bytes > budget && keep > 0 {
        break;
      }
      total := total + bytes;
      keep := keep + 1;
    }
    return items[..keep], keep < |items|;
  }

  /** The requested size, unless it is not positive or above 2000; then 500. */
  function PageSize(requested: int): (n: nat)
    ensures 0 < n <= MAX_SNAPSHOT_PAGE_SIZE
    ensures 0 < requested <= 2000 ==> n == requested
    ensures requested <= 0 || requested > 2000 ==> n == 500
  {
    if requested <= 0 || requested > MAX_SNAPSHOT_PAGE_SIZE then DEFAULT_SNAPSHOT_PAGE_SIZE else requested
  }

  /** The page is within both limits, and stops short only where the next row would break one of them. */
  ghost predicate FillsSnapshot(t: Table, after: Uuid, count: nat, budget: int, size: Row -> nat, items: seq<Item>) {
    && |items| <= count
    && (budget > 0 && |items| > 1 ==> ItemBytes(items, size) <= budget)
    && forall item :: IsNext(t, LastItemId(items, after), item) && |items| < count ==>
                        budget > 0 && ItemBytes(items + [item], size) > budget
  }

  /** A page cut from a read of one row more than it may hold, by the byte budget or not at all, is full. */
  lemma {:induction false} FullPage(t: Table, after: Uuid, all: seq<Item>, count: nat, budget: int, size: Row -> nat, items: seq<Item>)
    requires IsKeysetRun(t, after, all) && (|all| <= count ==> Beyond(t, LastItemId(all, after)) == {})
    requires items <= all && |items| <= count
    requires budget > 0 && |items| > 1 ==> ItemBytes(items, size) <= budget
    requires |items| < |all| && |items| < count ==> budget > 0 && ItemBytes(all[..|items| + 1], size) > budget
    ensures FillsSnapshot(t, after, count, budget, size, items)
  {
    var n := |items|;
    RunPrefix(t, after, all, n);
    assert all[..n] == items;
    forall item | IsNext(t, LastItemId(items, after), item) && n < count
      ensures budget > 0 && ItemBytes(items + [item], size) > budget
    {
      assert item.id in Beyond(t, LastItemId(items, after));
      assert items != all;
      assert item == all[n];
      assert items + [item] == all[..n + 1];
    }
  }

  /** One page of a table: a keyset read of one row more than the page, then the byte budget. */
  method ReadSnapshotPage(t: Table, after: Uuid, pageSize: int, budget: int, size: Row -> nat)
    returns (items: seq<Item>, hasMore: bool)
    ensures IsKeysetPage(t, after, items, hasMore)
    ensures FillsSnapshot(t, after, PageSize(pageSize), budget, size, items)
  {
    var count := PageSize(pageSize);
    var rows := KeysetQuery(t, after, count + 1);
    ghost var all := rows;
    hasMore := |rows| > count;
    if hasMore {
      rows := rows[..count];
    }
    items := rows;
    if budget > 0 {
      var trimmed;
      items, trimmed := TrimByBytes(rows, budget, size);
      if trimmed {
        hasMore := true;
      }
    }
    assert items == all[..|items|];
    RunPrefix(t, after, all, |items|);
    assert |items| < |rows| ==> rows[..|items| + 1] == all[..|items| + 1];
    FullPage(t, after, all, count, budget, size, items);
    assert |items| < |all| ==> all[|items|].id in Beyond(t, LastItemId(items, after));
  }
}
