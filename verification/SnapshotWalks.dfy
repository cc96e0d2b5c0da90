/**
  Walking a whole snapshot over tables that stand still: each request echoes the continuation of the
  answer before it. However the limits cut the pages, the walk moves on, ends, and reads every session
  and then every solve once, in id order.
 */
module SnapshotWalks {
  import opened Records
  import opened Snapshots
  import opened Replica

  datatype SnapshotPage = SnapshotPage(items: seq<Item>, hasMore: bool)

  /** Each page answers a request from the phase it is asked for, and the next request echoes the continuation. */
  ghost predicate Echoes(t: Tables, phase: Phase, pages: seq<SnapshotPage>)
    decreases |pages|
  {
    && pages != [] && !phase.Following?
    && IsKeysetPage(TableOf(t, phase), phase.after, pages[0].items, pages[0].hasMore)
    && (|pages| > 1 ==> Echoes(t, Continued(phase, pages[0]), pages[1..]))
  }

  function Continued(phase: Phase, page: SnapshotPage): Phase
    requires !phase.Following?
  {
    NextPhase(phase, page.items, page.hasMore)
  }

  /** Where the walk stands after its last page. */
  function EndOf(phase: Phase, pages: seq<SnapshotPage>): Phase
    decreases |pages|
  {
    if pages == [] || phase.Following? then phase else EndOf(Continued(phase, pages[0]), pages[1..])
  }

  /** Everything the walk has read, in order. */
  function Reads(phase: Phase, pages: seq<SnapshotPage>): seq<(Key, Row)>
    decreases |pages|
  {
    if pages == [] || phase.Following? then [] else ReadsOf(phase, pages[0].items) + Reads(Continued(phase, pages[0]), pages[1..])
  }

  function ReadsOf(phase: Phase, items: seq<Item>): (r: seq<(Key, Row)>)
    ensures |r| == |items| && forall i :: 0 <= i < |items| ==> r[i] == (KeyIn(phase, items[i].id), items[i].row)
  {
    seq(|items|, i requires 0 <= i < |items| => (KeyIn(phase, items[i].id), items[i].row))
  }

  // ---- It moves on ----

  /** A page with more to come stops at a row of its table, past where it started, and the next request continues there. */
  lemma {:induction false} PageMovesOn(t: Tables, phase: Phase, page: SnapshotPage)
    requires !phase.Following? && IsKeysetPage(TableOf(t, phase), phase.after, page.items, page.hasMore)
    ensures page.hasMore ==>
              && page.items != [] && page.items[|page.items| - 1].id > phase.after
              && Continued(phase, page) == if phase.CollectSessions? then CollectSessions(page.items[|page.items| - 1].id)
                                           else CollectSolves(page.items[|page.items| - 1].id)
    ensures !page.hasMore ==> Continued(phase, page) == if phase.CollectSessions? then CollectSolves(NIL) else Following
  {
    RunCovers(TableOf(t, phase), phase.after, page.items);
  }

  /** At most one page for each row still to come, and one for each table without any. */
  function PagesLeft(t: Tables, phase: Phase): nat {
    match phase
    case Following => 0
    case CollectSolves(after) => Max(1, |Beyond(TableOf(t, phase), after)|)
    case CollectSessions(after) => Max(1, |Beyond(TableOf(t, phase), after)|) + Max(1, |Beyond(TableOf(t, CollectSolves(NIL)), NIL)|)
  }

  lemma {:induction false} FewerRowsLeft(t: Table, after: Uuid, last: Uuid)
    requires last in t && last > after && Beyond(t, last) != {}
    ensures 0 < |Beyond(t, last)| < |Beyond(t, after)|
  {
    var rest, all := Beyond(t, last), Beyond(t, after);
    assert rest <= all - {last};
    Fewer(rest, all - {last});
  }

  lemma {:induction false} Fewer(a: set<Uuid>, b: set<Uuid>)
    requires a <= b
    ensures |a| <= |b|
  {
    assert b == a + (b - a);
  }

  lemma {:induction false} PageCostsOne(t: Tables, phase: Phase, page: SnapshotPage)
    requires !phase.Following? && IsKeysetPage(TableOf(t, phase), phase.after, page.items, page.hasMore)
    ensures PagesLeft(t, Continued(phase, page)) < PagesLeft(t, phase)
  {
    PageMovesOn(t, phase, page);
    if page.hasMore {
      RunCovers(TableOf(t, phase), phase.after, page.items);
      FewerRowsLeft(TableOf(t, phase), phase.after, page.items[|page.items| - 1].id);
    }
  }

  /** No sequence of echoing requests, finished or not, has more pages than that. */
  lemma {:induction false} WalkEnds(t: Tables, phase: Phase, pages: seq<SnapshotPage>)
    requires Echoes(t, phase, pages)
    ensures |pages| + PagesLeft(t, EndOf(phase, pages)) <= PagesLeft(t, phase)
    decreases |pages|
  {
    PageCostsOne(t, phase, pages[0]);
    if |pages| > 1 {
      WalkEnds(t, Continued(phase, pages[0]), pages[1..]);
    } else {
      assert pages[1..] == [];
    }
  }

  // ---- It reads everything once, in order ----

  /** Sessions before solves, each by id. */
  predicate Before(a: Key, b: Key) {
    (a.SessionKey? && b.SolveKey?) || (a.SessionKey? == b.SessionKey? && a.id < b.id)
  }

  /** `k` comes after everything a snapshot has read when it stands at `phase`. */
  predicate Ahead(phase: Phase, k: Key) {
    match phase
    case Following => false
    case CollectSessions(after) => k.SolveKey? || k.id > after
    case CollectSolves(after) => k.SolveKey? && k.id > after
  }

  ghost predicate InOrder(got: seq<(Key, Row)>) {
    forall i, j :: 0 <= i < j < |got| ==> Before(got[i].0, got[j].0)
  }

  lemma {:induction false} RunInOrder(t: Table, after: Uuid, items: seq<Item>)
    requires IsKeysetRun(t, after, items)
    ensures forall i, j :: 0 <= i < j < |items| ==> items[i].id < items[j].id
    decreases |items|
  {
    if items != [] {
      var n := |items| - 1;
      RunInOrder(t, after, items[..n]);
      RunCovers(t, after, items[..n]);
      forall i | 0 <= i < n
        ensures items[i].id < items[n].id
      {
        assert items[..n][i] == items[i];
      }
    }
  }

  /** What a page reads lies ahead of its phase and behind the next, and is what the tables hold. */
  lemma {:induction false} PageReads(t: Tables, phase: Phase, page: SnapshotPage)
    requires !phase.Following? && IsKeysetPage(TableOf(t, phase), phase.after, page.items, page.hasMore)
    ensures var got := ReadsOf(phase, page.items);
            && InOrder(got)
            && forall i :: 0 <= i < |got| ==>
                 && got[i].0 in t && t[got[i].0] == got[i].1
                 && Ahead(phase, got[i].0)
                 && forall k :: Ahead(Continued(phase, page), k) ==> Before(got[i].0, k)
  {
    RunCovers(TableOf(t, phase), phase.after, page.items);
    RunInOrder(TableOf(t, phase), phase.after, page.items);
    PageMovesOn(t, phase, page);
  }

  /** A stored row ahead of a phase is read by the page, or is still ahead afterwards. */
  lemma {:induction false} PageSkipsNothing(t: Tables, phase: Phase, page: SnapshotPage, k: Key)
    requires !phase.Following? && IsKeysetPage(TableOf(t, phase), phase.after, page.items, page.hasMore)
    requires k in t && k.id > NIL && Ahead(phase, k)
    ensures Ahead(Continued(phase, page), k) || exists i :: 0 <= i < |page.items| && ReadsOf(phase, page.items)[i].0 == k
  {
    var table := TableOf(t, phase);
    RunCovers(table, phase.after, page.items);
    PageMovesOn(t, phase, page);
    var last := LastItemId(page.items, phase.after);
    if !Ahead(Continued(phase, page), k) {
      assert k == KeyIn(phase, k.id) && k.id in table;
      assert k.id > last ==> k.id in Beyond(table, last);
      var i :| 0 <= i < |page.items| && page.items[i].id == k.id;
      assert ReadsOf(phase, page.items)[i].0 == k;
    }
  }

  /** Everything read is in order, ahead of the start and behind the end, and is what the tables hold. */
  lemma {:induction false} WalkReads(t: Tables, phase: Phase, pages: seq<SnapshotPage>)
    requires Echoes(t, phase, pages)
    ensures InOrder(Reads(phase, pages))
    ensures forall i :: 0 <= i < |Reads(phase, pages)| ==>
              && Reads(phase, pages)[i].0 in t && t[Reads(phase, pages)[i].0] == Reads(phase, pages)[i].1
              && Ahead(phase, Reads(phase, pages)[i].0)
    decreases |pages|
  {
    var next := Continued(phase, pages[0]);
    var first, rest := ReadsOf(phase, pages[0].items), Reads(next, pages[1..]);
    PageReads(t, phase, pages[0]);
    PageMovesOn(t, phase, pages[0]);
    if |pages| > 1 {
      WalkReads(t, next, pages[1..]);
    } else {
      assert pages[1..] == [] && rest == [];
    }
    assert Reads(phase, pages) == first + rest;
    NextIsAhead(phase, pages[0], next);
  }

  /** What is ahead of the next request was ahead of this one. */
  lemma {:induction false} NextIsAhead(phase: Phase, page: SnapshotPage, next: Phase)
    requires !phase.Following? && next == Continued(phase, page)
    requires page.hasMore ==> page.items != [] && page.items[|page.items| - 1].id > phase.after
    ensures forall k :: Ahead(next, k) ==> Ahead(phase, k)
  {
  }

  lemma {:induction false} WalkSkipsNothing(t: Tables, phase: Phase, pages: seq<SnapshotPage>, k: Key)
    requires Echoes(t, phase, pages) && k in t && k.id > NIL && Ahead(phase, k)
    ensures Ahead(EndOf(phase, pages), k) || exists i :: 0 <= i < |Reads(phase, pages)| && Reads(phase, pages)[i].0 == k
    decreases |pages|
  {
    var next := Continued(phase, pages[0]);
    var first, rest := ReadsOf(phase, pages[0].items), Reads(next, pages[1..]);
    assert Reads(phase, pages) == first + rest;
    PageSkipsNothing(t, phase, pages[0], k);
    if i :| 0 <= i < |first| && first[i].0 == k {
      assert Reads(phase, pages)[i].0 == k;
    } else if |pages| > 1 {
      WalkSkipsNothing(t, next, pages[1..], k);
      if j :| 0 <= j < |rest| && rest[j].0 == k {
        assert Reads(phase, pages)[|first| + j].0 == k;
      }
    } else {
      assert pages[1..] == [];
    }
  }

  /**
    The whole snapshot. From the first request, echoing every continuation, there are at most as many
    pages as rows plus two; what is read is in order, so nothing twice, each row as the tables hold
    it; and when the answer names no continuation, every row has been read.
   */
  lemma {:induction false} SnapshotReadsAll(t: Tables, pages: seq<SnapshotPage>)
    requires Echoes(t, CollectSessions(NIL), pages)
    ensures |pages| <= |Beyond(TableOf(t, CollectSessions(NIL)), NIL)| + |Beyond(TableOf(t, CollectSolves(NIL)), NIL)| + 2
    ensures var got := Reads(CollectSessions(NIL), pages);
            && InOrder(got)
            && (forall i :: 0 <= i < |got| ==> got[i].0 in t && t[got[i].0] == got[i].1)
            && (EndOf(CollectSessions(NIL), pages).Following? ==>
                  forall k :: k in t && k.id > NIL ==> exists i :: 0 <= i < |got| && got[i].0 == k)
  {
    WalkEnds(t, CollectSessions(NIL), pages);
    WalkReads(t, CollectSessions(NIL), pages);
    if EndOf(CollectSessions(NIL), pages).Following? {
      forall k | k in t && k.id > NIL
        ensures exists i :: 0 <= i < |Reads(CollectSessions(NIL), pages)| && Reads(CollectSessions(NIL), pages)[i].0 == k
      {
        WalkSkipsNothing(t, CollectSessions(NIL), pages, k);
      }
    }
  }
}
