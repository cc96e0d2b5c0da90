/** The stable order in which a batch is applied: sessions, then solves, then by entity id. */
module Ordering {
  import opened Records

  /** Where a mutation sorts: the rank of its entity type, then the entity id. */
  datatype Slot = Slot(rank: nat, id: Uuid)

  function EntityRank(entity: Entity): nat {
    match entity
    case SessionEntity => 0
    case SolveEntity => 1
    case UnknownEntity => 2
  }

  function SlotOf(m: Mutation): Slot {
    Slot(EntityRank(m.entity), m.entityId)
  }

  predicate Below(a: Slot, b: Slot) {
    a.rank < b.rank || (a.rank == b.rank && a.id < b.id)
  }

  predicate Sorted(s: seq<Mutation>) {
    forall i, j :: 0 <= i < j < |s| ==> !Below(SlotOf(s[j]), SlotOf(s[i]))
  }

  /** Insert behind everything that does not sort after `m`. */
  function InsertStable(s: seq<Mutation>, m: Mutation): seq<Mutation>
    decreases |s|
  {
    if s == [] || !Below(SlotOf(m), SlotOf(s[|s| - 1])) then s + [m]
    else InsertStable(s[..|s| - 1], m) + [s[|s| - 1]]
  }

  /** The stable sort of a batch. */
  function Ordered(s: seq<Mutation>): seq<Mutation>
    decreases |s|
  {
    if s == [] then [] else InsertStable(Ordered(s[..|s| - 1]), s[|s| - 1])
  }

  /** The subsequence of one slot, in request order. */
  function Own(s: seq<Mutation>, slot: Slot): seq<Mutation>
    decreases |s|
  {
    if s == [] then []
    else Own(s[..|s| - 1], slot) + if SlotOf(s[|s| - 1]) == slot then [s[|s| - 1]] else []
  }

  // ---- The sort keeps the elements, sorts them, and is stable ----

  lemma {:induction false} InsertKeeps(s: seq<Mutation>, m: Mutation)
    ensures multiset(InsertStable(s, m)) == multiset(s) + multiset{m}
    decreases |s|
  {
    if s != [] && Below(SlotOf(m), SlotOf(s[|s| - 1])) {
      InsertKeeps(s[..|s| - 1], m);
      assert s == s[..|s| - 1] + [s[|s| - 1]];
    }
  }

  lemma {:induction false} OrderedKeeps(s: seq<Mutation>)
    ensures multiset(Ordered(s)) == multiset(s)
    decreases |s|
  {
    if s != [] {
      OrderedKeeps(s[..|s| - 1]);
      InsertKeeps(Ordered(s[..|s| - 1]), s[|s| - 1]);
      assert s == s[..|s| - 1] + [s[|s| - 1]];
    }
  }

  /** Every element of the insertion is the new one or was there. */
  lemma {:induction false} InsertSorted(s: seq<Mutation>, m: Mutation)
    requires Sorted(s)
    ensures Sorted(InsertStable(s, m))
    ensures forall x <- InsertStable(s, m) :: x == m || x in s
    decreases |s|
  {
    if s != [] && Below(SlotOf(m), SlotOf(s[|s| - 1])) {
      var s', last := s[..|s| - 1], s[|s| - 1];
      InsertSorted(s', m);
      assert forall x <- s' :: !Below(SlotOf(last), SlotOf(x));
    }
  }

  /** Sessions stand before solves and solves before anything else; within each kind ids do not fall. */
  lemma {:induction false} SortedMeans(s: seq<Mutation>, i: nat, j: nat)
    requires Sorted(s) && i < j < |s|
    ensures s[j].entity.SessionEntity? ==> s[i].entity.SessionEntity?
    ensures s[i].entity.UnknownEntity? ==> s[j].entity.UnknownEntity?
    ensures s[i].entity == s[j].entity ==> s[i].entityId <= s[j].entityId
  {
    assert !Below(SlotOf(s[j]), SlotOf(s[i]));
  }

  lemma {:induction false} OrderedSorted(s: seq<Mutation>)
    ensures Sorted(Ordered(s))
    decreases |s|
  {
    if s != [] {
      OrderedSorted(s[..|s| - 1]);
      InsertSorted(Ordered(s[..|s| - 1]), s[|s| - 1]);
    }
  }

  lemma {:induction false} OwnSnoc(s: seq<Mutation>, m: Mutation, slot: Slot)
    ensures Own(s + [m], slot) == Own(s, slot) + if SlotOf(m) == slot then [m] else []
  {
    assert (s + [m])[..|s|] == s;
  }

  lemma {:induction false} InsertIsStable(s: seq<Mutation>, m: Mutation, slot: Slot)
    ensures Own(InsertStable(s, m), slot) == Own(s + [m], slot)
    decreases |s|
  {
    if s != [] && Below(SlotOf(m), SlotOf(s[|s| - 1])) {
      var s', last := s[..|s| - 1], s[|s| - 1];
      InsertIsStable(s', m, slot);
      OwnSnoc(InsertStable(s', m), last, slot);
      OwnSnoc(s', m, slot);
      OwnSnoc(s, m, slot);
    }
  }

  lemma {:induction false} OrderedIsStable(s: seq<Mutation>, slot: Slot)
    ensures Own(Ordered(s), slot) == Own(s, slot)
    decreases |s|
  {
    if s != [] {
      var s', last := s[..|s| - 1], s[|s| - 1];
      OrderedIsStable(s', slot);
      InsertIsStable(Ordered(s'), last, slot);
      OwnSnoc(Ordered(s'), last, slot);
    }
  }

  // ---- Sorted and stable leaves only one possible order ----

  lemma {:induction false} OwnNonempty(s: seq<Mutation>, i: nat)
    requires i < |s|
    ensures Own(s, SlotOf(s[i])) != []
    decreases |s|
  {
    if i < |s| - 1 {
      OwnNonempty(s[..|s| - 1], i);
    }
  }

  lemma {:induction false} OwnMember(s: seq<Mutation>, slot: Slot)
    requires Own(s, slot) != []
    ensures exists i :: 0 <= i < |s| && SlotOf(s[i]) == slot
    decreases |s|
  {
    if SlotOf(s[|s| - 1]) != slot {
      OwnMember(s[..|s| - 1], slot);
      var i :| 0 <= i < |s| - 1 && SlotOf(s[..|s| - 1][i]) == slot;
      assert SlotOf(s[i]) == slot;
    }
  }

  /** The last slot of a sorted sequence is the greatest slot that occurs in it. */
  lemma {:induction false} LastSlots(a: seq<Mutation>, b: seq<Mutation>)
    requires Sorted(a) && Sorted(b) && a != []
    requires forall slot :: Own(a, slot) == Own(b, slot)
    ensures b != [] && SlotOf(a[|a| - 1]) == SlotOf(b[|b| - 1])
  {
    var top := SlotOf(a[|a| - 1]);
    OwnNonempty(a, |a| - 1);
    OwnMember(b, top);
    var i :| 0 <= i < |b| && SlotOf(b[i]) == top;
    var top' := SlotOf(b[|b| - 1]);
    OwnNonempty(b, |b| - 1);
    OwnMember(a, top');
    var j :| 0 <= j < |a| && SlotOf(a[j]) == top';
  }

  lemma {:induction false} OwnWithoutLast(a: seq<Mutation>, b: seq<Mutation>, slot: Slot)
    requires a != [] && b != [] && a[|a| - 1] == b[|b| - 1]
    requires Own(a, slot) == Own(b, slot)
    ensures Own(a[..|a| - 1], slot) == Own(b[..|b| - 1], slot)
  {
    var last := if SlotOf(a[|a| - 1]) == slot then [a[|a| - 1]] else [];
    var own, n := Own(a, slot), |Own(a, slot)| - |last|;
    assert Own(a[..|a| - 1], slot) == own[..n] == Own(b[..|b| - 1], slot);
  }

  lemma {:induction false} OrderIsUnique(a: seq<Mutation>, b: seq<Mutation>)
    requires Sorted(a) && Sorted(b)
    requires forall slot :: Own(a, slot) == Own(b, slot)
    ensures a == b
    decreases |a|
  {
    if a == [] {
      if b != [] {
        OwnNonempty(b, 0);
      }
    } else {
      LastSlots(a, b);
      var a', b' := a[..|a| - 1], b[..|b| - 1];
      var x, y := a[|a| - 1], b[|b| - 1];
      assert Own(a, SlotOf(x)) == Own(a', SlotOf(x)) + [x] && Own(b, SlotOf(x)) == Own(b', SlotOf(x)) + [y];
      assert x == y by {
        assert Own(a, SlotOf(x))[|Own(a, SlotOf(x))| - 1] == x;
        assert Own(b, SlotOf(x))[|Own(b, SlotOf(x))| - 1] == y;
      }
      forall slot
        ensures Own(a', slot) == Own(b', slot)
      {
        OwnWithoutLast(a, b, slot);
      }
      OrderIsUnique(a', b');
      assert a == a' + [x] && b == b' + [y];
    }
  }

  // ---- Session and solve mutations come first ----

  predicate IsKnown(m: Mutation) {
    !m.entity.UnknownEntity?
  }

  /** The session and solve mutations of a batch. */
  function Known(s: seq<Mutation>): seq<Mutation>
    decreases |s|
  {
    if s == [] then []
    else Known(s[..|s| - 1]) + if IsKnown(s[|s| - 1]) then [s[|s| - 1]] else []
  }

  lemma {:induction false} KnownOwn(s: seq<Mutation>, slot: Slot)
    ensures Own(Known(s), slot) == if slot.rank < 2 then Own(s, slot) else []
    decreases |s|
  {
    if s != [] {
      var s', last := s[..|s| - 1], s[|s| - 1];
      KnownOwn(s', slot);
      OwnSnoc(Known(s'), last, slot);
      assert Known(s') + [] == Known(s');
    }
  }

  lemma {:induction false} KnownSorted(s: seq<Mutation>)
    requires Sorted(s)
    ensures Sorted(Known(s))
    ensures forall x <- Known(s) :: x in s && IsKnown(x)
    decreases |s|
  {
    if s != [] {
      var s', last := s[..|s| - 1], s[|s| - 1];
      KnownSorted(s');
      assert forall x <- s' :: !Below(SlotOf(last), SlotOf(x));
    }
  }

  /** A sorted batch is its known mutations followed by the others. */
  lemma {:induction false} KnownFirst(s: seq<Mutation>)
    requires Sorted(s)
    ensures |Known(s)| <= |s| && s[..|Known(s)|] == Known(s)
    ensures forall i :: |Known(s)| <= i < |s| ==> !IsKnown(s[i])
    decreases |s|
  {
    if s != [] {
      var s', last := s[..|s| - 1], s[|s| - 1];
      KnownFirst(s');
      if IsKnown(last) {
        assert forall i :: 0 <= i < |s'| ==> !Below(SlotOf(last), SlotOf(s[i]));
        assert forall i :: 0 <= i < |s'| ==> IsKnown(s'[i]);
        assert s == s' + [last];
      }
    }
  }

  /**
    Batches that agree on each session's and each solve's own mutations are applied in the same
    order as far as sessions and solves are concerned.
   */
  lemma {:induction false} SameKnownOrder(a: seq<Mutation>, b: seq<Mutation>)
    requires forall slot: Slot :: slot.rank < 2 ==> Own(a, slot) == Own(b, slot)
    ensures Known(Ordered(a)) == Known(Ordered(b))
  {
    OrderedSorted(a);
    OrderedSorted(b);
    KnownSorted(Ordered(a));
    KnownSorted(Ordered(b));
    forall slot
      ensures Own(Known(Ordered(a)), slot) == Own(Known(Ordered(b)), slot)
    {
      KnownOwn(Ordered(a), slot);
      KnownOwn(Ordered(b), slot);
      OrderedIsStable(a, slot);
      OrderedIsStable(b, slot);
    }
    OrderIsUnique(Known(Ordered(a)), Known(Ordered(b)));
  }
}
