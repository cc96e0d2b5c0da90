/** Small histories and runs from which the counterexamples are built. */
module SmallRuns {
  import opened Records
  import opened Mutations
  import opened History
  import opened Replication

  /** The change and the mutation that take session 1 to version `v`. */
  function Edit(v: nat): Change {
    Change(v, SessionKey(1), Upsert, Row(SessionBody("3x3"), v, 0, None))
  }

  function EditMutation(v: nat): Mutation {
    Mutation(v, SessionEntity, 1, Upsert, v - 1, Some(Input(1, SessionBody("3x3"), true)))
  }

  function Edits(n: nat): (s: seq<Change>)
    ensures |s| == n && forall i :: 0 <= i < n ==> s[i] == Edit(i + 1)
  {
    seq(n, i requires 0 <= i < n => Edit(i + 1))
  }

  function EditMutations(n: nat): (s: seq<Mutation>)
    ensures |s| == n && forall i :: 0 <= i < n ==> s[i] == EditMutation(i + 1)
  {
    seq(n, i requires 0 <= i < n => EditMutation(i + 1))
  }

  lemma {:induction false} EditJustified(n: nat, t: Tables)
    requires n > 0 && t == if n == 1 then map[] else map[SessionKey(1) := Edit(n - 1).row]
    ensures Justifies(t, EditMutation(n), Edit(n))
  {
  }

  lemma {:induction false} EditsReplay(n: nat)
    ensures Replay(map[], Edits(n)) == if n == 0 then map[] else map[SessionKey(1) := Edit(n).row]
  {
    if n > 0 {
      EditsReplay(n - 1);
      assert Edits(n) == Edits(n - 1) + [Edit(n)];
      ReplaySnoc(map[], Edits(n - 1), Edit(n));
    }
  }

  lemma {:induction false} EditsAreLegal(n: nat)
    ensures Legal(Edits(n), EditMutations(n))
    ensures Replay(map[], Edits(n)) == if n == 0 then map[] else map[SessionKey(1) := Edit(n).row]
  {
    EditsReplay(n);
    forall i | 0 <= i < n
      ensures Edits(n)[i].id > 0 && Justifies(TablesAt(Edits(n), i), EditMutations(n)[i], Edits(n)[i])
    {
      assert Edits(n)[..i] == Edits(i);
      EditsReplay(i);
      EditJustified(i + 1, Replay(map[], Edits(i)));
    }
  }

  /** Take one more step at the end of a run. */
  lemma {:induction false} Take(ws: seq<World>, ss: seq<Step>, s: Step) returns (ws': seq<World>, ss': seq<Step>)
    requires Run(ws, ss) && Enabled(ws[|ws| - 1], s)
    ensures Run(ws', ss') && ws' == ws + [Do(ws[|ws| - 1], s)] && ss' == ss + [s]
  {
    ExtendRun(ws, ss, s);
    ws', ss' := ws + [Do(ws[|ws| - 1], s)], ss + [s];
  }
}
