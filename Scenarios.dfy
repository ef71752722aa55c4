/** The nested-unit scenarios of the person service's tests, replayed on
    the model of EfUnitOfWork.DoWorkAsync. Each person is added and saved in
    its own unit of work; fake services 1 and 2 run inside the first root
    nest and 3 and 4 inside the second, and `failing` names the one set up
    to throw (0: none). */
module Scenarios {
  import opened Storage
  import opened UnitOfWork
  import Manager

  /** Adding one person in a unit of work of its own. */
  function AddPerson(key: nat, next: Work): Work
  {
    Call(Add(Record(key), Save(Done)), false, false, next)
  }

  /** A fake service call: throws iff it is the failing one. */
  function FakeService(i: nat, failing: nat, next: Work): Work
  {
    if i == failing then Raise(i) else next
  }

  /** Root nest k (0 or 1): persons 3k+1, 3k+2, 3k+3, the second one in a
      nested unit together with fake service 2k+1, then fake service 2k+2. */
  function RootNest(k: nat, failing: nat): Work
  {
    AddPerson(3 * k + 1,
      Call(AddPerson(3 * k + 2, FakeService(2 * k + 1, failing, Done)), false, false,
        AddPerson(3 * k + 3, FakeService(2 * k + 2, failing, Done))))
  }

  /** Two root nests one after the other, nothing caught. */
  function AddForNestedTesting(failing: nat): Work
  {
    Call(RootNest(0, failing), false, false, Call(RootNest(1, failing), false, false, Done))
  }

  /** The same, with the first root nest's exception caught by the caller. */
  function AddWithTryCatchForFirstNest(failing: nat): Work
  {
    Try(Call(RootNest(0, failing), false, false, Done), Call(RootNest(1, failing), false, false, Done))
  }

  function Persons(k: nat): seq<Record>
  {
    [Record(3 * k + 1), Record(3 * k + 2), Record(3 * k + 3)]
  }

  /** What a root nest does inside a transaction: it saves its three
      persons unless one of its two fake services throws. */
  lemma RootNestEffect(k: nat, failing: nat)
    ensures var e := Denote(RootNest(k, failing), []);
            && (e.outcome.Throw? <==> failing == 2 * k + 1 || failing == 2 * k + 2)
            && (e.outcome.Ok? ==> e.saved == Persons(k))
            && e.tracked == []
  {
    var p1, p2, p3 := Record(3 * k + 1), Record(3 * k + 2), Record(3 * k + 3);
    var fake1 := FakeService(2 * k + 1, failing, Done);
    var fake2 := FakeService(2 * k + 2, failing, Done);
    var tail := AddPerson(3 * k + 3, fake2);
    var inner := AddPerson(3 * k + 2, fake1);
    AddPersonEffect(3 * k + 3, fake2);
    AddPersonEffect(3 * k + 2, fake1);
    AddPersonEffect(3 * k + 1, Call(inner, false, false, tail));
    var ei := Denote(inner, []);
    if failing == 2 * k + 1 {
      assert ei == Effect(Throw(Raised(failing)), [p2], []);
    } else {
      assert ei == Effect(Ok(()), [p2], []);
      if failing == 2 * k + 2 {
        assert Denote(tail, []) == Effect(Throw(Raised(failing)), [p3], []);
      } else {
        assert Denote(tail, []) == Effect(Ok(()), [p3], []);
        assert [p1] + ([p2] + [p3]) == Persons(k);
      }
    }
  }

  /** A person's own unit of work, run inside a transaction, saves exactly
      that person and leaves nothing tracked. */
  lemma AddPersonEffect(key: nat, next: Work)
    ensures Denote(AddPerson(key, next), []) == Then([Record(key)], Denote(next, []))
  {
    var r := Record(key);
    assert [] + [r] == [r] && [r] + [] == [r];
    assert Denote(Save(Done), [r]) == Effect(Ok(()), [r], []);
    assert Denote(Add(r, Save(Done)), []) == Effect(Ok(()), [r], []);
  }

  /** Without a try/catch: a failure in the first nest leaves no person; a
      failure in the second leaves the first nest's three; no failure
      commits all six. The exception reaches the caller iff one is thrown. */
  lemma NestedTestingCommits(failing: nat)
    requires failing <= 4
    ensures var (o, d) := RunSpec(AddForNestedTesting(failing), Fresh());
            && (o.Throw? <==> failing != 0)
            && d.committed == (if failing == 0 then Persons(0) + Persons(1)
                               else if failing <= 2 then []
                               else Persons(0))
  {
    RootNestEffect(0, failing);
    RootNestEffect(1, failing);
    SiblingNestsIndependent(RootNest(0, failing), RootNest(1, failing), Fresh());
  }

  /** With the first nest's exception caught: whichever fake service throws,
      three persons are committed, and six when none does; the exception
      reaches the caller only from the second nest. */
  lemma TryCatchNestedTestingCommits(failing: nat)
    requires failing <= 4
    ensures var (o, d) := RunSpec(AddWithTryCatchForFirstNest(failing), Fresh());
            && (o.Throw? <==> failing >= 3)
            && d.committed == (if failing == 0 then Persons(0) + Persons(1)
                               else if failing <= 2 then Persons(1)
                               else Persons(0))
  {
    RootNestEffect(0, failing);
    RootNestEffect(1, failing);
    CaughtRootNestThenSibling(RootNest(0, failing), RootNest(1, failing), Fresh());
  }

  /** Rollback leaves the change tracker alone: a row added but never saved
      in a nest that throws is still tracked afterwards, and the next nest's
      save commits it. */
  lemma UnsavedAddOutlivesRollback(r: Record)
    ensures var w := Try(Call(Add(r, Raise(0)), false, false, Done), Call(Save(Done), false, false, Done));
            RunSpec(w, Fresh()).1.committed == [r]
  {
    var d := Fresh();
    OwnerRollsBackOnThrow(Add(r, Raise(0)), false, d);
    var d1 := RunSpec(Call(Add(r, Raise(0)), false, false, Done), d).1;
    assert d1.tracked == [r] && !d1.txOpen;
    OwnerCommitsOnSuccess(Save(Done), false, d1);
  }

  // The same tests through EfUnitOfWorkManager, which is what the tests
  // hand to the services: every unit is started and ended through the
  // manager, and a unit whose work throws is ended with forceRollback.

  /** A person's own unit: it saves that person and opens nothing. */
  function PersonUnit(key: nat): Manager.Nest
  {
    Manager.Nest([Record(key)], [], [], false, false, false)
  }

  /** Root nest k through the manager: units for persons 3k+1, then a unit
      whose child saves 3k+2 and which then calls fake service 2k+1, then
      3k+3; the root unit calls fake service 2k+2 last. */
  function ManagedRootNest(k: nat, failing: nat): Manager.Nest
  {
    var inner := Manager.Nest([], [PersonUnit(3 * k + 2)], [], failing == 2 * k + 1, false, false);
    Manager.Nest([], [PersonUnit(3 * k + 1), inner, PersonUnit(3 * k + 3)], [],
                 failing == 2 * k + 2, false, false)
  }

  /** Root nest k saves its three persons in order, and no unit of it
      throws unless one of its two fake services is the failing one. */
  lemma ManagedRootNestShape(k: nat, failing: nat)
    ensures Manager.Rows(ManagedRootNest(k, failing)) == Persons(k)
    ensures Manager.Succeeds(ManagedRootNest(k, failing)) <==> failing != 2 * k + 1 && failing != 2 * k + 2
  {
    var n := ManagedRootNest(k, failing);
    var p1, p2, p3 := PersonUnit(3 * k + 1), PersonUnit(3 * k + 2), PersonUnit(3 * k + 3);
    var inner := n.children[1];
    assert [p2][1..] == [] && [p3][1..] == [];
    assert n.children[1..] == [inner, p3] && [inner, p3][1..] == [p3];
    assert Manager.RowsOf([p2]) == [Record(3 * k + 2)] + [];
    assert Manager.Rows(inner) == [] + [Record(3 * k + 2)] + [];
    assert Manager.RowsOf([p3]) == [Record(3 * k + 3)] + [];
    assert Manager.RowsOf([inner, p3]) == [Record(3 * k + 2), Record(3 * k + 3)];
    assert Manager.RowsOf(n.children) == [Record(3 * k + 1)] + [Record(3 * k + 2), Record(3 * k + 3)];
    assert Manager.Rows(n) == [] + Manager.RowsOf(n.children) + [];
    assert Manager.Succeeds(p1) && Manager.Succeeds(p2) && Manager.Succeeds(p3);
    assert Manager.AllSucceed([p3]) && Manager.AllSucceed(inner.children);
    assert Manager.AllSucceed([inner, p3]) <==> failing != 2 * k + 1;
    assert Manager.AllSucceed(n.children) <==> failing != 2 * k + 1;
  }

  /** Without a try/catch, through the manager: none, the first three or all
      six persons are committed exactly as with the ambient unit of work,
      and the counter is back at 0 afterwards. */
  lemma ManagedNestedTestingCommits(failing: nat)
    requires failing <= 4
    ensures var (o, c, d) := Manager.ManagedAll([ManagedRootNest(0, failing), ManagedRootNest(1, failing)], 0, Fresh());
            && (o.Throw? <==> failing != 0)
            && c == 0
            && d.committed == (if failing == 0 then Persons(0) + Persons(1)
                               else if failing <= 2 then []
                               else Persons(0))
  {
    var r0, r1 := ManagedRootNest(0, failing), ManagedRootNest(1, failing);
    ManagedRootNestShape(0, failing);
    ManagedRootNestShape(1, failing);
    Manager.RootNestAllOrNothing(r0, Fresh());
    var (o1, c1, d1) := Manager.Managed(r0, 0, Fresh());
    Manager.RootNestAllOrNothing(r1, d1);
    assert [r0, r1][1..] == [r1] && [r1][1..] == [];
    if o1.Ok? {
      var (o2, c2, d2) := Manager.Managed(r1, c1, d1);
      assert Manager.ManagedAll([r1], c1, d1) == (if o2.Throw? then (o2, c2, d2) else (Ok(()), c2, d2));
    }
  }

  /** With the first nest's exception caught, through the manager: the
      second nest still runs from a zero counter, and the committed persons
      are those of the ambient unit of work's scenario. */
  lemma ManagedTryCatchNestedTestingCommits(failing: nat)
    requires failing <= 4
    ensures var (o1, c1, d1) := Manager.Managed(ManagedRootNest(0, failing), 0, Fresh());
            var (o2, c2, d2) := Manager.Managed(ManagedRootNest(1, failing), c1, d1);
            && (o1.Throw? <==> failing == 1 || failing == 2)
            && (o2.Throw? <==> failing >= 3)
            && c2 == 0
            && d2.committed == (if failing == 0 then Persons(0) + Persons(1)
                                else if failing <= 2 then Persons(1)
                                else Persons(0))
  {
    var r0, r1 := ManagedRootNest(0, failing), ManagedRootNest(1, failing);
    ManagedRootNestShape(0, failing);
    ManagedRootNestShape(1, failing);
    Manager.RootNestAllOrNothing(r0, Fresh());
    var d1 := Manager.Managed(r0, 0, Fresh()).2;
    Manager.RootNestAllOrNothing(r1, d1);
  }
}
