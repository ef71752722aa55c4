/** The depth-counter unit-of-work manager (EfUnitOfWorkManager): a counter
    of the units currently open decides which new unit is the parent (the
    one started while the counter is 0), and ending a unit decrements the
    counter and hands the caller's forceRollback flag to the unit. */
module Manager {
  import opened Storage

  /** Post-increment of the counter: the new counter, and whether the unit
      created with the old value is the parent. */
  function StartStep(count: int): (int, bool)
  {
    (count + 1, count == 0)
  }

  /** Decrement of the counter; no guard against ending too often. */
  function EndStep(count: int): int
  {
    count - 1
  }

  /** What a unit's StartAsync does: a parent begins the transaction, a
      child has no physical effect. */
  function StartEffect(isParent: bool, beginFails: bool, d: Db): (Outcome<()>, Db)
  {
    if isParent then BeginOp(d, beginFails) else (Ok(()), d)
  }

  /** What a unit's EndAsync does: the unit that began the transaction
      commits it, or rolls it back when forceRollback is set; any other unit
      has no physical effect. */
  function EndEffect(ownsTransaction: bool, forceRollback: bool, commitFails: bool, d: Db): (Outcome<()>, Db)
  {
    if !ownsTransaction then (Ok(()), d)
    else if forceRollback then (Ok(()), RollbackOp(d))
    else CommitOp(d, commitFails)
  }

  /** A unit handed out by the manager: a parent or a child over the shared
      context. */
  class ScopedUnit {
    const store: Store
    const isParent: bool
    var ownsTransaction: bool

    constructor (store: Store, isParent: bool)
      ensures this.store == store && this.isParent == isParent && !ownsTransaction
    {
      this.store := store;
      this.isParent := isParent;
      ownsTransaction := false;
    }

    method Start(beginFails: bool) returns (o: Outcome<()>)
      modifies this, store
      ensures (o, store.Snapshot()) == StartEffect(isParent, beginFails, old(store.Snapshot()))
      ensures ownsTransaction == (isParent && o.Ok?)
    {
      if isParent {
        o := store.BeginTransaction(beginFails);
      } else {
        o := Ok(());
      }
      ownsTransaction := isParent && o.Ok?;
    }

    method End(forceRollback: bool, commitFails: bool) returns (o: Outcome<()>)
      modifies this, store
      ensures (o, store.Snapshot()) == EndEffect(old(ownsTransaction), forceRollback, commitFails, old(store.Snapshot()))
      ensures ownsTransaction == (old(ownsTransaction) && o.Throw?)
    {
      if !ownsTransaction {
        return Ok(());
      }
      if forceRollback {
        store.Rollback();
        o := Ok(());
      } else {
        o := store.Commit(commitFails);
      }
      ownsTransaction := o.Throw?;
    }

    /** DisposeAsync: drops the transaction this unit began, if still open. */
    method Dispose()
      modifies this, store
      ensures old(ownsTransaction) ==> store.Snapshot() == DisposeOp(old(store.Snapshot()))
      ensures !old(ownsTransaction) ==> store.Snapshot() == old(store.Snapshot())
      ensures !ownsTransaction
    {
      if ownsTransaction {
        store.Dispose();
        ownsTransaction := false;
      }
    }
  }

  class UnitOfWorkManager {
    var numberOfUnitOfWork: int
    const store: Store

    constructor (store: Store)
      ensures numberOfUnitOfWork == 0 && this.store == store
    {
      numberOfUnitOfWork := 0;
      this.store := store;
    }

    /** EndUnitOfWorkAsync: decrements the counter without any check and
        forwards forceRollback (false unless the caller says otherwise). */
    method EndUnitOfWork(unit: ScopedUnit, forceRollback: bool := false, commitFails: bool := false)
      returns (o: Outcome<()>)
      requires numberOfUnitOfWork > 0
      modifies this, unit, unit.store
      ensures numberOfUnitOfWork == old(numberOfUnitOfWork) - 1 == EndStep(old(numberOfUnitOfWork))
      ensures (o, unit.store.Snapshot()) == EndEffect(old(unit.ownsTransaction), forceRollback, commitFails, old(unit.store.Snapshot()))
      ensures unit.ownsTransaction == (old(unit.ownsTransaction) && o.Throw?)
    {
      numberOfUnitOfWork := numberOfUnitOfWork - 1;
      o := unit.End(forceRollback, commitFails);
    }

    /** StartOneUnitOfWorkAsync: the new unit is the parent iff the counter
        was 0, and the counter is incremented before the unit starts. If the
        unit fails to start it is disposed and the exception rethrown; the
        counter keeps its increment. */
    method StartOneUnitOfWork(beginFails: bool) returns (r: Outcome<ScopedUnit>)
      modifies this, store
      ensures numberOfUnitOfWork == old(numberOfUnitOfWork) + 1
      ensures var (o, d) := StartEffect(old(numberOfUnitOfWork) == 0, beginFails, old(store.Snapshot()));
              && store.Snapshot() == d
              && (r.Ok? <==> o.Ok?)
              && (r.Throw? ==> r.error == o.error)
      ensures r.Ok? ==> && fresh(r.value) && r.value.store == store
                        && r.value.isParent == (old(numberOfUnitOfWork) == 0)
                        && r.value.ownsTransaction == r.value.isParent
      ensures (numberOfUnitOfWork, old(numberOfUnitOfWork) == 0) == StartStep(old(numberOfUnitOfWork))
    {
      var isParent := numberOfUnitOfWork == 0;
      numberOfUnitOfWork := numberOfUnitOfWork + 1;
      var unit := new ScopedUnit(store, isParent);
      var started := unit.Start(beginFails);
      if started.Throw? {
        unit.Dispose();
        return Throw(started.error);
      }
      return Ok(unit);
    }
  }

  /** A call on the manager: StartOneUnitOfWorkAsync or EndUnitOfWorkAsync. */
  datatype ManagerStep = Open | Close

  /** The counter after a sequence of calls, and for each Open in order
      whether it produced a parent. */
  datatype Replayed = Replayed(count: int, parents: seq<bool>)

  function Replay(count: int, calls: seq<ManagerStep>): Replayed
    decreases calls
  {
    if calls == [] then Replayed(count, [])
    else if calls[0] == Open then
      var (next, parent) := StartStep(count);
      var rest := Replay(next, calls[1..]);
      rest.(parents := [parent] + rest.parents)
    else Replay(EndStep(count), calls[1..])
  }

  /** A unit of work and the units its work opens, each started and ended
      around its children. Its own work saves `before`, runs the children one
      after another, saves `after`, and then throws iff `raises`. The two
      failure flags are those of the database when this unit begins or
      commits, which only matter for a parent. */
  datatype Nest = Nest(before: seq<Record>, children: seq<Nest>, after: seq<Record>,
                       raises: bool, beginFails: bool, commitFails: bool)

  function Steps(n: Nest): seq<ManagerStep>
    decreases n
  {
    [Open] + StepsOf(n.children) + [Close]
  }

  function StepsOf(ns: seq<Nest>): seq<ManagerStep>
    decreases ns
  {
    if ns == [] then [] else Steps(ns[0]) + StepsOf(ns[1..])
  }

  /** The number of units in a nest. */
  function Size(n: Nest): nat
    decreases n
  {
    1 + SizeOf(n.children)
  }

  function SizeOf(ns: seq<Nest>): nat
    decreases ns
  {
    if ns == [] then 0 else Size(ns[0]) + SizeOf(ns[1..])
  }

  function Falses(k: nat): (s: seq<bool>)
    ensures |s| == k && forall i :: 0 <= i < k ==> !s[i]
  {
    seq(k, _ => false)
  }

  function CountTrue(s: seq<bool>): nat
  {
    if s == [] then 0 else (if s[0] then 1 else 0) + CountTrue(s[1..])
  }

  /** The parent flags of root nests run one after another from 0. */
  function RootFlags(ns: seq<Nest>): seq<bool>
    decreases ns
  {
    if ns == [] then [] else [true] + Falses(SizeOf(ns[0].children)) + RootFlags(ns[1..])
  }

  function Opens(calls: seq<ManagerStep>): nat
  {
    if calls == [] then 0 else (if calls[0] == Open then 1 else 0) + Opens(calls[1..])
  }

  function Closes(calls: seq<ManagerStep>): nat
  {
    if calls == [] then 0 else (if calls[0] == Close then 1 else 0) + Closes(calls[1..])
  }

  /** The counter always equals its start value plus the units started and
      not yet ended, and every start decides parenthood once. */
  lemma {:induction false} CounterCountsOpenUnits(count: int, calls: seq<ManagerStep>)
    ensures Replay(count, calls).count == count + Opens(calls) - Closes(calls)
    ensures |Replay(count, calls).parents| == Opens(calls)
    decreases calls
  {
    if calls != [] {
      if calls[0] == Open {
        CounterCountsOpenUnits(count + 1, calls[1..]);
      } else {
        CounterCountsOpenUnits(count - 1, calls[1..]);
      }
    }
  }

  /** Replaying two sequences of calls one after the other. */
  lemma {:induction false} ReplayAppend(count: int, a: seq<ManagerStep>, b: seq<ManagerStep>)
    ensures var ra := Replay(count, a);
            var rb := Replay(ra.count, b);
            Replay(count, a + b) == Replayed(rb.count, ra.parents + rb.parents)
    decreases a
  {
    if a == [] {
      assert a + b == b;
    } else {
      assert (a + b)[0] == a[0];
      assert (a + b)[1..] == a[1..] + b;
      if a[0] == Open {
        ReplayAppend(count + 1, a[1..], b);
      } else {
        ReplayAppend(count - 1, a[1..], b);
      }
    }
  }

  /** A nest started at counter value `count` ends at the same value; its
      first unit is the parent iff `count` is 0, and no other unit of it
      ever is: exactly one owner per root nest. */
  lemma {:induction false} NestReplay(n: Nest, count: int)
    requires count >= 0
    ensures Replay(count, Steps(n)) == Replayed(count, [count == 0] + Falses(SizeOf(n.children)))
    decreases n, 1
  {
    var inner := StepsOf(n.children);
    ChildrenReplay(n.children, count + 1);
    ReplayAppend(count + 1, inner, [Close]);
    assert Steps(n) == [Open] + (inner + [Close]);
    assert Replay(count, Steps(n)).parents == [count == 0] + (Falses(SizeOf(n.children)) + []);
  }

  /** Units started while the counter is positive are never parents, and
      a sequence of complete nests leaves the counter where it found it. */
  lemma {:induction false} ChildrenReplay(ns: seq<Nest>, count: int)
    requires count > 0
    ensures Replay(count, StepsOf(ns)) == Replayed(count, Falses(SizeOf(ns)))
    decreases ns, 0
  {
    if ns != [] {
      NestReplay(ns[0], count);
      ChildrenReplay(ns[1..], count);
      ReplayAppend(count, Steps(ns[0]), StepsOf(ns[1..]));
      assert [count == 0] + Falses(SizeOf(ns[0].children)) + Falses(SizeOf(ns[1..])) == Falses(SizeOf(ns));
    }
  }

  /** Root nests run one after another from a fresh manager: the counter
      returns to 0 after each, so each opens with a fresh parent and no other
      unit is one; there are exactly as many parents as root nests. */
  lemma {:induction false} SiblingRootsEachHaveOneParent(ns: seq<Nest>)
    ensures Replay(0, StepsOf(ns)) == Replayed(0, RootFlags(ns))
    ensures CountTrue(RootFlags(ns)) == |ns|
    decreases ns
  {
    if ns != [] {
      NestReplay(ns[0], 0);
      SiblingRootsEachHaveOneParent(ns[1..]);
      ReplayAppend(0, Steps(ns[0]), StepsOf(ns[1..]));
      CountTrueAppend([true] + Falses(SizeOf(ns[0].children)), RootFlags(ns[1..]));
      CountTrueAppend([true], Falses(SizeOf(ns[0].children)));
      CountTrueFalses(SizeOf(ns[0].children));
    }
  }

  /** If the first unit fails to start, the caller never gets it and never
      ends it, so the counter stays at 1: no later unit is ever a parent, and
      so none of them ever begins a transaction. */
  lemma FailedRootStartLeavesNoParent(ns: seq<Nest>)
    ensures Replay(0, [Open] + StepsOf(ns)) == Replayed(1, [true] + Falses(SizeOf(ns)))
  {
    ChildrenReplay(ns, 1);
    assert ([Open] + StepsOf(ns))[1..] == StepsOf(ns);
  }

  lemma {:induction false} CountTrueAppend(a: seq<bool>, b: seq<bool>)
    ensures CountTrue(a + b) == CountTrue(a) + CountTrue(b)
    decreases a
  {
    if a == [] {
      assert a + b == b;
    } else {
      assert (a + b)[1..] == a[1..] + b;
      CountTrueAppend(a[1..], b);
    }
  }

  lemma {:induction false} CountTrueFalses(k: nat)
    ensures CountTrue(Falses(k)) == 0
    decreases k
  {
    if k > 0 {
      assert Falses(k)[1..] == Falses(k - 1);
      CountTrueFalses(k - 1);
    }
  }

  // The manager and its units composed over the context: a caller starts a
  // unit, does its work (its own rows and the nests it opens), and ends the
  // unit, with forceRollback set when the work throws, before rethrowing.

  /** The context after adding `rows` to the change tracker and saving. */
  function SaveRows(d: Db, rows: seq<Record>): Db
  {
    SaveOp(d.(tracked := d.tracked + rows))
  }

  /** One unit of a nest run through the manager: the outcome, the counter
      and the context afterwards. A unit whose start throws is disposed by
      the manager, which owns nothing, and its exception reaches the caller. */
  function Managed(n: Nest, count: int, d: Db): (Outcome<()>, int, Db)
    decreases n, 1
  {
    var (count1, isParent) := StartStep(count);
    var (started, d1) := StartEffect(isParent, n.beginFails, d);
    if started.Throw? then (started, count1, d1)
    else
      var (w, count2, d2) := WorkOf(n, count1, d1);
      if w.Throw? then (w, EndStep(count2), EndEffect(isParent, true, n.commitFails, d2).1)
      else
        var (e, d3) := EndEffect(isParent, false, n.commitFails, d2);
        (e, EndStep(count2), d3)
  }

  /** The work inside a started unit: save `before`, run the children, save
      `after`, throw iff `raises`; the first exception stops it. */
  function WorkOf(n: Nest, count: int, d: Db): (Outcome<()>, int, Db)
    decreases n, 0
  {
    var (o, c, d1) := ManagedAll(n.children, count, SaveRows(d, n.before));
    if o.Throw? then (o, c, d1)
    else if n.raises then (Throw(Raised(0)), c, SaveRows(d1, n.after))
    else (Ok(()), c, SaveRows(d1, n.after))
  }

  /** Nests run one after another; the first exception reaches the caller. */
  function ManagedAll(ns: seq<Nest>, count: int, d: Db): (Outcome<()>, int, Db)
    decreases ns, 2
  {
    if ns == [] then (Ok(()), count, d)
    else
      var (o, c, d1) := Managed(ns[0], count, d);
      if o.Throw? then (o, c, d1) else ManagedAll(ns[1..], c, d1)
  }

  /** No unit of the nest throws. */
  predicate Succeeds(n: Nest)
    decreases n
  {
    !n.raises && AllSucceed(n.children)
  }

  predicate AllSucceed(ns: seq<Nest>)
    decreases ns
  {
    ns == [] || (Succeeds(ns[0]) && AllSucceed(ns[1..]))
  }

  /** Every row the nest saves when nothing throws, in order. */
  function Rows(n: Nest): seq<Record>
    decreases n
  {
    n.before + RowsOf(n.children) + n.after
  }

  function RowsOf(ns: seq<Nest>): seq<Record>
    decreases ns
  {
    if ns == [] then [] else Rows(ns[0]) + RowsOf(ns[1..])
  }

  /** The transaction calls a root nest issues. */
  function RootEvents(n: Nest): seq<Event>
  {
    if n.beginFails then []
    else if !Succeeds(n) then [Began, RolledBack]
    else if n.commitFails then [Began]
    else [Began, Committed]
  }

  /** Ending units restores the counter: a nest started at a positive
      counter leaves it as it was, and one started at 0 leaves 0, or 1 when
      its own start threw. */
  lemma {:induction false} ManagedCounter(n: Nest, count: int, d: Db)
    requires count >= 0
    ensures var (o, c, _) := Managed(n, count, d);
            c == count || (count == 0 && c == 1 && o.Throw?)
    decreases n, 1
  {
    var (started, d1) := StartEffect(count == 0, n.beginFails, d);
    if started.Ok? {
      ManagedAllCounter(n.children, count + 1, SaveRows(d1, n.before));
    }
  }

  lemma {:induction false} ManagedAllCounter(ns: seq<Nest>, count: int, d: Db)
    requires count >= 0
    ensures var (o, c, _) := ManagedAll(ns, count, d);
            c == count || (count == 0 && c == 1 && o.Throw?)
    decreases ns, 2
  {
    if ns != [] {
      ManagedCounter(ns[0], count, d);
      var (o, c, d1) := Managed(ns[0], count, d);
      if o.Ok? {
        ManagedAllCounter(ns[1..], c, d1);
      }
    }
  }

  /** A unit started while the counter is positive and a transaction is
      current is a child: whether it succeeds or throws, neither it nor its
      children begin, commit or roll back anything, and the counter returns
      to where it was. On success its rows and its children's wait in the
      transaction, in order. */
  lemma {:induction false} ChildJoins(n: Nest, count: int, d: Db)
    requires count > 0 && d.txOpen && d.tracked == []
    ensures var (o, c, d') := Managed(n, count, d);
            && c == count && d'.committed == d.committed && d'.txOpen
            && d'.log == d.log && d'.tracked == []
            && (o.Ok? <==> Succeeds(n))
            && (o.Ok? ==> d'.txWrites == d.txWrites + Rows(n))
    decreases n, 1
  {
    assert d.tracked + n.before == n.before;
    var d0 := SaveRows(d, n.before);
    ChildrenJoin(n.children, count + 1, d0);
    var (o, c, d1) := ManagedAll(n.children, count + 1, d0);
    if o.Ok? {
      assert d1.tracked + n.after == n.after;
      calc {
        SaveRows(d1, n.after).txWrites;
        d1.txWrites + n.after;
        (d.txWrites + n.before) + RowsOf(n.children) + n.after;
        d.txWrites + Rows(n);
      }
    }
  }

  lemma {:induction false} ChildrenJoin(ns: seq<Nest>, count: int, d: Db)
    requires count > 0 && d.txOpen && d.tracked == []
    ensures var (o, c, d') := ManagedAll(ns, count, d);
            && c == count && d'.committed == d.committed && d'.txOpen
            && d'.log == d.log && d'.tracked == []
            && (o.Ok? <==> AllSucceed(ns))
            && (o.Ok? ==> d'.txWrites == d.txWrites + RowsOf(ns))
    decreases ns, 2
  {
    if ns == [] {
      assert d.txWrites + [] == d.txWrites;
    } else {
      ChildJoins(ns[0], count, d);
      var (o, c, d1) := Managed(ns[0], count, d);
      if o.Ok? {
        ChildrenJoin(ns[1..], count, d1);
        assert d.txWrites + Rows(ns[0]) + RowsOf(ns[1..]) == d.txWrites + RowsOf(ns);
      }
    }
  }

  /** A nest started through the manager from a zero counter is all or
      nothing: it returns iff its begin succeeded, no unit threw and the
      commit succeeded, and then every row of every unit is committed in
      order; otherwise nothing is. Only the root issues transaction calls;
      a unit that throws makes the root roll back. The counter returns to 0,
      except after a failed start, when it stays at 1. */
  lemma {:induction false} RootNestAllOrNothing(n: Nest, d: Db)
    requires !d.txOpen && d.tracked == []
    ensures var (o, c, d') := Managed(n, 0, d);
            && (o.Ok? <==> !n.beginFails && Succeeds(n) && !n.commitFails)
            && (o.Ok? ==> d'.committed == d.committed + Rows(n))
            && (o.Throw? ==> d'.committed == d.committed)
            && (d'.txOpen <==> !n.beginFails && Succeeds(n) && n.commitFails)
            && d'.log == d.log + RootEvents(n)
            && d'.tracked == []
            && c == (if n.beginFails then 1 else 0)
  {
    if !n.beginFails {
      var d1 := BeginOp(d, false).1;
      assert d1.tracked + n.before == n.before;
      var d0 := SaveRows(d1, n.before);
      ChildrenJoin(n.children, 1, d0);
      var (o, c, d2) := ManagedAll(n.children, 1, d0);
      if o.Ok? {
        assert d2.tracked + n.after == n.after;
        var d3 := SaveRows(d2, n.after);
        assert d3.txWrites == Rows(n) by {
          assert d3.txWrites == [] + n.before + RowsOf(n.children) + n.after;
        }
        assert d3.log == d.log + [Began];
      }
    }
  }

  /** Adds each row to the context's change tracker, then saves. */
  method SaveRowsTo(store: Store, rows: seq<Record>)
    modifies store
    ensures store.Snapshot() == SaveRows(old(store.Snapshot()), rows)
  {
    var i := 0;
    while i < |rows|
      invariant 0 <= i <= |rows|
      invariant store.Snapshot() == old(store.Snapshot()).(tracked := old(store.tracked) + rows[..i])
    {
      store.Add(rows[i]);
      assert rows[..i + 1] == rows[..i] + [rows[i]];
      i := i + 1;
    }
    assert rows[..i] == rows;
    store.SaveChanges();
  }

  /** A caller's code around one unit, against the manager object: start,
      work, end (forcing a rollback when the work threw), rethrow. */
  method RunNest(m: UnitOfWorkManager, n: Nest) returns (o: Outcome<()>)
    requires m.numberOfUnitOfWork >= 0
    modifies m, m.store
    ensures (o, m.numberOfUnitOfWork, m.store.Snapshot())
            == Managed(n, old(m.numberOfUnitOfWork), old(m.store.Snapshot()))
    decreases n, 1
  {
    var r := m.StartOneUnitOfWork(n.beginFails);
    if r.Throw? {
      return Throw(r.error);
    }
    var unit := r.value;
    ManagedAllCounter(n.children, m.numberOfUnitOfWork, SaveRows(m.store.Snapshot(), n.before));
    o := RunWork(m, n);
    if o.Throw? {
      var ended := m.EndUnitOfWork(unit, true, n.commitFails);
    } else {
      o := m.EndUnitOfWork(unit, false, n.commitFails);
    }
  }

  /** The work inside a started unit, as `WorkOf` describes it. */
  method RunWork(m: UnitOfWorkManager, n: Nest) returns (o: Outcome<()>)
    requires m.numberOfUnitOfWork > 0
    modifies m, m.store
    ensures (o, m.numberOfUnitOfWork, m.store.Snapshot())
            == WorkOf(n, old(m.numberOfUnitOfWork), old(m.store.Snapshot()))
    decreases n, 0
  {
    SaveRowsTo(m.store, n.before);
    o := RunNests(m, n.children);
    if o.Ok? {
      SaveRowsTo(m.store, n.after);
      o := if n.raises then Throw(Raised(0)) else Ok(());
    }
  }

  /** Nests run one after another, as `ManagedAll` describes it. */
  method RunNests(m: UnitOfWorkManager, ns: seq<Nest>) returns (o: Outcome<()>)
    requires m.numberOfUnitOfWork >= 0
    modifies m, m.store
    ensures (o, m.numberOfUnitOfWork, m.store.Snapshot())
            == ManagedAll(ns, old(m.numberOfUnitOfWork), old(m.store.Snapshot()))
    decreases ns, 2
  {
    if ns == [] {
      return Ok(());
    }
    ManagedCounter(ns[0], m.numberOfUnitOfWork, m.store.Snapshot());
    o := RunNest(m, ns[0]);
    if o.Ok? {
      o := RunNests(m, ns[1..]);
    }
  }
}
