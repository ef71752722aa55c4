/** The ambient-transaction unit of work (EfUnitOfWork.DoWorkAsync): a call
    opens a transaction only when the context has none, runs the caller's
    work, and only the call that opened the transaction commits it on return
    or rolls it back when the work throws. A nested call joins the
    transaction already open and leaves it alone. */
module UnitOfWork {
  import opened Storage

  /** The caller's work function, as a program over the context: each
      constructor does one thing and continues with `next`. */
  datatype Work =
    | Done                                                        // return normally
    | Add(record: Record, next: Work)                             // repository Add
    | Save(next: Work)                                            // SaveChangesAsync
    | Raise(tag: nat)                                             // throw
    | Call(body: Work, beginFails: bool, commitFails: bool, next: Work)
                                                                  // await unitOfWork.DoWorkAsync(body)
    | Try(body: Work, next: Work)                                 // try { body } catch { }, then next

  /** What running `w` does inside a transaction that is already open, with
      no transactions at all: its outcome, the rows it saves in order, and
      the rows it leaves tracked. The reference the wrapper is proved against. */
  datatype Effect = Effect(outcome: Outcome<()>, saved: seq<Record>, tracked: seq<Record>)

  function Denote(w: Work, tracked: seq<Record>): Effect
  {
    match w
    case Done => Effect(Ok(()), [], tracked)
    case Add(r, next) => Denote(next, tracked + [r])
    case Save(next) => Then(tracked, Denote(next, []))
    case Raise(tag) => Effect(Throw(Raised(tag)), [], tracked)
    case Call(body, _, _, next) =>
      var e := Denote(body, tracked);
      if e.outcome.Throw? then e else Then(e.saved, Denote(next, e.tracked))
    case Try(body, next) =>
      var e := Denote(body, tracked);
      Then(e.saved, Denote(next, e.tracked))
  }

  /** `saved` happened before `e`. */
  function Then(saved: seq<Record>, e: Effect): Effect
  {
    e.(saved := saved + e.saved)
  }

  /** Running the caller's work against the context. */
  function RunSpec(w: Work, d: Db): (Outcome<()>, Db)
    decreases w, 1
  {
    match w
    case Done => (Ok(()), d)
    case Add(r, next) => RunSpec(next, AddOp(d, r))
    case Save(next) => RunSpec(next, SaveOp(d))
    case Raise(tag) => (Throw(Raised(tag)), d)
    case Call(body, beginFails, commitFails, next) =>
      var (o, d1) := DoWorkSpec(body, beginFails, commitFails, d);
      if o.Throw? then (o, d1) else RunSpec(next, d1)
    case Try(body, next) =>
      var (_, d1) := RunSpec(body, d);
      RunSpec(next, d1)
  }

  /** DoWorkAsync(Func<Task>): begin only if no transaction is current;
      commit on return if this call began it; on any exception, roll back
      and dispose if this call began it, and rethrow. `beginFails` and
      `commitFails` say whether the database refuses the begin or commit. */
  function DoWorkSpec(body: Work, beginFails: bool, commitFails: bool, d: Db): (Outcome<()>, Db)
    decreases body, 2
  {
    if d.txOpen then RunSpec(body, d)
    else
      var (b, d1) := BeginOp(d, beginFails);
      if b.Throw? then (b, d1)
      else
        var (o, d2) := RunSpec(body, d1);
        if o.Throw? then (o, DisposeOp(RollbackOp(d2)))
        else
          var (c, d3) := CommitOp(d2, commitFails);
          if c.Throw? then (c, DisposeOp(RollbackOp(d3))) else (Ok(()), d3)
  }

  /** DoWorkAsync<T>(Func<Task<T>>): the same transaction handling; on
      success it returns the value the work function produced. */
  function DoWorkValueSpec<T>(body: Work, value: T, beginFails: bool, commitFails: bool, d: Db): (Outcome<T>, Db)
  {
    if d.txOpen then
      var (o, d2) := RunSpec(body, d);
      if o.Throw? then (Throw(o.error), d2) else (Ok(value), d2)
    else
      var (b, d1) := BeginOp(d, beginFails);
      if b.Throw? then (Throw(b.error), d1)
      else
        var (o, d2) := RunSpec(body, d1);
        if o.Throw? then (Throw(o.error), DisposeOp(RollbackOp(d2)))
        else
          var (c, d3) := CommitOp(d2, commitFails);
          if c.Throw? then (Throw(c.error), DisposeOp(RollbackOp(d3))) else (Ok(value), d3)
  }

  /** The context after the joined work's rows were saved into the open transaction. */
  function Joined(d: Db, e: Effect): Db
  {
    d.(tracked := e.tracked, txWrites := d.txWrites + e.saved)
  }

  /** The context after the owner rolled back and disposed its transaction. */
  function RolledBackState(d: Db, e: Effect): Db
  {
    d.(tracked := e.tracked, txOpen := false, txWrites := [], log := d.log + [Began, RolledBack, Disposed])
  }

  /** The context after the owner committed its transaction. */
  function CommittedState(d: Db, e: Effect): Db
  {
    d.(committed := d.committed + e.saved, tracked := e.tracked, txOpen := false, txWrites := [],
       log := d.log + [Began, Committed])
  }

  /** Inside an open transaction, the caller's work does exactly what its
      transaction-free reading says: its saved rows are appended to the
      transaction, nothing is committed, and no begin, commit, rollback or
      dispose is issued, not even by the units of work nested in it. */
  lemma {:induction false} RunJoined(w: Work, d: Db)
    requires d.txOpen
    ensures RunSpec(w, d) == (Denote(w, d.tracked).outcome, Joined(d, Denote(w, d.tracked)))
    decreases w
  {
    match w
    case Done =>
      assert d.txWrites + [] == d.txWrites;
    case Add(r, next) =>
      RunJoined(next, AddOp(d, r));
    case Save(next) =>
      var d1 := SaveOp(d);
      RunJoined(next, d1);
      assert d1.txWrites + Denote(next, []).saved == d.txWrites + (d.tracked + Denote(next, []).saved);
    case Raise(_) =>
      assert d.txWrites + [] == d.txWrites;
    case Call(body, _, _, next) =>
      var e := Denote(body, d.tracked);
      RunJoined(body, d);
      if e.outcome.Ok? {
        var d1 := Joined(d, e);
        RunJoined(next, d1);
        assert d1.txWrites + Denote(next, e.tracked).saved == d.txWrites + (e.saved + Denote(next, e.tracked).saved);
      }
    case Try(body, next) =>
      var e := Denote(body, d.tracked);
      RunJoined(body, d);
      var d1 := Joined(d, e);
      RunJoined(next, d1);
      assert d1.txWrites + Denote(next, e.tracked).saved == d.txWrites + (e.saved + Denote(next, e.tracked).saved);
  }

  /** A call made while a transaction is current (a nested call) never
      begins, commits, rolls back or disposes anything, whether its work
      returns or throws: it rethrows the work's exception, its saved rows
      stay pending in the outer transaction and the committed rows are
      untouched. */
  lemma NestedCallJoins(body: Work, beginFails: bool, commitFails: bool, d: Db)
    requires d.txOpen
    ensures var e := Denote(body, d.tracked);
            DoWorkSpec(body, beginFails, commitFails, d) == (e.outcome, Joined(d, e))
    ensures DoWorkSpec(body, beginFails, commitFails, d).1.txOpen
    ensures DoWorkSpec(body, beginFails, commitFails, d).1.log == d.log
    ensures DoWorkSpec(body, beginFails, commitFails, d).1.committed == d.committed
  {
    RunJoined(body, d);
  }

  /** The owner, on normal return and a successful commit, commits exactly
      once: the log gains one begin and one commit, every row the nest
      saved becomes durable, and the context has no transaction after. */
  lemma OwnerCommitsOnSuccess(body: Work, commitFails: bool, d: Db)
    requires !d.txOpen
    requires Denote(body, d.tracked).outcome.Ok? && !commitFails
    ensures DoWorkSpec(body, false, commitFails, d) == (Ok(()), CommittedState(d, Denote(body, d.tracked)))
  {
    var e := Denote(body, d.tracked);
    var d1 := BeginOp(d, false).1;
    RunJoined(body, d1);
    var d2 := Joined(d1, e);
    assert d2.txWrites == e.saved;
    assert d2.log + [Committed] == d.log + [Began, Committed];
  }

  /** The owner, when the work throws, rolls back and disposes its
      transaction and rethrows the same exception; nothing of the nest is
      committed. */
  lemma OwnerRollsBackOnThrow(body: Work, commitFails: bool, d: Db)
    requires !d.txOpen
    requires Denote(body, d.tracked).outcome.Throw?
    ensures var e := Denote(body, d.tracked);
            DoWorkSpec(body, false, commitFails, d) == (e.outcome, RolledBackState(d, e))
  {
    var e := Denote(body, d.tracked);
    var d1 := BeginOp(d, false).1;
    RunJoined(body, d1);
    var d2 := Joined(d1, e);
    assert d2.log + [RolledBack] + [Disposed] == d.log + [Began, RolledBack, Disposed];
  }

  /** A commit that throws lands in the same handler: the owner rolls back,
      disposes and rethrows the commit's exception, leaving no transaction
      open and nothing of the nest committed. */
  lemma OwnerRollsBackOnCommitFailure(body: Work, d: Db)
    requires !d.txOpen
    requires Denote(body, d.tracked).outcome.Ok?
    ensures DoWorkSpec(body, false, true, d) == (Throw(CommitFailed), RolledBackState(d, Denote(body, d.tracked)))
  {
    var e := Denote(body, d.tracked);
    var d1 := BeginOp(d, false).1;
    RunJoined(body, d1);
    var d2 := Joined(d1, e);
    assert CommitOp(d2, true) == (Throw(CommitFailed), d2);
    assert d2.log + [RolledBack] + [Disposed] == d.log + [Began, RolledBack, Disposed];
  }

  /** If beginning the transaction throws, there is no transaction to roll
      back: the exception propagates, the work never runs and the context is
      unchanged. */
  lemma BeginFailurePropagates(body: Work, commitFails: bool, d: Db)
    requires !d.txOpen
    ensures DoWorkSpec(body, true, commitFails, d) == (Throw(BeginFailed), d)
  {
  }

  /** A call issues a begin iff the context had no current transaction on
      entry (and the database did not refuse it); a call that does not begin
      a transaction issues no transaction call at all. */
  lemma BeginsIffNoCurrentTransaction(body: Work, beginFails: bool, commitFails: bool, d: Db)
    ensures var d' := DoWorkSpec(body, beginFails, commitFails, d).1;
            (|d'.log| > |d.log| && d'.log[|d.log|] == Began) <==> (!d.txOpen && !beginFails)
    ensures var d' := DoWorkSpec(body, beginFails, commitFails, d).1;
            (d.txOpen || beginFails) ==> d'.log == d.log
  {
    var e := Denote(body, d.tracked);
    if d.txOpen {
      NestedCallJoins(body, beginFails, commitFails, d);
    } else if beginFails {
      BeginFailurePropagates(body, commitFails, d);
    } else if e.outcome.Throw? {
      OwnerRollsBackOnThrow(body, commitFails, d);
    } else if commitFails {
      OwnerRollsBackOnCommitFailure(body, d);
    } else {
      OwnerCommitsOnSuccess(body, commitFails, d);
    }
  }

  /** A nest is all or nothing: when the owning call returns, every row the
      nest saved is durable; when it throws, none is. Either way the
      transaction is closed. */
  lemma NestIsAllOrNothing(body: Work, beginFails: bool, commitFails: bool, d: Db)
    requires !d.txOpen
    ensures var (o, d') := DoWorkSpec(body, beginFails, commitFails, d);
            && !d'.txOpen
            && (o.Ok? ==> d'.committed == d.committed + Denote(body, d.tracked).saved)
            && (o.Throw? ==> d'.committed == d.committed)
  {
    var e := Denote(body, d.tracked);
    if beginFails {
      BeginFailurePropagates(body, commitFails, d);
    } else if e.outcome.Throw? {
      OwnerRollsBackOnThrow(body, commitFails, d);
    } else if commitFails {
      OwnerRollsBackOnCommitFailure(body, d);
    } else {
      OwnerCommitsOnSuccess(body, commitFails, d);
    }
  }

  /** An exception raised anywhere inside the work and not caught before it
      leaves the call is rethrown unchanged, and nothing of the work is in
      the committed rows afterwards, whether the call owns the transaction
      or joined one. */
  lemma UncaughtFailureCommitsNothing(body: Work, beginFails: bool, commitFails: bool, d: Db)
    requires Denote(body, d.tracked).outcome.Throw?
    ensures var (o, d') := DoWorkSpec(body, beginFails, commitFails, d);
            && o.Throw?
            && ((d.txOpen || !beginFails) ==> o == Denote(body, d.tracked).outcome)
            && d'.committed == d.committed
  {
    if d.txOpen {
      NestedCallJoins(body, beginFails, commitFails, d);
    } else if beginFails {
      BeginFailurePropagates(body, commitFails, d);
    } else {
      OwnerRollsBackOnThrow(body, commitFails, d);
    }
  }

  /** The generic overload returns exactly the work's value on success,
      rethrows the same exception otherwise, and leaves the context exactly
      as the non-generic overload does. */
  lemma ValueOverloadAgrees<T>(body: Work, value: T, beginFails: bool, commitFails: bool, d: Db)
    ensures var (o, d') := DoWorkSpec(body, beginFails, commitFails, d);
            var (v, dv) := DoWorkValueSpec(body, value, beginFails, commitFails, d);
            && dv == d'
            && (v.Ok? <==> o.Ok?)
            && (v.Ok? ==> v.value == value)
            && (v.Throw? ==> v.error == o.error)
  {
    var r := DoWorkSpec(body, beginFails, commitFails, d);
    var rv := DoWorkValueSpec(body, value, beginFails, commitFails, d);
    if d.txOpen {
      var run := RunSpec(body, d);
      assert r == run;
    } else if !beginFails {
      var d1 := BeginOp(d, false).1;
      var run := RunSpec(body, d1);
      if run.0.Ok? {
        var c := CommitOp(run.1, commitFails);
        if c.0.Ok? {
          assert r == (Ok(()), c.1) && rv == (Ok(value), c.1);
        } else {
          assert r == (c.0, DisposeOp(RollbackOp(c.1)));
        }
      } else {
        assert r == (run.0, DisposeOp(RollbackOp(run.1)));
      }
    }
  }

  /** The rows a root nest leaves committed: all it saved, or none. */
  function Kept(e: Effect): seq<Record>
  {
    if e.outcome.Ok? then e.saved else []
  }

  /** A root nest whose begin and commit succeed returns what its work
      returns or rethrows what it throws, commits all its saved rows or
      none, and leaves no transaction open. */
  lemma RootNestKeepsAllOrNone(body: Work, d: Db)
    requires !d.txOpen
    ensures var e := Denote(body, d.tracked);
            var (o, d') := DoWorkSpec(body, false, false, d);
            && o == e.outcome
            && d'.committed == d.committed + Kept(e)
            && d'.tracked == e.tracked
            && !d'.txOpen
  {
    var e := Denote(body, d.tracked);
    if e.outcome.Ok? {
      OwnerCommitsOnSuccess(body, false, d);
      match e.outcome.value { case () => }
    } else {
      OwnerRollsBackOnThrow(body, false, d);
      assert d.committed + Kept(e) == d.committed;
    }
  }

  /** Two root nests run one after the other are independent: once the
      first has returned, a failure of the second does not undo its
      committed rows; a failure of the first stops the caller before the
      second begins. */
  lemma SiblingNestsIndependent(first: Work, second: Work, d: Db)
    requires !d.txOpen
    ensures var e1 := Denote(first, d.tracked);
            var e2 := Denote(second, e1.tracked);
            var (o, d') := RunSpec(Call(first, false, false, Call(second, false, false, Done)), d);
            && (e1.outcome.Throw? ==> o == e1.outcome && d'.committed == d.committed)
            && (e1.outcome.Ok? ==> o == e2.outcome && d'.committed == d.committed + e1.saved + Kept(e2))
  {
    var e1 := Denote(first, d.tracked);
    RootNestKeepsAllOrNone(first, d);
    var d1 := DoWorkSpec(first, false, false, d).1;
    if e1.outcome.Ok? {
      RootNestKeepsAllOrNone(second, d1);
      var r2 := DoWorkSpec(second, false, false, d1);
      assert RunSpec(Call(second, false, false, Done), d1) == r2;
    }
  }

  /** When the caller catches the first root nest's exception, the second
      root nest still runs: each nest keeps all or none of its own rows. */
  lemma CaughtRootNestThenSibling(first: Work, second: Work, d: Db)
    requires !d.txOpen
    ensures var e1 := Denote(first, d.tracked);
            var e2 := Denote(second, e1.tracked);
            var (o, d') := RunSpec(Try(Call(first, false, false, Done), Call(second, false, false, Done)), d);
            && o == e2.outcome
            && d'.committed == d.committed + Kept(e1) + Kept(e2)
  {
    RootNestKeepsAllOrNone(first, d);
    var r1 := DoWorkSpec(first, false, false, d);
    assert RunSpec(Call(first, false, false, Done), d).1 == r1.1;
    RootNestKeepsAllOrNone(second, r1.1);
    var r2 := DoWorkSpec(second, false, false, r1.1);
    assert RunSpec(Call(second, false, false, Done), r1.1) == r2;
  }

  /** A nested unit whose exception the caller catches inside the nest is
      not rolled back: a joining call never rolls back, so its saved rows
      stay in the shared transaction and the owner commits them. */
  lemma CaughtNestedFailureIsCommitted(inner: Work, d: Db)
    requires !d.txOpen
    requires Denote(inner, d.tracked).outcome.Throw?
    ensures var (o, d') := DoWorkSpec(Try(Call(inner, false, false, Done), Done), false, false, d);
            o.Ok? && d'.committed == d.committed + Denote(inner, d.tracked).saved
  {
    var body := Try(Call(inner, false, false, Done), Done);
    assert Denote(body, d.tracked).saved == Denote(inner, d.tracked).saved + [];
    OwnerCommitsOnSuccess(body, false, d);
  }

  /** EfUnitOfWork: every call works on the same context. */
  class EfUnitOfWork {
    const store: Store

    constructor (store: Store)
      ensures this.store == store
    {
      this.store := store;
    }

    /** The caller's work function, run step by step against the context. */
    method Perform(w: Work) returns (o: Outcome<()>)
      modifies store
      decreases w, 1
      ensures (o, store.Snapshot()) == RunSpec(w, old(store.Snapshot()))
    {
      match w
      case Done =>
        o := Ok(());
      case Add(r, next) =>
        store.Add(r);
        o := Perform(next);
      case Save(next) =>
        store.SaveChanges();
        o := Perform(next);
      case Raise(tag) =>
        o := Throw(Raised(tag));
      case Call(body, beginFails, commitFails, next) =>
        o := DoWork(body, beginFails, commitFails);
        if o.Ok? {
          o := Perform(next);
        }
      case Try(body, next) =>
        var _ := Perform(body);
        o := Perform(next);
    }

    /** DoWorkAsync(Func<Task>). `transaction` is non-null exactly when this
        call began the transaction; `failure` is the exception in flight. */
    method DoWork(body: Work, beginFails: bool, commitFails: bool) returns (o: Outcome<()>)
      modifies store
      decreases body, 2
      ensures (o, store.Snapshot()) == DoWorkSpec(body, beginFails, commitFails, old(store.Snapshot()))
    {
      var transaction := false;
      var hasToCreateTransaction := !store.txOpen;
      var failure: Outcome<()> := Ok(());
      if hasToCreateTransaction {
        failure := store.BeginTransaction(beginFails);
        transaction := failure.Ok?;
      }
      if failure.Ok? {
        failure := Perform(body);
        if failure.Ok? && hasToCreateTransaction && transaction {
          failure := store.Commit(commitFails);
        }
      }
      if failure.Throw? && hasToCreateTransaction && transaction {
        store.Rollback();
        store.Dispose();
      }
      return failure;
    }

    /** DoWorkAsync<T>(Func<Task<T>>): `value` is what the work function
        returns when it returns normally. */
    method DoWorkValue<T>(body: Work, value: T, beginFails: bool, commitFails: bool) returns (o: Outcome<T>)
      modifies store
      ensures (o, store.Snapshot()) == DoWorkValueSpec(body, value, beginFails, commitFails, old(store.Snapshot()))
    {
      var transaction := false;
      var hasToCreateTransaction := !store.txOpen;
      var failure: Outcome<()> := Ok(());
      if hasToCreateTransaction {
        failure := store.BeginTransaction(beginFails);
        transaction := failure.Ok?;
      }
      if failure.Ok? {
        failure := Perform(body);
        if failure.Ok? {
          var result := value;
          if hasToCreateTransaction && transaction {
            failure := store.Commit(commitFails);
          }
          if failure.Ok? {
            return Ok(result);
          }
        }
      }
      if hasToCreateTransaction && transaction {
        store.Rollback();
        store.Dispose();
      }
      return Throw(failure.error);
    }
  }
}
