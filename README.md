# Nested unit of work over an EF Core context, modelled in Dafny

The repository's core is the coordination of nested units of work over one
Entity Framework Core `DbContext`: which call owns the physical transaction,
and the rule that only the owner commits or rolls back. The repository holds
two versions of this logic, and their shapes do not match. This project models
them as two separate classes.

- `EfUnitOfWork.DoWorkAsync` (both overloads) is the ambient-transaction
  wrapper. A call begins a transaction only when the context has none. It
  runs the caller's work function. The call that began the transaction
  commits on return, and rolls back and disposes on any exception. The
  exception is always rethrown. A nested call joins the open transaction and
  never touches it.
- `EfUnitOfWorkManager` is the depth-counter manager. `_numberOfUnitOfWork`
  counts the open units. `StartOneUnitOfWorkAsync` creates the new unit as
  parent iff the counter was 0, then increments it. `EndUnitOfWorkAsync`
  decrements the counter and forwards `forceRollback` to the unit.

Files:

- `Storage.dfy`: the context and its database, as the class `Store`. Its
  fields are the committed rows, the change tracker, the current-transaction
  flag, the rows saved inside the transaction, and a log of begin, commit,
  rollback and dispose calls. Each method is proved equal to a pure operation
  on the snapshot `Db`.
- `UnitOfWork.dfy`: the caller's work function is the recursive datatype
  `Work`. Its steps are add, save, throw, a nested `DoWorkAsync` call, and a
  caller-side try/catch. `EfUnitOfWork.DoWork`, `DoWorkValue` and `Perform`
  are imperative methods. They mirror the C# try/catch, with the local
  `transaction` and `hasToCreateTransaction`, and are proved equal to
  `DoWorkSpec`, `DoWorkValueSpec` and `RunSpec`. `Denote` is an independent
  reference: what a work does with no transactions at all. The lemmas tie
  `DoWorkSpec` to it.
- `Manager.dfy`: the classes `UnitOfWorkManager` (the counter) and
  `ScopedUnit` (the unit the manager creates). `Replay` follows the counter
  and the parent decision over any sequence of start/end calls, and the
  counter lemmas over nests of units are stated on it. `Managed` composes
  the manager with the context: a caller starts a unit, does its work (its
  own rows and the units it opens), and ends the unit, with `forceRollback`
  set when the work threw, before rethrowing. `RunNest`, `RunWork` and
  `RunNests` do this against the `UnitOfWorkManager` and `Store` objects and
  are proved equal to `Managed`. `RootNestAllOrNothing` is the manager's
  all-or-nothing theorem.
- `Scenarios.dfy`: the nested-unit tests of the person service, replayed
  twice: on the ambient unit of work (`DoWorkAsync`), and through the
  manager the tests construct and hand to the services
  (`EfCoreUnitOfWork.Tests/PersonServiceTest.cs:38-56`).

The async calls are awaited one after another, so each one is modelled as a
plain sequential call. The database's own failures are parameters:
`beginFails` and `commitFails` say whether `BeginTransactionAsync` or
`CommitAsync` throws.

The usual unit-of-work contract has three rules that the code does not
follow. A rollback should discard pending changes. A failed start should
leave the depth unchanged. Ends should be checked for order. The model
follows the code:

- A rollback does not discard the change tracker. Rows added but never saved
  survive a failed nest. The next save commits them
  (`Scenarios.UnsavedAddOutlivesRollback`).
- The manager's own catch around a failed start
  (`EfUnitOfWorkManager.cs:31-35`) disposes the unit and rethrows but does
  not restore the counter (`Manager.FailedRootStartLeavesNoParent`,
  `Manager.RootNestAllOrNothing`).
- `EndUnitOfWorkAsync` checks neither the order of ends nor a second end of
  the same unit.

The manager calls an `EfUnitOfWork(this, dbContext, isParent)` constructor and
`StartAsync`/`EndAsync`/`DisposeAsync`. None of these exists in
`EfCoreUnitOfWork/Repositories/EfUnitOfWork.cs`. `IUnitOfWorkManager`
declares synchronous `StartOneUnitOfWork`/`EndOneUnitOfWork`, which match
neither. The unit's start, end and dispose are therefore given abstract
contracts: `StartEffect`, `EndEffect` and `ScopedUnit.Dispose`.

- A parent begins the transaction when it starts.
- When it ends, the unit that began the transaction commits it, or rolls it
  back if `forceRollback` is set.
- Dispose drops the transaction the unit began.
- A child unit has no physical effect.

## Model

| member | source | states |
|---|---|---|
| `UnitOfWork.EfUnitOfWork.DoWork` | EfCoreUnitOfWork/Repositories/EfUnitOfWork.cs:16-47 | the outcome and the new context are exactly `DoWorkSpec` of the old context: begin iff no current transaction, run the work, commit on return if it began, roll back and dispose on any exception if it began, rethrow |
| `UnitOfWork.EfUnitOfWork.DoWorkValue` | EfCoreUnitOfWork/Repositories/EfUnitOfWork.cs:49-82 | the outcome and the new context are exactly `DoWorkValueSpec` of the old context |
| `UnitOfWork.EfUnitOfWork.Perform` | EfCoreUnitOfWork/Repositories/EfUnitOfWork.cs:29 | running the caller's work function against the context, nested `DoWorkAsync` calls included, is exactly `RunSpec` |
| `UnitOfWork.EfUnitOfWork.constructor` | EfCoreUnitOfWork/Repositories/EfUnitOfWork.cs:11-14 | the unit of work keeps the context it is given |
| `UnitOfWork.RunJoined` | EfCoreUnitOfWork/Repositories/EfUnitOfWork.cs:19-31 | inside an open transaction, any work, nested calls included, appends exactly its transaction-free saved rows to the transaction. It commits nothing and issues no transaction call. |
| `UnitOfWork.NestedCallJoins` | EfCoreUnitOfWork/Repositories/EfUnitOfWork.cs:19-45 | a call made while a transaction is current neither begins, commits, rolls back nor disposes, on success or on failure. It rethrows the work's exception. The transaction stays open with the work's rows pending, and the committed rows are unchanged. |
| `UnitOfWork.OwnerCommitsOnSuccess` | EfCoreUnitOfWork/Repositories/EfUnitOfWork.cs:23-34 | the owning call whose work returns commits exactly once: the log gains exactly begin and commit, and every saved row of the nest becomes durable, in order |
| `UnitOfWork.OwnerRollsBackOnThrow` | EfCoreUnitOfWork/Repositories/EfUnitOfWork.cs:36-46 | when the work throws, the owner rolls back and disposes and rethrows the same exception. Nothing of the nest is committed. |
| `UnitOfWork.OwnerRollsBackOnCommitFailure` | EfCoreUnitOfWork/Repositories/EfUnitOfWork.cs:31-45 | a commit that throws lands in the same handler: rollback, dispose, and the commit's exception is rethrown |
| `UnitOfWork.BeginFailurePropagates` | EfCoreUnitOfWork/Repositories/EfUnitOfWork.cs:18-45 | when the begin throws, no transaction exists: nothing is rolled back, the work does not run, the exception propagates and the context is unchanged |
| `UnitOfWork.BeginsIffNoCurrentTransaction` | EfCoreUnitOfWork/Repositories/EfUnitOfWork.cs:19-26 | a call issues a begin iff there was no current transaction on entry and the database accepted it. A call that does not begin issues no transaction call at all. |
| `UnitOfWork.NestIsAllOrNothing` | EfCoreUnitOfWork/Repositories/EfUnitOfWork.cs:21-46 | an owning call, whatever fails, either returns with all of the nest's saved rows committed or throws with none. The transaction is closed afterwards. |
| `UnitOfWork.UncaughtFailureCommitsNothing` | EfCoreUnitOfWork/Repositories/EfUnitOfWork.cs:36-46 | an exception from the work, not caught before it leaves the call, is rethrown unchanged, and the committed rows are unchanged, for owning and joining calls alike |
| `UnitOfWork.ValueOverloadAgrees` | EfCoreUnitOfWork/Repositories/EfUnitOfWork.cs:49-82 | the generic overload leaves the context exactly as the non-generic one, returns exactly the work's value on success, and rethrows the same exception otherwise |
| `UnitOfWork.RootNestKeepsAllOrNone` | EfCoreUnitOfWork/Repositories/EfUnitOfWork.cs:16-47 | a root call whose begin and commit succeed returns or rethrows as its work does, keeps all or none of the work's rows, and leaves the change tracker as the work left it |
| `UnitOfWork.SiblingNestsIndependent` | EfCoreUnitOfWork.Tests/PersonServiceTest.cs:178-206 | of two root nests run one after the other, a failure in the second leaves the first's committed rows intact. A failure in the first commits nothing and stops the caller. |
| `UnitOfWork.CaughtRootNestThenSibling` | EfCoreUnitOfWork.Tests/PersonServiceTest.cs:223-251 | when the caller catches the first root nest's exception, the second still runs, and each nest keeps all or none of its rows |
| `UnitOfWork.CaughtNestedFailureIsCommitted` | EfCoreUnitOfWork/Repositories/EfUnitOfWork.cs:31-43 | a nested call whose exception is caught inside the nest is not rolled back. The owner commits its saved rows. |
| `Scenarios.NestedTestingCommits` | EfCoreUnitOfWork.Tests/PersonServiceTest.cs:133-206 | two root nests of three persons each: no failure commits six, a failure in the first nest commits none, a failure in the second commits the first three, and the exception reaches the caller iff one is thrown |
| `Scenarios.TryCatchNestedTestingCommits` | EfCoreUnitOfWork.Tests/PersonServiceTest.cs:208-281 | the same with the first nest's exception caught: six with no failure, three otherwise, and the exception reaches the caller only from the second nest |
| `Scenarios.RootNestEffect` | EfCoreUnitOfWork.Tests/PersonServiceTest.cs:148-176 | a root nest of the tests saves its three persons unless one of its two fake services throws |
| `Scenarios.UnsavedAddOutlivesRollback` | EfCoreUnitOfWork/Repositories/EfUnitOfWork.cs:39-43 | a rollback leaves the change tracker alone: a row added and never saved in a failed nest is committed by the next nest's save |
| `Manager.UnitOfWorkManager.constructor` | EfCoreUnitOfWork/Repositories/EfUnitOfWorkManager.cs:7-13 | the counter starts at 0 |
| `Manager.UnitOfWorkManager.StartOneUnitOfWork` | EfCoreUnitOfWork/Repositories/EfUnitOfWorkManager.cs:22-36 | the counter grows by exactly one, even when the start fails. The new unit is parent iff the counter was 0. Only a parent begins the transaction. A unit that fails to start is disposed and not returned, and its exception is rethrown. |
| `Manager.UnitOfWorkManager.EndUnitOfWork` | EfCoreUnitOfWork/Repositories/EfUnitOfWorkManager.cs:16-20 | the counter drops by exactly one, and the unit ends with the caller's `forceRollback` unchanged, false by default. Afterwards the unit still owns the transaction only if it owned it and its commit threw. |
| `Manager.ScopedUnit.Start` | EfCoreUnitOfWork/Repositories/EfUnitOfWorkManager.cs:28 | a parent begins the transaction and owns it iff the begin succeeded. A child has no physical effect. |
| `Manager.ScopedUnit.End` | EfCoreUnitOfWork/Repositories/EfUnitOfWorkManager.cs:19 | the unit owning the transaction commits it, or rolls it back when forced. Any other unit has no physical effect. |
| `Manager.ScopedUnit.Dispose` | EfCoreUnitOfWork/Repositories/EfUnitOfWorkManager.cs:33 | only a unit that owns the transaction drops it |
| `Manager.CounterCountsOpenUnits` | EfCoreUnitOfWork/Repositories/EfUnitOfWorkManager.cs:16-24 | over any sequence of calls, the counter equals its start value plus the units started and not ended, and each start decides parenthood once |
| `Manager.NestReplay` | EfCoreUnitOfWork/Repositories/EfUnitOfWorkManager.cs:18-24 | a nest started at counter value c ends at c. Its first unit is parent iff c is 0, and no other unit of it ever is. |
| `Manager.ChildrenReplay` | EfCoreUnitOfWork/Repositories/EfUnitOfWorkManager.cs:24 | units started while the counter is positive are never parents, and complete nests leave the counter unchanged |
| `Manager.SiblingRootsEachHaveOneParent` | EfCoreUnitOfWork/Repositories/EfUnitOfWorkManager.cs:16-24 | root nests run one after another from a fresh manager each return the counter to 0, each has exactly one parent (its first unit), and the number of parents equals the number of nests |
| `Manager.FailedRootStartLeavesNoParent` | EfCoreUnitOfWork/Repositories/EfUnitOfWorkManager.cs:24-35 | after the first unit fails to start, the counter never returns to 0, so no later unit is ever a parent |
| `Manager.RunNest` | EfCoreUnitOfWork/Repositories/EfUnitOfWorkManager.cs:16-36 | a unit started, worked and ended through the manager object leaves the outcome, the counter and the context exactly as `Managed` says |
| `Manager.RunWork` | EfCoreUnitOfWork/Repositories/EfUnitOfWorkManager.cs:16-36 | a started unit's work (its rows, then its child units, stopping at the first exception) is exactly `WorkOf` |
| `Manager.RunNests` | EfCoreUnitOfWork/Repositories/EfUnitOfWorkManager.cs:16-36 | units run one after another through the manager are exactly `ManagedAll`: the first exception stops them |
| `Manager.ManagedCounter` | EfCoreUnitOfWork/Repositories/EfUnitOfWorkManager.cs:16-35 | a nest run through the manager leaves the counter where it found it, except that a root whose start throws leaves it at 1 |
| `Manager.ManagedAllCounter` | EfCoreUnitOfWork/Repositories/EfUnitOfWorkManager.cs:16-35 | the same for nests run one after another |
| `Manager.ChildJoins` | EfCoreUnitOfWork/Repositories/EfUnitOfWorkManager.cs:16-28 | a unit started at a positive counter inside a current transaction is a child. Its start and end issue no transaction call and commit nothing, whether it succeeds or throws. It returns iff none of its units throws, and then all of their rows wait in the transaction, in order. |
| `Manager.ChildrenJoin` | EfCoreUnitOfWork/Repositories/EfUnitOfWorkManager.cs:16-28 | the same for child units run one after another |
| `Manager.RootNestAllOrNothing` | EfCoreUnitOfWork/Repositories/EfUnitOfWorkManager.cs:16-36 | a nest started from a zero counter returns iff its begin succeeds, no unit throws and the commit succeeds; then every row of every unit is committed in order, otherwise none is. Only the root issues begin, commit or rollback. The counter is back at 0, or at 1 after a failed start. |
| `Scenarios.ManagedNestedTestingCommits` | EfCoreUnitOfWork.Tests/PersonServiceTest.cs:133-206 | through the manager: no failure commits six persons, a failure in the first nest none, a failure in the second the first three; the exception reaches the caller iff one is thrown, and the counter is back at 0 |
| `Scenarios.ManagedTryCatchNestedTestingCommits` | EfCoreUnitOfWork.Tests/PersonServiceTest.cs:208-281 | through the manager, with the first nest's exception caught: the second nest still runs from a zero counter; six persons with no failure, three otherwise |
| `Scenarios.ManagedRootNestShape` | EfCoreUnitOfWork.Tests/PersonServiceTest.cs:148-176 | a root nest of the tests, run through the manager, saves its three persons in order, and no unit of it throws unless one of its two fake services does |

## Left out

- Asynchrony and concurrency. Every awaited call is a sequential step. The
  manager's field is unsynchronised by design and one flow uses it at a time.
- The EF Core transaction API, SQLite and the schema mapping. The context is
  reduced to add, save, begin, commit, rollback and dispose on lists of rows.
  Reads (`GetByIdAsync`) are not modelled, because no unit-of-work decision
  depends on them.
- `RollbackAsync` and `DisposeAsync` throwing. In the source such an
  exception would replace the one being rethrown. The model treats both as
  infallible.
- `SaveChangesAsync` throwing, for example on a constraint violation. The
  caller's `Raise` step stands for any exception in the work.
- The 32-bit range of `_numberOfUnitOfWork`. The counter is an unbounded
  `int`, because no reachable nest overflows it.
- Manager.UnitOfWorkManager.EndUnitOfWork: requires the counter to be
  positive. The source decrements without any check, so ending more units
  than were started is left outside the model rather than modelled as a
  negative counter.
- Manager.UnitOfWorkManager.StartOneUnitOfWork: the unit is created with a
  reference to the manager (`EfUnitOfWorkManager.cs:24`), but the model's
  `ScopedUnit` has none, so its `Dispose` cannot change the counter. Whether
  the unit's missing `DisposeAsync` gives back the increment after a failed
  start is therefore not captured; the model keeps the increment, as the
  manager's own catch does.
- Manager.RunNest: the caller's code around a unit (start, work, end with
  `forceRollback` on an exception, rethrow) is not in the repository; the
  services that use the manager are missing. It is a reconstruction. Under
  it a commit that throws leaves the transaction open and owned, because
  nothing ends or disposes the unit afterwards.
- Manager.ScopedUnit.End: the unit's `EndAsync`, `StartAsync` and
  `DisposeAsync` are not in the repository. Their contracts are the
  abstract ones described above and are not taken from code.
- The controllers, dependency-injection wiring, business services and the
  third-party ambient context scope of the notification tests. These are
  callers of the core, not part of it. The person service's nested-testing
  methods are not in the repository. `Scenarios` reconstructs their shape
  from the tests: three persons per root nest, with fake services 1 and 2 in
  the first nest and 3 and 4 in the second. Whether those methods use
  `DoWorkAsync` or start and end units through the manager the tests pass
  them is not visible, so each scenario is stated both ways.
