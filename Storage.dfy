/** The transactional resource behind every unit of work: an abstraction of an
    Entity Framework Core context on a relational database. Rows enter the
    context's change tracker with Add, reach the database with SaveChanges,
    and are durable once no transaction holds them back. */
module Storage {

  /** A row written through the context (a person or a notification). */
  datatype Record = Record(key: nat)

  /** The exceptions the unit-of-work layer can see. */
  datatype Error =
    | Raised(tag: nat)        // thrown by the caller's own work
    | BeginFailed             // BeginTransactionAsync threw
    | AlreadyInTransaction    // BeginTransactionAsync while a transaction is current
    | CommitFailed            // CommitAsync threw
    | NoTransaction           // CommitAsync on a transaction that is no longer current

  /** Normal return with a value, or an exception in flight. */
  datatype Outcome<+T> = Ok(value: T) | Throw(error: Error)

  /** The physical transaction calls issued to the database, in order. */
  datatype Event = Began | Committed | RolledBack | Disposed

  /** Snapshot of a context and its database.
      committed: rows durable in the database;
      tracked:   rows added to the change tracker and not yet saved;
      txOpen:    the context has a current transaction;
      txWrites:  rows saved inside the current transaction, not yet durable;
      log:       every begin, commit, rollback and dispose issued so far. */
  datatype Db = Db(committed: seq<Record>, tracked: seq<Record>, txOpen: bool,
                   txWrites: seq<Record>, log: seq<Event>)

  /** A freshly created database with an empty context. */
  function Fresh(): (d: Db)
    ensures !d.txOpen && d.committed == [] && d.tracked == [] && d.log == []
  {
    Db([], [], false, [], [])
  }

  /** DbSet.Add: the row is only tracked. */
  function AddOp(d: Db, r: Record): Db
  {
    d.(tracked := d.tracked + [r])
  }

  /** SaveChangesAsync: the tracked rows go to the database; inside a
      transaction they wait in it, otherwise they are committed at once. */
  function SaveOp(d: Db): (d': Db)
    ensures d'.tracked == [] && d'.txOpen == d.txOpen && d'.log == d.log
    ensures d.txOpen ==> d'.txWrites == d.txWrites + d.tracked && d'.committed == d.committed
    ensures !d.txOpen ==> d'.committed == d.committed + d.tracked && d'.txWrites == d.txWrites
  {
    if d.txOpen then d.(txWrites := d.txWrites + d.tracked, tracked := [])
    else d.(committed := d.committed + d.tracked, tracked := [])
  }

  /** BeginTransactionAsync: refused while a transaction is current; may fail
      on its own (`fails`), leaving the context as it was. */
  function BeginOp(d: Db, fails: bool): (r: (Outcome<()>, Db))
    ensures r.0.Ok? <==> !d.txOpen && !fails
    ensures r.0.Ok? ==> r.1 == d.(txOpen := true, txWrites := [], log := d.log + [Began])
    ensures r.0.Throw? ==> r.1 == d
  {
    if d.txOpen then (Throw(AlreadyInTransaction), d)
    else if fails then (Throw(BeginFailed), d)
    else (Ok(()), d.(txOpen := true, txWrites := [], log := d.log + [Began]))
  }

  /** CommitAsync: the transaction's rows become durable and the context has
      no current transaction any more. A failed commit changes nothing. */
  function CommitOp(d: Db, fails: bool): (r: (Outcome<()>, Db))
    ensures r.0.Ok? <==> d.txOpen && !fails
    ensures r.0.Ok? ==> r.1 == d.(committed := d.committed + d.txWrites, txWrites := [],
                                  txOpen := false, log := d.log + [Committed])
    ensures r.0.Throw? ==> r.1 == d
  {
    if !d.txOpen then (Throw(NoTransaction), d)
    else if fails then (Throw(CommitFailed), d)
    else (Ok(()), d.(committed := d.committed + d.txWrites, txWrites := [],
                     txOpen := false, log := d.log + [Committed]))
  }

  /** RollbackAsync: the transaction's rows are dropped. The change tracker
      is left as it is. */
  function RollbackOp(d: Db): Db
  {
    d.(txWrites := [], txOpen := false, log := d.log + [RolledBack])
  }

  /** DisposeAsync on a transaction handle: an uncommitted transaction is
      dropped; after a rollback this changes nothing but the log. */
  function DisposeOp(d: Db): Db
  {
    d.(txWrites := [], txOpen := false, log := d.log + [Disposed])
  }

  /** The context, as the object the unit of work mutates. */
  class Store {
    var committed: seq<Record>
    var tracked: seq<Record>
    var txOpen: bool
    var txWrites: seq<Record>
    var log: seq<Event>

    function Snapshot(): Db
      reads this
    {
      Db(committed, tracked, txOpen, txWrites, log)
    }

    constructor ()
      ensures Snapshot() == Fresh()
    {
      committed, tracked, txOpen, txWrites, log := [], [], false, [], [];
    }

    method Add(r: Record)
      modifies this
      ensures Snapshot() == AddOp(old(Snapshot()), r)
    {
      tracked := tracked + [r];
    }

    method SaveChanges()
      modifies this
      ensures Snapshot() == SaveOp(old(Snapshot()))
    {
      if txOpen {
        txWrites := txWrites + tracked;
      } else {
        committed := committed + tracked;
      }
      tracked := [];
    }

    method BeginTransaction(fails: bool) returns (o: Outcome<()>)
      modifies this
      ensures (o, Snapshot()) == BeginOp(old(Snapshot()), fails)
    {
      if txOpen {
        return Throw(AlreadyInTransaction);
      } else if fails {
        return Throw(BeginFailed);
      }
      txOpen, txWrites, log := true, [], log + [Began];
      return Ok(());
    }

    method Commit(fails: bool) returns (o: Outcome<()>)
      modifies this
      ensures (o, Snapshot()) == CommitOp(old(Snapshot()), fails)
    {
      if !txOpen {
        return Throw(NoTransaction);
      } else if fails {
        return Throw(CommitFailed);
      }
      committed, txWrites, txOpen, log := committed + txWrites, [], false, log + [Committed];
      return Ok(());
    }

    method Rollback()
      modifies this
      ensures Snapshot() == RollbackOp(old(Snapshot()))
    {
      txWrites, txOpen, log := [], false, log + [RolledBack];
    }

    method Dispose()
      modifies this
      ensures Snapshot() == DisposeOp(old(Snapshot()))
    {
      txWrites, txOpen, log := [], false, log + [Disposed];
    }
  }
}
