/** Transactions over one connection that can fail at any point. */
module Transactions {
  import opened Wrappers
  import opened LabTables

  datatype Fault = LostConnection | OtherFault

  datatype DbError = ManagerClosed | NestedTransaction | DatabaseFailed | StatementRefused | CloseDuringTransaction

  /** What the manager has asked of the driver, and how the driver answered. */
  datatype DriverCall =
    | Begun(fault: Option<Fault>)
    | Connected(ok: bool)
    | Ran(st: Statement, ok: bool)
    | Committed(ok: bool)
    | RolledBack

  /** BEGIN; a lost connection is reopened, once, and BEGIN is tried again. */
  predicate BeginCalls(calls: seq<DriverCall>, ok: bool) {
    || (&& |calls| == 1
        && calls[0].Begun? && calls[0].fault != Some(LostConnection) && (ok <==> calls[0].fault.None?))
    || (calls == [Begun(Some(LostConnection)), Connected(false)] && !ok)
    || (&& |calls| == 3 && calls[0] == Begun(Some(LostConnection)) && calls[1] == Connected(true)
        && calls[2].Begun? && (ok <==> calls[2].fault.None?))
  }

  function RanAll(work: seq<Statement>): (calls: seq<DriverCall>)
    ensures |calls| == |work|
  {
    seq(|work|, i requires 0 <= i < |work| => Ran(work[i], true))
  }

  /** Every statement in order, or those before the first that is refused, and that one. */
  ghost predicate WorkCalls(calls: seq<DriverCall>, work: seq<Statement>, ok: bool) {
    if ok then calls == RanAll(work)
    else
      && 0 < |calls| <= |work|
      && calls == RanAll(work[..|calls| - 1]) + [Ran(work[|calls| - 1], false)]
  }

  /** The three parts of a transaction: begun, worked through, committed; the first failure has it rolled back. */
  ghost predicate Parts(
    begin: seq<DriverCall>, run: seq<DriverCall>, end: seq<DriverCall>, work: seq<Statement>, ok: bool)
  {
    || (BeginCalls(begin, false) && run == [] && end == [RolledBack] && !ok)
    || (BeginCalls(begin, true) && WorkCalls(run, work, false) && end == [RolledBack] && !ok)
    || (BeginCalls(begin, true) && WorkCalls(run, work, true) && end == [Committed(false), RolledBack] && !ok)
    || (BeginCalls(begin, true) && WorkCalls(run, work, true) && end == [Committed(true)] && ok)
  }

  ghost predicate TransactionCalls(calls: seq<DriverCall>, work: seq<Statement>, ok: bool) {
    exists begin, run, end :: calls == begin + run + end && Parts(begin, run, end, work, ok)
  }

  /** The driver's connection: committed tables, and the tables a transaction works on. */
  class Connection {
    var committed: Tables
    var working: Option<Tables>

    /** Every application statement that has run, and how often the connection was reopened. */
    ghost var executed: seq<Statement>
    ghost var reconnects: nat

    ghost var log: seq<DriverCall>

    constructor (tables: Tables)
      ensures committed == tables && working == None && executed == [] && reconnects == 0 && log == []
    {
      committed, working := tables, None;
      executed, reconnects, log := [], 0, [];
    }

    /** Start a transaction, or report what went wrong. */
    method Begin() returns (fault: Option<Fault>)
      requires working == None
      modifies this`working, this`log
      ensures working == if fault.None? then Some(committed) else None
      ensures log == old(log) + [Begun(fault)]
    {
      fault := *;
      log := log + [Begun(fault)];
      if fault.None? {
        working := Some(committed);
      }
    }

    /** Open the connection anew; the server forgets whatever the old one was doing. */
    method Connect() returns (ok: bool)
      modifies this`working, this`reconnects, this`log
      ensures working == None && reconnects == old(reconnects) + 1 && log == old(log) + [Connected(ok)]
    {
      working := None;
      reconnects := reconnects + 1;
      ok := *;
      log := log + [Connected(ok)];
    }

    /** Run one statement. It takes effect completely or not at all, and only if the tables admit it. */
    method Run(st: Statement) returns (ok: bool)
      requires working.Some?
      modifies this`working, this`executed, this`log
      ensures log == old(log) + [Ran(st, ok)]
      ensures executed == if ok then old(executed) + [st] else old(executed)
      ensures ok ==> Admissible(old(working).value, st)
      ensures working == Some(if ok then Execute(old(working).value, st) else old(working).value)
    {
      ok := *;
      if ok && Admissible(working.value, st) {
        working := Some(Execute(working.value, st));
        executed := executed + [st];
      } else {
        ok := false;
      }
      log := log + [Ran(st, ok)];
    }

    method Commit() returns (ok: bool)
      requires working.Some?
      modifies this`committed, this`working, this`log
      ensures log == old(log) + [Committed(ok)]
      ensures committed == if ok then old(working).value else old(committed)
      ensures working == if ok then None else old(working)
    {
      ok := *;
      log := log + [Committed(ok)];
      if ok {
        committed, working := working.value, None;
      }
    }

    /** A rollback that fails has lost its connection, and with it the transaction. */
    method Rollback()
      modifies this`working, this`log
      ensures working == None && log == old(log) + [RolledBack]
    {
      working := None;
      log := log + [RolledBack];
    }
  }

  class DbMgr {
    const connection: Connection
    var inTransaction: bool
    var closed: bool

    /** Outside a transaction nothing is left half done. */
    ghost predicate Valid()
      reads this, connection
    {
      !inTransaction ==> connection.working == None
    }

    constructor (connection: Connection)
      requires connection.working == None
      ensures Valid() && this.connection == connection && !inTransaction && !closed
    {
      this.connection := connection;
      inTransaction, closed := false, false;
    }

    /** BEGIN, reopening a lost connection once. */
    method BeginTransaction() returns (ok: bool, ghost calls: seq<DriverCall>)
      requires connection.working == None
      modifies connection`working, connection`reconnects, connection`log
      ensures connection.working == if ok then Some(connection.committed) else None
      ensures connection.reconnects <= old(connection.reconnects) + 1
      ensures connection.log == old(connection.log) + calls && BeginCalls(calls, ok)
    {
      var fault := connection.Begin();
      calls := [Begun(fault)];
      if fault == Some(LostConnection) {
        var reopened := connection.Connect();
        calls := [Begun(fault), Connected(reopened)];
        if !reopened {
          return false, calls;
        }
        fault := connection.Begin();
        calls := [Begun(Some(LostConnection)), Connected(true), Begun(fault)];
      }
      ok := fault.None?;
    }

    /** The statements of one unit of work, up to the first that is refused. */
    method RunAll(work: seq<Statement>) returns (ok: bool, ghost calls: seq<DriverCall>)
      requires connection.working.Some?
      modifies connection`working, connection`executed, connection`log
      ensures connection.working.Some?
      ensures connection.log == old(connection.log) + calls && WorkCalls(calls, work, ok)
      ensures exists n | 0 <= n <= |work| ::
                connection.executed == old(connection.executed) + work[..n] && (ok ==> n == |work|)
      ensures ok ==>
                && AllAdmissible(old(connection.working).value, work)
                && connection.working.value == ExecuteAll(old(connection.working).value, work)
    {
      var i := 0;
      ok, calls := true, [];
      assert work[..0] == [];
      while i < |work|
        invariant 0 <= i <= |work| && connection.working.Some?
        invariant connection.executed == old(connection.executed) + work[..i]
        invariant connection.log == old(connection.log) + calls && calls == RanAll(work[..i])
        invariant AllAdmissible(old(connection.working).value, work[..i])
        invariant connection.working.value == ExecuteAll(old(connection.working).value, work[..i])
      {
        ExecuteAllAppend(old(connection.working).value, work[..i], work[i]);
        assert work[..i] + [work[i]] == work[..i + 1];
        var done := connection.Run(work[i]);
        calls := calls + [Ran(work[i], done)];
        if !done {
          assert connection.executed == old(connection.executed) + work[..i];
          return false, calls;
        }
        i := i + 1;
      }
      assert work[..|work|] == work;
      assert connection.executed == old(connection.executed) + work[..i];
    }

    /** The statements and then the commit, up to the first that fails. */
    method WorkAndCommit(work: seq<Statement>)
      returns (ok: bool, ghost run: seq<DriverCall>, ghost end: seq<DriverCall>)
      requires connection.working == Some(connection.committed)
      modifies connection`working, connection`committed, connection`executed, connection`log
      ensures ok ==>
                && AllAdmissible(old(connection.committed), work)
                && connection.committed == ExecuteAll(old(connection.committed), work)
      ensures ok ==> connection.working == None
      ensures !ok ==> connection.committed == old(connection.committed)
      ensures connection.log == old(connection.log) + run + end
      ensures end == (if WorkCalls(run, work, true) then [Committed(ok)] else [])
      ensures !WorkCalls(run, work, true) ==> WorkCalls(run, work, false) && !ok
      ensures exists n | 0 <= n <= |work| ::
                connection.executed == old(connection.executed) + work[..n] && (ok ==> n == |work|)
    {
      end := [];
      ok, run := RunAll(work);
      if ok {
        ok := connection.Commit();
        end := [Committed(ok)];
      } else {
        assert !WorkCalls(run, work, true) by {
          assert run[|run| - 1] == Ran(work[|run| - 1], false);
        }
      }
    }

    /** Begin, work, commit; roll back at the first failure. */
    method Attempt(work: seq<Statement>) returns (ok: bool, ghost calls: seq<DriverCall>)
      requires connection.working == None
      modifies connection
      ensures connection.working == None
      ensures ok ==>
                && AllAdmissible(old(connection.committed), work)
                && connection.committed == ExecuteAll(old(connection.committed), work)
      ensures !ok ==> connection.committed == old(connection.committed)
      ensures connection.reconnects <= old(connection.reconnects) + 1
      ensures connection.log == old(connection.log) + calls && TransactionCalls(calls, work, ok)
      ensures exists n | 0 <= n <= |work| ::
                connection.executed == old(connection.executed) + work[..n] && (ok ==> n == |work|)
    {
      ghost var begin, run, end := [], [], [];
      ok, begin := BeginTransaction();
      assert work[..0] == [];
      assert connection.executed == old(connection.executed) + work[..0];
      if ok {
        ok, run, end := WorkAndCommit(work);
      }
      if !ok {
        connection.Rollback();
        end := end + [RolledBack];
      }
      assert Parts(begin, run, end, work, ok);
      calls := begin + run + end;
    }

    /** One unit of work: all of it is committed, or none of it. */
    method Transaction(work: seq<Statement>) returns (r: Option<DbError>, ghost calls: seq<DriverCall>)
      requires Valid()
      modifies this`inTransaction, connection
      ensures Valid() && inTransaction == old(inTransaction)
      ensures old(closed) ==> r == Some(ManagerClosed)
      ensures !old(closed) && old(inTransaction) ==> r == Some(NestedTransaction)
      ensures old(closed) || old(inTransaction) ==> unchanged(connection)
      ensures r.None? ==>
                && AllAdmissible(old(connection.committed), work)
                && connection.committed == ExecuteAll(old(connection.committed), work)
      ensures r.Some? ==> connection.committed == old(connection.committed)
      ensures connection.reconnects <= old(connection.reconnects) + 1
      ensures connection.log == old(connection.log) + calls
      ensures !old(closed) && !old(inTransaction) ==> TransactionCalls(calls, work, r.None?)
      ensures exists n | 0 <= n <= |work| ::
                connection.executed == old(connection.executed) + work[..n] && (r.None? ==> n == |work|)
    {
      assert work[..0] == [];
      if closed {
        return Some(ManagerClosed), [];
      }
      if inTransaction {
        return Some(NestedTransaction), [];
      }
      inTransaction := true;
      var ok;
      ok, calls := Attempt(work);
      r := if ok then None else Some(DatabaseFailed);
      inTransaction := false;
    }

    /** A read-only transaction: what it sees is what is committed. */
    method ReadTransaction() returns (r: Result<Tables, DbError>, ghost calls: seq<DriverCall>)
      requires Valid()
      modifies this`inTransaction, connection
      ensures Valid() && inTransaction == old(inTransaction)
      ensures connection.committed == old(connection.committed) && connection.executed == old(connection.executed)
      ensures old(closed) ==> r == Err(ManagerClosed)
      ensures !old(closed) && old(inTransaction) ==> r == Err(NestedTransaction)
      ensures r.Ok? ==> r.value == connection.committed
      ensures connection.log == old(connection.log) + calls
      ensures !old(closed) && !old(inTransaction) ==> TransactionCalls(calls, [], r.Ok?)
    {
      if closed {
        return Err(ManagerClosed), [];
      }
      if inTransaction {
        return Err(NestedTransaction), [];
      }
      inTransaction := true;
      r := Err(DatabaseFailed);
      var ok;
      ghost var begin, end := [], [];
      ok, begin := BeginTransaction();
      if ok {
        var seen := connection.working.value;
        ok := connection.Commit();
        end := [Committed(ok)];
        if ok {
          r := Ok(seen);
        }
      }
      if !ok {
        connection.Rollback();
        end := end + [RolledBack];
      }
      inTransaction := false;
      assert RanAll([]) == [];
      assert Parts(begin, [], end, [], ok);
      calls := begin + [] + end;
    }

    /** A single statement: part of the transaction around it, or a transaction of its own. */
    method Operation(st: Statement) returns (r: Option<DbError>)
      requires Valid() && (inTransaction ==> connection.working.Some?)
      modifies this`inTransaction, connection
      ensures Valid() && inTransaction == old(inTransaction)
      ensures inTransaction ==> connection.log == old(connection.log) + [Ran(st, r.None?)]
      ensures !inTransaction && !closed ==>
                exists calls :: connection.log == old(connection.log) + calls && TransactionCalls(calls, [st], r.None?)
      ensures inTransaction ==>
                && connection.committed == old(connection.committed) && connection.working.Some?
                && (r.None? ==> connection.working.value == Execute(old(connection.working).value, st))
                && (r.Some? ==> connection.working == old(connection.working))
      ensures !inTransaction ==>
                connection.committed
                == if r.None? then Execute(old(connection.committed), st) else old(connection.committed)
    {
      if inTransaction {
        var ok := connection.Run(st);
        r := if ok then None else Some(StatementRefused);
      } else {
        ghost var calls;
        r, calls := Transaction([st]);
        assert [st][1..] == [];
      }
    }

    method Close() returns (r: Option<DbError>)
      requires Valid()
      modifies this`closed
      ensures old(inTransaction) ==> r == Some(CloseDuringTransaction) && closed == old(closed)
      ensures !old(inTransaction) ==> closed
      ensures !old(inTransaction) && old(closed) ==> r == None
    {
      if inTransaction {
        return Some(CloseDuringTransaction);
      }
      r := None;
      if !closed {
        if * {
          r := Some(DatabaseFailed);
        }
        closed := true;
      }
    }
  }
}
