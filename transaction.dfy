/**
 * Transaction: a wrapper around a connection with two flags, committed and rolledBack.
 * The connection is modelled by its autocommit mode and the log of calls issued on it; whether
 * each driver call succeeds is a parameter (true: it returned, false: it threw SQLException).
 */
module Transactions {
  import opened Wrappers
  import opened Errors

  /** A call issued on the connection. */
  datatype ConnCall = SetAutoCommit(on: bool) | Commit | Rollback

  /** The observable state of a transaction and its connection. */
  datatype TxState = TxState(committed: bool, rolledBack: bool, autoCommit: bool, log: seq<ConnCall>)

  /** An operation on an open transaction, with the success of each driver call it makes. */
  datatype TxOp =
    | CommitOp(commitOk: bool)
    | RollbackOp(rollbackOk: bool)
    | CloseOp(rollbackOk: bool, autoCommitOk: bool)

  /** committed and rolledBack are never both set. */
  predicate Exclusive(s: TxState)
  {
    !(s.committed && s.rolledBack)
  }

  /** Either flag is set: commit and rollback are refused from here on. */
  predicate Settled(s: TxState)
  {
    s.committed || s.rolledBack
  }

  /** The state right after construction: autocommit switched off, no flag. */
  const Initial := TxState(false, false, false, [SetAutoCommit(false)])

  /** The IllegalStateException of a second commit or rollback. */
  function AlreadyEnded(s: TxState): (e: Error)
    ensures e.IllegalState?
    ensures s.committed ==> e.message == "Transaction already committed"
    ensures !s.committed ==> e.message == "Transaction already rolled back"
  {
    IllegalState("Transaction already " + (if s.committed then "committed" else "rolled back"))
  }

  /** close: roll back when no flag is set, then restore autocommit; a failure of either is close-transaction. */
  function CloseStep(s: TxState, rollbackOk: bool, autoCommitOk: bool): (r: (TxState, Option<Error>))
    ensures r.0.committed == s.committed && r.0.rolledBack == s.rolledBack
    ensures |r.0.log| > |s.log| && r.0.log[..|s.log|] == s.log
    ensures r.0.log[|s.log|] == Rollback <==> !Settled(s)
    ensures r.1.None? <==> (Settled(s) || rollbackOk) && autoCommitOk
    ensures r.1.Some? ==> r.1.value == DatabaseException("close-transaction", "")
    ensures r.1.None? ==> r.0.autoCommit
    ensures !autoCommitOk ==> r.0.autoCommit == s.autoCommit
  {
    if !Settled(s) && !rollbackOk then
      (s.(log := s.log + [Rollback]), Some(DatabaseException("close-transaction", "")))
    else
      var rolled := if Settled(s) then s else s.(log := s.log + [Rollback]);
      var restored := rolled.(log := rolled.log + [SetAutoCommit(true)]);
      if autoCommitOk then (restored.(autoCommit := true), None)
      else (restored, Some(DatabaseException("close-transaction", "")))
  }

  /** One operation: its new state and the exception it raises, if any. */
  function Step(s: TxState, op: TxOp): (r: (TxState, Option<Error>))
    ensures s.log <= r.0.log
    ensures s.committed ==> r.0.committed
    ensures s.rolledBack ==> r.0.rolledBack
    ensures Exclusive(s) ==> Exclusive(r.0)
    ensures !op.CloseOp? && Settled(s) ==> r == (s, Some(AlreadyEnded(s)))
    ensures op.CommitOp? && !Settled(s) ==>
      r.0.log == s.log + [Commit] && r.0.rolledBack == s.rolledBack && r.0.autoCommit == s.autoCommit
      && (r.0.committed <==> op.commitOk)
      && r.1 == (if op.commitOk then None else Some(DatabaseException("commit", "")))
    ensures op.RollbackOp? && !Settled(s) ==>
      r.0.log == s.log + [Rollback] && r.0.committed == s.committed && r.0.autoCommit == s.autoCommit
      && (r.0.rolledBack <==> op.rollbackOk)
      && r.1 == (if op.rollbackOk then None else Some(DatabaseException("rollback", "")))
  {
    match op
    case CommitOp(ok) =>
      if Settled(s) then (s, Some(AlreadyEnded(s)))
      else if ok then (s.(committed := true, log := s.log + [Commit]), None)
      else (s.(log := s.log + [Commit]), Some(DatabaseException("commit", "")))
    case RollbackOp(ok) =>
      if Settled(s) then (s, Some(AlreadyEnded(s)))
      else if ok then (s.(rolledBack := true, log := s.log + [Rollback]), None)
      else (s.(log := s.log + [Rollback]), Some(DatabaseException("rollback", "")))
    case CloseOp(rollbackOk, autoCommitOk) =>
      CloseStep(s, rollbackOk, autoCommitOk)
  }

  /** A sequence of operations, each applied whatever the previous one raised. */
  function Run(s: TxState, ops: seq<TxOp>): (r: TxState)
    ensures s.log <= r.log
    decreases |ops|
  {
    if ops == [] then s else Run(Step(s, ops[0]).0, ops[1..])
  }

  /** No sequence of operations ever sets both flags. */
  lemma {:induction false} RunKeepsExclusive(s: TxState, ops: seq<TxOp>)
    requires Exclusive(s)
    ensures Exclusive(Run(s, ops))
    decreases |ops|
  {
    if ops != [] {
      RunKeepsExclusive(Step(s, ops[0]).0, ops[1..]);
    }
  }

  /** Once settled, a transaction stays settled with the same flag. */
  lemma {:induction false} RunKeepsFlags(s: TxState, ops: seq<TxOp>)
    ensures s.committed ==> Run(s, ops).committed
    ensures s.rolledBack ==> Run(s, ops).rolledBack
    decreases |ops|
  {
    if ops != [] {
      RunKeepsFlags(Step(s, ops[0]).0, ops[1..]);
    }
  }

  /** After a commit or rollback succeeded, the only calls that reach the connection restore autocommit. */
  lemma {:induction false} SettledOnlyRestores(s: TxState, ops: seq<TxOp>)
    requires Settled(s)
    ensures forall k :: |s.log| <= k < |Run(s, ops).log| ==> Run(s, ops).log[k] == SetAutoCommit(true)
    decreases |ops|
  {
    if ops != [] {
      var next := Step(s, ops[0]).0;
      assert Settled(next);
      assert forall k :: |s.log| <= k < |next.log| ==> next.log[k] == SetAutoCommit(true);
      SettledOnlyRestores(next, ops[1..]);
    }
  }

  /** A rollback after a successful commit is refused with the committed message. */
  lemma CommitThenRollbackRefused()
    ensures Step(Step(Initial, CommitOp(true)).0, RollbackOp(true)).1 == Some(IllegalState("Transaction already committed"))
  {
    var s := Step(Initial, CommitOp(true)).0;
    assert s.committed;
  }

  /** A committed transaction is not rolled back by close; a fresh one is. */
  lemma CloseRollsBackOnlyOpen(s: TxState)
    ensures CloseStep(s, true, true).0.log == (if Settled(s) then s.log else s.log + [Rollback]) + [SetAutoCommit(true)]
  {
  }

  /** A failed rollback in close leaves autocommit as it was: the restoring call is skipped. */
  lemma CloseRollbackFailureSkipsRestore(s: TxState, autoCommitOk: bool)
    requires !Settled(s)
    ensures CloseStep(s, false, autoCommitOk).0 == s.(log := s.log + [Rollback])
  {
  }

  class Transaction {
    var committed: bool
    var rolledBack: bool
    /** the connection's autocommit mode */
    var autoCommit: bool
    /** the calls issued on the connection so far */
    var log: seq<ConnCall>

    function State(): TxState
      reads this
    {
      TxState(committed, rolledBack, autoCommit, log)
    }

    /** Transaction(connection) when setAutoCommit(false) returns. */
    constructor ()
      ensures State() == Initial
    {
      committed := false;
      rolledBack := false;
      autoCommit := false;
      log := [SetAutoCommit(false)];
    }

    /** Transaction(connection): the SQLException of setAutoCommit(false) propagates unwrapped. */
    static method Open(autoCommitOk: bool) returns (r: Result<Transaction, Error>)
      ensures !autoCommitOk ==> r == Err(SqlFailure("setAutoCommit"))
      ensures autoCommitOk ==> r.Ok? && fresh(r.value) && r.value.State() == Initial
    {
      if !autoCommitOk {
        return Err(SqlFailure("setAutoCommit"));
      }
      var t := new Transaction();
      return Ok(t);
    }

    method CommitTx(commitOk: bool) returns (error: Option<Error>)
      modifies this
      ensures (State(), error) == Step(old(State()), CommitOp(commitOk))
    {
      if committed || rolledBack {
        return Some(AlreadyEnded(State()));
      }
      log := log + [Commit];
      if !commitOk {
        return Some(DatabaseException("commit", ""));
      }
      committed := true;
      return None;
    }

    method RollbackTx(rollbackOk: bool) returns (error: Option<Error>)
      modifies this
      ensures (State(), error) == Step(old(State()), RollbackOp(rollbackOk))
    {
      if committed || rolledBack {
        return Some(AlreadyEnded(State()));
      }
      log := log + [Rollback];
      if !rollbackOk {
        return Some(DatabaseException("rollback", ""));
      }
      rolledBack := true;
      return None;
    }

    method Close(rollbackOk: bool, autoCommitOk: bool) returns (error: Option<Error>)
      modifies this
      ensures (State(), error) == Step(old(State()), CloseOp(rollbackOk, autoCommitOk))
    {
      if !committed && !rolledBack {
        log := log + [Rollback];
        if !rollbackOk {
          return Some(DatabaseException("close-transaction", ""));
        }
      }
      log := log + [SetAutoCommit(true)];
      if !autoCommitOk {
        return Some(DatabaseException("close-transaction", ""));
      }
      autoCommit := true;
      return None;
    }
  }
}
