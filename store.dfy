/**
 * The transactional store of src/db/sqlc/store.go.
 *
 * `SQLStore.execTx` opens a transaction, runs a callback against a Querier
 * bound to it, and then rolls back or commits. Dafny cannot pass a method as
 * an argument, so each script runs the same three steps itself:
 * `BeginTx` (store.go:34-37), its callback against the open transaction
 * (store.go:39-40), and `FinishTx` (store.go:41-48). The whole sequence is
 * specified once, by the function `ExecTx`, over what the callback did.
 */
module Store {
  import opened Wrappers
  import opened Db

  /** How COMMIT ends: it succeeds, or it fails and the data may or may not have been persisted. */
  datatype CommitResult = CommitOk | CommitFails(commitErr: Error, persisted: bool)

  /** The answers of the connection to BEGIN, ROLLBACK and COMMIT. */
  datatype TxEnv = TxEnv(begin: Option<Error>, rollback: Option<Error>, commit: CommitResult)

  const TxAllOk := TxEnv(None, None, CommitOk)

  /** A run of a callback or a whole call: the state it leaves, what it sent, its error and its result. */
  datatype Run<R> = Run(tables: Tables, seqs: Seqs, ops: seq<Op>, err: Option<Error>, result: R)

  /** The error execTx returns when the callback failed with `txErr`. */
  function RollbackError(txErr: Error, rollback: Option<Error>): Error {
    if rollback.Some? then TxRollbackError(txErr, rollback.value) else txErr
  }

  /**
   * execTx: `before` is the state at BEGIN, `body` what the callback does
   * when it runs from that state, `zero` the caller's result before the
   * callback assigns it. Rolling back restores the tables; the sequences
   * keep the values the callback drew, as serial columns do.
   */
  function ExecTx<R>(before: Tables, seqs: Seqs, body: Run<R>, zero: R, env: TxEnv): (r: Run<R>)
    ensures r.tables == before || r.tables == body.tables
    ensures r.seqs == (if env.begin.Some? then seqs else body.seqs)
  {
    if env.begin.Some? then
      Run(before, seqs, [OpBegin], env.begin, zero)
    else if body.err.Some? then
      Run(before, body.seqs, [OpBegin] + body.ops + [OpRollback], Some(RollbackError(body.err.value, env.rollback)), body.result)
    else
      match env.commit
      case CommitOk =>
        Run(body.tables, body.seqs, [OpBegin] + body.ops + [OpCommit], None, body.result)
      case CommitFails(e, persisted) =>
        Run(if persisted then body.tables else before, body.seqs, [OpBegin] + body.ops + [OpCommit], Some(e), body.result)
  }

  /** The number of COMMIT and ROLLBACK statements in `ops`. */
  function Endings(ops: seq<Op>): nat {
    if ops == [] then 0
    else (if ops[0].OpCommit? || ops[0].OpRollback? then 1 else 0) + Endings(ops[1..])
  }

  lemma {:induction false} EndingsAppend(a: seq<Op>, b: seq<Op>)
    ensures Endings(a + b) == Endings(a) + Endings(b)
    decreases |a|
  {
    if a == [] {
      assert a + b == b;
    } else {
      assert (a + b)[1..] == a[1..] + b;
      EndingsAppend(a[1..], b);
    }
  }

  lemma {:induction false} NoEndings(ops: seq<Op>)
    requires NoTxControl(ops)
    ensures Endings(ops) == 0
    decreases |ops|
  {
    if ops != [] {
      assert NoTxControl(ops[1..]) by {
        forall i | 0 <= i < |ops[1..]| ensures !IsTxControl(ops[1..][i]) {
          assert ops[1..][i] == ops[i + 1];
        }
      }
      NoEndings(ops[1..]);
    }
  }

  /**
   * A transaction that began ends in exactly one COMMIT or ROLLBACK, as its
   * last statement, and it is a ROLLBACK exactly when the callback failed;
   * when BEGIN fails the callback never runs and nothing else is sent.
   */
  lemma ExecTxEndsOnce<R>(before: Tables, seqs: Seqs, body: Run<R>, zero: R, env: TxEnv)
    requires NoTxControl(body.ops)
    ensures var o := ExecTx(before, seqs, body, zero, env);
      && (env.begin.Some? ==> o.ops == [OpBegin])
      && (env.begin.None? ==>
            && Endings(o.ops) == 1
            && o.ops[..|o.ops| - 1] == [OpBegin] + body.ops
            && (o.ops[|o.ops| - 1] == OpRollback <==> body.err.Some?)
            && (o.ops[|o.ops| - 1] == OpCommit <==> body.err.None?))
  {
    var o := ExecTx(before, seqs, body, zero, env);
    if env.begin.None? {
      var last := if body.err.Some? then OpRollback else OpCommit;
      assert o.ops == [OpBegin] + body.ops + [last];
      NoEndings(body.ops);
      EndingsAppend([OpBegin], body.ops);
      EndingsAppend([OpBegin] + body.ops, [last]);
      assert o.ops[..|o.ops| - 1] == [OpBegin] + body.ops;
    }
  }

  /** All or nothing: what the call leaves behind, by outcome. */
  lemma ExecTxAtomic<R>(before: Tables, seqs: Seqs, body: Run<R>, zero: R, env: TxEnv)
    ensures var o := ExecTx(before, seqs, body, zero, env);
      // BEGIN failed: its error, nothing changed, the callback never ran
      && (env.begin.Some? ==> o.err == env.begin && o.tables == before && o.seqs == seqs && o.result == zero)
      // callback failed: everything it wrote is undone
      && (env.begin.None? && body.err.Some? ==> o.tables == before)
      // ... and its error comes back unchanged when ROLLBACK succeeds
      && (env.begin.None? && body.err.Some? && env.rollback.None? ==> o.err == body.err)
      // ... or together with the rollback error when ROLLBACK fails too
      && (env.begin.None? && body.err.Some? && env.rollback.Some? ==> o.err == Some(TxRollbackError(body.err.value, env.rollback.value)))
      // callback succeeded: the result of COMMIT is returned; when nil, every write stays
      && (env.begin.None? && body.err.None? && env.commit.CommitOk? ==> o.err.None? && o.tables == body.tables)
      && (env.begin.None? && body.err.None? && env.commit.CommitFails? ==>
            o.err == Some(env.commit.commitErr) && (o.tables == body.tables || o.tables == before))
      // the call fails exactly when BEGIN, the callback or COMMIT failed
      && (o.err.None? <==> env.begin.None? && body.err.None? && env.commit.CommitOk?)
  {
  }

  /** Serial ids stay ahead of the rows on every path, rolled back or not. */
  lemma ExecTxKeepsSeqsAhead<R>(before: Tables, seqs: Seqs, body: Run<R>, zero: R, env: TxEnv)
    requires SeqsAhead(before, seqs) && SeqsAhead(body.tables, body.seqs)
    requires body.seqs.lastTransferId >= seqs.lastTransferId && body.seqs.lastEntryId >= seqs.lastEntryId
    ensures var o := ExecTx(before, seqs, body, zero, env); SeqsAhead(o.tables, o.seqs)
  {
  }

  /**
   * The database as the Store sees it. `tables` is the state the next
   * statement runs on; `tx` holds the state at BEGIN while a transaction is
   * open, which is what ROLLBACK returns to; `trace` records every statement
   * sent, in order.
   */
  class SQLStore {
    var tables: Tables
    var seqs: Seqs
    var tx: Option<Tables>
    ghost var trace: seq<Op>

    /**
     * Every serial id in use, now and in the snapshot of an open
     * transaction, was drawn from its sequence, so the next id drawn is free.
     */
    ghost predicate Valid()
      reads this
    {
      SeqsAhead(tables, seqs) && (tx.Some? ==> SeqsAhead(tx.value, seqs))
    }

    /** NewStore, over a database whose sequences are ahead of its rows. */
    constructor (initial: Tables, sequences: Seqs)
      requires SeqsAhead(initial, sequences)
      ensures tables == initial && seqs == sequences && tx.None? && trace == []
      ensures Valid()
    {
      tables := initial;
      seqs := sequences;
      tx := None;
      trace := [];
    }

    /** `db.BeginTx`: on success the state at BEGIN is kept for a later rollback. */
    method BeginTx(fault: Option<Error>) returns (err: Option<Error>)
      requires tx.None?
      modifies this`tx, this`trace
      ensures err == fault
      ensures tx == (if fault.None? then Some(tables) else None)
      ensures trace == old(trace) + [OpBegin]
    {
      trace := trace + [OpBegin];
      if fault.Some? {
        return fault;
      }
      tx := Some(tables);
      err := None;
    }

    /** `tx.Rollback`: the transaction ends and none of its writes remain, even when it reports an error. */
    method Rollback(fault: Option<Error>) returns (err: Option<Error>)
      requires tx.Some?
      modifies this`tables, this`tx, this`trace
      ensures tables == old(tx.value) && tx.None? && err == fault
      ensures trace == old(trace) + [OpRollback]
    {
      trace := trace + [OpRollback];
      tables := tx.value;
      tx := None;
      err := fault;
    }

    /** `tx.Commit`: the writes stay, unless it fails and the server dropped them. */
    method Commit(result: CommitResult) returns (err: Option<Error>)
      requires tx.Some?
      modifies this`tables, this`tx, this`trace
      ensures tx.None? && trace == old(trace) + [OpCommit]
      ensures result.CommitOk? ==> err.None? && tables == old(tables)
      ensures result.CommitFails? ==>
        err == Some(result.commitErr) && tables == (if result.persisted then old(tables) else old(tx.value))
    {
      trace := trace + [OpCommit];
      var atBegin := tx.value;
      tx := None;
      match result
      case CommitOk =>
        err := None;
      case CommitFails(e, persisted) =>
        if !persisted {
          tables := atBegin;
        }
        err := Some(e);
    }

    /** store.go:41-48: roll back on a callback error, combining a rollback error with it; otherwise commit. */
    method FinishTx(bodyErr: Option<Error>, env: TxEnv) returns (err: Option<Error>)
      requires tx.Some?
      modifies this`tables, this`tx, this`trace
      ensures tx.None?
      ensures bodyErr.Some? ==>
        && tables == old(tx.value)
        && err == Some(RollbackError(bodyErr.value, env.rollback))
        && trace == old(trace) + [OpRollback]
      ensures bodyErr.None? ==> trace == old(trace) + [OpCommit] && match env.commit
        case CommitOk => err.None? && tables == old(tables)
        case CommitFails(e, persisted) => err == Some(e) && tables == (if persisted then old(tables) else old(tx.value))
    {
      if bodyErr.Some? {
        var rbErr := Rollback(env.rollback);
        if rbErr.Some? {
          return Some(TxRollbackError(bodyErr.value, rbErr.value));
        }
        return bodyErr;
      }
      err := Commit(env.commit);
    }

    // ---- The Querier, run on the current state ----------------------------

    method CreateTransfer(p: CreateTransferParams, fault: Option<Error>) returns (row: Transfer, err: Option<Error>)
      modifies this`tables, this`seqs, this`trace
      ensures var o := Db.CreateTransfer(old(tables), old(seqs), p, fault);
        tables == o.tables && seqs == o.seqs && row == o.row && err == o.err
      ensures trace == old(trace) + [OpCreateTransfer(p)]
    {
      var o := Db.CreateTransfer(tables, seqs, p, fault);
      tables, seqs, row, err := o.tables, o.seqs, o.row, o.err;
      trace := trace + [OpCreateTransfer(p)];
    }

    method CreateEntry(p: CreateEntryParams, fault: Option<Error>) returns (row: Entry, err: Option<Error>)
      modifies this`tables, this`seqs, this`trace
      ensures var o := Db.CreateEntry(old(tables), old(seqs), p, fault);
        tables == o.tables && seqs == o.seqs && row == o.row && err == o.err
      ensures trace == old(trace) + [OpCreateEntry(p)]
    {
      var o := Db.CreateEntry(tables, seqs, p, fault);
      tables, seqs, row, err := o.tables, o.seqs, o.row, o.err;
      trace := trace + [OpCreateEntry(p)];
    }

    method AddAccountBalance(p: AddAccountBalanceParams, fault: Option<Error>) returns (row: Account, err: Option<Error>)
      modifies this`tables, this`trace
      ensures var o := Db.AddAccountBalance(old(tables), seqs, p, fault);
        tables == o.tables && row == o.row && err == o.err
      ensures trace == old(trace) + [OpAddAccountBalance(p)]
    {
      var o := Db.AddAccountBalance(tables, seqs, p, fault);
      tables, row, err := o.tables, o.row, o.err;
      trace := trace + [OpAddAccountBalance(p)];
    }

    method CreateUser(p: CreateUserParams, fault: Option<Error>) returns (row: User, err: Option<Error>)
      modifies this`tables, this`trace
      ensures var o := Db.CreateUser(old(tables), seqs, p, fault);
        tables == o.tables && row == o.row && err == o.err
      ensures trace == old(trace) + [OpCreateUser(p)]
    {
      var o := Db.CreateUser(tables, seqs, p, fault);
      tables, row, err := o.tables, o.row, o.err;
      trace := trace + [OpCreateUser(p)];
    }

    method UpdateUser(p: UpdateUserParams, fault: Option<Error>) returns (row: User, err: Option<Error>)
      modifies this`tables, this`trace
      ensures var o := Db.UpdateUser(old(tables), seqs, p, fault);
        tables == o.tables && row == o.row && err == o.err
      ensures trace == old(trace) + [OpUpdateUser(p)]
    {
      var o := Db.UpdateUser(tables, seqs, p, fault);
      tables, row, err := o.tables, o.row, o.err;
      trace := trace + [OpUpdateUser(p)];
    }

    method UpdateVerifyEmail(p: UpdateVerifyEmailParams, now: int, fault: Option<Error>) returns (row: VerifyEmail, err: Option<Error>)
      modifies this`tables, this`trace
      ensures var o := Db.UpdateVerifyEmail(old(tables), seqs, p, now, fault);
        tables == o.tables && row == o.row && err == o.err
      ensures trace == old(trace) + [OpUpdateVerifyEmail(p)]
    {
      var o := Db.UpdateVerifyEmail(tables, seqs, p, now, fault);
      tables, row, err := o.tables, o.row, o.err;
      trace := trace + [OpUpdateVerifyEmail(p)];
    }

    /** Records a call of the AfterCreate callback, which runs inside the open transaction. */
    ghost method RecordAfterCreate(user: User)
      modifies this`trace
      ensures trace == old(trace) + [OpAfterCreate(user)]
    {
      trace := trace + [OpAfterCreate(user)];
    }
  }
}
