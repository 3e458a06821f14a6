/**
 * TransferTx and addMoney (src/db/sqlc/tx_transfer.go): one transfer row,
 * two ledger entries and two balance updates in a single transaction, the
 * balance updates always issued lower account id first.
 */
module TxTransfer {
  import opened Wrappers
  import opened Db
  import opened Store

  datatype TransferTxParams = TransferTxParams(fromAccountId: int, toAccountId: int, amount: int)

  datatype TransferTxResult = TransferTxResult(
    transfer: Transfer, fromAccount: Account, toAccount: Account, fromEntry: Entry, toEntry: Entry)

  const ZeroTransferTxResult := TransferTxResult(ZeroTransfer, ZeroAccount, ZeroAccount, ZeroEntry, ZeroEntry)

  /** Injected failures of the five statements, in the order the script issues them. */
  datatype TransferEnv = TransferEnv(
    createTransfer: Option<Error>, fromEntry: Option<Error>, toEntry: Option<Error>,
    firstAdd: Option<Error>, secondAdd: Option<Error>)

  const TransferAllOk := TransferEnv(None, None, None, None, None)

  /** addMoney: two balance updates in the given order; the second is skipped when the first fails. */
  function AddMoneyOutcome(
    t: Tables, s: Seqs, id1: int, amount1: int, id2: int, amount2: int,
    fault1: Option<Error>, fault2: Option<Error>): (r: Run<(Account, Account)>)
    ensures r.seqs == s && NoTxControl(r.ops)
    ensures r.tables == t.(accounts := r.tables.accounts)
  {
    var p1 := AddAccountBalanceParams(id1, amount1);
    var a1 := AddAccountBalance(t, s, p1, fault1);
    if a1.err.Some? then
      Run(a1.tables, s, [OpAddAccountBalance(p1)], a1.err, (ZeroAccount, ZeroAccount))
    else
      var p2 := AddAccountBalanceParams(id2, amount2);
      var a2 := AddAccountBalance(a1.tables, s, p2, fault2);
      Run(a2.tables, s, [OpAddAccountBalance(p1), OpAddAccountBalance(p2)], a2.err, (a1.row, a2.row))
  }

  /**
   * The call of addMoney in tx_transfer.go:58-63: the account with the lower
   * id is updated first. The result is (from account, to account) either way.
   */
  function MoveMoney(t: Tables, s: Seqs, arg: TransferTxParams, fault1: Option<Error>, fault2: Option<Error>): (r: Run<(Account, Account)>)
    ensures r.seqs == s && NoTxControl(r.ops)
    ensures r.tables == t.(accounts := r.tables.accounts)
  {
    if arg.fromAccountId < arg.toAccountId then
      AddMoneyOutcome(t, s, arg.fromAccountId, -arg.amount, arg.toAccountId, arg.amount, fault1, fault2)
    else
      var m := AddMoneyOutcome(t, s, arg.toAccountId, arg.amount, arg.fromAccountId, -arg.amount, fault1, fault2);
      m.(result := (m.result.1, m.result.0))
  }

  /** The statements that insert the transfer and its two entries. */
  function InsertOps(arg: TransferTxParams): seq<Op> {
    [ OpCreateTransfer(CreateTransferParams(arg.fromAccountId, arg.toAccountId, arg.amount)),
      OpCreateEntry(CreateEntryParams(arg.fromAccountId, -arg.amount)),
      OpCreateEntry(CreateEntryParams(arg.toAccountId, arg.amount)) ]
  }

  /** The three inserts succeed; afterwards only the balance updates can fail. */
  predicate InsertsOk(env: TransferEnv) {
    env.createTransfer.None? && env.fromEntry.None? && env.toEntry.None?
  }

  /**
   * The inserts of tx_transfer.go:33-56: the transfer row, the debit entry
   * and the credit entry, stopping at the first failure. Only the transfers
   * and entries tables change; balances are untouched.
   */
  function RecordTransfer(t: Tables, s: Seqs, arg: TransferTxParams, env: TransferEnv): (r: Run<TransferTxResult>)
    ensures NoTxControl(r.ops)
    ensures r.tables == t.(transfers := r.tables.transfers, entries := r.tables.entries)
    ensures r.err.None? <==> InsertsOk(env)
    ensures r.err.None? ==> r.ops == InsertOps(arg)
  {
    var ops := InsertOps(arg);
    var tr := CreateTransfer(t, s, CreateTransferParams(arg.fromAccountId, arg.toAccountId, arg.amount), env.createTransfer);
    var r1 := ZeroTransferTxResult.(transfer := tr.row);
    if tr.err.Some? then Run(tr.tables, tr.seqs, ops[..1], tr.err, r1)
    else
      var e1 := CreateEntry(tr.tables, tr.seqs, CreateEntryParams(arg.fromAccountId, -arg.amount), env.fromEntry);
      var r2 := r1.(fromEntry := e1.row);
      if e1.err.Some? then Run(e1.tables, e1.seqs, ops[..2], e1.err, r2)
      else
        var e2 := CreateEntry(e1.tables, e1.seqs, CreateEntryParams(arg.toAccountId, arg.amount), env.toEntry);
        Run(e2.tables, e2.seqs, ops, e2.err, r2.(toEntry := e2.row))
  }

  /** The callback of TransferTx (tx_transfer.go:30-66), run from state `t`. */
  function TransferBodyOutcome(t: Tables, s: Seqs, arg: TransferTxParams, env: TransferEnv): (r: Run<TransferTxResult>)
    ensures NoTxControl(r.ops)
  {
    var i := RecordTransfer(t, s, arg, env);
    if i.err.Some? then i
    else
      var m := MoveMoney(i.tables, i.seqs, arg, env.firstAdd, env.secondAdd);
      // the error of addMoney is dropped: the callback returns nil
      Run(m.tables, m.seqs, i.ops + m.ops, None, i.result.(fromAccount := m.result.0, toAccount := m.result.1))
  }

  /** TransferTx as a whole: the callback run by execTx. */
  function TransferTxOutcome(t: Tables, s: Seqs, arg: TransferTxParams, env: TransferEnv, txEnv: TxEnv): (r: Run<TransferTxResult>)
    ensures r.tables.users == t.users && r.tables.verifyEmails == t.verifyEmails
  {
    ExecTx(t, s, TransferBodyOutcome(t, s, arg, env), ZeroTransferTxResult, txEnv)
  }

  // ---- The code --------------------------------------------------------------

  method AddMoney(
    store: SQLStore, accountId1: int, amount1: int, accountId2: int, amount2: int,
    fault1: Option<Error>, fault2: Option<Error>)
    returns (account1: Account, account2: Account, err: Option<Error>)
    modifies store`tables, store`trace
    ensures var o := AddMoneyOutcome(old(store.tables), store.seqs, accountId1, amount1, accountId2, amount2, fault1, fault2);
      && store.tables == o.tables && store.trace == old(store.trace) + o.ops
      && (account1, account2) == o.result && err == o.err
  {
    account2 := ZeroAccount;
    account1, err := store.AddAccountBalance(AddAccountBalanceParams(accountId1, amount1), fault1);
    if err.Some? {
      return;
    }
    account2, err := store.AddAccountBalance(AddAccountBalanceParams(accountId2, amount2), fault2);
  }

  /** The callback, run against the open transaction. */
  method TransferTransactions(store: SQLStore, arg: TransferTxParams, env: TransferEnv)
    returns (result: TransferTxResult, err: Option<Error>)
    requires store.tx.Some?
    modifies store`tables, store`seqs, store`trace
    ensures var o := TransferBodyOutcome(old(store.tables), old(store.seqs), arg, env);
      && store.tables == o.tables && store.seqs == o.seqs && store.trace == old(store.trace) + o.ops
      && result == o.result && err == o.err
  {
    result := ZeroTransferTxResult;
    var transfer, fromEntry, toEntry;
    transfer, err := store.CreateTransfer(CreateTransferParams(arg.fromAccountId, arg.toAccountId, arg.amount), env.createTransfer);
    result := result.(transfer := transfer);
    if err.Some? {
      return;
    }

    fromEntry, err := store.CreateEntry(CreateEntryParams(arg.fromAccountId, -arg.amount), env.fromEntry);
    result := result.(fromEntry := fromEntry);
    if err.Some? {
      return;
    }

    toEntry, err := store.CreateEntry(CreateEntryParams(arg.toAccountId, arg.amount), env.toEntry);
    result := result.(toEntry := toEntry);
    if err.Some? {
      return;
    }

    var first, second;
    if arg.fromAccountId < arg.toAccountId {
      first, second, err := AddMoney(store, arg.fromAccountId, -arg.amount, arg.toAccountId, arg.amount, env.firstAdd, env.secondAdd);
      result := result.(fromAccount := first, toAccount := second);
    } else {
      first, second, err := AddMoney(store, arg.toAccountId, arg.amount, arg.fromAccountId, -arg.amount, env.firstAdd, env.secondAdd);
      result := result.(toAccount := first, fromAccount := second);
    }

    return result, None;
  }

  method TransferTx(store: SQLStore, arg: TransferTxParams, env: TransferEnv, txEnv: TxEnv)
    returns (result: TransferTxResult, err: Option<Error>)
    requires store.tx.None? && store.Valid()
    modifies store`tables, store`seqs, store`tx, store`trace
    ensures store.tx.None? && store.Valid()
    ensures var o := TransferTxOutcome(old(store.tables), old(store.seqs), arg, env, txEnv);
      && store.tables == o.tables && store.seqs == o.seqs && store.trace == old(store.trace) + o.ops
      && result == o.result && err == o.err
  {
    result := ZeroTransferTxResult;
    err := store.BeginTx(txEnv.begin);
    if err.Some? {
      return;
    }
    var bodyErr;
    result, bodyErr := TransferTransactions(store, arg, env);
    ghost var ops := store.trace[|old(store.trace)|..];
    err := store.FinishTx(bodyErr, txEnv);
    assert store.trace == old(store.trace) + (ops + [if bodyErr.Some? then OpRollback else OpCommit]);
    TransferKeepsSeqsAhead(old(store.tables), old(store.seqs), arg, env, txEnv);
  }

  // ---- Properties ------------------------------------------------------------

  /** How much a fully applied transfer changes the balance of account `id`. */
  function BalanceDelta(arg: TransferTxParams, id: int): int {
    (if id == arg.fromAccountId then -arg.amount else 0) + (if id == arg.toAccountId then arg.amount else 0)
  }

  function Min(a: int, b: int): int { if a < b then a else b }

  /**
   * A transfer that returns nil recorded exactly what was asked: the transfer
   * row, a debit entry on the from account and a credit entry on the to
   * account, all three persisted.
   */
  lemma TransferRecordsRequest(t: Tables, s: Seqs, arg: TransferTxParams, env: TransferEnv, txEnv: TxEnv)
    ensures var o := TransferTxOutcome(t, s, arg, env, txEnv);
      o.err.None? ==>
        && o.result.transfer.fromAccountId == arg.fromAccountId
        && o.result.transfer.toAccountId == arg.toAccountId
        && o.result.transfer.amount == arg.amount
        && o.result.fromEntry.accountId == arg.fromAccountId && o.result.fromEntry.amount == -arg.amount
        && o.result.toEntry.accountId == arg.toAccountId && o.result.toEntry.amount == arg.amount
        && o.tables.transfers[o.result.transfer.id] == o.result.transfer
        && o.tables.entries[o.result.fromEntry.id] == o.result.fromEntry
        && o.tables.entries[o.result.toEntry.id] == o.result.toEntry
  {
    var b := TransferBodyOutcome(t, s, arg, env);
    if b.err.None? && txEnv.begin.None? && txEnv.commit.CommitOk? {
      BodyRecordsRequest(t, s, arg, env);
    }
  }

  /** The callback returns nil only after all three inserts, and they stay in its final state. */
  lemma BodyRecordsRequest(t: Tables, s: Seqs, arg: TransferTxParams, env: TransferEnv)
    requires TransferBodyOutcome(t, s, arg, env).err.None?
    ensures var b := TransferBodyOutcome(t, s, arg, env);
      && InsertsOk(env)
      && b.result.transfer == Transfer(b.result.transfer.id, arg.fromAccountId, arg.toAccountId, arg.amount)
      && b.result.fromEntry == Entry(b.result.fromEntry.id, arg.fromAccountId, -arg.amount)
      && b.result.toEntry == Entry(b.result.toEntry.id, arg.toAccountId, arg.amount)
      && b.tables.transfers[b.result.transfer.id] == b.result.transfer
      && b.tables.entries[b.result.fromEntry.id] == b.result.fromEntry
      && b.tables.entries[b.result.toEntry.id] == b.result.toEntry
  {
    var tr := CreateTransfer(t, s, CreateTransferParams(arg.fromAccountId, arg.toAccountId, arg.amount), env.createTransfer);
    var e1 := CreateEntry(tr.tables, tr.seqs, CreateEntryParams(arg.fromAccountId, -arg.amount), env.fromEntry);
    var e2 := CreateEntry(e1.tables, e1.seqs, CreateEntryParams(arg.toAccountId, arg.amount), env.toEntry);
    assert InsertsOk(env);
    assert e2.tables.transfers[tr.row.id] == tr.row;
    assert e2.tables.entries[e1.row.id] == e1.row;
  }

  /** The callback only draws serial ids forward, and every id it inserts was drawn. */
  lemma BodyKeepsSeqsAhead(t: Tables, s: Seqs, arg: TransferTxParams, env: TransferEnv)
    requires SeqsAhead(t, s)
    ensures var b := TransferBodyOutcome(t, s, arg, env);
      && b.seqs.lastTransferId >= s.lastTransferId && b.seqs.lastEntryId >= s.lastEntryId
      && SeqsAhead(b.tables, b.seqs)
  {
    var tr := CreateTransfer(t, s, CreateTransferParams(arg.fromAccountId, arg.toAccountId, arg.amount), env.createTransfer);
    var e1 := CreateEntry(tr.tables, tr.seqs, CreateEntryParams(arg.fromAccountId, -arg.amount), env.fromEntry);
    CreateTransferKeepsSeqsAhead(t, s, CreateTransferParams(arg.fromAccountId, arg.toAccountId, arg.amount), env.createTransfer);
    CreateEntryKeepsSeqsAhead(tr.tables, tr.seqs, CreateEntryParams(arg.fromAccountId, -arg.amount), env.fromEntry);
    CreateEntryKeepsSeqsAhead(e1.tables, e1.seqs, CreateEntryParams(arg.toAccountId, arg.amount), env.toEntry);
  }

  /** After a transfer, committed or rolled back, every serial id in use was drawn from its sequence. */
  lemma TransferKeepsSeqsAhead(t: Tables, s: Seqs, arg: TransferTxParams, env: TransferEnv, txEnv: TxEnv)
    requires SeqsAhead(t, s)
    ensures var o := TransferTxOutcome(t, s, arg, env, txEnv); SeqsAhead(o.tables, o.seqs)
  {
    BodyKeepsSeqsAhead(t, s, arg, env);
    ExecTxKeepsSeqsAhead(t, s, TransferBodyOutcome(t, s, arg, env), ZeroTransferTxResult, txEnv);
  }

  /** Inserts drawn from sequences that are ahead of the rows add rows and overwrite none. */
  lemma RecordTransferKeepsRows(t: Tables, s: Seqs, arg: TransferTxParams, env: TransferEnv)
    requires SeqsAhead(t, s)
    ensures var i := RecordTransfer(t, s, arg, env);
      && (forall id :: id in t.transfers ==> id in i.tables.transfers && i.tables.transfers[id] == t.transfers[id])
      && (forall id :: id in t.entries ==> id in i.tables.entries && i.tables.entries[id] == t.entries[id])
  {
    var tr := CreateTransfer(t, s, CreateTransferParams(arg.fromAccountId, arg.toAccountId, arg.amount), env.createTransfer);
    var e1 := CreateEntry(tr.tables, tr.seqs, CreateEntryParams(arg.fromAccountId, -arg.amount), env.fromEntry);
    CreateTransferKeepsSeqsAhead(t, s, CreateTransferParams(arg.fromAccountId, arg.toAccountId, arg.amount), env.createTransfer);
    CreateEntryKeepsSeqsAhead(tr.tables, tr.seqs, CreateEntryParams(arg.fromAccountId, -arg.amount), env.fromEntry);
    CreateEntryKeepsSeqsAhead(e1.tables, e1.seqs, CreateEntryParams(arg.toAccountId, arg.amount), env.toEntry);
  }

  /**
   * In a store whose sequences are ahead of its rows, a transfer, committed
   * or rolled back, keeps every transfer and entry row that was there.
   */
  lemma TransferKeepsExistingRows(t: Tables, s: Seqs, arg: TransferTxParams, env: TransferEnv, txEnv: TxEnv)
    requires SeqsAhead(t, s)
    ensures var o := TransferTxOutcome(t, s, arg, env, txEnv);
      && (forall id :: id in t.transfers ==> id in o.tables.transfers && o.tables.transfers[id] == t.transfers[id])
      && (forall id :: id in t.entries ==> id in o.tables.entries && o.tables.entries[id] == t.entries[id])
  {
    var i := RecordTransfer(t, s, arg, env);
    RecordTransferKeepsRows(t, s, arg, env);
    var b := TransferBodyOutcome(t, s, arg, env);
    assert b.tables.transfers == i.tables.transfers && b.tables.entries == i.tables.entries;
  }

  /**
   * Lock order: once the inserts are done, the first balance update is on
   * the lower account id, whichever way the money moves, and the second (when
   * the first succeeded) is on the other account.
   */
  lemma TransferLockOrder(t: Tables, s: Seqs, arg: TransferTxParams, env: TransferEnv, txEnv: TxEnv)
    requires txEnv.begin.None? && InsertsOk(env)
    ensures var o := TransferTxOutcome(t, s, arg, env, txEnv);
      var lowDelta := if arg.fromAccountId < arg.toAccountId then -arg.amount else arg.amount;
      && o.ops[..4] == [OpBegin] + InsertOps(arg)
      && o.ops[4] == OpAddAccountBalance(AddAccountBalanceParams(Min(arg.fromAccountId, arg.toAccountId), lowDelta))
      && (o.ops[5].OpAddAccountBalance? ==>
            o.ops[5] == OpAddAccountBalance(AddAccountBalanceParams(
              if arg.fromAccountId < arg.toAccountId then arg.toAccountId else arg.fromAccountId, -lowDelta)))
  {
  }

  /**
   * A transfer in which nothing fails moves `amount` from one account to the
   * other: every balance changes by `BalanceDelta` (so a transfer to the same
   * account changes nothing), no account appears or disappears, and the sum
   * of all balances is unchanged. The returned accounts are the updated rows.
   */
  lemma TransferMovesBalances(t: Tables, s: Seqs, arg: TransferTxParams)
    requires arg.fromAccountId in t.accounts && arg.toAccountId in t.accounts
    ensures var o := TransferTxOutcome(t, s, arg, TransferAllOk, TxAllOk);
      && o.err.None?
      && o.tables.accounts.Keys == t.accounts.Keys
      && (forall id :: id in t.accounts ==>
            o.tables.accounts[id] == t.accounts[id].(balance := t.accounts[id].balance + BalanceDelta(arg, id)))
      && (arg.fromAccountId != arg.toAccountId ==>
            o.result.fromAccount == o.tables.accounts[arg.fromAccountId]
            && o.result.toAccount == o.tables.accounts[arg.toAccountId])
  {
    BodyMovesBalances(t, s, arg);
  }

  /** `TransferMovesBalances` for the callback alone. */
  lemma BodyMovesBalances(t: Tables, s: Seqs, arg: TransferTxParams)
    requires arg.fromAccountId in t.accounts && arg.toAccountId in t.accounts
    ensures var b := TransferBodyOutcome(t, s, arg, TransferAllOk);
      && b.err.None?
      && b.tables.accounts.Keys == t.accounts.Keys
      && (forall id :: id in t.accounts ==>
            b.tables.accounts[id] == t.accounts[id].(balance := t.accounts[id].balance + BalanceDelta(arg, id)))
      && (arg.fromAccountId != arg.toAccountId ==>
            b.result.fromAccount == b.tables.accounts[arg.fromAccountId]
            && b.result.toAccount == b.tables.accounts[arg.toAccountId])
  {
    var i := RecordTransfer(t, s, arg, TransferAllOk);
    MoveMoneyMoves(i.tables, i.seqs, arg);
  }

  /** Both balance updates succeeding move every balance by `BalanceDelta` and keep the total. */
  lemma MoveMoneyMoves(t: Tables, s: Seqs, arg: TransferTxParams)
    requires arg.fromAccountId in t.accounts && arg.toAccountId in t.accounts
    ensures var m := MoveMoney(t, s, arg, None, None);
      && m.err.None?
      && m.tables.accounts.Keys == t.accounts.Keys
      && (forall id :: id in t.accounts ==>
            m.tables.accounts[id] == t.accounts[id].(balance := t.accounts[id].balance + BalanceDelta(arg, id)))
      && (arg.fromAccountId != arg.toAccountId ==>
            m.result == (m.tables.accounts[arg.fromAccountId], m.tables.accounts[arg.toAccountId]))
  {
    var from, to, amount := arg.fromAccountId, arg.toAccountId, arg.amount;
    if from < to {
      AddMoneyMoves(t, s, from, -amount, to, amount);
    } else {
      AddMoneyMoves(t, s, to, amount, from, -amount);
    }
  }

  /** addMoney with both updates succeeding: each account moves by its own delta, and the total by their sum. */
  lemma AddMoneyMoves(t: Tables, s: Seqs, id1: int, amount1: int, id2: int, amount2: int)
    requires id1 in t.accounts && id2 in t.accounts
    ensures var m := AddMoneyOutcome(t, s, id1, amount1, id2, amount2, None, None);
      && m.err.None?
      && m.tables.accounts.Keys == t.accounts.Keys
      && (forall id :: id in t.accounts ==>
            m.tables.accounts[id] == t.accounts[id].(balance := t.accounts[id].balance
              + (if id == id1 then amount1 else 0) + (if id == id2 then amount2 else 0)))
      && (id1 != id2 ==> m.result == (m.tables.accounts[id1], m.tables.accounts[id2]))
  {
  }

  /**
   * A transfer in which nothing fails keeps the sum of all balances: money
   * moves between accounts and is neither created nor destroyed.
   */
  lemma TransferConservesTotal(t: Tables, s: Seqs, arg: TransferTxParams)
    requires arg.fromAccountId in t.accounts && arg.toAccountId in t.accounts
    ensures var o := TransferTxOutcome(t, s, arg, TransferAllOk, TxAllOk);
      TotalBalance(o.tables.accounts) == TotalBalance(t.accounts)
  {
    BodyConservesTotal(t, s, arg);
  }

  /** `TransferConservesTotal` for the callback alone. */
  lemma BodyConservesTotal(t: Tables, s: Seqs, arg: TransferTxParams)
    requires arg.fromAccountId in t.accounts && arg.toAccountId in t.accounts
    ensures var b := TransferBodyOutcome(t, s, arg, TransferAllOk);
      b.err.None? && TotalBalance(b.tables.accounts) == TotalBalance(t.accounts)
  {
    var i := RecordTransfer(t, s, arg, TransferAllOk);
    MoveMoneyKeepsTotal(i.tables, i.seqs, arg);
  }

  lemma MoveMoneyKeepsTotal(t: Tables, s: Seqs, arg: TransferTxParams)
    requires arg.fromAccountId in t.accounts && arg.toAccountId in t.accounts
    ensures TotalBalance(MoveMoney(t, s, arg, None, None).tables.accounts) == TotalBalance(t.accounts)
  {
    var from, to, amount := arg.fromAccountId, arg.toAccountId, arg.amount;
    if from < to {
      AddMoneyTotal(t, s, from, -amount, to, amount);
    } else {
      AddMoneyTotal(t, s, to, amount, from, -amount);
    }
  }

  /** The sum of all balances moves by the two deltas of addMoney. */
  lemma AddMoneyTotal(t: Tables, s: Seqs, id1: int, amount1: int, id2: int, amount2: int)
    requires id1 in t.accounts && id2 in t.accounts
    ensures TotalBalance(AddMoneyOutcome(t, s, id1, amount1, id2, amount2, None, None).tables.accounts)
      == TotalBalance(t.accounts) + amount1 + amount2
  {
    var a1 := AddAccountBalance(t, s, AddAccountBalanceParams(id1, amount1), None);
    AddAccountBalanceTotal(t, s, AddAccountBalanceParams(id1, amount1), None);
    AddAccountBalanceTotal(a1.tables, s, AddAccountBalanceParams(id2, amount2), None);
  }

  /**
   * A transfer to the same account takes the else branch: the +amount update
   * is issued first, the -amount update second, and every balance ends as
   * it was.
   */
  lemma SelfTransferKeepsBalances(t: Tables, s: Seqs, arg: TransferTxParams)
    requires arg.fromAccountId == arg.toAccountId && arg.fromAccountId in t.accounts
    ensures var o := TransferTxOutcome(t, s, arg, TransferAllOk, TxAllOk);
      && o.ops[4] == OpAddAccountBalance(AddAccountBalanceParams(arg.fromAccountId, arg.amount))
      && o.ops[5] == OpAddAccountBalance(AddAccountBalanceParams(arg.fromAccountId, -arg.amount))
      && o.err.None?
      && o.tables.accounts == t.accounts
  {
    TransferLockOrder(t, s, arg, TransferAllOk, TxAllOk);
    TransferMovesBalances(t, s, arg);
    var o := TransferTxOutcome(t, s, arg, TransferAllOk, TxAllOk);
    forall id | id in t.accounts ensures o.tables.accounts[id] == t.accounts[id] {
      assert BalanceDelta(arg, id) == 0;
    }
  }

  /** A transfer whose insert fails leaves no transfer and no entry behind: everything is rolled back. */
  lemma TransferInsertFailureRollsBack(t: Tables, s: Seqs, arg: TransferTxParams, env: TransferEnv, txEnv: TxEnv)
    requires txEnv.begin.None? && !InsertsOk(env)
    ensures var o := TransferTxOutcome(t, s, arg, env, txEnv);
      var failure := if env.createTransfer.Some? then env.createTransfer.value
                     else if env.fromEntry.Some? then env.fromEntry.value else env.toEntry.value;
      && o.tables == t
      && o.err == Some(RollbackError(failure, txEnv.rollback))
      && o.ops[|o.ops| - 1] == OpRollback
      && (forall i :: 0 <= i < |o.ops| ==> !o.ops[i].OpAddAccountBalance?)
  {
  }

  /**
   * The error of addMoney is dropped. When the account updated first does
   * not exist, its UPDATE matches no row and reports sql.ErrNoRows, which
   * does not abort the transaction; the second update is not issued, the
   * callback still returns nil, and the transaction commits the transfer
   * and both entries with every balance as it was.
   */
  lemma FailedFirstUpdateStillCommits(t: Tables, s: Seqs, arg: TransferTxParams)
    requires SeqsAhead(t, s) && Min(arg.fromAccountId, arg.toAccountId) !in t.accounts
    ensures var o := TransferTxOutcome(t, s, arg, TransferAllOk, TxAllOk);
      && o.err.None?
      && |o.ops| == 6 && o.ops[5] == OpCommit
      && o.tables.accounts == t.accounts
      && o.result.transfer.id in o.tables.transfers && o.result.transfer.id !in t.transfers
  {
    CreateTransferKeepsSeqsAhead(t, s, CreateTransferParams(arg.fromAccountId, arg.toAccountId, arg.amount), None);
  }

  /**
   * The same quirk when the account updated second does not exist: the
   * committed state has one balance moved and not the other, so the sum of
   * all balances is off by the first delta.
   */
  lemma FailedSecondUpdateBreaksConservation(t: Tables, s: Seqs, arg: TransferTxParams)
    requires Min(arg.fromAccountId, arg.toAccountId) in t.accounts
    requires arg.fromAccountId !in t.accounts || arg.toAccountId !in t.accounts
    ensures var o := TransferTxOutcome(t, s, arg, TransferAllOk, TxAllOk);
      var lowDelta := if arg.fromAccountId < arg.toAccountId then -arg.amount else arg.amount;
      && o.err.None?
      && |o.ops| == 7 && o.ops[6] == OpCommit
      && TotalBalance(o.tables.accounts) == TotalBalance(t.accounts) + lowDelta
  {
    var i := RecordTransfer(t, s, arg, TransferAllOk);
    var low := Min(arg.fromAccountId, arg.toAccountId);
    var lowDelta := if arg.fromAccountId < arg.toAccountId then -arg.amount else arg.amount;
    AddAccountBalanceTotal(i.tables, i.seqs, AddAccountBalanceParams(low, lowDelta), None);
  }

  /** The balances one transfer in which nothing fails leaves behind. */
  ghost predicate MovedOnce(before: Tables, after: Tables, arg: TransferTxParams) {
    && after.accounts.Keys == before.accounts.Keys
    && arg.fromAccountId in before.accounts && arg.toAccountId in before.accounts
    && after.accounts[arg.fromAccountId].balance == before.accounts[arg.fromAccountId].balance - arg.amount
    && after.accounts[arg.toAccountId].balance == before.accounts[arg.toAccountId].balance + arg.amount
  }

  /** `n` applications of `step` in a row. */
  function Iterate(step: (Tables, Seqs) -> (Tables, Seqs), t: Tables, s: Seqs, n: nat): (Tables, Seqs) {
    if n == 0 then (t, s)
    else
      var prev := Iterate(step, t, s, n - 1);
      step(prev.0, prev.1)
  }

  /** One transfer of `arg` in which nothing fails, as a step on the state. */
  function TransferStepFn(arg: TransferTxParams): (Tables, Seqs) -> (Tables, Seqs) {
    (t: Tables, s: Seqs) => var o := TransferTxOutcome(t, s, arg, TransferAllOk, TxAllOk); (o.tables, o.seqs)
  }

  /** The state after `n` transfers of `arg` in a row, none of which fails. */
  function RepeatTransfer(t: Tables, s: Seqs, arg: TransferTxParams, n: nat): (Tables, Seqs) {
    Iterate(TransferStepFn(arg), t, s, n)
  }

  /** The result the `k`-th of those transfers returns. */
  function KthTransferResult(t: Tables, s: Seqs, arg: TransferTxParams, k: nat): TransferTxResult
    requires k >= 1
  {
    var prev := RepeatTransfer(t, s, arg, k - 1);
    TransferTxOutcome(prev.0, prev.1, arg, TransferAllOk, TxAllOk).result
  }

  lemma MulMonotone(j: nat, k: nat, amount: int)
    requires j < k && amount > 0
    ensures j * amount < k * amount
  {
    MulStep(k, amount);
    if j < k - 1 { MulMonotone(j, k - 1, amount); }
  }

  lemma MulStep(n: nat, amount: int)
    requires n >= 1
    ensures (n - 1) * amount + amount == n * amount
  {
  }

  /** One transfer in which nothing fails, stated on the balances of its two distinct accounts. */
  lemma TransferStep(t: Tables, s: Seqs, arg: TransferTxParams)
    requires arg.fromAccountId != arg.toAccountId
    requires arg.fromAccountId in t.accounts && arg.toAccountId in t.accounts
    ensures var o := TransferTxOutcome(t, s, arg, TransferAllOk, TxAllOk);
      && MovedOnce(t, o.tables, arg)
      && o.result.fromAccount == o.tables.accounts[arg.fromAccountId]
      && o.result.toAccount == o.tables.accounts[arg.toAccountId]
  {
    TransferMovesBalances(t, s, arg);
  }

  /** Any step that moves `amount` once moves n × amount in n applications. */
  lemma {:induction false} IterateMoves(step: (Tables, Seqs) -> (Tables, Seqs), t: Tables, s: Seqs, arg: TransferTxParams, n: nat)
    requires arg.fromAccountId in t.accounts && arg.toAccountId in t.accounts
    requires forall t1: Tables, s1: Seqs {:trigger step(t1, s1)} ::
      arg.fromAccountId in t1.accounts && arg.toAccountId in t1.accounts ==> MovedOnce(t1, step(t1, s1).0, arg)
    ensures var after := Iterate(step, t, s, n).0;
      && after.accounts.Keys == t.accounts.Keys
      && after.accounts[arg.fromAccountId].balance == t.accounts[arg.fromAccountId].balance - n * arg.amount
      && after.accounts[arg.toAccountId].balance == t.accounts[arg.toAccountId].balance + n * arg.amount
  {
    if n > 0 {
      IterateMoves(step, t, s, arg, n - 1);
      var prev := Iterate(step, t, s, n - 1);
      assert MovedOnce(prev.0, step(prev.0, prev.1).0, arg);
      MulStep(n, arg.amount);
    }
  }

  /**
   * No update is lost: after `n` transfers of `amount` the from balance is
   * down by n × amount and the to balance up by as much.
   */
  lemma RepeatedTransfersMoveMultiples(t: Tables, s: Seqs, arg: TransferTxParams, n: nat)
    requires arg.fromAccountId != arg.toAccountId
    requires arg.fromAccountId in t.accounts && arg.toAccountId in t.accounts
    ensures var after := RepeatTransfer(t, s, arg, n).0;
      && after.accounts.Keys == t.accounts.Keys
      && after.accounts[arg.fromAccountId].balance == t.accounts[arg.fromAccountId].balance - n * arg.amount
      && after.accounts[arg.toAccountId].balance == t.accounts[arg.toAccountId].balance + n * arg.amount
  {
    var step := TransferStepFn(arg);
    forall t1: Tables, s1: Seqs | arg.fromAccountId in t1.accounts && arg.toAccountId in t1.accounts
      ensures MovedOnce(t1, step(t1, s1).0, arg)
    {
      TransferStep(t1, s1, arg);
    }
    IterateMoves(step, t, s, arg, n);
  }

  /** The `k`-th of those transfers returns accounts that have moved exactly k × amount. */
  lemma KthTransferMovesMultiple(t: Tables, s: Seqs, arg: TransferTxParams, k: nat)
    requires arg.fromAccountId != arg.toAccountId
    requires arg.fromAccountId in t.accounts && arg.toAccountId in t.accounts
    requires k >= 1
    ensures t.accounts[arg.fromAccountId].balance - KthTransferResult(t, s, arg, k).fromAccount.balance == k * arg.amount
    ensures KthTransferResult(t, s, arg, k).toAccount.balance - t.accounts[arg.toAccountId].balance == k * arg.amount
  {
    RepeatedTransfersMoveMultiples(t, s, arg, k - 1);
    var prev := RepeatTransfer(t, s, arg, k - 1);
    TransferStep(prev.0, prev.1, arg);
    MulStep(k, arg.amount);
  }

  /** Hence the amounts moved as seen by different transfers of a positive amount are all different. */
  lemma TransferResultsDistinct(t: Tables, s: Seqs, arg: TransferTxParams, j: nat, k: nat)
    requires arg.fromAccountId != arg.toAccountId
    requires arg.fromAccountId in t.accounts && arg.toAccountId in t.accounts
    requires arg.amount > 0 && 1 <= j < k
    ensures KthTransferResult(t, s, arg, j).fromAccount.balance != KthTransferResult(t, s, arg, k).fromAccount.balance
  {
    KthTransferMovesMultiple(t, s, arg, j);
    KthTransferMovesMultiple(t, s, arg, k);
    var before := t.accounts[arg.fromAccountId].balance;
    var rj, rk := KthTransferResult(t, s, arg, j), KthTransferResult(t, s, arg, k);
    assert before - rj.fromAccount.balance == j * arg.amount;
    assert before - rk.fromAccount.balance == k * arg.amount;
    MulMonotone(j, k, arg.amount);
  }

  /** A transfer followed by the opposite transfer of the same amount leaves every account as it was. */
  lemma OppositeTransfersCancel(t: Tables, s: Seqs, a: int, b: int, amount: int)
    requires a in t.accounts && b in t.accounts
    ensures var o1 := TransferTxOutcome(t, s, TransferTxParams(a, b, amount), TransferAllOk, TxAllOk);
      var o2 := TransferTxOutcome(o1.tables, o1.seqs, TransferTxParams(b, a, amount), TransferAllOk, TxAllOk);
      o2.err.None? && o2.tables.accounts == t.accounts
  {
    var ab, ba := TransferTxParams(a, b, amount), TransferTxParams(b, a, amount);
    var o1 := TransferTxOutcome(t, s, ab, TransferAllOk, TxAllOk);
    var o2 := TransferTxOutcome(o1.tables, o1.seqs, ba, TransferAllOk, TxAllOk);
    TransferMovesBalances(t, s, ab);
    TransferMovesBalances(o1.tables, o1.seqs, ba);
    var m0, m1, m2 := t.accounts, o1.tables.accounts, o2.tables.accounts;
    forall id | id in m0 ensures m2[id] == m0[id] {
      assert BalanceDelta(ab, id) + BalanceDelta(ba, id) == 0;
    }
  }
}
