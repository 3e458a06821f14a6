/**
 * CreateUserTx (src/db/sqlc/tx_create_user.go): insert the user and, inside
 * the same transaction, hand the new row to the caller's AfterCreate hook;
 * an error from the hook rolls the insert back.
 */
module TxCreateUser {
  import opened Wrappers
  import opened Db
  import opened Store

  /**
   * The row to insert and the hook. Only the hook's answer matters to the
   * transaction, so it is the function from the created user to the error
   * it returns; whatever else it does lies outside the database.
   */
  datatype CreateUserTxParams = CreateUserTxParams(params: CreateUserParams, afterCreate: User -> Option<Error>)

  datatype CreateUserTxResult = CreateUserTxResult(user: User)

  /** The callback of CreateUserTx (tx_create_user.go:24-34), run from state `t`. */
  function CreateUserBodyOutcome(t: Tables, s: Seqs, arg: CreateUserTxParams, fault: Option<Error>): (r: Run<CreateUserTxResult>)
    ensures NoTxControl(r.ops)
    ensures r.seqs == s
  {
    var c := CreateUser(t, s, arg.params, fault);
    if c.err.Some? then
      Run(c.tables, c.seqs, [OpCreateUser(arg.params)], c.err, CreateUserTxResult(c.row))
    else
      Run(c.tables, c.seqs, [OpCreateUser(arg.params), OpAfterCreate(c.row)], arg.afterCreate(c.row), CreateUserTxResult(c.row))
  }

  /** CreateUserTx as a whole: the callback run by execTx. */
  function CreateUserTxOutcome(t: Tables, s: Seqs, arg: CreateUserTxParams, fault: Option<Error>, txEnv: TxEnv): (r: Run<CreateUserTxResult>)
    ensures r.tables == t.(users := r.tables.users) && r.seqs == s
  {
    ExecTx(t, s, CreateUserBodyOutcome(t, s, arg, fault), CreateUserTxResult(ZeroUser), txEnv)
  }

  // ---- The code --------------------------------------------------------------

  /** The callback, run against the open transaction. */
  method CreateUserTransactions(store: SQLStore, arg: CreateUserTxParams, fault: Option<Error>)
    returns (result: CreateUserTxResult, err: Option<Error>)
    requires store.tx.Some?
    modifies store`tables, store`trace
    ensures var o := CreateUserBodyOutcome(old(store.tables), store.seqs, arg, fault);
      && store.tables == o.tables && store.trace == old(store.trace) + o.ops
      && result == o.result && err == o.err
  {
    var user;
    user, err := store.CreateUser(arg.params, fault);
    result := CreateUserTxResult(user);
    if err.Some? {
      return;
    }
    store.RecordAfterCreate(user);
    err := arg.afterCreate(user);
  }

  method CreateUserTx(store: SQLStore, arg: CreateUserTxParams, fault: Option<Error>, txEnv: TxEnv)
    returns (result: CreateUserTxResult, err: Option<Error>)
    requires store.tx.None? && store.Valid()
    modifies store`tables, store`tx, store`trace
    ensures store.tx.None? && store.seqs == old(store.seqs) && store.Valid()
    ensures var o := CreateUserTxOutcome(old(store.tables), store.seqs, arg, fault, txEnv);
      && store.tables == o.tables && store.trace == old(store.trace) + o.ops
      && result == o.result && err == o.err
  {
    result := CreateUserTxResult(ZeroUser);
    err := store.BeginTx(txEnv.begin);
    if err.Some? {
      return;
    }
    var bodyErr;
    result, bodyErr := CreateUserTransactions(store, arg, fault);
    err := store.FinishTx(bodyErr, txEnv);
  }

  // ---- Properties ------------------------------------------------------------

  /** When the insert fails the hook is never called and nothing is written. */
  lemma InsertFailureSkipsHook(t: Tables, s: Seqs, arg: CreateUserTxParams, fault: Option<Error>, txEnv: TxEnv)
    requires txEnv.begin.None?
    requires CreateUser(t, s, arg.params, fault).err.Some?
    ensures var o := CreateUserTxOutcome(t, s, arg, fault, txEnv);
      && o.ops == [OpBegin, OpCreateUser(arg.params), OpRollback]
      && o.tables == t
      && o.err == Some(RollbackError(CreateUser(t, s, arg.params, fault).err.value, txEnv.rollback))
      && o.result.user == ZeroUser
  {
  }

  /**
   * After a successful insert the hook is called exactly once, inside the
   * transaction, with the row just inserted, and the caller gets that row
   * back whatever the hook answers.
   */
  lemma HookSeesCreatedUser(t: Tables, s: Seqs, arg: CreateUserTxParams, fault: Option<Error>, txEnv: TxEnv)
    requires txEnv.begin.None?
    requires CreateUser(t, s, arg.params, fault).err.None?
    ensures var o := CreateUserTxOutcome(t, s, arg, fault, txEnv);
      && |o.ops| == 4
      && o.ops[..3] == [OpBegin, OpCreateUser(arg.params), OpAfterCreate(NewUser(arg.params))]
      && (o.ops[3] == OpRollback <==> arg.afterCreate(NewUser(arg.params)).Some?)
      && o.result.user == NewUser(arg.params)
  {
  }

  /** A failing hook undoes the insert: the user does not exist afterwards. */
  lemma HookFailureRollsBack(t: Tables, s: Seqs, arg: CreateUserTxParams, fault: Option<Error>, txEnv: TxEnv)
    requires txEnv.begin.None?
    requires CreateUser(t, s, arg.params, fault).err.None?
    requires arg.afterCreate(NewUser(arg.params)).Some?
    ensures var o := CreateUserTxOutcome(t, s, arg, fault, txEnv);
      && o.tables == t
      && arg.params.username !in o.tables.users
      && o.err == Some(RollbackError(arg.afterCreate(NewUser(arg.params)).value, txEnv.rollback))
  {
  }

  /** With every step succeeding the user is stored as inserted and returned. */
  lemma CreateUserTxCommits(t: Tables, s: Seqs, arg: CreateUserTxParams)
    requires arg.params.username !in t.users && !EmailTaken(t, arg.params.email)
    requires arg.afterCreate(NewUser(arg.params)).None?
    ensures var o := CreateUserTxOutcome(t, s, arg, None, TxAllOk);
      && o.err.None?
      && o.tables == t.(users := t.users[arg.params.username := NewUser(arg.params)])
      && o.result.user == o.tables.users[arg.params.username]
      && !o.result.user.isEmailVerified
  {
  }

  /** A taken username is refused by the primary key, before the hook can run. */
  lemma DuplicateUsernameRejected(t: Tables, s: Seqs, arg: CreateUserTxParams)
    requires arg.params.username in t.users
    ensures var o := CreateUserTxOutcome(t, s, arg, None, TxAllOk);
      && o.err == Some(UniqueViolation("users_pkey"))
      && o.tables == t
      && OpAfterCreate(NewUser(arg.params)) !in o.ops
  {
  }
}
