/**
 * VerifyEmailTx (src/db/sqlc/tx_verify_email.go): consume a verification
 * record and mark its owner's email as verified, both in one transaction.
 */
module TxVerifyEmail {
  import opened Wrappers
  import opened Db
  import opened Store

  datatype VerifyEmailTxParams = VerifyEmailTxParams(emailId: int, secretCode: string)

  datatype VerifyEmailTxResult = VerifyEmailTxResult(user: User, verifyEmail: VerifyEmail)

  const ZeroVerifyEmailTxResult := VerifyEmailTxResult(ZeroUser, ZeroVerifyEmail)

  /** The database's clock at the UPDATE, and the injected failures of the two statements. */
  datatype VerifyEmailEnv = VerifyEmailEnv(now: int, updateVerifyEmail: Option<Error>, updateUser: Option<Error>)

  /** The statement arguments the script sends for `arg`. */
  function ConsumeParams(arg: VerifyEmailTxParams): UpdateVerifyEmailParams {
    UpdateVerifyEmailParams(arg.emailId, arg.secretCode)
  }

  /** The user update of tx_verify_email.go:37-43: only is_email_verified is set, to true. */
  function MarkVerifiedParams(username: string): (p: UpdateUserParams)
    ensures forall u: User :: ApplyUserUpdate(u, p) == u.(isEmailVerified := true)
  {
    UpdateUserParams(username, NullStringNone, NullTimeNone, NullStringNone, NullStringNone, NullBool(true, true))
  }

  /** The callback of VerifyEmailTx (tx_verify_email.go:26-46), run from state `t`. */
  function VerifyEmailBodyOutcome(t: Tables, s: Seqs, arg: VerifyEmailTxParams, env: VerifyEmailEnv): (r: Run<VerifyEmailTxResult>)
    ensures NoTxControl(r.ops)
    ensures r.seqs == s
  {
    var v := UpdateVerifyEmail(t, s, ConsumeParams(arg), env.now, env.updateVerifyEmail);
    var r1 := ZeroVerifyEmailTxResult.(verifyEmail := v.row);
    if v.err.Some? then
      Run(v.tables, v.seqs, [OpUpdateVerifyEmail(ConsumeParams(arg))], v.err, r1)
    else
      var p := MarkVerifiedParams(v.row.username);
      var u := UpdateUser(v.tables, v.seqs, p, env.updateUser);
      Run(u.tables, u.seqs, [OpUpdateVerifyEmail(ConsumeParams(arg)), OpUpdateUser(p)], u.err, r1.(user := u.row))
  }

  /** VerifyEmailTx as a whole: the callback run by execTx. */
  function VerifyEmailTxOutcome(t: Tables, s: Seqs, arg: VerifyEmailTxParams, env: VerifyEmailEnv, txEnv: TxEnv): (r: Run<VerifyEmailTxResult>)
    ensures r.tables == t.(users := r.tables.users, verifyEmails := r.tables.verifyEmails) && r.seqs == s
  {
    ExecTx(t, s, VerifyEmailBodyOutcome(t, s, arg, env), ZeroVerifyEmailTxResult, txEnv)
  }

  // ---- The code --------------------------------------------------------------

  /** The callback, run against the open transaction. */
  method VerifyEmailTransactions(store: SQLStore, arg: VerifyEmailTxParams, env: VerifyEmailEnv)
    returns (result: VerifyEmailTxResult, err: Option<Error>)
    requires store.tx.Some?
    modifies store`tables, store`trace
    ensures var o := VerifyEmailBodyOutcome(old(store.tables), store.seqs, arg, env);
      && store.tables == o.tables && store.trace == old(store.trace) + o.ops
      && result == o.result && err == o.err
  {
    result := ZeroVerifyEmailTxResult;
    var verifyEmail, user;
    verifyEmail, err := store.UpdateVerifyEmail(UpdateVerifyEmailParams(arg.emailId, arg.secretCode), env.now, env.updateVerifyEmail);
    result := result.(verifyEmail := verifyEmail);
    if err.Some? {
      return;
    }
    user, err := store.UpdateUser(MarkVerifiedParams(verifyEmail.username), env.updateUser);
    result := result.(user := user);
  }

  method VerifyEmailTx(store: SQLStore, arg: VerifyEmailTxParams, env: VerifyEmailEnv, txEnv: TxEnv)
    returns (result: VerifyEmailTxResult, err: Option<Error>)
    requires store.tx.None? && store.Valid()
    modifies store`tables, store`tx, store`trace
    ensures store.tx.None? && store.seqs == old(store.seqs) && store.Valid()
    ensures var o := VerifyEmailTxOutcome(old(store.tables), store.seqs, arg, env, txEnv);
      && store.tables == o.tables && store.trace == old(store.trace) + o.ops
      && result == o.result && err == o.err
  {
    result := ZeroVerifyEmailTxResult;
    err := store.BeginTx(txEnv.begin);
    if err.Some? {
      return;
    }
    var bodyErr;
    result, bodyErr := VerifyEmailTransactions(store, arg, env);
    err := store.FinishTx(bodyErr, txEnv);
  }

  // ---- Properties ------------------------------------------------------------

  /**
   * A record that is missing, has another secret, is used or has expired
   * (or a failing statement) stops the script before the user update;
   * nothing is written.
   */
  lemma ConsumeFailureSkipsUserUpdate(t: Tables, s: Seqs, arg: VerifyEmailTxParams, env: VerifyEmailEnv, txEnv: TxEnv)
    requires txEnv.begin.None?
    requires env.updateVerifyEmail.Some? || !Consumable(t, ConsumeParams(arg), env.now)
    ensures var o := VerifyEmailTxOutcome(t, s, arg, env, txEnv);
      && o.ops == [OpBegin, OpUpdateVerifyEmail(UpdateVerifyEmailParams(arg.emailId, arg.secretCode)), OpRollback]
      && o.tables == t
      && o.err.Some?
      && o.result.user == ZeroUser
      && (env.updateVerifyEmail.None? && txEnv.rollback.None? ==> o.err == Some(ErrNoRows))
  {
  }

  /**
   * Once the record is consumed, the user updated is the record's owner,
   * and the update sets is_email_verified to true and nothing else.
   */
  lemma UpdatesRecordOwner(t: Tables, s: Seqs, arg: VerifyEmailTxParams, env: VerifyEmailEnv, txEnv: TxEnv)
    requires txEnv.begin.None?
    requires env.updateVerifyEmail.None? && Consumable(t, ConsumeParams(arg), env.now)
    ensures var o := VerifyEmailTxOutcome(t, s, arg, env, txEnv);
      && |o.ops| == 4
      && o.ops[2] == OpUpdateUser(MarkVerifiedParams(t.verifyEmails[arg.emailId].username))
      && o.ops[2].updateUser.username == t.verifyEmails[arg.emailId].username
      && o.ops[2].updateUser.isEmailVerified == NullBool(true, true)
      && !o.ops[2].updateUser.hashedPassword.valid && !o.ops[2].updateUser.passwordChangeAt.valid
      && !o.ops[2].updateUser.fullName.valid && !o.ops[2].updateUser.email.valid
  {
  }

  /** A failing user update (the owner is gone, say) rolls back: the record stays unused. */
  lemma UserUpdateFailureRollsBack(t: Tables, s: Seqs, arg: VerifyEmailTxParams, env: VerifyEmailEnv, txEnv: TxEnv)
    requires txEnv.begin.None?
    requires env.updateVerifyEmail.None? && Consumable(t, ConsumeParams(arg), env.now)
    requires env.updateUser.Some? || t.verifyEmails[arg.emailId].username !in t.users
    ensures var o := VerifyEmailTxOutcome(t, s, arg, env, txEnv);
      && o.tables == t
      && !o.tables.verifyEmails[arg.emailId].isUsed
      && o.ops[|o.ops| - 1] == OpRollback
      && o.err.Some?
  {
  }

  /**
   * With every step succeeding the record is used, its owner is verified,
   * every other field and row is as before, and the caller gets both rows.
   */
  lemma VerifyEmailTxCommits(t: Tables, s: Seqs, arg: VerifyEmailTxParams, now: int)
    requires Consumable(t, ConsumeParams(arg), now)
    requires t.verifyEmails[arg.emailId].username in t.users
    ensures var owner := t.verifyEmails[arg.emailId].username;
      var o := VerifyEmailTxOutcome(t, s, arg, VerifyEmailEnv(now, None, None), TxAllOk);
      && o.err.None?
      && o.tables.verifyEmails == t.verifyEmails[arg.emailId := t.verifyEmails[arg.emailId].(isUsed := true)]
      && o.tables.users == t.users[owner := t.users[owner].(isEmailVerified := true)]
      && o.tables.accounts == t.accounts && o.tables.entries == t.entries && o.tables.transfers == t.transfers
      && o.result.user == o.tables.users[owner] && o.result.user.isEmailVerified
      && o.result.verifyEmail == o.tables.verifyEmails[arg.emailId] && o.result.verifyEmail.isUsed
  {
  }

  /** A verification link works once: the same call again finds no usable record and changes nothing. */
  lemma SecondVerificationFails(t: Tables, s: Seqs, arg: VerifyEmailTxParams, now: int, later: int)
    requires Consumable(t, ConsumeParams(arg), now)
    requires t.verifyEmails[arg.emailId].username in t.users
    ensures var first := VerifyEmailTxOutcome(t, s, arg, VerifyEmailEnv(now, None, None), TxAllOk);
      var second := VerifyEmailTxOutcome(first.tables, first.seqs, arg, VerifyEmailEnv(later, None, None), TxAllOk);
      && first.err.None?
      && second.err == Some(ErrNoRows)
      && second.tables == first.tables
  {
    VerifyEmailTxCommits(t, s, arg, now);
    var first := VerifyEmailTxOutcome(t, s, arg, VerifyEmailEnv(now, None, None), TxAllOk);
    assert first.tables.verifyEmails[arg.emailId].isUsed;
    ConsumeFailureSkipsUserUpdate(first.tables, first.seqs, arg, VerifyEmailEnv(later, None, None), TxAllOk);
  }
}
