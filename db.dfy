/**
 * The relational state behind src/db/sqlc and the single-statement Querier
 * operations the three transaction scripts issue. The generated Querier and
 * its SQL are not part of this model; each statement is an operation on
 * `Tables` with the meaning its callers and tests rely on. Every operation
 * takes an injected `fault`: a failure the database may report for reasons
 * outside the model (a lost connection, an overflow, a constraint the model
 * does not track).
 */
module Db {
  import opened Wrappers

  datatype Error =
    | ErrNoRows                                   // sql.ErrNoRows
    | UniqueViolation(constraint: string)         // a unique index refused the row
    | DriverError(code: int)                      // any other database failure
    | CallbackError(code: int)                    // a failure returned by AfterCreate
    | TxRollbackError(txErr: Error, rbErr: Error) // "tx error: %v, rb error: %v"

  datatype Account = Account(id: int, owner: string, balance: int, currency: string)
  datatype Entry = Entry(id: int, accountId: int, amount: int)
  datatype Transfer = Transfer(id: int, fromAccountId: int, toAccountId: int, amount: int)
  datatype User = User(
    username: string, hashedPassword: string, fullName: string, email: string,
    passwordChangeAt: int, isEmailVerified: bool)
  datatype VerifyEmail = VerifyEmail(
    id: int, username: string, email: string, secretCode: string, isUsed: bool, expiredAt: int)

  /** Go's zero values: what a failed query leaves in its result variable. */
  const ZeroAccount := Account(0, "", 0, "")
  const ZeroEntry := Entry(0, 0, 0)
  const ZeroTransfer := Transfer(0, 0, 0, 0)
  const ZeroUser := User("", "", "", "", 0, false)
  const ZeroVerifyEmail := VerifyEmail(0, "", "", "", false, 0)

  /** database/sql's nullable values: `valid == false` is SQL NULL. */
  datatype NullString = NullString(s: string, valid: bool)
  datatype NullBool = NullBool(b: bool, valid: bool)
  datatype NullTime = NullTime(t: int, valid: bool)

  const NullStringNone := NullString("", false)
  const NullBoolNone := NullBool(false, false)
  const NullTimeNone := NullTime(0, false)

  datatype CreateTransferParams = CreateTransferParams(fromAccountId: int, toAccountId: int, amount: int)
  datatype CreateEntryParams = CreateEntryParams(accountId: int, amount: int)
  datatype AddAccountBalanceParams = AddAccountBalanceParams(id: int, amount: int)
  datatype CreateUserParams = CreateUserParams(username: string, hashedPassword: string, fullName: string, email: string)
  datatype UpdateUserParams = UpdateUserParams(
    username: string, hashedPassword: NullString, passwordChangeAt: NullTime,
    fullName: NullString, email: NullString, isEmailVerified: NullBool)
  datatype UpdateVerifyEmailParams = UpdateVerifyEmailParams(id: int, secretCode: string)

  /** The rows of every table the scripts touch, by primary key. */
  datatype Tables = Tables(
    accounts: map<int, Account>,
    entries: map<int, Entry>,
    transfers: map<int, Transfer>,
    users: map<string, User>,
    verifyEmails: map<int, VerifyEmail>)

  /** The last values drawn from the serial sequences of `transfers` and `entries`. */
  datatype Seqs = Seqs(lastTransferId: int, lastEntryId: int)

  /** Every serial id in use was drawn from its sequence. */
  ghost predicate SeqsAhead(t: Tables, s: Seqs) {
    && (forall id :: id in t.transfers ==> id <= s.lastTransferId)
    && (forall id :: id in t.entries ==> id <= s.lastEntryId)
  }

  /** What was sent to the database, in order: transaction control and statements. */
  datatype Op =
    | OpBegin
    | OpCommit
    | OpRollback
    | OpCreateTransfer(createTransfer: CreateTransferParams)
    | OpCreateEntry(createEntry: CreateEntryParams)
    | OpAddAccountBalance(addAccountBalance: AddAccountBalanceParams)
    | OpCreateUser(createUser: CreateUserParams)
    | OpUpdateUser(updateUser: UpdateUserParams)
    | OpUpdateVerifyEmail(updateVerifyEmail: UpdateVerifyEmailParams)
    | OpAfterCreate(created: User)   // the AfterCreate callback, invoked inside the transaction

  predicate IsTxControl(op: Op) {
    op.OpBegin? || op.OpCommit? || op.OpRollback?
  }

  /** A sequence of statements with no BEGIN, COMMIT or ROLLBACK among them. */
  predicate NoTxControl(ops: seq<Op>) {
    forall i :: 0 <= i < |ops| ==> !IsTxControl(ops[i])
  }

  /** The new state, the returned row and the error of one statement. */
  datatype QueryOut<R> = QueryOut(tables: Tables, seqs: Seqs, row: R, err: Option<Error>)

  // ---- Sum of balances ----------------------------------------------------

  /** The sum of all account balances. */
  ghost function TotalBalance(accounts: map<int, Account>): int
    decreases |accounts|
  {
    if accounts == map[] then 0
    else
      assert exists id :: id in accounts by {
        if forall id :: id !in accounts { assert false; }
      }
      var id :| id in accounts;
      accounts[id].balance + TotalBalance(accounts - {id})
  }

  /** The total can be taken apart at any account, not only the one the definition picks. */
  lemma {:induction false} TotalBalanceSplit(accounts: map<int, Account>, id: int)
    requires id in accounts
    ensures TotalBalance(accounts) == accounts[id].balance + TotalBalance(accounts - {id})
    decreases |accounts|
  {
    var picked :| picked in accounts && TotalBalance(accounts) == accounts[picked].balance + TotalBalance(accounts - {picked});
    if picked != id {
      var rest := accounts - {picked};
      assert |rest| < |accounts| by { assert rest.Keys < accounts.Keys; }
      TotalBalanceSplit(rest, id);
      var other := accounts - {id};
      assert |other| < |accounts| by { assert other.Keys < accounts.Keys; }
      TotalBalanceSplit(other, picked);
      assert rest - {id} == other - {picked};
    }
  }

  /** Adding `delta` to one existing account adds `delta` to the total. */
  lemma AddToTotal(accounts: map<int, Account>, id: int, delta: int)
    requires id in accounts
    ensures TotalBalance(accounts[id := accounts[id].(balance := accounts[id].balance + delta)]) == TotalBalance(accounts) + delta
  {
    var updated := accounts[id := accounts[id].(balance := accounts[id].balance + delta)];
    TotalBalanceSplit(accounts, id);
    TotalBalanceSplit(updated, id);
    assert updated - {id} == accounts - {id};
  }

  // ---- The Querier --------------------------------------------------------

  /** INSERT INTO transfers ... RETURNING *: a new row with the next serial id. */
  function CreateTransfer(t: Tables, s: Seqs, p: CreateTransferParams, fault: Option<Error>): (o: QueryOut<Transfer>)
    ensures o.err == fault
    ensures o.err.None? ==>
      && o.row == Transfer(s.lastTransferId + 1, p.fromAccountId, p.toAccountId, p.amount)
      && o.seqs == s.(lastTransferId := o.row.id)
      && o.tables == t.(transfers := t.transfers[o.row.id := o.row])
    ensures o.err.Some? ==> o.tables == t && o.seqs == s && o.row == ZeroTransfer
  {
    if fault.Some? then QueryOut(t, s, ZeroTransfer, fault)
    else
      var id := s.lastTransferId + 1;
      var row := Transfer(id, p.fromAccountId, p.toAccountId, p.amount);
      QueryOut(t.(transfers := t.transfers[id := row]), s.(lastTransferId := id), row, None)
  }

  /** The new transfer id is unused, and every id in use stays drawn. */
  lemma CreateTransferKeepsSeqsAhead(t: Tables, s: Seqs, p: CreateTransferParams, fault: Option<Error>)
    requires SeqsAhead(t, s)
    ensures var o := CreateTransfer(t, s, p, fault);
      SeqsAhead(o.tables, o.seqs) && (o.err.None? ==> o.row.id !in t.transfers)
  {
  }

  /** INSERT INTO entries ... RETURNING *: a new ledger line with the next serial id. */
  function CreateEntry(t: Tables, s: Seqs, p: CreateEntryParams, fault: Option<Error>): (o: QueryOut<Entry>)
    ensures o.err == fault
    ensures o.err.None? ==>
      && o.row == Entry(s.lastEntryId + 1, p.accountId, p.amount)
      && o.seqs == s.(lastEntryId := o.row.id)
      && o.tables == t.(entries := t.entries[o.row.id := o.row])
    ensures o.err.Some? ==> o.tables == t && o.seqs == s && o.row == ZeroEntry
  {
    if fault.Some? then QueryOut(t, s, ZeroEntry, fault)
    else
      var id := s.lastEntryId + 1;
      var row := Entry(id, p.accountId, p.amount);
      QueryOut(t.(entries := t.entries[id := row]), s.(lastEntryId := id), row, None)
  }

  /** The new entry id is unused, and every id in use stays drawn. */
  lemma CreateEntryKeepsSeqsAhead(t: Tables, s: Seqs, p: CreateEntryParams, fault: Option<Error>)
    requires SeqsAhead(t, s)
    ensures var o := CreateEntry(t, s, p, fault);
      SeqsAhead(o.tables, o.seqs) && (o.err.None? ==> o.row.id !in t.entries)
  {
  }

  /** UPDATE accounts SET balance = balance + amount WHERE id = ... RETURNING *. */
  function AddAccountBalance(t: Tables, s: Seqs, p: AddAccountBalanceParams, fault: Option<Error>): (o: QueryOut<Account>)
    ensures o.seqs == s
    ensures o.err.None? <==> fault.None? && p.id in t.accounts
    ensures fault.None? && p.id !in t.accounts ==> o.err == Some(ErrNoRows)
    ensures o.err.None? ==>
      && o.row == t.accounts[p.id].(balance := t.accounts[p.id].balance + p.amount)
      && o.tables == t.(accounts := t.accounts[p.id := o.row])
    ensures o.err.Some? ==> o.tables == t && o.row == ZeroAccount
  {
    if fault.Some? then QueryOut(t, s, ZeroAccount, fault)
    else if p.id !in t.accounts then QueryOut(t, s, ZeroAccount, Some(ErrNoRows))
    else
      var row := t.accounts[p.id].(balance := t.accounts[p.id].balance + p.amount);
      QueryOut(t.(accounts := t.accounts[p.id := row]), s, row, None)
  }

  /** A successful balance update changes the sum of all balances by exactly its delta. */
  lemma AddAccountBalanceTotal(t: Tables, s: Seqs, p: AddAccountBalanceParams, fault: Option<Error>)
    requires AddAccountBalance(t, s, p, fault).err.None?
    ensures TotalBalance(AddAccountBalance(t, s, p, fault).tables.accounts) == TotalBalance(t.accounts) + p.amount
  {
    AddToTotal(t.accounts, p.id, p.amount);
  }

  /** The row CreateUser inserts: not yet verified, password never changed (the zero time). */
  function NewUser(p: CreateUserParams): User {
    User(p.username, p.hashedPassword, p.fullName, p.email, 0, false)
  }

  predicate EmailTaken(t: Tables, email: string) {
    exists name :: name in t.users && t.users[name].email == email
  }

  /** INSERT INTO users ... RETURNING *, refused when the username or the email is already taken. */
  function CreateUser(t: Tables, s: Seqs, p: CreateUserParams, fault: Option<Error>): (o: QueryOut<User>)
    ensures o.seqs == s
    ensures o.err.None? <==> fault.None? && p.username !in t.users && !EmailTaken(t, p.email)
    ensures o.err.None? ==> o.row == NewUser(p) && o.tables == t.(users := t.users[p.username := o.row])
    ensures o.err.Some? ==> o.tables == t && o.row == ZeroUser
  {
    if fault.Some? then QueryOut(t, s, ZeroUser, fault)
    else if p.username in t.users then QueryOut(t, s, ZeroUser, Some(UniqueViolation("users_pkey")))
    else if EmailTaken(t, p.email) then QueryOut(t, s, ZeroUser, Some(UniqueViolation("users_email_key")))
    else QueryOut(t.(users := t.users[p.username := NewUser(p)]), s, NewUser(p), None)
  }

  /** The partial update `SET col = COALESCE(arg, col)`: a field changes only when its argument is valid. */
  function ApplyUserUpdate(u: User, p: UpdateUserParams): (v: User)
    ensures v.username == u.username
  {
    u.(hashedPassword := if p.hashedPassword.valid then p.hashedPassword.s else u.hashedPassword,
       passwordChangeAt := if p.passwordChangeAt.valid then p.passwordChangeAt.t else u.passwordChangeAt,
       fullName := if p.fullName.valid then p.fullName.s else u.fullName,
       email := if p.email.valid then p.email.s else u.email,
       isEmailVerified := if p.isEmailVerified.valid then p.isEmailVerified.b else u.isEmailVerified)
  }

  /** A user other than `username` already holds `email`. */
  predicate EmailHeldByOther(t: Tables, username: string, email: string) {
    exists name :: name in t.users && name != username && t.users[name].email == email
  }

  /**
   * UPDATE users SET ... WHERE username = ... RETURNING *. No matching row
   * gives ErrNoRows; a new email another user holds is refused by the same
   * unique index on users.email that CreateUser meets.
   */
  function UpdateUser(t: Tables, s: Seqs, p: UpdateUserParams, fault: Option<Error>): (o: QueryOut<User>)
    ensures o.seqs == s
    ensures o.err.None? <==> fault.None? && p.username in t.users && !(p.email.valid && EmailHeldByOther(t, p.username, p.email.s))
    ensures fault.None? && p.username !in t.users ==> o.err == Some(ErrNoRows)
    ensures fault.None? && p.username in t.users && p.email.valid && EmailHeldByOther(t, p.username, p.email.s) ==>
      o.err == Some(UniqueViolation("users_email_key"))
    ensures o.err.None? ==> o.row == ApplyUserUpdate(t.users[p.username], p) && o.tables == t.(users := t.users[p.username := o.row])
    ensures o.err.Some? ==> o.tables == t && o.row == ZeroUser
  {
    if fault.Some? then QueryOut(t, s, ZeroUser, fault)
    else if p.username !in t.users then QueryOut(t, s, ZeroUser, Some(ErrNoRows))
    else if p.email.valid && EmailHeldByOther(t, p.username, p.email.s) then QueryOut(t, s, ZeroUser, Some(UniqueViolation("users_email_key")))
    else
      var row := ApplyUserUpdate(t.users[p.username], p);
      QueryOut(t.(users := t.users[p.username := row]), s, row, None)
  }

  /** No two users share an email: what the unique index on users.email maintains. */
  ghost predicate EmailsUnique(t: Tables) {
    forall a, b :: a in t.users && b in t.users && a != b ==> t.users[a].email != t.users[b].email
  }

  /** An insert either is refused or gives the new user an email no one else holds. */
  lemma CreateUserKeepsEmailsUnique(t: Tables, s: Seqs, p: CreateUserParams, fault: Option<Error>)
    requires EmailsUnique(t)
    ensures EmailsUnique(CreateUser(t, s, p, fault).tables)
  {
  }

  /** An update either is refused or leaves every email held by at most one user. */
  lemma UpdateUserKeepsEmailsUnique(t: Tables, s: Seqs, p: UpdateUserParams, fault: Option<Error>)
    requires EmailsUnique(t)
    ensures EmailsUnique(UpdateUser(t, s, p, fault).tables)
  {
  }

  /** A record the code consumes: the secret matches, it is unused and it has not expired. */
  predicate Consumable(t: Tables, p: UpdateVerifyEmailParams, now: int) {
    && p.id in t.verifyEmails
    && t.verifyEmails[p.id].secretCode == p.secretCode
    && !t.verifyEmails[p.id].isUsed
    && now < t.verifyEmails[p.id].expiredAt
  }

  /** UPDATE verify_emails SET is_used = TRUE WHERE the record is consumable RETURNING *. */
  function UpdateVerifyEmail(t: Tables, s: Seqs, p: UpdateVerifyEmailParams, now: int, fault: Option<Error>): (o: QueryOut<VerifyEmail>)
    ensures o.seqs == s
    ensures o.err.None? <==> fault.None? && Consumable(t, p, now)
    ensures fault.None? && !Consumable(t, p, now) ==> o.err == Some(ErrNoRows)
    ensures o.err.None? ==> o.row == t.verifyEmails[p.id].(isUsed := true) && o.tables == t.(verifyEmails := t.verifyEmails[p.id := o.row])
    ensures o.err.Some? ==> o.tables == t && o.row == ZeroVerifyEmail
  {
    if fault.Some? then QueryOut(t, s, ZeroVerifyEmail, fault)
    else if !Consumable(t, p, now) then QueryOut(t, s, ZeroVerifyEmail, Some(ErrNoRows))
    else
      var row := t.verifyEmails[p.id].(isUsed := true);
      QueryOut(t.(verifyEmails := t.verifyEmails[p.id := row]), s, row, None)
  }

  // ---- Properties of the partial user update ------------------------------

  /** A field takes its argument when that is valid and keeps its old value when it is NULL; the key never changes. */
  lemma ApplyUserUpdateFields(u: User, p: UpdateUserParams)
    ensures ApplyUserUpdate(u, p).username == u.username
    ensures p.fullName.valid ==> ApplyUserUpdate(u, p).fullName == p.fullName.s
    ensures !p.fullName.valid ==> ApplyUserUpdate(u, p).fullName == u.fullName
    ensures p.hashedPassword.valid ==> ApplyUserUpdate(u, p).hashedPassword == p.hashedPassword.s
    ensures !p.hashedPassword.valid ==> ApplyUserUpdate(u, p).hashedPassword == u.hashedPassword
    ensures p.email.valid ==> ApplyUserUpdate(u, p).email == p.email.s
    ensures !p.email.valid ==> ApplyUserUpdate(u, p).email == u.email
    ensures p.passwordChangeAt.valid ==> ApplyUserUpdate(u, p).passwordChangeAt == p.passwordChangeAt.t
    ensures !p.passwordChangeAt.valid ==> ApplyUserUpdate(u, p).passwordChangeAt == u.passwordChangeAt
    ensures p.isEmailVerified.valid ==> ApplyUserUpdate(u, p).isEmailVerified == p.isEmailVerified.b
    ensures !p.isEmailVerified.valid ==> ApplyUserUpdate(u, p).isEmailVerified == u.isEmailVerified
  {
  }

  /** An update with every argument NULL leaves the user as it was. */
  lemma EmptyUpdateIsIdentity(u: User, username: string)
    ensures ApplyUserUpdate(u, UpdateUserParams(username, NullStringNone, NullTimeNone, NullStringNone, NullStringNone, NullBoolNone)) == u
  {
  }

  /** Applying the same update twice is the same as applying it once. */
  lemma ApplyUserUpdateIdempotent(u: User, p: UpdateUserParams)
    ensures ApplyUserUpdate(ApplyUserUpdate(u, p), p) == ApplyUserUpdate(u, p)
  {
  }
}
