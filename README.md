# Shiny Bank transactional store, in Dafny

A model of the core of the Shiny Bank service (Go; module
`github.com/morka17/shiny_bank/v1`):

- the transactional store of `src/db/sqlc`: `execTx` opens a
  transaction, runs a callback against it, and rolls back or commits;
- the three scripts built on it: `TransferTx` with `addMoney`, `CreateUserTx`
  with its `AfterCreate` hook, and `VerifyEmailTx`;
- the small pure cores beside it: the input validators, the currency
  whitelist, the Authorization-header parsing of the HTTP auth middleware,
  and the request validation and update arguments of the `UpdateUser` RPC.

The database is a value `Db.Tables` (accounts, entries, transfers, users and
verify-email records, each a map by primary key) plus `Db.Seqs`, the serial
sequences of transfer and entry ids. `Store.SQLStore` is the store as an
object. Its `tables` field is the state each statement runs on. Its `tx`
field holds the snapshot taken at BEGIN, which ROLLBACK restores. Its ghost
`trace` field records every statement sent, in order.

The generated queries are not part of this model. Each is a function
(`Db.CreateTransfer`, `Db.AddAccountBalance`, `Db.UpdateUser`, …) with
the behaviour the tests show. Each also takes an injected failure, so that
every error path of the scripts can be reached. BEGIN, ROLLBACK and COMMIT
take their answers from a `Store.TxEnv`.

Dafny cannot pass a method as a value, so `execTx` is not one method. Each
script runs the same three steps: `SQLStore.BeginTx`, its callback method
against the open transaction, and `SQLStore.FinishTx`. Each script method
is proved equal to a pure outcome function such as
`TxTransfer.TransferTxOutcome`, built from `Store.ExecTx` applied to what
the callback did. The properties are lemmas about those functions.

Files: `wrappers.dfy` (Option, Result), `db.dfy` (rows, tables, queries),
`store.dfy` (execTx and the store class), `tx_transfer.dfy`,
`tx_create_user.dfy`, `tx_verify_email.dfy`, `validator.dfy`,
`currency.dfy`, `token.dfy` (the token payload), `middleware.dfy`,
`rpc_update_user.dfy`.

## Model

| member | source | states |
|---|---|---|
| Store.ExecTx | src/db/sqlc/store.go:33-49 | execTx leaves either the tables at BEGIN or the callback's tables, never a mix. The id sequences keep what the callback drew, even on rollback. |
| Store.ExecTxAtomic | src/db/sqlc/store.go:33-49 | A failed BEGIN returns its error with nothing changed and the callback never run. A failed callback leaves the tables as at BEGIN; its error comes back unchanged when ROLLBACK succeeds, and paired with the rollback error when it fails. A successful callback commits: its writes are kept on success, and a failed COMMIT returns the commit error. |
| Store.ExecTxEndsOnce | src/db/sqlc/store.go:40-48 | A transaction that began ends with exactly one COMMIT or ROLLBACK, as its last statement. It is a ROLLBACK exactly when the callback failed. After a failed BEGIN nothing else is sent. |
| Store.ExecTxKeepsSeqsAhead | src/db/sqlc/store.go:41-48 | Every serial id in the tables was drawn from its sequence, after commit and after rollback alike. |
| Store.SQLStore.constructor | src/db/sqlc/store.go:25-30 | A new store over a database whose sequences are ahead of its rows has those tables and sequences, no open transaction and an empty trace, and is valid: every id in use was drawn. |
| Store.SQLStore.BeginTx | src/db/sqlc/store.go:34-37 | On success the tables at BEGIN are kept as the snapshot. On failure no transaction is open and the error is returned. |
| Store.SQLStore.Rollback | src/db/sqlc/store.go:42 | The tables return to the snapshot and the transaction is closed. |
| Store.SQLStore.Commit | src/db/sqlc/store.go:48 | The transaction is closed and the writes stay. A failed commit returns its error and keeps or drops the writes as the server did. |
| Store.SQLStore.FinishTx | src/db/sqlc/store.go:41-48 | A callback error means ROLLBACK, restoring the snapshot and returning that error, or both errors if ROLLBACK also fails. Otherwise it commits. |
| Store.SQLStore.CreateTransfer | src/db/sqlc/tx_transfer.go:33-37 | The store's state moves as `Db.CreateTransfer` says, and the statement is recorded. |
| Store.SQLStore.CreateEntry | src/db/sqlc/tx_transfer.go:42-53 | The store's state moves as `Db.CreateEntry` says, and the statement is recorded. |
| Store.SQLStore.AddAccountBalance | src/db/sqlc/tx_transfer.go:81-92 | The store's state moves as `Db.AddAccountBalance` says, and the statement is recorded. |
| Store.SQLStore.CreateUser | src/db/sqlc/tx_create_user.go:27 | The store's state moves as `Db.CreateUser` says, and the statement is recorded. |
| Store.SQLStore.UpdateUser | src/db/sqlc/tx_verify_email.go:37-43 | The store's state moves as `Db.UpdateUser` says, and the statement is recorded. |
| Store.SQLStore.UpdateVerifyEmail | src/db/sqlc/tx_verify_email.go:29-32 | The store's state moves as `Db.UpdateVerifyEmail` says, and the statement is recorded. |
| Store.SQLStore.RecordAfterCreate | src/db/sqlc/tx_create_user.go:32 | The hook's call, with the user it receives, is recorded inside the transaction. |
| Db.CreateTransfer | src/db/sqlc/tx_transfer.go:33-37 | Returns the injected failure if any. On success the next id is drawn and the row carries exactly the requested accounts and amount. On failure nothing changes. |
| Db.CreateEntry | src/db/sqlc/tx_transfer.go:42-53 | Returns the injected failure if any. On success the next id is drawn and the row carries exactly the requested account and amount. On failure nothing changes. |
| Db.CreateTransferKeepsSeqsAhead | src/db/sqlc/tx_transfer.go:33-37 | When every transfer id in use was drawn from its sequence, the insert keeps it so, and a successful insert's id was not in use. |
| Db.CreateEntryKeepsSeqsAhead | src/db/sqlc/tx_transfer.go:42-53 | When every entry id in use was drawn from its sequence, the insert keeps it so, and a successful insert's id was not in use. |
| Db.AddAccountBalance | src/db/sqlc/tx_transfer.go:81-92 | The account's balance changes by exactly the delta and the new row is returned. A missing account gives ErrNoRows and no change. |
| Db.AddAccountBalanceTotal | src/db/sqlc/tx_transfer.go:81-92 | A successful balance update changes the sum of all balances by exactly its delta. |
| Db.TotalBalanceSplit | src/db/sqlc/store_test.go:93-113 | The sum of all balances is one account's balance plus the sum of the others. |
| Db.AddToTotal | src/db/sqlc/store_test.go:93-113 | Changing one balance by a delta changes the sum of all balances by that delta. |
| Db.CreateUser | src/db/sqlc/tx_create_user.go:27 | Succeeds exactly when the username and the email are both unused. The row stored and returned is the requested user, unverified. Otherwise nothing changes. |
| Db.ApplyUserUpdate | src/db/sqlc/user_test.go:79-161 | The COALESCE update never changes the username. |
| Db.UpdateUser | src/db/sqlc/user_test.go:79-161 | Succeeds exactly when the user exists and any new email is held by no other user. It then stores and returns the partial update. A missing user gives ErrNoRows and a taken email the unique violation, with no change. |
| Db.CreateUserKeepsEmailsUnique | src/db/sqlc/tx_create_user.go:27 | When no two users share an email, an insert keeps it so. |
| Db.UpdateUserKeepsEmailsUnique | src/gapi/rpc_update_user.go:66-72 | When no two users share an email, an update keeps it so. |
| Db.UpdateVerifyEmail | src/db/sqlc/tx_verify_email.go:29-35 | Succeeds exactly when the record exists, the secret matches, it is unused and it has not expired. It then marks the record used and returns it. Otherwise it gives ErrNoRows and changes nothing. |
| Db.ApplyUserUpdateFields | src/db/sqlc/user_test.go:79-161 | Each of the five fields takes its argument when the argument is valid and keeps its old value when it is NULL. The username never changes. |
| Db.EmptyUpdateIsIdentity | src/db/sqlc/user_test.go:79-129 | An update with every argument NULL changes nothing. |
| Db.ApplyUserUpdateIdempotent | src/db/sqlc/user_test.go:133-161 | Applying the same partial update twice equals applying it once. |
| TxTransfer.AddMoneyOutcome | src/db/sqlc/tx_transfer.go:73-98 | addMoney touches no sequence and sends no transaction control. |
| TxTransfer.MoveMoney | src/db/sqlc/tx_transfer.go:58-63 | The balance updates touch only the accounts table, draw no id and send no transaction control. |
| TxTransfer.AddMoneyMoves | src/db/sqlc/tx_transfer.go:73-98 | With both updates succeeding, each account moves by its own delta (both when the ids coincide), no account appears or disappears, and the two updated rows are returned. |
| TxTransfer.MoveMoneyMoves | src/db/sqlc/tx_transfer.go:58-63 | With both updates succeeding, every balance moves by its share of the transfer and the result pairs the updated from and to rows, whichever was updated first. |
| TxTransfer.AddMoneyTotal | src/db/sqlc/tx_transfer.go:73-98 | With both updates succeeding, the sum of all balances moves by the sum of the two deltas. |
| TxTransfer.MoveMoneyKeepsTotal | src/db/sqlc/tx_transfer.go:58-63 | With both updates succeeding, the sum of all balances is unchanged. |
| TxTransfer.RecordTransfer | src/db/sqlc/tx_transfer.go:33-56 | The inserts change only the transfers and entries tables and send no transaction control. They all succeed exactly when no insert fails, and then they send the three inserts in order. |
| TxTransfer.TransferBodyOutcome | src/db/sqlc/tx_transfer.go:30-66 | The callback sends no transaction control. |
| TxTransfer.BodyRecordsRequest | src/db/sqlc/tx_transfer.go:30-66 | A callback that returns nil ran all three inserts, returns rows with exactly the requested accounts, amount and signs, and holds them in its final state. |
| TxTransfer.BodyKeepsSeqsAhead | src/db/sqlc/tx_transfer.go:30-56 | The callback only advances the id sequences and keeps every id in use drawn from its sequence. |
| TxTransfer.TransferKeepsSeqsAhead | src/db/sqlc/tx_transfer.go:27-71 | After a transfer, committed or rolled back, every transfer and entry id in use was drawn from its sequence. |
| TxTransfer.BodyMovesBalances | src/db/sqlc/tx_transfer.go:30-66 | A callback with no failures moves every balance by its share of the transfer and returns the updated rows. |
| TxTransfer.BodyConservesTotal | src/db/sqlc/tx_transfer.go:30-66 | A callback with no failures returns nil and keeps the sum of all balances. |
| TxTransfer.AddMoney | src/db/sqlc/tx_transfer.go:73-98 | The two ordered updates, with the second skipped when the first fails, as `AddMoneyOutcome`. |
| TxTransfer.TransferTransactions | src/db/sqlc/tx_transfer.go:30-66 | The callback's steps and their early returns, as `TransferBodyOutcome`. |
| TxTransfer.TransferTxOutcome | src/db/sqlc/tx_transfer.go:27-71 | A transfer never touches users or verification records. |
| TxTransfer.TransferTx | src/db/sqlc/tx_transfer.go:27-71 | BEGIN, the callback, then rollback or commit, as `TransferTxOutcome`. No transaction is left open, and a valid store stays valid. |
| TxTransfer.RecordTransferKeepsRows | src/db/sqlc/tx_transfer.go:33-56 | With sequences ahead of the rows, the inserts add rows and overwrite none. |
| TxTransfer.TransferKeepsExistingRows | src/db/sqlc/tx_transfer.go:27-71 | With sequences ahead of the rows, a transfer, committed or rolled back, keeps every transfer and entry row that was there. |
| TxTransfer.TransferRecordsRequest | src/db/sqlc/store_test.go:50-81 | A successful transfer's row and entries carry exactly the requested accounts, amount and signs, and all three are persisted. |
| TxTransfer.TransferLockOrder | src/db/sqlc/tx_transfer.go:58-63 | After the inserts, the first balance update is on the lower account id with that account's delta. The second, when issued, is on the other account with the opposite delta. |
| TxTransfer.TransferMovesBalances | src/db/sqlc/store_test.go:83-97 | A transfer with no failures changes every balance by its delta: from down, to up, a self-transfer unchanged. No account appears or disappears, and the returned accounts are the updated rows. |
| TxTransfer.TransferConservesTotal | src/db/sqlc/store_test.go:83-97 | A transfer with no failures keeps the sum of all balances. |
| TxTransfer.SelfTransferKeepsBalances | src/db/sqlc/tx_transfer.go:58-63 | A transfer to the same account issues +amount first, then -amount, and leaves every balance as it was. |
| TxTransfer.TransferInsertFailureRollsBack | src/db/sqlc/tx_transfer.go:38-56 | When an insert fails: nothing persists, the error is that insert's (combined with a rollback error), the last statement is ROLLBACK, and no balance update is sent. |
| TxTransfer.FailedFirstUpdateStillCommits | src/db/sqlc/tx_transfer.go:58-65 | When the account updated first does not exist, its update reports ErrNoRows, the second is not sent, and the callback still returns nil. The transaction commits the new transfer with no balance moved. |
| TxTransfer.FailedSecondUpdateBreaksConservation | src/db/sqlc/tx_transfer.go:58-65 | When only the account updated second does not exist, the transaction still commits, and the sum of balances is off by the first delta. |
| TxTransfer.TransferStep | src/db/sqlc/store_test.go:83-97 | One transfer with no failures, between distinct accounts, moves the amount once and returns the updated rows. |
| TxTransfer.IterateMoves | src/db/sqlc/store_test.go:105-113 | Any step that moves the amount once moves n times the amount in n steps. |
| TxTransfer.RepeatedTransfersMoveMultiples | src/db/sqlc/store_test.go:105-113 | After n transfers the from balance is down by n × amount and the to balance up by n × amount. |
| TxTransfer.KthTransferMovesMultiple | src/db/sqlc/store_test.go:93-100 | The k-th transfer returns accounts that have moved exactly k × amount, equally on both sides. |
| TxTransfer.TransferResultsDistinct | src/db/sqlc/store_test.go:99-102 | With a positive amount, different transfers in the sequence see different balances, so each k is seen once. |
| TxTransfer.OppositeTransfersCancel | src/db/sqlc/store_test.go:117-173 | A transfer followed by the opposite transfer of the same amount leaves every balance as it was. |
| TxCreateUser.CreateUserBodyOutcome | src/db/sqlc/tx_create_user.go:24-34 | The callback sends no transaction control and touches no sequence. |
| TxCreateUser.CreateUserTransactions | src/db/sqlc/tx_create_user.go:24-34 | The insert, then the hook on the inserted row, as `CreateUserBodyOutcome`. |
| TxCreateUser.CreateUserTxOutcome | src/db/sqlc/tx_create_user.go:21-39 | CreateUserTx changes only the users table and draws no id. |
| TxCreateUser.CreateUserTx | src/db/sqlc/tx_create_user.go:21-39 | BEGIN, the callback, then rollback or commit, as `CreateUserTxOutcome`. A valid store stays valid. |
| TxCreateUser.InsertFailureSkipsHook | src/db/sqlc/tx_create_user.go:27-30 | When the insert fails, the hook is never called, nothing is written, and the insert's error is returned. |
| TxCreateUser.HookSeesCreatedUser | src/db/sqlc/tx_create_user.go:27-38 | After a successful insert, the hook is called once, inside the transaction, with exactly the row inserted. The caller gets that row back whatever the hook answers. |
| TxCreateUser.HookFailureRollsBack | src/db/sqlc/tx_create_user.go:32 | A failing hook undoes the insert, and its error is returned. |
| TxCreateUser.CreateUserTxCommits | src/db/sqlc/tx_create_user.go:36-38 | With every step succeeding, the user is stored as requested, unverified, and returned. |
| TxCreateUser.DuplicateUsernameRejected | src/db/sqlc/tx_create_user.go:27-30 | A taken username fails with the primary-key violation, before the hook runs, and writes nothing. |
| TxVerifyEmail.MarkVerifiedParams | src/db/sqlc/tx_verify_email.go:37-43 | The update arguments change is_email_verified to true and leave every other field of any user as it was. |
| TxVerifyEmail.VerifyEmailBodyOutcome | src/db/sqlc/tx_verify_email.go:26-46 | The callback sends no transaction control and touches no sequence. |
| TxVerifyEmail.VerifyEmailTransactions | src/db/sqlc/tx_verify_email.go:26-46 | Consume the record, then update its owner, as `VerifyEmailBodyOutcome`. |
| TxVerifyEmail.VerifyEmailTxOutcome | src/db/sqlc/tx_verify_email.go:23-51 | VerifyEmailTx changes only the users and verification tables and draws no id. |
| TxVerifyEmail.VerifyEmailTx | src/db/sqlc/tx_verify_email.go:23-51 | BEGIN, the callback, then rollback or commit, as `VerifyEmailTxOutcome`. A valid store stays valid. |
| TxVerifyEmail.ConsumeFailureSkipsUserUpdate | src/db/sqlc/tx_verify_email.go:29-35 | The record update is sent with the caller's id and secret. When it fails, no user update is sent, nothing is written, and an unusable record gives ErrNoRows. |
| TxVerifyEmail.UpdatesRecordOwner | src/db/sqlc/tx_verify_email.go:37-43 | The user updated is the record's owner, and only is_email_verified is set. |
| TxVerifyEmail.UserUpdateFailureRollsBack | src/db/sqlc/tx_verify_email.go:45 | A failing user update rolls back, so the record is not consumed. |
| TxVerifyEmail.VerifyEmailTxCommits | src/db/sqlc/tx_verify_email.go:23-51 | On success the record is used and its owner verified. Every other field and row is unchanged, and both rows are returned. |
| TxVerifyEmail.SecondVerificationFails | src/db/sqlc/tx_verify_email.go:29-35 | After a successful verification, the same call again fails with ErrNoRows and changes nothing. |
| Validator.Utf8Len | src/validator/validator.go:15 | The byte length is at least the character count, and zero exactly for the empty string. |
| Validator.Utf8LenAscii | src/validator/validator.go:15 | The byte length equals the character count exactly when the string is ASCII. |
| Validator.ValidateString | src/validator/validator.go:14-21 | Accepts exactly when min ≤ byte length ≤ max, both bounds inclusive. Otherwise gives the length error. |
| Validator.ValidateUsername | src/validator/validator.go:23-32 | Accepts exactly when 3 ≤ length ≤ 100 and every character is in [a-z0-9_]. A bad length gets the length error, checked first; otherwise the character error. |
| Validator.ValidatePassword | src/validator/validator.go:34-36 | Accepts exactly when 3 ≤ byte length ≤ 100, with any characters. |
| Validator.ValidateEmail | src/validator/validator.go:39-49 | Accepts exactly when 3 ≤ byte length ≤ 200 and the address parser accepts. A bad length gets the length error before the parser is consulted. |
| Validator.ValidateFullName | src/validator/validator.go:51-60 | Accepts exactly when 3 ≤ length ≤ 100 and every character is an ASCII letter or a backslash. |
| Validator.EmailLengthBeforeParser | src/validator/validator.go:39-42 | With a bad length, the answer is the length error whatever the parser would say. |
| Validator.UsernameRejectsUpperCase | src/validator/validator.go:28-30 | A username with an upper-case letter is rejected. |
| Validator.FullNameRejectsSpace | src/validator/validator.go:56-58 | A full name with a space is rejected. |
| Validator.ShortUsernameGetsLengthError | src/validator/validator.go:24-26 | "AB" gets the length error, not the character error. |
| Validator.FullNameExamples | src/validator/validator.go:51-60 | "Ann Lee" is rejected for its characters; "AnnLee" is accepted. |
| Currency.IsSupportedCurrency | src/utils/currency.go:10-16 | True exactly for the three supported codes, each three characters long. |
| Currency.SupportedCount | src/utils/currency.go:3-7 | There are exactly three supported currencies. |
| Currency.LowerCaseUnsupported | src/utils/currency.go:10-16 | A string with a lower-case letter is not supported. |
| Currency.UnsupportedExamples | src/utils/currency.go:10-16 | "USD", "EUR" and "CAD" are supported; "", "usd" and "GBP" are not. |
| Middleware.WordLength | src/api/middleware.go:28 | The first word is a prefix with no whitespace, ended by whitespace or by the end of the string. |
| Middleware.Fields | src/api/middleware.go:28 | Every field is non-empty and contains no whitespace. |
| Middleware.FieldsOfWord | src/api/middleware.go:28 | A word followed by whitespace or by the end is the first field. |
| Middleware.WordLengthOfWord | src/api/middleware.go:28 | A word followed by whitespace or by the end has exactly its own length as the first word. |
| Middleware.FieldsSkipsSpace | src/api/middleware.go:28 | Leading whitespace does not change the fields. |
| Middleware.TwoFields | src/api/middleware.go:28 | Word, whitespace, word and a tail starting with whitespace give those two words, then the fields of the tail. |
| Middleware.ToLower | src/api/middleware.go:35 | Lower-casing keeps the length and lower-cases each character in place. |
| Middleware.ParseAuthorizationHeader | src/api/middleware.go:22-42 | Empty header: not provided. Fewer than two fields: invalid format. Success exactly when there are two or more fields and the lower-cased first is "bearer". The token is then the second field. |
| Middleware.BearerHeaderYieldsToken | src/api/middleware.go:35-42 | A "bearer" scheme in any case, whitespace and a token, with anything after further whitespace, yields exactly that token. |
| Middleware.OtherSchemeRejected | src/api/middleware.go:35-40 | Any other scheme is refused as unsupported, naming the lower-cased scheme. |
| Middleware.SchemeDecides | src/api/middleware.go:35-42 | With two or more fields, the lower-cased first field alone decides: "bearer" yields the second field, anything else is refused naming it. |
| Middleware.SingleFieldRejected | src/api/middleware.go:28-33 | A header of one word is refused as malformed. |
| Middleware.SchemeSpellings | src/api/middleware.go:35-36 | "Bearer" and "BEARER" lower-case to "bearer"; "Basic" does not. |
| Middleware.Context.constructor | src/api/middleware.go:20-21 | A request context with its header, not aborted, with no keys, and the next handler not called. |
| Middleware.TokenMaker.constructor | src/api/middleware.go:19 | A token maker with its verifier and no tokens verified yet. |
| Middleware.TokenMaker.VerifyToken | src/api/middleware.go:43 | Returns the verifier's answer and records the token it was given. |
| Middleware.AuthMiddleware | src/api/middleware.go:19-53 | A malformed header aborts with 401 before any token is verified. Otherwise exactly the second field is verified, once. A verification failure aborts with 401 and stores nothing. A success stores the payload under "authorization_payload", calls the next handler and does not abort. |
| RpcUpdateUser.FieldError | src/gapi/rpc_update_user.go:81-105 | The username is refused exactly when it breaks the username rules. An optional field is refused exactly when it is present and breaks its rules: password 3-100 bytes, full name 3-100 characters, each an ASCII letter or a backslash, email 3-200 bytes and a parseable address. |
| RpcUpdateUser.ViolationOf | src/gapi/rpc_update_user.go:81-105 | A field contributes a violation, at most one, exactly when it is checked and invalid. |
| RpcUpdateUser.ViolationsSound | src/gapi/rpc_update_user.go:81-105 | Every violation reported names a checked field and carries that field's own error. |
| RpcUpdateUser.ViolationsComplete | src/gapi/rpc_update_user.go:81-105 | Every checked field with an error is reported. |
| RpcUpdateUser.ViolationsAscending | src/gapi/rpc_update_user.go:81-105 | Fields checked in order are reported in that order, each at most once. |
| RpcUpdateUser.ViolationsReport | src/gapi/rpc_update_user.go:81-105 | Checking every field in order: no violations exactly when no field has an error, a violation for a field exactly when it has one, with that error, in check order. |
| RpcUpdateUser.CheckOrderCoversFields | src/gapi/rpc_update_user.go:81-105 | The check order username, password, full name, email lists every field once, in ascending order. |
| RpcUpdateUser.ViolationsInCheckOrder | src/gapi/rpc_update_user.go:81-105 | The report over the check order is the four per-field checks, concatenated in order. |
| RpcUpdateUser.RequestViolationsReport | src/gapi/rpc_update_user.go:81-105 | For a request, the report is empty exactly when every field present is valid, and names exactly the invalid fields with their errors, in check order. |
| RpcUpdateUser.ValidateUpdateUserRequest | src/gapi/rpc_update_user.go:81-105 | The result is the report over the check order. It is empty exactly when all present fields are valid, names exactly the invalid fields with their errors, and keeps the order username, password, full name, email. |
| RpcUpdateUser.ParamsFor | src/gapi/rpc_update_user.go:37-64 | Arguments built for a request never change the verified flag, and a request carrying no optional field changes nothing. |
| RpcUpdateUser.StoreErrorStatus | src/gapi/rpc_update_user.go:66-72 | ErrNoRows maps to NotFound and every other store error to Internal. |
| RpcUpdateUser.UpdateUser | src/gapi/rpc_update_user.go:19-79 | Guards in order: authorization failure gives Unauthenticated, then a violation gives InvalidArgument carrying the full violation report, then a different owner gives PermissionDenied, then a failed hash gives Internal; none of these touches the store. Past the guards, exactly one UPDATE is sent. Full name and email are set exactly when present, hash and change time exactly when a password is present, the verified flag never. Its result, NotFound or Internal comes back. |
| RpcUpdateUser.RequestChangesOnlyPresentFields | src/gapi/rpc_update_user.go:37-64 | The update the RPC sends changes exactly the fields the request carries and never the username or the verified flag. |

## Left out

- Concurrency: row locks, deadlocks and interleavings are not modelled. The model is sequential and records only the order of the two balance updates, the order that avoids deadlock.
- The SQL text and the generated queries are not part of this model. Each query is a function on the tables with an injected failure. `UpdateVerifyEmail` is assumed to require a matching id and secret, an unused record and `now` before the expiry.
- Db.UpdateVerifyEmail: whether the real statement checks the expiry and the used flag is not visible; the model assumes it does.
- Foreign-key checks on transfers and entries are not modelled; an insert fails only through its injected failure.
- The COMMIT answer (`Store.TxEnv`) is independent of the statements before it. With Postgres, an error the server reports aborts the transaction and COMMIT then rolls back, so an injected statement fault followed by a successful COMMIT is a path the real driver does not take. The addMoney quirk is therefore stated on the ErrNoRows path of a missing account, which does commit.
- Store.SQLStore.Valid covers the serial ids only; the uniqueness of emails is stated as a separate invariant (`Db.EmailsUnique`) preserved by the user insert and update, not carried by the store.
- Timestamps the database fills (`created_at`, `expired_at` defaults) are not modelled. `password_changed_at` is an integer clock value.
- Db.AddAccountBalance: balances are unbounded integers; the 64-bit overflow of BIGINT is not modelled.
- TxTransfer.TransferTxOutcome: account ids and amounts are unbounded integers; the int64 wrap of -arg.Amount at MinInt64 (where the negation equals the amount, so both entries carry the same sign and both accounts move the same way) is not modelled.
- Validator.Utf8Len: strings are sequences of Unicode scalar values, so byte strings that are not valid UTF-8 cannot be expressed.
- Middleware.ToLower: only ASCII letters are lower-cased; Unicode case mapping beyond ASCII is not modelled.
- Password hashing, token verification, the email address parser and `time.Now` are parameters of the operations that use them. The authorization step of the RPC enters as its result.
- The AfterCreate hook enters as the error it returns. What it does outside the database (queueing the verification email) is not modelled.
- execTx is not a single method taking a callback: each script calls `BeginTx`, its callback method and `FinishTx` itself. `Store.ExecTx` states the combined behaviour once.
- A failed ROLLBACK is taken to leave the tables as at BEGIN, since uncommitted work is never durable. A failed COMMIT keeps or drops the writes according to a parameter.
- Rolled-back inserts do not return their ids to the sequences, as with serial columns.
- The nil-context panic of `UpdateUser`, the conversion of rows to protobuf, logging, and the exact error message texts are not modelled.
- Store.SQLStore: the Store interface, `NewStore`'s database handle and the base-connection Querier are reduced to the store's fields.
