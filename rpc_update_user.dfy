/**
 * The UpdateUser RPC (src/gapi/rpc_update_user.go): authorize, validate,
 * check ownership, build the partial-update arguments, run the update and
 * map its error to a gRPC status.
 */
module RpcUpdateUser {
  import opened Wrappers
  import opened Db
  import opened Store
  import opened Token
  import opened Validator

  /** The request: the username is always sent; the other fields are optional. */
  datatype UpdateUserRequest = UpdateUserRequest(
    username: string, fullName: Option<string>, email: Option<string>, password: Option<string>)

  /** The request fields a violation can name, in the order they are checked. */
  datatype Field = Username | Password | FullName | Email

  function FieldName(f: Field): string {
    match f
    case Username => "username"
    case Password => "password"
    case FullName => "full name"
    case Email => "email"
  }

  function Rank(f: Field): nat {
    match f
    case Username => 0
    case Password => 1
    case FullName => 2
    case Email => 3
  }

  datatype FieldViolation = FieldViolation(field: Field, description: ValidationError)

  /** The gRPC status of a failed call. */
  datatype Status =
    | Unauthenticated(reason: string)
    | InvalidArgument(violations: seq<FieldViolation>)
    | PermissionDenied
    | NotFound
    | Internal(cause: string)

  /** What checking one field yields: absent optional fields are not checked. */
  function FieldError(req: UpdateUserRequest, f: Field, parseAddress: string -> bool): (e: Option<ValidationError>)
    ensures f == Username ==>
      (e.None? <==> 3 <= |req.username| <= 100 && forall i :: 0 <= i < |req.username| ==> IsUsernameChar(req.username[i]))
    ensures f == Password ==> (e.None? <==> req.password.None? || 3 <= Utf8Len(req.password.value) <= 100)
    ensures f == FullName && req.fullName.None? ==> e.None?
    ensures f == FullName && req.fullName.Some? ==>
      (e.None? <==> 3 <= |req.fullName.value| <= 100 && forall i :: 0 <= i < |req.fullName.value| ==> IsFullNameChar(req.fullName.value[i]))
    ensures f == Email ==> (e.None? <==> req.email.None? || (3 <= Utf8Len(req.email.value) <= 200 && parseAddress(req.email.value)))
  {
    match f
    case Username => ValidateUsername(req.username)
    case Password => if req.password.Some? then ValidatePassword(req.password.value) else None
    case FullName => if req.fullName.Some? then ValidateFullName(req.fullName.value) else None
    case Email => if req.email.Some? then ValidateEmail(req.email.value, parseAddress) else None
  }

  /** Every field the request carries is valid. */
  predicate RequestValid(req: UpdateUserRequest, parseAddress: string -> bool) {
    forall f: Field :: FieldError(req, f, parseAddress).None?
  }

  predicate HasViolation(violations: seq<FieldViolation>, f: Field) {
    exists i :: 0 <= i < |violations| && violations[i].field == f
  }

  /** What checking each field of `req` yields, as one function of the field. */
  function FieldErrors(req: UpdateUserRequest, parseAddress: string -> bool): Field -> Option<ValidationError> {
    (f: Field) => FieldError(req, f, parseAddress)
  }

  /** The violation one field contributes: one entry when it is checked and invalid. */
  function ViolationOf(errs: Field -> Option<ValidationError>, f: Field): (v: seq<FieldViolation>)
    ensures |v| <= 1
    ensures v != [] <==> errs(f).Some?
  {
    if errs(f).Some? then [FieldViolation(f, errs(f).value)] else []
  }

  /** The order in which validateUpdateUserRequest checks the fields. */
  const CheckOrder: seq<Field> := [Username, Password, FullName, Email]

  /** The violations the fields `fs` contribute, checked in the order given. */
  function Violations(errs: Field -> Option<ValidationError>, fs: seq<Field>): seq<FieldViolation>
    decreases |fs|
  {
    if fs == [] then [] else ViolationOf(errs, fs[0]) + Violations(errs, fs[1..])
  }

  /** Every entry names a checked field and carries that field's own error. */
  lemma {:induction false} ViolationsSound(errs: Field -> Option<ValidationError>, fs: seq<Field>)
    ensures forall i :: 0 <= i < |Violations(errs, fs)| ==>
      Violations(errs, fs)[i].field in fs && errs(Violations(errs, fs)[i].field) == Some(Violations(errs, fs)[i].description)
  {
    if fs != [] {
      ViolationsSound(errs, fs[1..]);
      var h: seq<FieldViolation> := ViolationOf(errs, fs[0]);
      var r: seq<FieldViolation> := Violations(errs, fs[1..]);
      forall i | 0 <= i < |h + r|
        ensures (h + r)[i].field in fs && errs((h + r)[i].field) == Some((h + r)[i].description)
      {
        if i < |h| {
          assert (h + r)[i] == h[i];
        } else {
          assert (h + r)[i] == r[i - |h|];
          assert fs == [fs[0]] + fs[1..];
        }
      }
    }
  }

  /** Every checked field that is invalid has an entry. */
  lemma {:induction false} ViolationsComplete(errs: Field -> Option<ValidationError>, fs: seq<Field>)
    ensures forall f :: f in fs && errs(f).Some? ==> HasViolation(Violations(errs, fs), f)
  {
    if fs != [] {
      ViolationsComplete(errs, fs[1..]);
      var h: seq<FieldViolation> := ViolationOf(errs, fs[0]);
      var r: seq<FieldViolation> := Violations(errs, fs[1..]);
      forall f | f in fs && errs(f).Some?
        ensures HasViolation(h + r, f)
      {
        if f == fs[0] {
          assert (h + r)[0].field == f;
        } else {
          assert f in fs[1..];
          var i :| 0 <= i < |r| && r[i].field == f;
          assert (h + r)[|h| + i].field == f;
        }
      }
    }
  }

  /** The ranks of `fs` strictly increase. */
  predicate Ascending(fs: seq<Field>) {
    forall i, j :: 0 <= i < j < |fs| ==> Rank(fs[i]) < Rank(fs[j])
  }

  /** Fields checked in ascending rank are reported in ascending rank. */
  lemma {:induction false} ViolationsAscending(errs: Field -> Option<ValidationError>, fs: seq<Field>)
    requires Ascending(fs)
    ensures forall i, j :: 0 <= i < j < |Violations(errs, fs)| ==>
      Rank(Violations(errs, fs)[i].field) < Rank(Violations(errs, fs)[j].field)
  {
    if fs != [] {
      var rest := fs[1..];
      assert Ascending(rest) by {
        forall i, j | 0 <= i < j < |rest| ensures Rank(rest[i]) < Rank(rest[j]) {
          assert rest[i] == fs[i + 1] && rest[j] == fs[j + 1];
        }
      }
      ViolationsAscending(errs, rest);
      ViolationsSound(errs, rest);
      var h: seq<FieldViolation> := ViolationOf(errs, fs[0]);
      var r: seq<FieldViolation> := Violations(errs, rest);
      forall i, j | 0 <= i < j < |h + r|
        ensures Rank((h + r)[i].field) < Rank((h + r)[j].field)
      {
        assert (h + r)[j] == r[j - |h|];
        if i < |h| {
          assert (h + r)[i] == h[i];
          var k :| 0 <= k < |rest| && rest[k] == r[j - |h|].field;
          assert rest[k] == fs[k + 1];
        } else {
          assert (h + r)[i] == r[i - |h|];
        }
      }
    }
  }

  /**
   * The violations report every invalid field once, with its own error, in
   * check order, and none exactly when no field is invalid.
   */
  lemma ViolationsReport(v: seq<FieldViolation>, errs: Field -> Option<ValidationError>, fs: seq<Field>)
    requires Ascending(fs) && forall f: Field :: f in fs
    requires v == Violations(errs, fs)
    ensures v == [] <==> forall f: Field :: errs(f).None?
    ensures forall f: Field :: HasViolation(v, f) <==> errs(f).Some?
    ensures forall i :: 0 <= i < |v| ==> errs(v[i].field) == Some(v[i].description)
    ensures forall i, j :: 0 <= i < j < |v| ==> Rank(v[i].field) < Rank(v[j].field)
  {
    ViolationsSound(errs, fs);
    ViolationsComplete(errs, fs);
    ViolationsAscending(errs, fs);
    if v != [] {
      assert errs(v[0].field).Some?;
    }
  }

  /** The check order names every field once, by rank. */
  lemma CheckOrderCoversFields()
    ensures Ascending(CheckOrder)
    ensures forall f: Field :: f in CheckOrder
  {
    forall f: Field ensures f in CheckOrder {
      assert CheckOrder[Rank(f)] == f;
    }
  }

  /** The check order unrolled: one field after the other. */
  lemma ViolationsInCheckOrder(errs: Field -> Option<ValidationError>)
    ensures Violations(errs, CheckOrder)
      == ViolationOf(errs, Username) + ViolationOf(errs, Password) + ViolationOf(errs, FullName) + ViolationOf(errs, Email)
  {
    var fs := CheckOrder;
    assert fs[1..] == [Password, FullName, Email];
    assert fs[1..][1..] == [FullName, Email];
    assert fs[1..][1..][1..] == [Email];
    assert fs[1..][1..][1..][1..] == [];
    var e := ViolationOf(errs, Email) + [];
    assert e == ViolationOf(errs, Email);
  }

  /** `ViolationsReport` for the fields of a request. */
  lemma RequestViolationsReport(v: seq<FieldViolation>, req: UpdateUserRequest, parseAddress: string -> bool)
    requires v == Violations(FieldErrors(req, parseAddress), CheckOrder)
    ensures (v == [] <==> RequestValid(req, parseAddress))
    ensures forall f: Field :: HasViolation(v, f) <==> FieldError(req, f, parseAddress).Some?
    ensures forall i :: 0 <= i < |v| ==> FieldError(req, v[i].field, parseAddress) == Some(v[i].description)
    ensures forall i, j :: 0 <= i < j < |v| ==> Rank(v[i].field) < Rank(v[j].field)
  {
    var errs := FieldErrors(req, parseAddress);
    CheckOrderCoversFields();
    ViolationsReport(v, errs, CheckOrder);
    assert RequestValid(req, parseAddress) <==> forall f: Field :: errs(f).None?;
  }

  /**
   * validateUpdateUserRequest: one violation per invalid field, in the
   * order username, password, full name, email.
   */
  method ValidateUpdateUserRequest(req: UpdateUserRequest, parseAddress: string -> bool)
    returns (violations: seq<FieldViolation>)
    ensures violations == Violations(FieldErrors(req, parseAddress), CheckOrder)
    ensures violations == [] <==> RequestValid(req, parseAddress)
    ensures forall f: Field :: HasViolation(violations, f) <==> FieldError(req, f, parseAddress).Some?
    ensures forall i :: 0 <= i < |violations| ==>
      FieldError(req, violations[i].field, parseAddress) == Some(violations[i].description)
    ensures forall i, j :: 0 <= i < j < |violations| ==> Rank(violations[i].field) < Rank(violations[j].field)
  {
    ghost var errs := FieldErrors(req, parseAddress);
    violations := [];
    var err := ValidateUsername(req.username);
    if err.Some? {
      violations := violations + [FieldViolation(Username, err.value)];
    }
    ghost var checked := ViolationOf(errs, Username);
    assert violations == checked;

    if req.password.Some? {
      err := ValidatePassword(req.password.value);
      if err.Some? {
        violations := violations + [FieldViolation(Password, err.value)];
      }
    }
    assert violations == checked + ViolationOf(errs, Password);
    checked := checked + ViolationOf(errs, Password);

    if req.fullName.Some? {
      err := ValidateFullName(req.fullName.value);
      if err.Some? {
        violations := violations + [FieldViolation(FullName, err.value)];
      }
    }
    assert violations == checked + ViolationOf(errs, FullName);
    checked := checked + ViolationOf(errs, FullName);

    if req.email.Some? {
      err := ValidateEmail(req.email.value, parseAddress);
      if err.Some? {
        violations := violations + [FieldViolation(Email, err.value)];
      }
    }
    assert violations == checked + ViolationOf(errs, Email);
    ViolationsInCheckOrder(errs);
    RequestViolationsReport(violations, req, parseAddress);
  }

  /**
   * The arguments the RPC sends for `req`: full name and email are set
   * exactly when present, the password hash and its change time exactly
   * when a password is present, and the verified flag never.
   */
  predicate ParamsFor(p: UpdateUserParams, req: UpdateUserRequest, hashed: string, now: int): (ok: bool)
    ensures ok ==> forall u: User :: ApplyUserUpdate(u, p).isEmailVerified == u.isEmailVerified
    ensures ok && req.fullName.None? && req.email.None? && req.password.None? ==> forall u: User :: ApplyUserUpdate(u, p) == u
  {
    && p.username == req.username
    && p.fullName == (if req.fullName.Some? then NullString(req.fullName.value, true) else NullStringNone)
    && p.email == (if req.email.Some? then NullString(req.email.value, true) else NullStringNone)
    && p.hashedPassword == (if req.password.Some? then NullString(hashed, true) else NullStringNone)
    && p.passwordChangeAt == (if req.password.Some? then NullTime(now, true) else NullTimeNone)
    && !p.isEmailVerified.valid
  }

  /** The status a failed update is reported with. */
  function StoreErrorStatus(e: Error): (st: Status)
    ensures st.NotFound? <==> e == ErrNoRows
    ensures !st.NotFound? ==> st.Internal?
  {
    if e == ErrNoRows then NotFound else Internal("failed to update user")
  }

  /**
   * UpdateUser. `auth` is what authorizing the caller's token yielded,
   * `hashPassword` the bcrypt hash (which may fail), `now` the clock and
   * `fault` an injected failure of the UPDATE statement.
   */
  method UpdateUser(
    store: SQLStore, req: UpdateUserRequest, auth: Result<Payload, string>, parseAddress: string -> bool,
    hashPassword: string -> Result<string, string>, now: int, fault: Option<Error>)
    returns (rsp: Result<User, Status>)
    modifies store`tables, store`trace
    // each guard, in order, answers without touching the store
    ensures auth.Failure? ==> rsp == Failure(Unauthenticated(auth.error))
    ensures auth.Success? && !RequestValid(req, parseAddress) ==>
      rsp == Failure(InvalidArgument(Violations(FieldErrors(req, parseAddress), CheckOrder)))
    ensures auth.Success? && RequestValid(req, parseAddress) && auth.value.username != req.username ==>
      rsp == Failure(PermissionDenied)
    ensures (&& auth.Success? && RequestValid(req, parseAddress) && auth.value.username == req.username
             && req.password.Some? && hashPassword(req.password.value).Failure?) ==>
      rsp.Failure? && rsp.error.Internal? && store.tables == old(store.tables) && store.trace == old(store.trace)
    ensures rsp.Failure? && !rsp.error.NotFound? && !rsp.error.Internal? ==>
      store.tables == old(store.tables) && store.trace == old(store.trace)
    // past the guards: one UPDATE with the arguments built from the request
    ensures (&& auth.Success? && RequestValid(req, parseAddress) && auth.value.username == req.username
             && (req.password.Some? ==> hashPassword(req.password.value).Success?)) ==>
      var hashed := if req.password.Some? then hashPassword(req.password.value).value else "";
      && |store.trace| == |old(store.trace)| + 1
      && store.trace[..|old(store.trace)|] == old(store.trace)
      && store.trace[|old(store.trace)|].OpUpdateUser?
      && var p := store.trace[|old(store.trace)|].updateUser;
      && ParamsFor(p, req, hashed, now)
      && var o := Db.UpdateUser(old(store.tables), store.seqs, p, fault);
      && store.tables == o.tables
      && rsp == (if o.err.None? then Success(o.row) else Failure(StoreErrorStatus(o.err.value)))
  {
    if auth.Failure? {
      return Failure(Unauthenticated(auth.error));
    }
    var authPayload := auth.value;

    var violations := ValidateUpdateUserRequest(req, parseAddress);
    if violations != [] {
      return Failure(InvalidArgument(violations));
    }

    if authPayload.username != req.username {
      return Failure(PermissionDenied);
    }

    var arg := UpdateUserParams(
      req.username, NullStringNone, NullTimeNone,
      NullString(if req.fullName.Some? then req.fullName.value else "", req.fullName.Some?),
      NullString(if req.email.Some? then req.email.value else "", req.email.Some?),
      NullBoolNone);

    if req.password.Some? {
      var hashed := hashPassword(req.password.value);
      if hashed.Failure? {
        return Failure(Internal("failed to hash password: " + hashed.error));
      }
      arg := arg.(hashedPassword := NullString(hashed.value, true));
      arg := arg.(passwordChangeAt := NullTime(now, true));
    }

    var user, err := store.UpdateUser(arg, fault);
    if err.Some? {
      return Failure(StoreErrorStatus(err.value));
    }
    return Success(user);
  }

  /**
   * What the update does to the stored user: the fields the request
   * carries take the request's values (the password as its hash, with the
   * change time), and the username and the verified flag never change.
   */
  lemma RequestChangesOnlyPresentFields(u: User, p: UpdateUserParams, req: UpdateUserRequest, hashed: string, now: int)
    requires ParamsFor(p, req, hashed, now)
    ensures var v := ApplyUserUpdate(u, p);
      && v.username == u.username
      && v.isEmailVerified == u.isEmailVerified
      && v.fullName == (if req.fullName.Some? then req.fullName.value else u.fullName)
      && v.email == (if req.email.Some? then req.email.value else u.email)
      && v.hashedPassword == (if req.password.Some? then hashed else u.hashedPassword)
      && v.passwordChangeAt == (if req.password.Some? then now else u.passwordChangeAt)
  {
  }
}
