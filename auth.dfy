/**
 * The account rules of the authentication controller: registration and
 * password change with their validation chains, login by normalised email,
 * and the password-reset token lifecycle.
 *
 * The `users` table is a sequence of rows in table order with the next
 * auto-increment id; `findOne` returns the first row its `where` clause
 * selects. Each operation is first a function from the table before to the
 * table after (or the error it answers with); the class `UserStore` carries
 * out the same steps on its fields. Token generation, JWTs and the clock are
 * inputs: `token` is the random reset token, `now` the current time in ms.
 */
module Auth {
  import opened Outcomes
  import opened Text
  import opened UserModel

  /** The answers other than success; a rejected request changes nothing. */
  datatype AuthError =
    | MissingFields           // 400: a required field is absent or empty
    | UserExists              // 400: the user or email already exists
    | PasswordTooShort        // 400: fewer than 6 characters
    | NegativeBalance         // 400: a negative initial balance
    | InvalidData             // 400: a model validator failed on create
    | InvalidCredentials      // 401: unknown email or wrong password
    | UserNotFound            // 404
    | PasswordMismatch        // 400: new password and confirmation differ
    | WrongCurrentPassword    // 400
    | InvalidToken            // 400: no row holds the token unexpired
    | ServerError             // 500: a model validator failed on update

  /** How long a reset token stays valid: one hour, in milliseconds. */
  const ResetTokenLifetime: int := 3600000

  /** The shortest password the controller accepts. */
  const MinPasswordLength: nat := 6

  /** The `users` table. */
  datatype Table = Table(rows: seq<UserRecord>, nextId: nat)

  /** A text field of the request that is truthy: present and not empty. */
  predicate Given(field: Option<string>)
  {
    field.Some? && field.value != []
  }

  /** An email in normal form: no upper-case letter and no white space at either end. */
  predicate IsNormalEmail(e: string)
  {
    && (forall i :: 0 <= i < |e| ==> !IsUpper(e[i]))
    && (e == [] || (!IsSpace(e[0]) && !IsSpace(e[|e| - 1])))
  }

  /** Email normalisation: lower-cased, then trimmed. */
  function NormalizeEmail(email: string): (r: string)
    ensures IsNormalEmail(r)
  {
    TrimKeepsLower(ToLower(email));
    Trim(ToLower(email))
  }

  lemma TrimKeepsLower(s: string)
    requires forall i :: 0 <= i < |s| ==> !IsUpper(s[i])
    ensures forall i :: 0 <= i < |Trim(s)| ==> !IsUpper(Trim(s)[i])
  {
    var r := Trim(s);
    var i :| TrimmedAt(s, r, i);
    assert forall k :: 0 <= k < |r| ==> r[k] == s[i + k];
  }

  /** An email already in normal form is left as it is, so a stored email finds its own row. */
  lemma NormalEmailFixed(e: string)
    requires IsNormalEmail(e)
    ensures NormalizeEmail(e) == e
  {
    assert ToLower(e) == e;
    TrimFixed(e);
  }

  /** Normalising twice is normalising once. */
  lemma NormalizeEmailIdempotent(email: string)
    ensures NormalizeEmail(NormalizeEmail(email)) == NormalizeEmail(email)
  {
    NormalEmailFixed(NormalizeEmail(email));
  }

  // ---------------------------------------------------------------------------
  // findOne
  // ---------------------------------------------------------------------------

  /** The `where` clauses the controller queries with. */
  datatype Where =
    | EmailOrUsername(email: string, username: string)
    | EmailIs(email: string)
    | IdIs(id: nat)
    | ResetTokenLive(token: string, now: int)   // the token matches and its expiry is after `now`

  predicate Selects(w: Where, u: UserRecord)
  {
    match w
    case EmailOrUsername(email, username) => u.email == email || u.username == username
    case EmailIs(email) => u.email == email
    case IdIs(id) => u.id == id
    case ResetTokenLive(token, now) =>
      u.resetPasswordToken == Some(token) && u.resetPasswordExpires.Some? && u.resetPasswordExpires.value > now
  }

  /** `findOne`: the position of the first row the clause selects. */
  function FindOne(rows: seq<UserRecord>, w: Where): (r: Option<nat>)
    ensures r.Some? ==> r.value < |rows| && Selects(w, rows[r.value])
    ensures r.Some? ==> forall j :: 0 <= j < r.value ==> !Selects(w, rows[j])
    ensures r.None? ==> forall j :: 0 <= j < |rows| ==> !Selects(w, rows[j])
  {
    FindFrom(rows, w, 0)
  }

  /** The scan behind `findOne`, from position `k` on. */
  function FindFrom(rows: seq<UserRecord>, w: Where, k: nat): (r: Option<nat>)
    requires k <= |rows|
    ensures r.Some? ==> k <= r.value < |rows| && Selects(w, rows[r.value])
    ensures r.Some? ==> forall j :: k <= j < r.value ==> !Selects(w, rows[j])
    ensures r.None? ==> forall j :: k <= j < |rows| ==> !Selects(w, rows[j])
    decreases |rows| - k
  {
    if k == |rows| then None
    else if Selects(w, rows[k]) then Some(k)
    else FindFrom(rows, w, k + 1)
  }

  // ---------------------------------------------------------------------------
  // Table invariant
  // ---------------------------------------------------------------------------

  /**
   * What every reachable table satisfies: ids below the next id and distinct,
   * usernames and emails unique (the unique indexes), emails normalised, and
   * the column validators.
   */
  ghost predicate TableValid(t: Table, isEmail: string -> bool)
  {
    && (forall i :: 0 <= i < |t.rows| ==> t.rows[i].id < t.nextId)
    && (forall i, j :: 0 <= i < j < |t.rows| ==>
          t.rows[i].id != t.rows[j].id
          && t.rows[i].username != t.rows[j].username
          && t.rows[i].email != t.rows[j].email)
    && (forall i :: 0 <= i < |t.rows| ==> IsNormalEmail(t.rows[i].email))
    && (forall i :: 0 <= i < |t.rows| ==> StoredValid(t.rows[i], isEmail))
  }

  /** A table whose rows change only in password, reset token, expiry or last login stays valid. */
  lemma SameIdentityValid(t: Table, t': Table, isEmail: string -> bool)
    requires TableValid(t, isEmail) && t'.nextId == t.nextId && |t'.rows| == |t.rows|
    requires forall i :: 0 <= i < |t.rows| ==>
               t'.rows[i].(password := "", lastLoginAt := None, resetPasswordToken := None, resetPasswordExpires := None)
               == t.rows[i].(password := "", lastLoginAt := None, resetPasswordToken := None, resetPasswordExpires := None)
    ensures TableValid(t', isEmail)
  {
    forall i | 0 <= i < |t.rows|
      ensures t'.rows[i].id == t.rows[i].id && t'.rows[i].username == t.rows[i].username
      ensures t'.rows[i].email == t.rows[i].email && StoredValid(t'.rows[i], isEmail)
    {
      var a := t'.rows[i].(password := "", lastLoginAt := None, resetPasswordToken := None, resetPasswordExpires := None);
      assert a.id == t'.rows[i].id && a.username == t'.rows[i].username && a.email == t'.rows[i].email;
      assert a.firstName == t'.rows[i].firstName && a.lastName == t'.rows[i].lastName;
      assert a.cashBalance == t'.rows[i].cashBalance;
    }
  }

  // ---------------------------------------------------------------------------
  // register
  // ---------------------------------------------------------------------------

  /**
   * The body of a registration request. `cashBalance` is the result of
   * `parseFloat`, `None` when that is `NaN`.
   */
  datatype RegisterForm = RegisterForm(
    username: Option<string>,
    email: Option<string>,
    password: Option<string>,
    firstName: Option<string>,
    lastName: Option<string>,
    cashBalance: Option<real>)

  /** `parseFloat(cashBalance) || 0`. */
  function InitialCash(cashBalance: Option<real>): real
  {
    if cashBalance.Some? then cashBalance.value else 0.0
  }

  function TrimName(name: Option<string>): Option<string>
  {
    if name.Some? then Some(Trim(name.value)) else None
  }

  /** The row `User.create` is asked to insert, before validation and hooks. */
  function Candidate(t: Table, form: RegisterForm): UserRecord
    requires Given(form.username) && Given(form.email) && Given(form.password)
  {
    UserRecord(t.nextId, Trim(form.username.value), NormalizeEmail(form.email.value), form.password.value,
               TrimName(form.firstName), TrimName(form.lastName), InitialCash(form.cashBalance), None, None, None)
  }

  /**
   * `register`: required fields, then the existing-user check on the values
   * as given, the password length, the initial balance, the model
   * validators, the unique indexes on the stored values; then the row is
   * inserted with its password hashed and its last login set to `now`.
   */
  function SignUp(t: Table, form: RegisterForm, hash: string -> string, isEmail: string -> bool, now: int)
    : (r: Result<(Table, UserRecord), AuthError>)
    ensures !Given(form.username) || !Given(form.email) || !Given(form.password) ==> r == Err(MissingFields)
    ensures Given(form.username) && Given(form.email) && Given(form.password) ==>
              && (FindOne(t.rows, EmailOrUsername(form.email.value, form.username.value)).Some? ==> r == Err(UserExists))
              && (FindOne(t.rows, EmailOrUsername(form.email.value, form.username.value)).None? ==>
                    && (|form.password.value| < MinPasswordLength ==> r == Err(PasswordTooShort))
                    && (|form.password.value| >= MinPasswordLength && InitialCash(form.cashBalance) < 0.0 ==> r == Err(NegativeBalance))
                    && (|form.password.value| >= MinPasswordLength && InitialCash(form.cashBalance) >= 0.0 ==>
                          && (!FieldsValid(Candidate(t, form), isEmail) ==> r == Err(InvalidData))
                          && (FieldsValid(Candidate(t, form), isEmail)
                              && FindOne(t.rows, EmailOrUsername(Candidate(t, form).email, Candidate(t, form).username)).Some?
                              ==> r == Err(UserExists))))
    ensures r.Ok? ==> FindOne(t.rows, EmailOrUsername(form.email.value, form.username.value)).None?
    ensures r.Ok? ==> |form.password.value| >= MinPasswordLength && PasswordValid(form.password.value)
    ensures r.Ok? ==> InitialCash(form.cashBalance) >= 0.0
    ensures r.Ok? ==> r.value.0 == Table(t.rows + [r.value.1], t.nextId + 1)
    ensures r.Ok? ==> var user := r.value.1;
              && user.id == t.nextId
              && user.username == Trim(form.username.value)
              && user.email == NormalizeEmail(form.email.value)
              && ComparePassword(hash, user.password, form.password.value)
              && user.cashBalance == InitialCash(form.cashBalance)
              && user.lastLoginAt == Some(now) && user.resetPasswordToken.None?
  {
    if !Given(form.username) || !Given(form.email) || !Given(form.password) then Err(MissingFields)
    else if FindOne(t.rows, EmailOrUsername(form.email.value, form.username.value)).Some? then Err(UserExists)
    else if |form.password.value| < MinPasswordLength then Err(PasswordTooShort)
    else if InitialCash(form.cashBalance) < 0.0 then Err(NegativeBalance)
    else
      var candidate := Candidate(t, form);
      if !FieldsValid(candidate, isEmail) then Err(InvalidData)
      else if FindOne(t.rows, EmailOrUsername(candidate.email, candidate.username)).Some? then Err(UserExists)
      else
        var user := candidate.(password := HashOnCreate(hash, candidate.password), lastLoginAt := Some(now));
        Ok((Table(t.rows + [user], t.nextId + 1), user))
  }

  /** The row a registration that passes every check inserts. */
  function Inserted(t: Table, form: RegisterForm, hash: string -> string, now: int): UserRecord
    requires Given(form.username) && Given(form.email) && Given(form.password)
  {
    var candidate := Candidate(t, form);
    candidate.(password := HashOnCreate(hash, candidate.password), lastLoginAt := Some(now))
  }

  /** A registration that passes every check inserts `Inserted(...)`. */
  lemma SignUpAccepts(t: Table, form: RegisterForm, hash: string -> string, isEmail: string -> bool, now: int)
    requires Given(form.username) && Given(form.email) && Given(form.password)
    requires FindOne(t.rows, EmailOrUsername(form.email.value, form.username.value)).None?
    requires |form.password.value| >= MinPasswordLength && InitialCash(form.cashBalance) >= 0.0
    requires FieldsValid(Candidate(t, form), isEmail)
    requires FindOne(t.rows, EmailOrUsername(Candidate(t, form).email, Candidate(t, form).username)).None?
    ensures var user := Inserted(t, form, hash, now);
            SignUp(t, form, hash, isEmail, now) == Ok((Table(t.rows + [user], t.nextId + 1), user))
  {
  }

  /**
   * A positive balance below 1e-6 passes the controller's own check but is
   * printed in exponent form, so the `isDecimal` validator refuses it and the
   * registration is answered as invalid data.
   */
  lemma SignUpRejectsExponentBalance(t: Table, form: RegisterForm, hash: string -> string, isEmail: string -> bool, now: int)
    requires Given(form.username) && Given(form.email) && Given(form.password)
    requires FindOne(t.rows, EmailOrUsername(form.email.value, form.username.value)).None?
    requires |form.password.value| >= MinPasswordLength
    requires form.cashBalance == Some(0.0000001)
    ensures SignUp(t, form, hash, isEmail, now) == Err(InvalidData)
  {
    assert !CashBalanceValid(Candidate(t, form).cashBalance);
  }

  /** Appending a row with a fresh id, a fresh username and a fresh normalised email keeps the table invariant. */
  lemma AppendKeepsValid(t: Table, user: UserRecord, isEmail: string -> bool)
    requires TableValid(t, isEmail)
    requires user.id == t.nextId && StoredValid(user, isEmail) && IsNormalEmail(user.email)
    requires forall i :: 0 <= i < |t.rows| ==> t.rows[i].username != user.username && t.rows[i].email != user.email
    ensures TableValid(Table(t.rows + [user], t.nextId + 1), isEmail)
  {
    var rows := t.rows + [user];
    forall i | 0 <= i < |rows|
      ensures rows[i].id < t.nextId + 1
      ensures IsNormalEmail(rows[i].email)
      ensures StoredValid(rows[i], isEmail)
    {
      if i < |t.rows| {
        assert rows[i] == t.rows[i];
      } else {
        assert rows[i] == user;
      }
    }
    forall i, j | 0 <= i < j < |rows|
      ensures rows[i].id != rows[j].id && rows[i].username != rows[j].username && rows[i].email != rows[j].email
    {
      assert rows[i] == t.rows[i];
      if j < |t.rows| {
        assert rows[j] == t.rows[j];
      }
    }
  }

  /** A registration succeeds only when every check passes. */
  lemma SignUpOutcome(t: Table, form: RegisterForm, hash: string -> string, isEmail: string -> bool, now: int)
    requires SignUp(t, form, hash, isEmail, now).Ok?
    ensures Given(form.username) && Given(form.email) && Given(form.password)
    ensures FindOne(t.rows, EmailOrUsername(form.email.value, form.username.value)).None?
    ensures |form.password.value| >= MinPasswordLength && InitialCash(form.cashBalance) >= 0.0
    ensures FieldsValid(Candidate(t, form), isEmail)
    ensures FindOne(t.rows, EmailOrUsername(Candidate(t, form).email, Candidate(t, form).username)).None?
  {
  }

  /** The row a registration inserts keeps the table invariant. */
  lemma InsertedKeepsValid(t: Table, form: RegisterForm, hash: string -> string, isEmail: string -> bool, now: int)
    requires TableValid(t, isEmail)
    requires Given(form.username) && Given(form.email) && Given(form.password)
    requires FieldsValid(Candidate(t, form), isEmail)
    requires FindOne(t.rows, EmailOrUsername(Candidate(t, form).email, Candidate(t, form).username)).None?
    ensures TableValid(Table(t.rows + [Inserted(t, form, hash, now)], t.nextId + 1), isEmail)
  {
    var candidate := Candidate(t, form);
    var user := Inserted(t, form, hash, now);
    assert user.id == candidate.id && user.username == candidate.username && user.email == candidate.email;
    assert user.firstName == candidate.firstName && user.lastName == candidate.lastName;
    assert user.cashBalance == candidate.cashBalance;
    forall i | 0 <= i < |t.rows|
      ensures t.rows[i].username != user.username && t.rows[i].email != user.email
    {
      assert !Selects(EmailOrUsername(candidate.email, candidate.username), t.rows[i]);
    }
    AppendKeepsValid(t, user, isEmail);
  }

  /** A registration keeps the table invariant: the unique indexes hold for the inserted row. */
  lemma SignUpKeepsValid(t: Table, form: RegisterForm, hash: string -> string, isEmail: string -> bool, now: int)
    requires TableValid(t, isEmail)
    requires SignUp(t, form, hash, isEmail, now).Ok?
    ensures TableValid(SignUp(t, form, hash, isEmail, now).value.0, isEmail)
  {
    SignUpOutcome(t, form, hash, isEmail, now);
    SignUpAccepts(t, form, hash, isEmail, now);
    InsertedKeepsValid(t, form, hash, isEmail, now);
  }

  // ---------------------------------------------------------------------------
  // login
  // ---------------------------------------------------------------------------

  /** `login`: the row with the normalised email, if the password compares; its last login becomes `now`. */
  function SignIn(t: Table, email: Option<string>, password: Option<string>, hash: string -> string, now: int)
    : (r: Result<(Table, UserRecord), AuthError>)
    ensures !Given(email) || !Given(password) ==> r == Err(MissingFields)
    ensures r.Ok? ==> exists i :: 0 <= i < |t.rows| && r.value.1 == t.rows[i].(lastLoginAt := Some(now))
                                   && r.value.0 == t.(rows := t.rows[i := r.value.1])
    ensures r.Ok? ==> r.value.1.email == NormalizeEmail(email.value)
                      && ComparePassword(hash, r.value.1.password, password.value)
    ensures r.Err? && Given(email) && Given(password) ==> r.error == InvalidCredentials
  {
    if !Given(email) || !Given(password) then Err(MissingFields)
    else match FindOne(t.rows, EmailIs(NormalizeEmail(email.value)))
      case None => Err(InvalidCredentials)
      case Some(i) =>
        var user := t.rows[i];
        if !ComparePassword(hash, user.password, password.value) then Err(InvalidCredentials)
        else
          var user' := user.(lastLoginAt := Some(now));
          Ok((t.(rows := t.rows[i := user']), user'))
  }

  /** A successful registration is followed by a successful login with the same email and password. */
  lemma SignUpThenSignIn(t: Table, form: RegisterForm, hash: string -> string, isEmail: string -> bool, now: int, later: int)
    requires TableValid(t, isEmail)
    requires SignUp(t, form, hash, isEmail, now).Ok?
    ensures var (t', user) := SignUp(t, form, hash, isEmail, now).value;
            var r := SignIn(t', form.email, form.password, hash, later);
            r.Ok? && r.value.1 == user.(lastLoginAt := Some(later))
  {
    var (t', user) := SignUp(t, form, hash, isEmail, now).value;
    SignUpKeepsValid(t, form, hash, isEmail, now);
    var n := |t.rows|;
    assert t'.rows[n] == user;
    forall j | 0 <= j < n
      ensures t'.rows[j].email != user.email
    {
    }
    FindsFirstEmail(t'.rows, n, user.email);
  }

  /** The first row with a given email is found by it. */
  lemma FindsFirstEmail(rows: seq<UserRecord>, i: nat, e: string)
    requires i < |rows| && rows[i].email == e
    requires forall j :: 0 <= j < i ==> rows[j].email != e
    ensures FindOne(rows, EmailIs(e)) == Some(i)
  {
  }

  /** A stored email, normalised again, still finds its row. */
  lemma FindsStoredEmail(rows: seq<UserRecord>, i: nat)
    requires i < |rows| && IsNormalEmail(rows[i].email)
    requires forall j :: 0 <= j < i ==> rows[j].email != rows[i].email
    ensures FindOne(rows, EmailIs(NormalizeEmail(rows[i].email))) == Some(i)
  {
    FindsFirstEmail(rows, i, rows[i].email);
    NormalEmailFixed(rows[i].email);
  }

  /** Any stored row can log in with its own stored email and a password that compares. */
  lemma StoredEmailSignsIn(t: Table, isEmail: string -> bool, i: nat, password: string, hash: string -> string, now: int)
    requires TableValid(t, isEmail) && i < |t.rows|
    requires password != [] && ComparePassword(hash, t.rows[i].password, password)
    ensures var r := SignIn(t, Some(t.rows[i].email), Some(password), hash, now);
            r.Ok? && r.value.1.id == t.rows[i].id
  {
    var u := t.rows[i];
    assert NotEmpty(u.email);
    forall j | 0 <= j < i
      ensures t.rows[j].email != u.email
    {
    }
    FindsStoredEmail(t.rows, i);
  }

  // ---------------------------------------------------------------------------
  // changePassword
  // ---------------------------------------------------------------------------

  /**
   * `changePassword` for the signed-in user `userId`: fields, confirmation,
   * length, the user, the currentPassword password; then the update, which runs the
   * password validators and the hashing hook only when the value changed.
   */
  function PasswordChange(t: Table, userId: nat, currentPassword: Option<string>, newPassword: Option<string>, confirmPassword: Option<string>,
                          hash: string -> string)
    : (r: Result<Table, AuthError>)
    ensures !Given(currentPassword) || !Given(newPassword) || !Given(confirmPassword) ==> r == Err(MissingFields)
    ensures Given(currentPassword) && Given(newPassword) && Given(confirmPassword) && newPassword != confirmPassword ==> r == Err(PasswordMismatch)
    ensures r.Ok? ==> |newPassword.value| >= MinPasswordLength
    ensures r.Ok? ==> exists i, p :: 0 <= i < |t.rows| && t.rows[i].id == userId
                                     && ComparePassword(hash, t.rows[i].password, currentPassword.value)
                                     && r.value == t.(rows := t.rows[i := t.rows[i].(password := p)])
                                     && (newPassword.value != t.rows[i].password ==> ComparePassword(hash, p, newPassword.value))
    ensures r.Err? && r.error == ServerError ==> !PasswordValid(newPassword.value)
    ensures Given(currentPassword) && Given(newPassword) && newPassword == confirmPassword ==>
              && (|newPassword.value| < MinPasswordLength ==> r == Err(PasswordTooShort))
              && (|newPassword.value| >= MinPasswordLength ==>
                    match FindOne(t.rows, IdIs(userId))
                    case None => r == Err(UserNotFound)
                    case Some(i) =>
                      var stored := t.rows[i].password;
                      && (!ComparePassword(hash, stored, currentPassword.value) ==> r == Err(WrongCurrentPassword))
                      && (ComparePassword(hash, stored, currentPassword.value) ==>
                            if newPassword.value != stored && !PasswordValid(newPassword.value) then r == Err(ServerError)
                            else r == Ok(t.(rows := t.rows[i := t.rows[i].(password := HashOnUpdate(hash, stored, newPassword.value))]))))
  {
    if !Given(currentPassword) || !Given(newPassword) || !Given(confirmPassword) then Err(MissingFields)
    else if newPassword != confirmPassword then Err(PasswordMismatch)
    else if |newPassword.value| < MinPasswordLength then Err(PasswordTooShort)
    else match FindOne(t.rows, IdIs(userId))
      case None => Err(UserNotFound)
      case Some(i) =>
        var user := t.rows[i];
        if !ComparePassword(hash, user.password, currentPassword.value) then Err(WrongCurrentPassword)
        else if newPassword.value != user.password && !PasswordValid(newPassword.value) then Err(ServerError)
        else
          var p := HashOnUpdate(hash, user.password, newPassword.value);
          assert ComparePassword(hash, p, newPassword.value) || newPassword.value == user.password;
          Ok(t.(rows := t.rows[i := t.rows[i].(password := p)]))
  }

  // ---------------------------------------------------------------------------
  // Password reset
  // ---------------------------------------------------------------------------

  /** `requestPasswordReset`: an unknown email changes nothing; a known one gets the token, valid for an hour. */
  function ResetRequest(t: Table, email: Option<string>, token: string, now: int): (r: Result<Table, AuthError>)
    ensures !Given(email) <==> r == Err(MissingFields)
    ensures Given(email) ==> r.Ok?
    ensures r.Ok? ==> match FindOne(t.rows, EmailIs(NormalizeEmail(email.value)))
                      case None => r.value == t
                      case Some(i) =>
                        r.value == t.(rows := t.rows[i := t.rows[i].(resetPasswordToken := Some(token),
                                                                      resetPasswordExpires := Some(now + ResetTokenLifetime))])
  {
    if !Given(email) then Err(MissingFields)
    else match FindOne(t.rows, EmailIs(NormalizeEmail(email.value)))
      case None => Ok(t)
      case Some(i) =>
        Ok(t.(rows := t.rows[i := t.rows[i].(resetPasswordToken := Some(token),
                                               resetPasswordExpires := Some(now + ResetTokenLifetime))]))
  }

  /** `verifyResetToken`: the email of the first row holding the token unexpired. */
  function TokenCheck(t: Table, token: string, now: int): (r: Result<string, AuthError>)
    ensures r.Ok? <==> exists i :: 0 <= i < |t.rows| && Selects(ResetTokenLive(token, now), t.rows[i])
    ensures r.Ok? ==> exists i :: 0 <= i < |t.rows| && Selects(ResetTokenLive(token, now), t.rows[i]) && r.value == t.rows[i].email
    ensures r.Err? ==> r.error == InvalidToken
  {
    match FindOne(t.rows, ResetTokenLive(token, now))
    case None => Err(InvalidToken)
    case Some(i) => Ok(t.rows[i].email)
  }

  /**
   * `resetPassword`: fields, confirmation, length, a row holding the token
   * unexpired; then the newPassword password (validated and hashed when it changed)
   * and the token and its expiry cleared.
   */
  function PasswordReset(t: Table, token: Option<string>, newPassword: Option<string>, confirmPassword: Option<string>,
                         hash: string -> string, now: int)
    : (r: Result<Table, AuthError>)
    ensures !Given(token) || !Given(newPassword) || !Given(confirmPassword) ==> r == Err(MissingFields)
    ensures r.Ok? ==> exists i, p :: 0 <= i < |t.rows| && Selects(ResetTokenLive(token.value, now), t.rows[i])
                                     && r.value == t.(rows := t.rows[i := t.rows[i].(password := p,
                                                                                     resetPasswordToken := None,
                                                                                     resetPasswordExpires := None)])
                                     && (newPassword.value != t.rows[i].password ==> ComparePassword(hash, p, newPassword.value))
    ensures (&& Given(token) && Given(newPassword) && newPassword == confirmPassword
             && |newPassword.value| >= MinPasswordLength
             && FindOne(t.rows, ResetTokenLive(token.value, now)).None?) ==> r == Err(InvalidToken)
    ensures Given(token) && Given(newPassword) && Given(confirmPassword) && newPassword != confirmPassword ==> r == Err(PasswordMismatch)
    ensures Given(token) && Given(newPassword) && newPassword == confirmPassword ==>
              && (|newPassword.value| < MinPasswordLength ==> r == Err(PasswordTooShort))
              && (|newPassword.value| >= MinPasswordLength && FindOne(t.rows, ResetTokenLive(token.value, now)).Some? ==>
                    var i := FindOne(t.rows, ResetTokenLive(token.value, now)).value;
                    var stored := t.rows[i].password;
                    if newPassword.value != stored && !PasswordValid(newPassword.value) then r == Err(ServerError)
                    else r == Ok(t.(rows := t.rows[i := t.rows[i].(password := HashOnUpdate(hash, stored, newPassword.value),
                                                                   resetPasswordToken := None,
                                                                   resetPasswordExpires := None)])))
  {
    if !Given(token) || !Given(newPassword) || !Given(confirmPassword) then Err(MissingFields)
    else if newPassword != confirmPassword then Err(PasswordMismatch)
    else if |newPassword.value| < MinPasswordLength then Err(PasswordTooShort)
    else match FindOne(t.rows, ResetTokenLive(token.value, now))
      case None => Err(InvalidToken)
      case Some(i) =>
        var user := t.rows[i];
        if newPassword.value != user.password && !PasswordValid(newPassword.value) then Err(ServerError)
        else
          var p := HashOnUpdate(hash, user.password, newPassword.value);
          assert ComparePassword(hash, p, newPassword.value) || newPassword.value == user.password;
          Ok(t.(rows := t.rows[i := t.rows[i].(password := p, resetPasswordToken := None, resetPasswordExpires := None)]))
  }

  /** No row holds the token. */
  predicate TokenUnused(t: Table, token: string)
  {
    forall i :: 0 <= i < |t.rows| ==> t.rows[i].resetPasswordToken != Some(token)
  }

  /** At most one row holds the token. */
  predicate TokenHeldOnce(t: Table, token: string)
  {
    forall i, j ::
      (0 <= i < |t.rows| && 0 <= j < |t.rows|
       && t.rows[i].resetPasswordToken == Some(token) && t.rows[j].resetPasswordToken == Some(token)) ==> i == j
  }

  /**
   * A fresh token issued at `issued` to a known email lets the password be
   * reset at any time before `issued + ResetTokenLifetime`, and at no time after.
   */
  lemma ResetWithinLifetime(t: Table, email: string, token: string, issued: int, at: int, newPassword: string, hash: string -> string)
    requires email != [] && TokenUnused(t, token) && token != []
    requires FindOne(t.rows, EmailIs(NormalizeEmail(email))).Some?
    requires |newPassword| >= MinPasswordLength && PasswordValid(newPassword)
    ensures var t' := ResetRequest(t, Some(email), token, issued).value;
            var r := PasswordReset(t', Some(token), Some(newPassword), Some(newPassword), hash, at);
            (at < issued + ResetTokenLifetime ==> r.Ok?) && (at >= issued + ResetTokenLifetime ==> r == Err(InvalidToken))
  {
    var i := FindOne(t.rows, EmailIs(NormalizeEmail(email))).value;
    var t' := ResetRequest(t, Some(email), token, issued).value;
    assert Selects(ResetTokenLive(token, at), t'.rows[i]) <==> at < issued + ResetTokenLifetime;
    forall j | 0 <= j < |t'.rows| && j != i
      ensures !Selects(ResetTokenLive(token, at), t'.rows[j])
    {
      assert t'.rows[j] == t.rows[j];
    }
    if at < issued + ResetTokenLifetime {
      var found := FindOne(t'.rows, ResetTokenLive(token, at));
      assert found.Some?;
    }
  }

  /** After a reset, the token it used is accepted neither for verification nor for another reset. */
  lemma ResetTokenSingleUse(t: Table, token: string, newPassword: string, confirmPassword: string, hash: string -> string,
                            now: int, later: int, again: Option<string>)
    requires TokenHeldOnce(t, token)
    requires PasswordReset(t, Some(token), Some(newPassword), Some(confirmPassword), hash, now).Ok?
    ensures var t' := PasswordReset(t, Some(token), Some(newPassword), Some(confirmPassword), hash, now).value;
            TokenUnused(t', token)
            && TokenCheck(t', token, later) == Err(InvalidToken)
            && (Given(again) && |again.value| >= MinPasswordLength ==>
                  PasswordReset(t', Some(token), again, again, hash, later) == Err(InvalidToken))
  {
    var t' := PasswordReset(t, Some(token), Some(newPassword), Some(confirmPassword), hash, now).value;
    var i, p :| 0 <= i < |t.rows| && Selects(ResetTokenLive(token, now), t.rows[i])
                && t' == t.(rows := t.rows[i := t.rows[i].(password := p, resetPasswordToken := None, resetPasswordExpires := None)]);
    forall j | 0 <= j < |t'.rows|
      ensures t'.rows[j].resetPasswordToken != Some(token)
    {
      if j != i {
        assert t'.rows[j] == t.rows[j];
      }
    }
  }

  /** Replacing the last element of an extended sequence. */
  lemma ReplaceLast<T>(s: seq<T>, x: T, y: T)
    ensures (s + [x])[|s| := y] == s + [y]
  {
  }

  // ---------------------------------------------------------------------------
  // The controller's state
  // ---------------------------------------------------------------------------

  /** The `users` table as the controller sees it, with the hashing library and the email syntax check. */
  class UserStore {
    var rows: seq<UserRecord>
    var nextId: nat
    const hash: string -> string
    const isEmail: string -> bool

    function State(): Table
      reads this
    {
      Table(rows, nextId)
    }

    ghost predicate Valid()
      reads this
    {
      TableValid(State(), isEmail)
    }

    constructor(hash: string -> string, isEmail: string -> bool)
      ensures Valid() && rows == [] && nextId == 0
      ensures this.hash == hash && this.isEmail == isEmail
    {
      rows := [];
      nextId := 0;
      this.hash := hash;
      this.isEmail := isEmail;
    }

    /** `register`; on success returns the created user. */
    method Register(form: RegisterForm, now: int) returns (r: Result<UserRecord, AuthError>)
      requires Valid()
      modifies this
      ensures Valid()
      ensures match SignUp(old(State()), form, hash, isEmail, now)
              case Ok(created) => State() == created.0 && r == Ok(created.1)
              case Err(e) => State() == old(State()) && r == Err(e)
    {
      ghost var before := State();
      if !Given(form.username) || !Given(form.email) || !Given(form.password) {
        return Err(MissingFields);
      }
      var username := form.username.value;
      var email := form.email.value;
      var password := form.password.value;
      if FindOne(rows, EmailOrUsername(email, username)).Some? {
        return Err(UserExists);
      }
      if |password| < MinPasswordLength {
        return Err(PasswordTooShort);
      }
      var initialCashBalance := if form.cashBalance.Some? then form.cashBalance.value else 0.0;
      if initialCashBalance < 0.0 {
        return Err(NegativeBalance);
      }
      var existing := rows;
      var newUser := UserRecord(nextId, Trim(username), NormalizeEmail(email), password,
                                TrimName(form.firstName), TrimName(form.lastName), initialCashBalance, None, None, None);
      assert newUser == Candidate(before, form);
      if !FieldsValid(newUser, isEmail) {
        return Err(InvalidData);
      }
      if FindOne(rows, EmailOrUsername(newUser.email, newUser.username)).Some? {
        return Err(UserExists);
      }
      newUser := newUser.(password := HashOnCreate(hash, newUser.password));
      ghost var created := newUser;
      SignUpAccepts(before, form, hash, isEmail, now);
      SignUpKeepsValid(before, form, hash, isEmail, now);
      rows := rows + [newUser];
      nextId := nextId + 1;
      newUser := newUser.(lastLoginAt := Some(now));
      rows := rows[|rows| - 1 := newUser];
      ReplaceLast(existing, created, newUser);
      assert newUser == Inserted(before, form, hash, now);
      assert rows == before.rows + [newUser] && nextId == before.nextId + 1;
      assert State() == SignUp(before, form, hash, isEmail, now).value.0;
      r := Ok(newUser);
    }

    /** `login`; on success returns the signed-in user. */
    method Login(email: Option<string>, password: Option<string>, now: int) returns (r: Result<UserRecord, AuthError>)
      requires Valid()
      modifies this
      ensures Valid()
      ensures match SignIn(old(State()), email, password, hash, now)
              case Ok(signedIn) => State() == signedIn.0 && r == Ok(signedIn.1)
              case Err(e) => State() == old(State()) && r == Err(e)
    {
      if !Given(email) || !Given(password) {
        return Err(MissingFields);
      }
      var found := FindOne(rows, EmailIs(NormalizeEmail(email.value)));
      if found.None? {
        return Err(InvalidCredentials);
      }
      var i := found.value;
      if !ComparePassword(hash, rows[i].password, password.value) {
        return Err(InvalidCredentials);
      }
      ghost var before := State();
      var user := rows[i].(lastLoginAt := Some(now));
      rows := rows[i := user];
      SameIdentityValid(before, State(), isEmail);
      r := Ok(user);
    }

    /** `changePassword` for the signed-in user `userId`. */
    method ChangePassword(userId: nat, currentPassword: Option<string>, newPassword: Option<string>, confirmPassword: Option<string>)
      returns (r: Result<(), AuthError>)
      requires Valid()
      modifies this
      ensures Valid()
      ensures match PasswordChange(old(State()), userId, currentPassword, newPassword, confirmPassword, hash)
              case Ok(t) => State() == t && r == Ok(())
              case Err(e) => State() == old(State()) && r == Err(e)
    {
      if !Given(currentPassword) || !Given(newPassword) || !Given(confirmPassword) {
        return Err(MissingFields);
      }
      if newPassword != confirmPassword {
        return Err(PasswordMismatch);
      }
      if |newPassword.value| < MinPasswordLength {
        return Err(PasswordTooShort);
      }
      var found := FindOne(rows, IdIs(userId));
      if found.None? {
        return Err(UserNotFound);
      }
      var i := found.value;
      if !ComparePassword(hash, rows[i].password, currentPassword.value) {
        return Err(WrongCurrentPassword);
      }
      if newPassword.value != rows[i].password && !PasswordValid(newPassword.value) {
        return Err(ServerError);
      }
      ghost var before := State();
      rows := rows[i := rows[i].(password := HashOnUpdate(hash, rows[i].password, newPassword.value))];
      SameIdentityValid(before, State(), isEmail);
      r := Ok(());
    }

    /** `requestPasswordReset` with the freshly drawn `token`. */
    method RequestPasswordReset(email: Option<string>, token: string, now: int) returns (r: Result<(), AuthError>)
      requires Valid()
      modifies this
      ensures Valid()
      ensures match ResetRequest(old(State()), email, token, now)
              case Ok(t) => State() == t && r == Ok(())
              case Err(e) => State() == old(State()) && r == Err(e)
    {
      if !Given(email) {
        return Err(MissingFields);
      }
      var found := FindOne(rows, EmailIs(NormalizeEmail(email.value)));
      if found.None? {
        return Ok(());
      }
      var i := found.value;
      var resetTokenExpiry := now + ResetTokenLifetime;
      ghost var before := State();
      rows := rows[i := rows[i].(resetPasswordToken := Some(token), resetPasswordExpires := Some(resetTokenExpiry))];
      SameIdentityValid(before, State(), isEmail);
      r := Ok(());
    }

    /** `verifyResetToken`: reads the table only. */
    method VerifyResetToken(token: string, now: int) returns (r: Result<string, AuthError>)
      ensures r == TokenCheck(State(), token, now)
    {
      var found := FindOne(rows, ResetTokenLive(token, now));
      if found.None? {
        return Err(InvalidToken);
      }
      r := Ok(rows[found.value].email);
    }

    /** `resetPassword`. */
    method ResetPassword(token: Option<string>, newPassword: Option<string>, confirmPassword: Option<string>, now: int)
      returns (r: Result<(), AuthError>)
      requires Valid()
      modifies this
      ensures Valid()
      ensures match PasswordReset(old(State()), token, newPassword, confirmPassword, hash, now)
              case Ok(t) => State() == t && r == Ok(())
              case Err(e) => State() == old(State()) && r == Err(e)
    {
      if !Given(token) || !Given(newPassword) || !Given(confirmPassword) {
        return Err(MissingFields);
      }
      if newPassword != confirmPassword {
        return Err(PasswordMismatch);
      }
      if |newPassword.value| < MinPasswordLength {
        return Err(PasswordTooShort);
      }
      var found := FindOne(rows, ResetTokenLive(token.value, now));
      if found.None? {
        return Err(InvalidToken);
      }
      var i := found.value;
      if newPassword.value != rows[i].password && !PasswordValid(newPassword.value) {
        return Err(ServerError);
      }
      ghost var before := State();
      rows := rows[i := rows[i].(password := HashOnUpdate(hash, rows[i].password, newPassword.value),
                                 resetPasswordToken := None, resetPasswordExpires := None)];
      SameIdentityValid(before, State(), isEmail);
      r := Ok(());
    }
  }
}
