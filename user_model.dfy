/**
 * The `User` model: the columns of the `users` table, the validators that
 * guard them, the password-hashing hooks, password comparison and the
 * serialisation filter.
 *
 * Password hashing is an uninterpreted function `hash` supplied by the
 * caller; `comparePassword` holds when the candidate hashes to the stored
 * value. Email syntax is likewise an uninterpreted predicate `isEmail`.
 * Dates are integers (milliseconds).
 */
module UserModel {
  import opened Outcomes
  import opened Text

  /** A row of the `users` table; `password` holds the stored (hashed) value. */
  datatype UserRecord = UserRecord(
    id: nat,
    username: string,
    email: string,
    password: string,
    firstName: Option<string>,
    lastName: Option<string>,
    cashBalance: real,
    lastLoginAt: Option<int>,
    resetPasswordToken: Option<string>,
    resetPasswordExpires: Option<int>)

  /** The default of the `cashBalance` column. */
  const DefaultCashBalance: real := 0.0

  // ---------------------------------------------------------------------------
  // Validators
  // ---------------------------------------------------------------------------

  /** The `notEmpty` validator: the text holds something other than white space. */
  predicate NotEmpty(s: string)
    decreases |s|
  {
    s != [] && (!IsSpace(s[0]) || NotEmpty(s[1..]))
  }

  /** `notEmpty` holds exactly when some character is not white space. */
  lemma {:induction false} NotEmptyIff(s: string)
    ensures NotEmpty(s) <==> exists i :: 0 <= i < |s| && !IsSpace(s[i])
    decreases |s|
  {
    if s != [] {
      NotEmptyIff(s[1..]);
      if i :| 0 <= i < |s| && !IsSpace(s[i]) && i > 0 {
        assert s[1..][i - 1] == s[i];
      }
      if i :| 0 <= i < |s| - 1 && !IsSpace(s[1..][i]) {
        assert s[i + 1] == s[1..][i];
      }
    }
  }

  /** The `len: [lo, hi]` validator. */
  predicate LenBetween(s: string, lo: nat, hi: nat)
  {
    lo <= |s| <= hi
  }

  predicate UsernameValid(username: string)
  {
    LenBetween(username, 3, 50) && NotEmpty(username)
  }

  predicate EmailValid(email: string, isEmail: string -> bool)
  {
    isEmail(email) && NotEmpty(email)
  }

  /** The validators of `password`, applied to the value before it is hashed. */
  predicate PasswordValid(password: string)
  {
    LenBetween(password, 6, 255) && NotEmpty(password)
  }

  /** `firstName` and `lastName` may be null; a present value has 1 to 100 characters. */
  predicate NameValid(name: Option<string>)
  {
    name.None? || LenBetween(name.value, 1, 100)
  }

  /**
   * The validators of `cashBalance`: `min: 0` and `isDecimal`, which Sequelize
   * applies to `String(value)` and which refuses the exponent form.
   */
  predicate CashBalanceValid(cashBalance: real)
  {
    cashBalance >= 0.0 && PrintsAsDecimal(cashBalance)
  }

  /** Every validator of the model holds, with `password` the value as given (unhashed). */
  predicate FieldsValid(u: UserRecord, isEmail: string -> bool)
  {
    && UsernameValid(u.username)
    && EmailValid(u.email, isEmail)
    && PasswordValid(u.password)
    && NameValid(u.firstName)
    && NameValid(u.lastName)
    && CashBalanceValid(u.cashBalance)
  }

  /** The column constraints that hold of every stored row (the stored password is a hash and is not re-validated). */
  predicate StoredValid(u: UserRecord, isEmail: string -> bool)
  {
    && UsernameValid(u.username)
    && EmailValid(u.email, isEmail)
    && NameValid(u.firstName)
    && NameValid(u.lastName)
    && CashBalanceValid(u.cashBalance)
  }

  /** A text of white space only fails `notEmpty`, whatever its length. */
  lemma BlankFailsNotEmpty(s: string)
    requires forall i :: 0 <= i < |s| ==> IsSpace(s[i])
    ensures !NotEmpty(s) && !UsernameValid(s) && !PasswordValid(s)
  {
    NotEmptyIff(s);
  }

  // ---------------------------------------------------------------------------
  // Hooks and comparePassword
  // ---------------------------------------------------------------------------

  /** `beforeCreate`: a non-empty password is replaced by its hash. */
  function HashOnCreate(hash: string -> string, password: string): (stored: string)
    ensures password != [] ==> stored == hash(password)
    ensures password == [] ==> stored == []
  {
    if password != [] then hash(password) else password
  }

  /** `beforeUpdate`: the password is hashed only when the update changed it. */
  function HashOnUpdate(hash: string -> string, previous: string, password: string): (stored: string)
    ensures password != previous ==> stored == hash(password)
    ensures password == previous ==> stored == previous
  {
    if password != previous then hash(password) else password
  }

  /** `comparePassword`: the candidate hashes to the stored value. */
  predicate ComparePassword(hash: string -> string, stored: string, candidate: string)
  {
    hash(candidate) == stored
  }

  /** A password set on create is accepted by `comparePassword`. */
  lemma CreatedPasswordCompares(hash: string -> string, password: string)
    requires PasswordValid(password)
    ensures ComparePassword(hash, HashOnCreate(hash, password), password)
  {
  }

  /** A password changed by an update is accepted by `comparePassword`, as long as it differs from the stored value. */
  lemma UpdatedPasswordCompares(hash: string -> string, previous: string, password: string)
    requires password != previous
    ensures ComparePassword(hash, HashOnUpdate(hash, previous, password), password)
  {
  }

  /**
   * With an injective hash, only the password that was set is accepted.
   * bcrypt is not injective: it reads at most the first 72 bytes of its input,
   * so two passwords that agree on those bytes both compare.
   */
  lemma OnlySetPasswordCompares(hash: string -> string, password: string, candidate: string)
    requires forall a, b :: hash(a) == hash(b) ==> a == b
    requires password != [] && ComparePassword(hash, HashOnCreate(hash, password), candidate)
    ensures candidate == password
  {
  }

  // ---------------------------------------------------------------------------
  // toJSON
  // ---------------------------------------------------------------------------

  /** A value of the plain object `get({ plain: true })` returns. */
  datatype Value = Null | Int(i: int) | Decimal(r: real) | Str(s: string)

  function OptText(o: Option<string>): Value
  {
    if o.Some? then Str(o.value) else Null
  }

  function OptInt(o: Option<int>): Value
  {
    if o.Some? then Int(o.value) else Null
  }

  /** The plain object of a row, keyed by column name. */
  function Plain(u: UserRecord): map<string, Value>
  {
    map[
      "id" := Int(u.id),
      "username" := Str(u.username),
      "email" := Str(u.email),
      "password" := Str(u.password),
      "firstName" := OptText(u.firstName),
      "lastName" := OptText(u.lastName),
      "cashBalance" := Decimal(u.cashBalance),
      "lastLoginAt" := OptInt(u.lastLoginAt),
      "resetPasswordToken" := OptText(u.resetPasswordToken),
      "resetPasswordExpires" := OptInt(u.resetPasswordExpires)]
  }

  /** The columns `toJSON` deletes. */
  const Secret: set<string> := {"password", "resetPasswordToken", "resetPasswordExpires"}

  /** `toJSON`: the plain object without the password and the reset token and its expiry. */
  function ToJSON(u: UserRecord): (r: map<string, Value>)
    ensures "password" !in r && "resetPasswordToken" !in r && "resetPasswordExpires" !in r
    ensures forall k :: k in Plain(u) && k !in Secret ==> k in r && r[k] == Plain(u)[k]
    ensures forall k :: k in r ==> k in Plain(u)
  {
    Plain(u) - Secret
  }

  /** The serialised form does not depend on the password or the reset token. */
  lemma ToJSONIgnoresSecrets(u: UserRecord, password: string, token: Option<string>, expires: Option<int>)
    ensures ToJSON(u.(password := password, resetPasswordToken := token, resetPasswordExpires := expires)) == ToJSON(u)
  {
    var v := u.(password := password, resetPasswordToken := token, resetPasswordExpires := expires);
    assert forall k :: k in Plain(v) && k !in Secret ==> Plain(v)[k] == Plain(u)[k];
  }
}
