/**
 * internal/data/users.go: a user's password (plaintext when known, bcrypt hash),
 * checking a password against the hash, and the validation of emails, passwords
 * and users.
 */
module DataUsers {
  import opened Wrappers
  import opened Strconv
  import opened Strings
  import Validator

  /** The bcrypt cost the source hashes with. */
  const BcryptCost := 12

  /** What bcrypt.CompareHashAndPassword reports. */
  datatype BcryptOutcome = Matched | Mismatched | BcryptFailed(error: string)

  class Password {
    var plaintext: Option<string>
    var hash: Option<seq<bv8>>

    /** The zero value: neither plaintext nor hash. */
    constructor ()
      ensures plaintext == None && hash == None
    {
      plaintext := None;
      hash := None;
    }

    /**
     * Set: hash with bcrypt at cost 12 (`generate` stands for
     * bcrypt.GenerateFromPassword); the receiver changes only when hashing succeeds.
     */
    method Set(plaintextPassword: string, generate: (string, nat) -> Result<seq<bv8>, string>)
      returns (err: Option<string>)
      modifies this
      ensures generate(plaintextPassword, BcryptCost).Failure? ==>
                err == Some(generate(plaintextPassword, BcryptCost).error)
                && plaintext == old(plaintext) && hash == old(hash)
      ensures generate(plaintextPassword, BcryptCost).Success? ==>
                err == None && plaintext == Some(plaintextPassword)
                && hash == Some(generate(plaintextPassword, BcryptCost).value)
    {
      var generated := generate(plaintextPassword, BcryptCost);
      if generated.Failure? {
        return Some(generated.error);
      }
      plaintext := Some(plaintextPassword);
      hash := Some(generated.value);
      return None;
    }

    /** The stored hash as the byte slice handed to bcrypt: a nil hash is empty. */
    function HashBytes(): seq<bv8>
      reads this
    {
      if hash.Some? then hash.value else []
    }

    /**
     * Matchs: a mismatch is (false, no error), any other bcrypt failure is
     * (false, that error), a match is (true, no error).
     */
    function Matchs(plaintextPassword: string, compare: (seq<bv8>, string) -> BcryptOutcome)
      : (r: (bool, Option<string>))
      reads this
      ensures r.0 <==> compare(HashBytes(), plaintextPassword) == Matched
      ensures r.1.Some? <==> compare(HashBytes(), plaintextPassword).BcryptFailed?
      ensures r.1.Some? ==> r.1.value == compare(HashBytes(), plaintextPassword).error && !r.0
    {
      match compare(HashBytes(), plaintextPassword)
      case Mismatched => (false, None)
      case BcryptFailed(e) => (false, Some(e))
      case Matched => (true, None)
    }
  }

  datatype User = User(id: Int64, createdAt: int, name: string, email: string,
                       password: Password, activated: bool, version: int)

  /**
   * The user a request carries: data.AnonymousUser when no token was presented
   * (it is never activated and has no ID), or a user found by token.
   */
  datatype Principal = Anonymous | Known(user: User) {
    predicate IsAnonymous() { Anonymous? }
    predicate Activated() { Known? && user.activated }
  }

  /** The error map after ValidateEmail; `matchesRX` is the EmailRX regular-expression match. */
  function EmailErrors(errs: Validator.Errors, email: string, matchesRX: bool): Validator.Errors {
    var e := Validator.Checked(errs, email != "", "email", "must be provided");
    Validator.Checked(e, matchesRX, "email", "must be a valid email address")
  }

  method ValidateEmail(v: Validator.Validator, email: string, emailRX: string -> bool)
    modifies v
    ensures v.errors == EmailErrors(old(v.errors), email, emailRX(email))
  {
    v.Check(email != "", "email", "must be provided");
    v.Check(emailRX(email), "email", "must be a valid email address");
  }

  /** The error map after ValidatePasswordPlaintext; lengths are in bytes. */
  function PasswordErrors(errs: Validator.Errors, password: string): Validator.Errors {
    var e1 := Validator.Checked(errs, password != "", "password", "must be provided");
    var e2 := Validator.Checked(e1, ByteLen(password) >= 8, "password", "must be at least 8 bytes long");
    Validator.Checked(e2, ByteLen(password) <= 72, "password", "must be at most 72 bytes long")
  }

  method ValidatePasswordPlaintext(v: Validator.Validator, password: string)
    modifies v
    ensures v.errors == PasswordErrors(old(v.errors), password)
  {
    v.Check(password != "", "password", "must be provided");
    v.Check(ByteLen(password) >= 8, "password", "must be at least 8 bytes long");
    v.Check(ByteLen(password) <= 72, "password", "must be at most 72 bytes long");
  }

  /** The error map after ValidateUser on a user with these fields. */
  function UserErrors(errs: Validator.Errors, name: string, email: string, emailMatches: bool,
                      plaintext: Option<string>): Validator.Errors {
    var e1 := Validator.Checked(errs, name != "", "name", "must be provided");
    var e2 := Validator.Checked(e1, ByteLen(name) <= 500, "name", "must not be more than 500 bytes long");
    var e3 := EmailErrors(e2, email, emailMatches);
    if plaintext.Some? then PasswordErrors(e3, plaintext.value) else e3
  }

  /** ValidateUser. The source panics on a user without a password hash. */
  method ValidateUser(v: Validator.Validator, user: User, emailRX: string -> bool)
    requires user.password.hash.Some?
    modifies v
    ensures v.errors == UserErrors(old(v.errors), user.name, user.email, emailRX(user.email), user.password.plaintext)
  {
    v.Check(user.name != "", "name", "must be provided");
    v.Check(ByteLen(user.name) <= 500, "name", "must not be more than 500 bytes long");
    ValidateEmail(v, user.email, emailRX);
    if user.password.plaintext.Some? {
      ValidatePasswordPlaintext(v, user.password.plaintext.value);
    }
  }

  /**
   * On a fresh validator a password is valid exactly when it is 8 to 72 bytes
   * long; an empty one records only "must be provided".
   */
  lemma PasswordErrorsFresh(password: string)
    ensures PasswordErrors(map[], password) == map[] <==> 8 <= ByteLen(password) <= 72
    ensures password == "" ==> PasswordErrors(map[], password) == map["password" := "must be provided"]
  {
  }

  /** An empty email records "must be provided", whatever the regular expression says. */
  lemma EmailErrorsFresh(email: string, matchesRX: bool)
    ensures EmailErrors(map[], email, matchesRX) == map[] <==> email != "" && matchesRX
    ensures email == "" ==> EmailErrors(map[], email, matchesRX) == map["email" := "must be provided"]
  {
  }

  /**
   * On a fresh validator a user is valid exactly when the name is 1 to 500 bytes,
   * the email is valid and the password, when set, is valid; without a plaintext
   * no password error is recorded.
   */
  lemma UserErrorsFresh(name: string, email: string, emailMatches: bool, plaintext: Option<string>)
    ensures UserErrors(map[], name, email, emailMatches, plaintext) == map[] <==>
              name != "" && ByteLen(name) <= 500 && email != "" && emailMatches
              && (plaintext.Some? ==> 8 <= ByteLen(plaintext.value) <= 72)
    ensures plaintext.None? ==> "password" !in UserErrors(map[], name, email, emailMatches, plaintext)
    ensures name == "" ==> UserErrors(map[], name, email, emailMatches, plaintext)["name"] == "must be provided"
  {
  }
}
