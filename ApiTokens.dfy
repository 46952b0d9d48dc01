/**
 * cmd/api/tokens.go: the login handler, which checks the credentials and issues an
 * authentication token.
 */
module ApiTokens {
  import opened Wrappers
  import opened Strconv
  import opened Http
  import Strings
  import opened ApiErrors
  import Validator
  import DataTokens
  import DataUsers

  /** The body of a login request. */
  datatype LoginInput = LoginInput(email: string, password: string)

  /** Tokens issued at login live 24 hours. */
  const AuthenticationTTL := 24 * 60 * 60 * 1000

  /** The validator's errors after ValidateEmail then ValidatePasswordPlaintext. */
  function LoginErrors(input: LoginInput, emailMatches: bool): Validator.Errors {
    DataUsers.PasswordErrors(DataUsers.EmailErrors(map[], input.email, emailMatches), input.password)
  }

  /** The login input validates exactly when the email is present and well formed and the password 8 to 72 bytes. */
  lemma LoginErrorsValid(input: LoginInput, emailMatches: bool)
    ensures LoginErrors(input, emailMatches) == map[] <==>
              input.email != "" && emailMatches && 8 <= Strings.ByteLen(input.password) <= 72
    ensures LoginErrors(input, emailMatches).Keys <= {"email", "password"}
  {
    DataUsers.EmailErrorsFresh(input.email, emailMatches);
    DataUsers.PasswordErrorsFresh(input.password);
    var e := DataUsers.EmailErrors(map[], input.email, emailMatches);
    if e != map[] {
      assert LoginErrors(input, emailMatches).Keys >= e.Keys;
    }
  }

  /**
   * createAuthenticationTokenHandler. `readJSON` is the decoded body or its error
   * message, `emailRX` the EmailRX match, `getByEmail` stands for Users.GetByEmail,
   * `compare` for bcrypt's comparison, and `now`, `random`, `sha256` and `insert`
   * are what Tokens.New draws on.
   */
  method CreateAuthenticationToken(readJSON: Result<LoginInput, string>, emailRX: string -> bool,
                                   getByEmail: string -> Result<DataUsers.User, StoreError>,
                                   compare: (seq<bv8>, string) -> DataUsers.BcryptOutcome,
                                   now: DataTokens.Time, random: Result<seq<bv8>, string>,
                                   sha256: string -> seq<bv8>, insert: DataTokens.Token -> Option<string>)
    returns (resp: Response<DataTokens.Token>)
    requires random.Success? ==> |random.value| == 16
    ensures readJSON.Failure? ==> resp == Error(BadRequest(readJSON.error))
    ensures readJSON.Success? ==>
              var input := readJSON.value;
              var errs := LoginErrors(input, emailRX(input.email));
              && (errs != map[] ==> resp == Error(FailedValidation(errs)))
              && (errs == map[] && getByEmail(input.email) == Failure(RecordNotFound) ==> resp == Error(InvalidCredentials))
              && (errs == map[] && getByEmail(input.email).Failure? && getByEmail(input.email).error != RecordNotFound ==>
                    resp == Error(ServerError))
    ensures readJSON.Success? && LoginErrors(readJSON.value, emailRX(readJSON.value.email)) == map[] &&
            getByEmail(readJSON.value.email).Success? ==>
              var user := getByEmail(readJSON.value.email).value;
              var outcome := compare(user.password.HashBytes(), readJSON.value.password);
              && (outcome.BcryptFailed? ==> resp == Error(ServerError))
              && (outcome == DataUsers.Mismatched ==> resp == Error(InvalidCredentials))
              && (outcome == DataUsers.Matched && random.Failure? ==> resp == Error(ServerError))
              && (outcome == DataUsers.Matched && random.Success? ==>
                    var token := DataTokens.Issued(user.id, AuthenticationTTL, DataTokens.ScopeAuthentication, now,
                                                   random.value, sha256);
                    && (insert(token) == None ==> resp == Json(StatusCreated, token))
                    && (insert(token).Some? ==> resp == Error(ServerError)))
    ensures resp.Json? ==>
              && readJSON.Success? && getByEmail(readJSON.value.email).Success?
              && compare(getByEmail(readJSON.value.email).value.password.HashBytes(), readJSON.value.password) == DataUsers.Matched
              && resp.status == StatusCreated
              && resp.body.userID == getByEmail(readJSON.value.email).value.id
              && resp.body.scope == DataTokens.ScopeAuthentication
              && resp.body.expiry == now + AuthenticationTTL
              && DataTokens.TokenErrors(map[], resp.body.plaintext) == map[]
              && insert(resp.body) == None
  {
    if readJSON.Failure? {
      return Error(BadRequest(readJSON.error));
    }
    var input := readJSON.value;
    var v := new Validator.Validator.New();
    DataUsers.ValidateEmail(v, input.email, emailRX);
    DataUsers.ValidatePasswordPlaintext(v, input.password);
    if !v.Valid() {
      return Error(FailedValidation(v.errors));
    }
    var found := getByEmail(input.email);
    if found.Failure? {
      if found.error == RecordNotFound {
        return Error(InvalidCredentials);
      }
      return Error(ServerError);
    }
    var user := found.value;
    var (matched, matchErr) := user.password.Matchs(input.password, compare);
    if matchErr.Some? {
      return Error(ServerError);
    }
    if !matched {
      return Error(InvalidCredentials);
    }
    var token, err := DataTokens.New(user.id, AuthenticationTTL, DataTokens.ScopeAuthentication, now,
                                     random, sha256, insert);
    if err.Some? {
      return Error(ServerError);
    }
    return Json(StatusCreated, token.value);
  }
}
