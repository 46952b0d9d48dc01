/**
 * internal/data/tokens.go: generating a token (16 random bytes, encoded in base 32
 * without padding, and the SHA-256 digest of that text), and the check of a token
 * plaintext supplied by a client.
 */
module DataTokens {
  import opened Wrappers
  import opened Strconv
  import opened Strings
  import Validator
  import Base32

  const ScopeActivation := "activation"
  const ScopeAuthentication := "authentication"

  /** Timestamps and durations, in milliseconds. */
  type Time = int

  datatype Token = Token(plaintext: string, hash: seq<bv8>, userID: Int64, expiry: Time, scope: string)

  /** The error map after ValidateTokenPlaintext. */
  function TokenErrors(errs: Validator.Errors, tokenPlaintext: string): Validator.Errors {
    var e := Validator.Checked(errs, tokenPlaintext != "", "token", "must be provided");
    Validator.Checked(e, ByteLen(tokenPlaintext) == 26, "token", "must be 26 bytes long")
  }

  method ValidateTokenPlaintext(v: Validator.Validator, tokenPlaintext: string)
    modifies v
    ensures v.errors == TokenErrors(old(v.errors), tokenPlaintext)
  {
    v.Check(tokenPlaintext != "", "token", "must be provided");
    v.Check(ByteLen(tokenPlaintext) == 26, "token", "must be 26 bytes long");
  }

  /**
   * On a fresh validator a token plaintext is valid exactly when it is 26 bytes
   * long; an empty one records only "must be provided".
   */
  lemma TokenErrorsFresh(tokenPlaintext: string)
    ensures TokenErrors(map[], tokenPlaintext) == map[] <==> ByteLen(tokenPlaintext) == 26
    ensures tokenPlaintext == "" ==> TokenErrors(map[], tokenPlaintext) == map["token" := "must be provided"]
    ensures tokenPlaintext != "" && ByteLen(tokenPlaintext) != 26
        ==> TokenErrors(map[], tokenPlaintext) == map["token" := "must be 26 bytes long"]
  {
  }

  /** The token generateToken builds from the random bytes: their unpadded base-32 text and its digest. */
  function Issued(userID: Int64, ttl: Time, scope: string, now: Time, randomBytes: seq<bv8>,
                  sha256: string -> seq<bv8>): Token
  {
    var plaintext := Base32.Encode(randomBytes);
    Token(plaintext, sha256(plaintext), userID, now + ttl, scope)
  }

  /**
   * generateToken. `random` is the outcome of reading 16 bytes from crypto/rand and
   * `sha256` the SHA-256 digest of a text's bytes; both are outside the model.
   */
  method GenerateToken(userID: Int64, ttl: Time, scope: string, now: Time,
                       random: Result<seq<bv8>, string>, sha256: string -> seq<bv8>)
    returns (r: Result<Token, string>)
    requires random.Success? ==> |random.value| == 16
    ensures random.Failure? ==> r == Failure(random.error)
    ensures random.Success? ==> r == Success(Issued(userID, ttl, scope, now, random.value, sha256))
    ensures r.Success? ==> r.value.userID == userID && r.value.scope == scope && r.value.expiry == now + ttl
    ensures r.Success? ==> r.value.plaintext == Base32.Encode(random.value)
    ensures r.Success? ==> Base32.Decode(r.value.plaintext) == Some(random.value)
    ensures r.Success? ==> TokenErrors(map[], r.value.plaintext) == map[]
    ensures r.Success? ==> r.value.hash == sha256(r.value.plaintext)
  {
    var token := Token("", [], userID, now + ttl, scope);
    if random.Failure? {
      return Failure(random.error);
    }
    var plaintext := Base32.Encode(random.value);
    token := token.(plaintext := plaintext);
    token := token.(hash := sha256(token.plaintext));
    assert token == Issued(userID, ttl, scope, now, random.value, sha256);
    Base32.RoundTrip(random.value);
    GeneratedPlaintextValid(random.value);
    return Success(token);
  }

  /** Every generated plaintext passes ValidateTokenPlaintext. */
  lemma GeneratedPlaintextValid(randomBytes: seq<bv8>)
    requires |randomBytes| == 16
    ensures TokenErrors(map[], Base32.Encode(randomBytes)) == map[]
  {
    var s := Base32.Encode(randomBytes);
    Base32.SixteenBytes(randomBytes);
    ByteLenAscii(s);
  }

  /**
   * TokenModel.New: generate, then insert. As in the source, a failed insert still
   * returns the token beside the error.
   */
  method New(userID: Int64, ttl: Time, scope: string, now: Time,
             random: Result<seq<bv8>, string>, sha256: string -> seq<bv8>, insert: Token -> Option<string>)
    returns (token: Option<Token>, err: Option<string>)
    requires random.Success? ==> |random.value| == 16
    ensures random.Failure? ==> token == None && err == Some(random.error)
    ensures random.Success? ==> token == Some(Issued(userID, ttl, scope, now, random.value, sha256))
    ensures random.Success? ==> token.Some? && err == insert(token.value)
    ensures token.Some? ==> token.value.userID == userID && token.value.scope == scope
    ensures token.Some? ==> token.value.expiry == now + ttl
    ensures token.Some? ==> TokenErrors(map[], token.value.plaintext) == map[]
  {
    var generated := GenerateToken(userID, ttl, scope, now, random, sha256);
    if generated.Failure? {
      return None, Some(generated.error);
    }
    token := Some(generated.value);
    err := insert(generated.value);
  }
}
