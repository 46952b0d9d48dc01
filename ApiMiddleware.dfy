/**
 * cmd/api/middleware.go: the metrics response writer, the per-IP rate limiter and
 * its sweep, bearer-token authentication, the three-tier authorization gates and
 * the CORS decision. One request is handled at a time, which is what the rate
 * limiter's mutex enforces.
 */
module ApiMiddleware {
  import opened Wrappers
  import opened Strconv
  import opened Strings
  import opened Http
  import opened ApiErrors
  import DataTokens
  import DataUsers

  /**
   * metricsResponseWriter: forwards every call to the wrapped writer and records
   * the first status written.
   */
  class MetricsResponseWriter {
    var wrapped: Writer
    var statusCode: int
    var headerWritten: bool
    /** The statuses this wrapper has forwarded to the wrapped writer. */
    ghost var forwarded: seq<int>
    ghost var before: seq<int>

    ghost predicate Valid()
      reads this, wrapped
    {
      && wrapped.statuses == before + forwarded
      && (headerWritten <==> forwarded != [])
      && (headerWritten ==> statusCode == forwarded[0])
      && (!headerWritten ==> statusCode == 0)
    }

    /** &metricsResponseWriter{wrapped: w}: no status recorded yet. */
    constructor (w: Writer)
      ensures wrapped == w && statusCode == 0 && !headerWritten
      ensures forwarded == [] && Valid()
    {
      wrapped := w;
      statusCode := 0;
      headerWritten := false;
      forwarded := [];
      before := w.statuses;
    }

    method WriteHeader(code: int)
      requires Valid()
      modifies this, wrapped
      ensures Valid() && wrapped == old(wrapped)
      ensures wrapped.statuses == old(wrapped.statuses) + [code]
      ensures wrapped.header == old(wrapped.header) && wrapped.writes == old(wrapped.writes)
      ensures forwarded == old(forwarded) + [code]
      ensures statusCode == (if old(headerWritten) then old(statusCode) else code)
      ensures headerWritten
    {
      wrapped.WriteHeader(code);
      forwarded := forwarded + [code];
      if !headerWritten {
        statusCode := code;
        headerWritten := true;
      }
    }

    /** Write: a write before any header first writes status 200. */
    method Write(b: seq<bv8>)
      requires Valid()
      modifies this, wrapped
      ensures Valid() && wrapped == old(wrapped)
      ensures wrapped.statuses == old(wrapped.statuses) + (if old(headerWritten) then [] else [StatusOK])
      ensures wrapped.writes == old(wrapped.writes) + [b]
      ensures wrapped.header == old(wrapped.header)
      ensures statusCode == (if old(headerWritten) then old(statusCode) else StatusOK)
      ensures headerWritten
    {
      if !headerWritten {
        WriteHeader(StatusOK);
        headerWritten := true;
      }
      wrapped.Write(b);
    }
  }

  // ----- Rate limiting -----

  /** rate.NewLimiter(2, 4): two tokens a second, bursts of four. */
  const Rate := 2
  const Burst := 4
  /** Token counts are kept in thousandths of a token, so that refills over whole milliseconds are exact. */
  const Unit := 1000
  /** Clients not seen for more than three minutes are swept. */
  const IdleThreshold := 3 * 60 * 1000

  /**
   * A token bucket: the tokens it held at the last admission, in thousandths, and
   * when that was (None for a new limiter, whose last time is Go's zero time).
   */
  datatype Limiter = Limiter(tokens: int, last: Option<DataTokens.Time>)

  predicate LimiterValid(l: Limiter) {
    0 <= l.tokens <= Burst * Unit
  }

  function NewLimiter(): (l: Limiter)
    ensures LimiterValid(l)
  {
    Limiter(0, None)
  }

  /** The tokens available at `now`: refilled at Rate a second, capped at Burst. */
  function Available(l: Limiter, now: DataTokens.Time): (t: int)
    requires LimiterValid(l)
    ensures 0 <= t <= Burst * Unit
    ensures l.last.Some? ==> l.tokens <= t
  {
    match l.last
    case None => Burst * Unit
    case Some(last) =>
      var elapsed := if now < last then 0 else now - last;
      // Rate tokens a second is Rate thousandths of a token a millisecond.
      var refilled := l.tokens + elapsed * Rate;
      if refilled > Burst * Unit then Burst * Unit else refilled
  }

  /** Limiter.Allow at `now`: whether a token was taken, and the limiter afterwards. */
  function Allow(l: Limiter, now: DataTokens.Time): (r: (bool, Limiter))
    requires LimiterValid(l)
    ensures LimiterValid(r.1)
    ensures r.0 <==> Available(l, now) >= Unit
    ensures r.0 ==> r.1 == Limiter(Available(l, now) - Unit, Some(now))
    ensures !r.0 ==> r.1 == l
  {
    var t := Available(l, now);
    if t >= Unit then (true, Limiter(t - Unit, Some(now))) else (false, l)
  }

  /**
   * A new client's first four requests at one instant are admitted and the fifth
   * is denied; half a second later one more token has come back.
   */
  lemma BurstThenDeny(now: DataTokens.Time)
    ensures var (a1, l1) := Allow(NewLimiter(), now);
            var (a2, l2) := Allow(l1, now);
            var (a3, l3) := Allow(l2, now);
            var (a4, l4) := Allow(l3, now);
            var (a5, l5) := Allow(l4, now);
            var (a6, _) := Allow(l5, now + 1000 / Rate);
            a1 && a2 && a3 && a4 && !a5 && a6
  {
  }

  /** Denials do not consume: a denied limiter is admitted again once enough time has passed. */
  lemma {:induction false} RefillAfterDeny(l: Limiter, now: DataTokens.Time, later: DataTokens.Time)
    requires LimiterValid(l) && l.last.Some? && l.last.value <= now
    requires !Allow(l, now).0
    requires later >= l.last.value + Unit / Rate
    ensures Allow(l, later).0
  {
    assert Allow(l, now).1 == l;
    var elapsed := later - l.last.value;
    assert elapsed * Rate >= Unit;
  }

  datatype Client = Client(limiter: Limiter, lastSeen: DataTokens.Time)

  /** The client table after a sweep at `now`: exactly the clients seen within the last three minutes. */
  function Swept(clients: map<string, Client>, now: DataTokens.Time): (r: map<string, Client>)
    ensures forall ip :: ip in r <==> ip in clients && now - clients[ip].lastSeen <= IdleThreshold
    ensures forall ip :: ip in r ==> r[ip] == clients[ip]
  {
    map ip | ip in clients && now - clients[ip].lastSeen <= IdleThreshold :: clients[ip]
  }

  /** The outcome of a gate: hand the request on, or answer it with an error. */
  datatype Decision = Next | Reject(response: ErrorResponse)

  /** rateLimit's client table, guarded in the source by a mutex. */
  /** The bucket a request from `ip` is checked against: its entry's, or a new one for an unseen client. */
  function Bucket(clients: map<string, Client>, ip: string): (l: Limiter)
    requires forall c :: c in clients ==> LimiterValid(clients[c].limiter)
    ensures LimiterValid(l)
    ensures ip !in clients ==> l == NewLimiter()
  {
    if ip in clients then clients[ip].limiter else NewLimiter()
  }

  class RateLimiter {
    var clients: map<string, Client>

    ghost predicate Valid()
      reads this
    {
      forall ip :: ip in clients ==> LimiterValid(clients[ip].limiter)
    }

    constructor ()
      ensures clients == map[] && Valid()
    {
      clients := map[];
    }

    /**
     * The request path of rateLimit. `host` is what net.SplitHostPort made of the
     * remote address (None when it failed): that is a server error and the table is
     * left alone. Otherwise the client is created on first sight with a new
     * limiter, stamped with `now` whether or not it is admitted, and admitted when
     * its limiter allows.
     */
    method Admit(host: Option<string>, now: DataTokens.Time) returns (d: Decision)
      requires Valid()
      modifies this
      ensures Valid()
      ensures host.None? ==> d == Reject(ServerError) && clients == old(clients)
      ensures host.Some? ==>
        var ip := host.value;
        var before := Bucket(old(clients), ip);
        && clients.Keys == old(clients).Keys + {ip}
        && (forall other :: other in old(clients) && other != ip ==> clients[other] == old(clients)[other])
        && clients[ip] == Client(Allow(before, now).1, now)
        && (d == Next <==> Allow(before, now).0)
        && (d != Next ==> d == Reject(RateLimitExceeded))
    {
      if host.None? {
        return Reject(ServerError);
      }
      var ip := host.value;
      if ip !in clients {
        clients := clients[ip := Client(NewLimiter(), 0)];
      }
      clients := clients[ip := clients[ip].(lastSeen := now)];
      var (allowed, limiter) := Allow(clients[ip].limiter, now);
      clients := clients[ip := clients[ip].(limiter := limiter)];
      if !allowed {
        return Reject(RateLimitExceeded);
      }
      return Next;
    }

    /** One pass of the background sweep: deletes the clients idle for more than three minutes. */
    method Sweep(now: DataTokens.Time)
      requires Valid()
      modifies this
      ensures Valid()
      ensures clients == Swept(old(clients), now)
    {
      var pending := clients.Keys;
      while pending != {}
        invariant pending <= old(clients).Keys
        invariant forall ip :: ip in clients <==>
                    ip in old(clients) && (ip in pending || now - old(clients)[ip].lastSeen <= IdleThreshold)
        invariant forall ip :: ip in clients ==> clients[ip] == old(clients)[ip]
        decreases pending
      {
        var ip :| ip in pending;
        if now - clients[ip].lastSeen > IdleThreshold {
          clients := clients - {ip};
        }
        pending := pending - {ip};
      }
    }
  }

  // ----- Authentication -----

  /**
   * The token of an Authorization header: the header must split on " " into
   * exactly two parts, the first being "Bearer".
   */
  function BearerToken(authorization: string): (token: Option<string>)
    ensures token.Some? ==> authorization == "Bearer " + token.value && ' ' !in token.value
  {
    var parts := Split(authorization, ' ');
    if |parts| != 2 || parts[0] != "Bearer" then None
    else
      JoinSplit(authorization, ' ');
      assert Join(parts, ' ') == parts[0] + [' '] + parts[1];
      Some(parts[1])
  }

  /** "Bearer " followed by a space-free token is a well-formed header with that token. */
  lemma BearerTokenOf(token: string)
    requires ' ' !in token
    ensures BearerToken("Bearer " + token) == Some(token)
  {
    SplitJoin(["Bearer", token], ' ');
    assert Join(["Bearer", token], ' ') == "Bearer " + token;
  }

  datatype AuthOutcome = Proceed(user: DataUsers.Principal) | Halt(response: ErrorResponse)

  /**
   * authenticate's decision. `getForToken` stands for Users.GetForToken(scope,
   * plaintext); it is consulted only for a well-formed token.
   */
  function Authenticate(authorization: string,
                        getForToken: (string, string) -> Result<DataUsers.User, StoreError>)
    : (o: AuthOutcome)
    ensures authorization == "" ==> o == Proceed(DataUsers.Anonymous)
    ensures o.Proceed? && authorization != "" ==>
              o.user.Known? &&
              exists token :: BearerToken(authorization) == Some(token)
                           && getForToken(DataTokens.ScopeAuthentication, token) == Success(o.user.user)
  {
    if authorization == "" then Proceed(DataUsers.Anonymous)
    else
      match BearerToken(authorization)
      case None => Halt(InvalidAuthenticationToken)
      case Some(token) =>
        if DataTokens.TokenErrors(map[], token) != map[] then Halt(InvalidAuthenticationToken)
        else
          match getForToken(DataTokens.ScopeAuthentication, token)
          case Failure(RecordNotFound) => Halt(InvalidAuthenticationToken)
          case Failure(_) => Halt(ServerError)
          case Success(user) => Proceed(DataUsers.Known(user))
  }

  /**
   * A malformed header, a token of the wrong length and an unknown token all get
   * the same invalid-token response; other lookup failures are server errors.
   */
  lemma AuthenticateOutcomes(authorization: string,
                             getForToken: (string, string) -> Result<DataUsers.User, StoreError>)
    requires authorization != ""
    ensures BearerToken(authorization).None? ==> Authenticate(authorization, getForToken) == Halt(InvalidAuthenticationToken)
    ensures BearerToken(authorization).Some? ==>
              var token := BearerToken(authorization).value;
              var found := getForToken(DataTokens.ScopeAuthentication, token);
              && (ByteLen(token) != 26 ==> Authenticate(authorization, getForToken) == Halt(InvalidAuthenticationToken))
              && (ByteLen(token) == 26 && found == Failure(RecordNotFound) ==>
                    Authenticate(authorization, getForToken) == Halt(InvalidAuthenticationToken))
              && (ByteLen(token) == 26 && found.Failure? && found.error != RecordNotFound ==>
                    Authenticate(authorization, getForToken) == Halt(ServerError))
              && (ByteLen(token) == 26 && found.Success? ==>
                    Authenticate(authorization, getForToken) == Proceed(DataUsers.Known(found.value)))
  {
    if BearerToken(authorization).Some? {
      DataTokens.TokenErrorsFresh(BearerToken(authorization).value);
    }
  }

  /** Without a well-formed 26-byte bearer token, the store is never consulted. */
  lemma AuthenticateLooksUpOnlyWellFormed(authorization: string,
                                          f: (string, string) -> Result<DataUsers.User, StoreError>,
                                          g: (string, string) -> Result<DataUsers.User, StoreError>)
    requires BearerToken(authorization).None? || ByteLen(BearerToken(authorization).value) != 26
    ensures Authenticate(authorization, f) == Authenticate(authorization, g)
  {
    if BearerToken(authorization).Some? {
      DataTokens.TokenErrorsFresh(BearerToken(authorization).value);
    }
  }

  /** The authenticate middleware on a response writer: always adds "Vary: Authorization". */
  method AuthenticateRequest(w: Writer, r: Request,
                             getForToken: (string, string) -> Result<DataUsers.User, StoreError>)
    returns (o: AuthOutcome)
    modifies w
    ensures w.header == Add(old(w.header), "Vary", "Authorization")
    ensures w.statuses == old(w.statuses) && w.writes == old(w.writes)
    ensures o == Authenticate(Get(r.header, "Authorization"), getForToken)
  {
    w.AddHeader("Vary", "Authorization");
    o := Authenticate(Get(r.header, "Authorization"), getForToken);
  }

  // ----- Authorization gates -----

  /** A handler, seen from the gates: what it decides for the request's user. */
  type Handler = DataUsers.Principal -> Decision

  /** requireAuthenticatedUser: the anonymous user gets authentication-required. */
  function RequireAuthenticatedUser(next: Handler): Handler {
    (user: DataUsers.Principal) => if user.IsAnonymous() then Reject(AuthenticationRequired) else next(user)
  }

  /** The handler requireActivatedUser builds before wrapping it: inactive users get inactive-account. */
  function ActivatedCheck(next: Handler): Handler {
    (user: DataUsers.Principal) => if !user.Activated() then Reject(InactiveAccount) else next(user)
  }

  /** requireActivatedUser: the activation check behind requireAuthenticatedUser. */
  function RequireActivatedUser(next: Handler): Handler {
    RequireAuthenticatedUser(ActivatedCheck(next))
  }

  /** requireAuthenticatedUser turns the anonymous user away and hands every known user on. */
  lemma AuthenticatedGate(next: Handler, user: DataUsers.Principal)
    ensures user.Anonymous? ==> RequireAuthenticatedUser(next)(user) == Reject(AuthenticationRequired)
    ensures user.Known? ==> RequireAuthenticatedUser(next)(user) == next(user)
  {
  }

  /**
   * requireActivatedUser checks authentication first: the anonymous user gets
   * authentication-required, a known but inactive user inactive-account, and only
   * an activated user reaches the wrapped handler.
   */
  lemma ActivatedGate(next: Handler, user: DataUsers.Principal)
    ensures user.Anonymous? ==> RequireActivatedUser(next)(user) == Reject(AuthenticationRequired)
    ensures user.Known? && !user.user.activated ==> RequireActivatedUser(next)(user) == Reject(InactiveAccount)
    ensures user.Activated() ==> RequireActivatedUser(next)(user) == next(user)
  {
    AuthenticatedGate(ActivatedCheck(next), user);
  }

  /** The ID the permission lookup is made with (the anonymous user's is zero). */
  function UserID(user: DataUsers.Principal): Int64 {
    if user.Known? then user.user.id else 0
  }

  /**
   * The handler requirePermission builds before wrapping it. `permissionsFor`
   * stands for Permissions.GetAllForUser.
   */
  function PermissionCheck(code: string, permissionsFor: Int64 -> Result<seq<string>, StoreError>,
                           next: Handler): Handler {
    (user: DataUsers.Principal) =>
      match permissionsFor(UserID(user))
      case Failure(_) => Reject(ServerError)
      case Success(permissions) => if code !in permissions then Reject(NotPermitted) else next(user)
  }

  /** requirePermission: the permission check behind requireActivatedUser. */
  function RequirePermission(code: string, permissionsFor: Int64 -> Result<seq<string>, StoreError>,
                             next: Handler): Handler {
    RequireActivatedUser(PermissionCheck(code, permissionsFor, next))
  }

  /**
   * The gates in order: anonymous users get authentication-required whatever the
   * code, inactive users inactive-account, and only activated users have their
   * permissions looked up.
   */
  lemma GateOrder(code: string, permissionsFor: Int64 -> Result<seq<string>, StoreError>,
                  next: Handler, user: DataUsers.Principal)
    ensures user.Anonymous? ==> RequirePermission(code, permissionsFor, next)(user) == Reject(AuthenticationRequired)
    ensures user.Known? && !user.user.activated ==>
              RequirePermission(code, permissionsFor, next)(user) == Reject(InactiveAccount)
    ensures user.Known? && user.user.activated ==>
              RequirePermission(code, permissionsFor, next)(user) ==
                match permissionsFor(user.user.id)
                case Failure(_) => Reject(ServerError)
                case Success(permissions) => if code in permissions then next(user) else Reject(NotPermitted)
  {
    var check := PermissionCheck(code, permissionsFor, next);
    var activated := ActivatedCheck(check);
    assert RequirePermission(code, permissionsFor, next) == RequireAuthenticatedUser(activated);
    if user.Anonymous? {
      assert user.IsAnonymous();
      assert RequireAuthenticatedUser(activated)(user) == Reject(AuthenticationRequired);
    }
    if user.Known? {
      assert RequireAuthenticatedUser(activated)(user) == activated(user);
      if user.user.activated {
        assert activated(user) == check(user);
      }
    }
  }

  /** The permission store is not consulted for anonymous or inactive users. */
  lemma GateLooksUpOnlyActivated(code: string, f: Int64 -> Result<seq<string>, StoreError>,
                                 g: Int64 -> Result<seq<string>, StoreError>,
                                 next: Handler, user: DataUsers.Principal)
    requires !user.Activated()
    ensures RequirePermission(code, f, next)(user) == RequirePermission(code, g, next)(user)
  {
  }

  // ----- CORS -----

  const AllowedMethods := "POST, PUT, PATCH, DELETE, GET, OPTIONS"
  const AllowedHeaders := "Authorization, Content-Type"

  /** What enableCORS does with a request: answers it as a preflight, or hands it on. */
  datatype CorsOutcome = Preflighted | PassOn

  /** The Origin header is non-empty and exactly one of the trusted origins. */
  predicate TrustedOrigin(r: Request, trustedOrigins: seq<string>) {
    Get(r.header, "Origin") != "" && Get(r.header, "Origin") in trustedOrigins
  }

  /** A CORS preflight from a trusted origin: OPTIONS with Access-Control-Request-Method. */
  predicate TrustedPreflight(r: Request, trustedOrigins: seq<string>) {
    TrustedOrigin(r, trustedOrigins) && r.verb == MethodOptions
    && Get(r.header, "Access-Control-Request-Method") != ""
  }

  /**
   * enableCORS. Both Vary values are always added; Access-Control-Allow-Origin is
   * set only for a trusted origin; a trusted preflight is answered with 200 and the
   * fixed methods and headers, and is not handed on.
   */
  method EnableCORS(w: Writer, r: Request, trustedOrigins: seq<string>) returns (d: CorsOutcome)
    modifies w
    ensures var vary := Add(Add(old(w.header), "Vary", "Origin"), "Vary", "Access-Control-Request-Method");
            var origin := Get(r.header, "Origin");
            && (!TrustedOrigin(r, trustedOrigins) ==> w.header == vary)
            && (TrustedOrigin(r, trustedOrigins) && !TrustedPreflight(r, trustedOrigins) ==>
                  w.header == Set(vary, "Access-Control-Allow-Origin", origin))
            && (TrustedPreflight(r, trustedOrigins) ==>
                  w.header == Set(Set(Set(vary, "Access-Control-Allow-Origin", origin),
                                      "Access-Control-Allow-Methods", AllowedMethods),
                                  "Access-Control-Allow-Headers", AllowedHeaders))
    ensures d == Preflighted <==> TrustedPreflight(r, trustedOrigins)
    ensures w.statuses == old(w.statuses) + (if TrustedPreflight(r, trustedOrigins) then [StatusOK] else [])
    ensures w.writes == old(w.writes)
  {
    w.AddHeader("Vary", "Origin");
    w.AddHeader("Vary", "Access-Control-Request-Method");
    var origin := Get(r.header, "Origin");
    if origin != "" {
      for i := 0 to |trustedOrigins|
        invariant origin !in trustedOrigins[..i]
        invariant w.header == Add(Add(old(w.header), "Vary", "Origin"), "Vary", "Access-Control-Request-Method")
        invariant w.statuses == old(w.statuses) && w.writes == old(w.writes)
      {
        if origin == trustedOrigins[i] {
          w.SetHeader("Access-Control-Allow-Origin", origin);
          if r.verb == MethodOptions && Get(r.header, "Access-Control-Request-Method") != "" {
            w.SetHeader("Access-Control-Allow-Methods", AllowedMethods);
            w.SetHeader("Access-Control-Allow-Headers", AllowedHeaders);
            w.WriteHeader(StatusOK);
            return Preflighted;
          }
          // The source breaks out of the loop here, and then hands the request on.
          return PassOn;
        }
      }
    }
    return PassOn;
  }
}
