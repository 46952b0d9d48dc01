# greenlight: a verified model of the movie API's decision layer

greenlight is a JSON API for a movie catalogue, written in Go. This project models the
sequential decision and validation logic of that API in Dafny and proves properties of
the model. It covers:

- the request middleware: the per-IP rate limiter and its sweep, bearer-token
  authentication, the authenticated → activated → permission gates, the CORS decision,
  and the metrics response writer;
- the field validator that every check builds on;
- the data-layer codecs and checks: the `Runtime` JSON codec, the pagination and sort
  filters, token generation and base-32 encoding, and the password and user checks;
- the query-string and route-parameter readers;
- the handler decisions for movies and login, the route table, and the middleware order.

Collaborators the code calls but does not define are parameters of the model. These are
the database store, bcrypt, SHA-256, `crypto/rand`, the e-mail regular expression,
`net.SplitHostPort`, the JSON body reader and `ValidateMovie`. Time is an explicit
parameter, an integer number of milliseconds.

Modules follow the source files:

- `Validator`: internal/validator/validator.go.
- `DataFilters`, `DataRuntime`, `DataTokens`, `DataUsers`: the files of internal/data.
- `ApiMiddleware`, `ApiHelpers`, `ApiMovies`, `ApiTokens`, `ApiRoutes`: the files of
  cmd/api.
- Models of the library behaviour the code relies on:
  - `Strings`: `strings.Split`, `Join`, `HasPrefix`, `TrimPrefix`, and `len` in bytes.
  - `Strconv`: `FormatInt`, `ParseInt`, `Atoi`, `Quote`, `Unquote`.
  - `Base32`: RFC 4648 section 6 without padding.
  - `Http`: header maps, requests, and a response writer that records calls.
  - `ApiErrors`: store errors and named error responses.
  - `Wrappers`: `Option` and `Result`.

The rate limiter's `rate.Limiter(2, 4)` is modelled as an integer token bucket:

- tokens are counted in thousandths;
- the bucket refills at 2 thousandths per millisecond, up to 4 tokens;
- a new limiter starts full;
- a denial consumes nothing.

## Model

| member | source | states |
|---|---|---|
| Validator.Validator.New | internal/validator/validator.go:13-15 | a new validator has an empty error map and is valid |
| Validator.Validator.Valid | internal/validator/validator.go:17-19 | valid exactly when the error map is empty |
| Validator.WithError | internal/validator/validator.go:21-25 | adding an error adds the field; every existing field keeps its message; a new field gets the given message |
| Validator.Validator.AddError | internal/validator/validator.go:21-25 | the new error map is the old one with the error added, first message winning |
| Validator.AddErrorFirstWins | internal/validator/validator.go:21-25 | a second AddError on a field already in error changes nothing |
| Validator.Checked | internal/validator/validator.go:27-31 | a passing check leaves the map unchanged; a failing one acts as AddError |
| Validator.Validator.Check | internal/validator/validator.go:27-31 | the new error map is Checked of the old one |
| Validator.PermiteedValue | internal/validator/validator.go:33-40 | the search loop returns true exactly when the value is in the list |
| Validator.ElementsCount | internal/validator/validator.go:47-55 | the set of elements is no larger than the list, and equal in size exactly when there are no duplicates |
| Validator.Unique | internal/validator/validator.go:47-55 | the loop filling the encountered map returns true exactly when the list has no duplicates |
| DataFilters.ValidateFilters | internal/data/filters.go:16-24 | the validator gains exactly the errors of the five checks, in order |
| DataFilters.FilterErrorsFresh | internal/data/filters.go:16-24 | on a fresh validator: valid iff 1 ≤ page ≤ 10000, 1 ≤ page_size ≤ 100 and sort is safelisted; each field's kept message is its first failing check's |
| DataFilters.SortColumn | internal/data/filters.go:26-35 | for a safelisted sort, the sort without its leading "-" (the source panics otherwise) |
| DataFilters.SortDirection | internal/data/filters.go:37-43 | "DESC" iff the sort starts with "-", "ASC" iff it does not |
| DataFilters.SortParts | internal/data/filters.go:26-43 | direction and column together give back the sort parameter |
| DataRuntime.MarshalJSON | internal/data/runtime.go:15-21 | the JSON is the double-quoted decimal runtime followed by " mins" |
| DataRuntime.NumberPart | internal/data/runtime.go:30-33 | a number part is found only for "<n> mins" with no space in n |
| DataRuntime.NumberPartOf | internal/data/runtime.go:30-33 | every space-free n followed by " mins" yields n |
| DataRuntime.ParseRuntime | internal/data/runtime.go:23-43 | success only for a quoted "<n> mins" whose n parses as a base-10 int32; every other input is ErrInvalidRuntimeFormat |
| DataRuntime.RoundTrip | internal/data/runtime.go:15-43 | decoding the encoding of every int32 runtime gives it back |
| DataRuntime.RuntimeRef.UnmarshalJSON | internal/data/runtime.go:23-43 | on error the receiver is unchanged; on success it holds the parsed runtime |
| DataRuntime.DecodesTo | internal/data/runtime.go:23-43 | every input that unquotes to a space-free number and " mins", where the number parses as an int32, decodes to that number |
| DataRuntime.EscapedDigitRuntime | internal/data/runtime.go:23-43 | a non-negative runtime whose leading digit is written as a `\u` escape, such as `"\u0031 mins"`, decodes to the same value |
| Base32.Encode | internal/data/tokens.go:44 | the encoding has ⌈8n/5⌉ characters, all from A–Z and 2–7 |
| Base32.RoundTrip | internal/data/tokens.go:44 | decoding the unpadded encoding gives the bytes back |
| Base32.SixteenBytes | internal/data/tokens.go:36-44 | 16 bytes encode to exactly 26 characters, none of them '=' |
| DataTokens.ValidateTokenPlaintext | internal/data/tokens.go:54-57 | the validator gains exactly the two token checks' errors |
| DataTokens.TokenErrorsFresh | internal/data/tokens.go:54-57 | valid iff the token is 26 bytes long; an empty token records only "must be provided" |
| DataTokens.GenerateToken | internal/data/tokens.go:27-52 | a failed random read gives no token; otherwise the token is exactly the issued one: the plaintext is the unpadded base-32 text of the random bytes, it decodes back to them and passes the token check, the hash is the SHA-256 of the plaintext, user ID and scope are copied, and expiry is now + ttl |
| DataTokens.GeneratedPlaintextValid | internal/data/tokens.go:44-57 | every generated plaintext passes ValidateTokenPlaintext |
| DataTokens.New | internal/data/tokens.go:63-71 | a failed random read gives no token and its error; otherwise the token is exactly the issued one and the insert's error is returned beside it |
| DataUsers.Password.Set | internal/data/users.go:27-37 | hashes at cost 12; plaintext and hash change only when hashing succeeds |
| DataUsers.Password.Matchs | internal/data/users.go:39-53 | a match is (true, no error); a mismatch is (false, no error); any other bcrypt failure is (false, that error) |
| DataUsers.ValidateEmail | internal/data/users.go:55-58 | the validator gains exactly the two email checks' errors |
| DataUsers.EmailErrorsFresh | internal/data/users.go:55-58 | valid iff the email is non-empty and matches; an empty email records only "must be provided" |
| DataUsers.ValidatePasswordPlaintext | internal/data/users.go:60-64 | the validator gains exactly the three password checks' errors |
| DataUsers.PasswordErrorsFresh | internal/data/users.go:60-64 | valid iff the password is 8 to 72 bytes; an empty one records only "must be provided" |
| DataUsers.ValidateUser | internal/data/users.go:66-79 | name, email, then the password only when its plaintext is set; a missing hash is a precondition (the source panics) |
| DataUsers.UserErrorsFresh | internal/data/users.go:66-74 | valid iff name is 1 to 500 bytes, the email is valid and a set password is valid; no password error without a plaintext |
| ApiHelpers.ReadIDParam | cmd/api/helpers.go:39-48 | succeeds iff the parameter parses as a base-10 int64 that is at least 1; otherwise (0, "invalid id parameter") |
| ApiHelpers.ReadIDParamFormat | cmd/api/helpers.go:39-48 | the decimal form of every positive int64 reads back as that id |
| ApiHelpers.ReadIDParamRejects | cmd/api/helpers.go:43-45 | zero, negative numbers and the empty parameter are rejected |
| ApiHelpers.ReadString | cmd/api/helpers.go:104-113 | the default iff the query value is empty, the value otherwise |
| ApiHelpers.ReadCSV | cmd/api/helpers.go:115-124 | the default on an empty value; otherwise a non-empty list of comma-free elements that joins back to the value |
| ApiHelpers.ReadCSVJoin | cmd/api/helpers.go:115-124 | a joined list of comma-free elements reads back as that list |
| ApiHelpers.ReadInt | cmd/api/helpers.go:126-140 | empty: default, validator unchanged; not an integer: default and "must be an integer value" under the key; otherwise the parsed value, validator unchanged |
| ApiMiddleware.MetricsResponseWriter.WriteHeader | cmd/api/middleware.go:29-36 | every status is forwarded; only the first is recorded |
| ApiMiddleware.MetricsResponseWriter.Write | cmd/api/middleware.go:38-45 | a write before any header forwards and records 200 first; the payload is always forwarded |
| ApiMiddleware.Allow | cmd/api/middleware.go:104-110 | admits iff a whole token is available after refilling; an admission takes one token; a denial leaves the limiter unchanged |
| ApiMiddleware.BurstThenDeny | cmd/api/middleware.go:104 | a new client's first four requests at one instant are admitted, the fifth is denied, and half a second later one more is admitted |
| ApiMiddleware.RefillAfterDeny | cmd/api/middleware.go:104-110 | a denied limiter admits again once half a second has passed since its last admission |
| ApiMiddleware.Bucket | cmd/api/middleware.go:103-105 | an unseen client gets a new, full limiter |
| ApiMiddleware.RateLimiter.Admit | cmd/api/middleware.go:95-119 | a malformed remote address is a server error with the table untouched; otherwise exactly the client's entry is created or kept, stamped with now and updated by Allow; the request passes iff Allow admits, and is refused as rate-limited otherwise |
| ApiMiddleware.Swept | cmd/api/middleware.go:84-89 | exactly the clients seen within the last three minutes remain, unchanged |
| ApiMiddleware.RateLimiter.Sweep | cmd/api/middleware.go:84-89 | the deletion loop leaves the table equal to Swept of the old one |
| ApiMiddleware.BearerToken | cmd/api/middleware.go:135-141 | a token is found only when the header is "Bearer " followed by a space-free token |
| ApiMiddleware.BearerTokenOf | cmd/api/middleware.go:135-141 | every such header yields its token |
| ApiMiddleware.Authenticate | cmd/api/middleware.go:127-165 | an empty header is the anonymous user; a user proceeds only when the header's token is found by the lookup in the authentication scope |
| ApiMiddleware.AuthenticateOutcomes | cmd/api/middleware.go:135-162 | malformed header, wrong-length token and unknown token give the invalid-token response; other lookup errors give a server error; a found user proceeds |
| ApiMiddleware.AuthenticateLooksUpOnlyWellFormed | cmd/api/middleware.go:135-151 | the store is not consulted without a well-formed 26-byte token |
| ApiMiddleware.AuthenticateRequest | cmd/api/middleware.go:125-127 | "Vary: Authorization" is always added, and the outcome is Authenticate's |
| ApiMiddleware.AuthenticatedGate | cmd/api/middleware.go:190-202 | requireAuthenticatedUser: the anonymous user gets authentication-required; every known user reaches the wrapped handler |
| ApiMiddleware.ActivatedGate | cmd/api/middleware.go:204-218 | requireActivatedUser: the anonymous user gets authentication-required, a known inactive user inactive-account, and only an activated user reaches the wrapped handler |
| ApiMiddleware.GateOrder | cmd/api/middleware.go:221-241 | requirePermission: anonymous users get authentication-required; inactive users get inactive-account; activated users get a server error on a lookup error, not-permitted without the code, and the handler otherwise |
| ApiMiddleware.GateLooksUpOnlyActivated | cmd/api/middleware.go:204-241 | the permission store is not consulted for anonymous or inactive users |
| ApiMiddleware.EnableCORS | cmd/api/middleware.go:244-269 | both Vary values are always added; Allow-Origin is set only for a non-empty, exactly trusted origin; a trusted preflight gets 200 with the fixed methods and headers and is not handed on; every other request is handed on |
| ApiMovies.MergeUpdate | cmd/api/movies.go:119-133 | title, year, runtime and genres are replaced only when present in the input; ID, version and creation time are kept |
| ApiMovies.MergedEmpty | cmd/api/movies.go:119-133 | an update with no fields leaves the movie as it was |
| ApiMovies.MergedIdempotent | cmd/api/movies.go:119-133 | applying the same update twice is applying it once |
| ApiMovies.MergedGenres | cmd/api/movies.go:131-133 | explicit empty genres clear them; absent genres keep them |
| ApiMovies.MergedCompose | cmd/api/movies.go:119-133 | two updates in a row equal one update in which the later present fields win |
| ApiMovies.LookupFailure | cmd/api/movies.go:69-77 | not-found iff the store reports a missing record, a server error otherwise |
| ApiMovies.ShowMovie | cmd/api/movies.go:58-84 | a bad id is not-found; a response with a body is 200 with the stored movie |
| ApiMovies.DeleteMovie | cmd/api/movies.go:163-185 | a bad id is not-found; success is 200 with "movie successfully deleted" |
| ApiMovies.ShowDeleteNotFound | cmd/api/movies.go:60-179 | show and delete answer not-found exactly for a bad id or a missing record; any other store error of show or delete is a server error |
| ApiMovies.UpdateMovie | cmd/api/movies.go:86-161 | bad id or missing record: not-found; bad body: bad-request; merged movie invalid: failed-validation and no update; edit conflict: edit-conflict; other update error: server error; otherwise 200 with the stored movie |
| ApiMovies.CreateMovie | cmd/api/movies.go:12-56 | bad body: bad-request; invalid movie: failed-validation; insert failure: server error; otherwise 201 with the inserted movie and a Location header naming its ID |
| ApiMovies.ReadListInput | cmd/api/movies.go:200-208 | title, genres, page, page_size and sort are read with their defaults, and only the two integer reads can record errors |
| ApiMovies.ListMovies | cmd/api/movies.go:187-226 | invalid query values give failed-validation with every recorded error, before the store is consulted; otherwise the store's answer |
| ApiMovies.ListDefaults | cmd/api/movies.go:200-208 | an empty query string means page 1, page_size 20, sort "id" with the eight-entry safelist, and it validates |
| ApiMovies.ListErrorsValid | cmd/api/movies.go:203-214 | the query validates iff page and page_size are absent or integers in range and the sort is safelisted |
| ApiMovies.SafelistColumns | internal/data/filters.go:26-35 | over the list handler's safelist, the sort column is id, title, year or runtime |
| ApiTokens.LoginErrorsValid | cmd/api/tokens.go:26-34 | the login input validates iff the email is present and well formed and the password is 8 to 72 bytes |
| ApiTokens.CreateAuthenticationToken | cmd/api/tokens.go:12-73 | bad body: bad-request; invalid input: failed-validation before any lookup; unknown email and wrong password: the same invalid-credentials; other lookup and bcrypt errors and a failed random read: server error; a matching password gets the token issued for the user in the authentication scope, expiring 24 hours after now, which is answered with 201 when its insert succeeds and with a server error when the insert fails |
| ApiRoutes.Find | cmd/api/routes.go:18-35 | the route found is in the table, has the request's method and matches the path; none is found only when no route does |
| ApiRoutes.Lookup | cmd/api/routes.go:15-16 | a matching route; method-not-allowed when only other methods match the path; not-found exactly when no route matches the path |
| ApiRoutes.Router.HandlerFunc | cmd/api/routes.go:18-35 | registering appends the route |
| ApiRoutes.Routes | cmd/api/routes.go:10-35 | the router holds the ten routes in registration order |
| ApiRoutes.RoutePermissions | cmd/api/routes.go:18-35 | whatever the request, a movie route needs movies:read for GET and movies:write otherwise; every other route is ungated |
| ApiRoutes.PatternTexts | cmd/api/routes.go:18-35 | the table's patterns are the registered path strings |
| ApiRoutes.MoviesCollection | cmd/api/routes.go:21-22 | GET /v1/movies reaches the list handler, POST the create handler |
| ApiRoutes.MoviesCollectionOtherMethods | cmd/api/routes.go:16-22 | every method other than GET, POST and OPTIONS on /v1/movies is not allowed |
| ApiRoutes.MovieItem | cmd/api/routes.go:23-25 | GET, PATCH and DELETE on /v1/movies/<id> reach show, update and delete for any non-empty id |
| ApiRoutes.MovieItemOtherMethods | cmd/api/routes.go:16-25 | every method other than GET, PATCH, DELETE and OPTIONS on /v1/movies/<id> is not allowed |
| ApiRoutes.LocationRoutesToShow | cmd/api/movies.go:50 | a created movie's Location leads to its show route |
| ApiRoutes.OutsideNotFound | cmd/api/routes.go:15 | a path outside /v1 and /debug is not found |
| ApiRoutes.ServeHTTP | cmd/api/routes.go:38 | a trusted preflight is answered before rate limiting; a malformed address is a server error with the table untouched; otherwise the client's bucket is updated by Allow, a denied request is refused as rate-limited, an admitted one gets the authentication failure, the router's not-found or not-allowed, the gate's refusal, or else is handled by the looked-up endpoint for the authenticated user; a handled request was admitted; a gated route is handled only for an activated user who holds its permission |
| Strings.JoinSplit | cmd/api/middleware.go:135 | joining the pieces of a split gives back the input |
| Strings.SplitJoin | cmd/api/helpers.go:123 | splitting a join of separator-free pieces gives back the pieces |
| Strings.ByteLenAscii | internal/data/tokens.go:56 | for ASCII text the byte length is the character count |
| Strings.Split | cmd/api/helpers.go:123 | there is at least one piece, and no piece contains the separator |
| Strconv.ParseFormat | internal/data/runtime.go:35 | every value in range formats and parses back to itself |
| Strconv.ParseInt | internal/data/runtime.go:35 | a value is found only for an optional sign followed by decimal digits, and only within the bit size's range |
| Strconv.DecodeChar | internal/data/runtime.go:24 | one character of a quoted body: a bare quote or newline is a syntax error; a plain character is itself; an escape takes two characters or more |
| Strconv.Unquote | internal/data/runtime.go:24 | a result needs matching opening and closing quote characters of one of the three kinds; a single-quoted literal holds exactly one character; a back-quoted one holds no back quote and loses its carriage returns |
| Strconv.UnquoteQuote | internal/data/runtime.go:18-24 | unquoting a quoted string gives it back |
| Strconv.UnquoteEscapedLeadingDigit | internal/data/runtime.go:24 | a plain text whose leading digit is written as a `\u` escape unquotes to the text itself |
| Strconv.QuotePlain | internal/data/runtime.go:18 | a string with no quote, backslash or newline is quoted by surrounding it with quotes |
| Strconv.EscapePlain | internal/data/runtime.go:18 | a string with no quote, backslash or newline is quoted without escapes |

## Left out

- cmd/api/server.go and cmd/api/main.go are not part of this model. They cover signal
  handling, graceful shutdown, flag parsing, the database pool and the listener.
  `rateLimit` hardcodes `rate.NewLimiter(2, 4)` and never reads the limiter
  configuration, so the model has no configurable rate and no switch to disable it.
- `background` and `recoverPanic`: goroutines and panic recovery.
- The sweep goroutine's minute-long sleep loop and the mutex. The sweep is one pass at
  an explicit time, and requests are handled one at a time.
- `metrics`: its expvar counters and timing. Only the `metricsResponseWriter` state is
  modelled, and `ServeHTTP` starts below the metrics and recoverPanic layers.
- ApiMiddleware.Allow: `golang.org/x/time/rate` computes with floating-point tokens and
  nanosecond times. The model is an integer bucket in thousandths of a token and
  milliseconds.
- `writeJSON`, `readJSON` and the `encoding/json` error messages. A body is given as
  its decoded value or an error message, and a successful response is a status and a
  body. `writeJSON` fails only when `json.MarshalIndent` does, before any header is
  written; that failure path to a server error is not modelled.
- ApiMovies.ListMovies: the pagination `metadata` that `Movies.GetAll` returns and
  listMoviesHandler puts beside the movies (cmd/api/movies.go:216-222) is not modelled.
  The metadata type is not part of this model, so `getAll` yields the movies only.
- `ValidateMovie`, `Movies.Insert/Get/Update/Delete/GetAll`, `Users.GetByEmail`,
  `Users.GetForToken`, `Permissions.GetAllForUser`, `Tokens.Insert`, bcrypt, SHA-256,
  `crypto/rand`, the EmailRX match and `net.SplitHostPort` are parameters of the
  members that use them.
- The responder helpers of errors.go are not part of this model. Each error response is
  a named value.
- The handlers of healthcheck, user registration and activation, and /debug/vars are
  only routes here.
- The mailer and the example CORS server.
- httprouter's automatic OPTIONS replies, its trailing-slash and path-cleaning
  redirects, and its precedence of static over parameter segments. Matching is
  segment by segment, with a `:name` segment matching any non-empty segment.
- Strconv.DecodeChar: a `\x` or octal escape denotes one byte, which Go appends to the
  string as it is. The model has characters, not bytes, and gives the character with
  that code. For a byte of 0x80 or more the result differs from Go's bytes. Such a
  string never decodes as a runtime either way.
- Strconv.Quote: only the double quote, the backslash and the newline are escaped. Go
  also escapes other control and non-printable characters, which never occur in the
  "<n> mins" text it is applied to.
- Strconv.ParseInt: Go's syntax and range errors are both `None`, because every caller
  treats them alike.
- Header keys are not canonicalised. The model uses the canonical spellings the source
  writes.
- DataTokens.ScopeAuthentication: its value is not defined in internal/data/tokens.go,
  and "authentication" is assumed.
- Time zones and `time.Time` precision: times are integers in milliseconds.
