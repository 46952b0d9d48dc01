/**
 * cmd/api/routes.go: the route table, with the permission each route is gated by,
 * httprouter's matching of a request to a route, and the order in which the
 * middleware handles a request.
 */
module ApiRoutes {
  import opened Wrappers
  import opened Strconv
  import opened Strings
  import opened Http
  import opened ApiErrors
  import DataUsers
  import ApiMiddleware

  /** The handlers the routes lead to. */
  datatype Endpoint =
    | Healthcheck | ListMovies | CreateMovie | ShowMovie | UpdateMovie | DeleteMovie
    | RegisterUser | ActivateUser | CreateAuthenticationToken | DebugVars

  /**
   * A registered route: method, path pattern, handler, and the permission its gate
   * requires, if gated. The pattern is kept as its "/"-separated segments, so
   * "/v1/movies/:id" is ["", "v1", "movies", ":id"].
   */
  datatype Route = Route(verb: string, pattern: seq<string>, endpoint: Endpoint, permission: Option<string>)

  /** The pattern as registered. */
  function PatternText(pattern: seq<string>): string
    requires |pattern| >= 1
  {
    Join(pattern, '/')
  }

  const MoviesRead := "movies:read"
  const MoviesWrite := "movies:write"

  /** A pattern segment ":name" matches any non-empty path segment; any other segment matches itself. */
  predicate SegmentMatches(pattern: string, segment: string) {
    if |pattern| > 0 && pattern[0] == ':' then segment != "" else pattern == segment
  }

  /** A path matches a pattern with as many "/"-separated segments, matching one by one. */
  predicate PathMatches(pattern: seq<string>, path: string) {
    var ss := Split(path, '/');
    |pattern| == |ss| && forall i :: 0 <= i < |pattern| ==> SegmentMatches(pattern[i], ss[i])
  }

  /** The first route registered for this method whose pattern matches the path. */
  function Find(routes: seq<Route>, verb: string, path: string): (r: Option<Route>)
    ensures r.Some? ==> r.value in routes && r.value.verb == verb && PathMatches(r.value.pattern, path)
    ensures r.None? ==> forall i :: 0 <= i < |routes| ==> !(routes[i].verb == verb && PathMatches(routes[i].pattern, path))
  {
    if routes == [] then None
    else if routes[0].verb == verb && PathMatches(routes[0].pattern, path) then Some(routes[0])
    else Find(routes[1..], verb, path)
  }

  /** Some route, for whatever method, matches the path. */
  predicate AnyPath(routes: seq<Route>, path: string) {
    exists i :: 0 <= i < |routes| && PathMatches(routes[i].pattern, path)
  }

  datatype Dispatch = Matched(route: Route) | Unrouted(response: ErrorResponse)

  /**
   * The router's answer: the matching route; method-not-allowed when the path is
   * known under other methods; not-found otherwise.
   */
  function Lookup(routes: seq<Route>, verb: string, path: string): (d: Dispatch)
    ensures d.Matched? ==> d.route in routes && d.route.verb == verb && PathMatches(d.route.pattern, path)
    ensures d.Unrouted? ==> forall i :: 0 <= i < |routes| ==> !(routes[i].verb == verb && PathMatches(routes[i].pattern, path))
    ensures d == Unrouted(NotFound) <==> !AnyPath(routes, path)
    ensures d.Unrouted? ==> d.response == NotFound || d.response == MethodNotAllowed
  {
    match Find(routes, verb, path)
    case Some(route) => Matched(route)
    case None => if AnyPath(routes, path) then Unrouted(MethodNotAllowed) else Unrouted(NotFound)
  }

  /** The router after routes(): the routes in registration order. */
  class Router {
    var routes: seq<Route>

    /** httprouter.New(). */
    constructor New()
      ensures routes == []
    {
      routes := [];
    }

    /** router.HandlerFunc (and router.Handler): registers one more route. */
    method HandlerFunc(verb: string, pattern: seq<string>, endpoint: Endpoint, permission: Option<string>)
      modifies this
      ensures routes == old(routes) + [Route(verb, pattern, endpoint, permission)]
    {
      routes := routes + [Route(verb, pattern, endpoint, permission)];
    }
  }

  const HealthcheckRoute := Route(MethodGet, ["", "v1", "healthcheck"], Healthcheck, None)
  const ListMoviesRoute := Route(MethodGet, ["", "v1", "movies"], ListMovies, Some(MoviesRead))
  const CreateMovieRoute := Route(MethodPost, ["", "v1", "movies"], CreateMovie, Some(MoviesWrite))
  const ShowMovieRoute := Route(MethodGet, ["", "v1", "movies", ":id"], ShowMovie, Some(MoviesRead))
  const UpdateMovieRoute := Route(MethodPatch, ["", "v1", "movies", ":id"], UpdateMovie, Some(MoviesWrite))
  const DeleteMovieRoute := Route(MethodDelete, ["", "v1", "movies", ":id"], DeleteMovie, Some(MoviesWrite))
  const RegisterUserRoute := Route(MethodPost, ["", "v1", "users"], RegisterUser, None)
  const ActivateUserRoute := Route(MethodPut, ["", "v1", "users", "activated"], ActivateUser, None)
  const CreateTokenRoute := Route(MethodPost, ["", "v1", "tokens", "authentication"], CreateAuthenticationToken, None)
  const DebugVarsRoute := Route(MethodGet, ["", "debug", "vars"], DebugVars, None)

  /** The routes routes() registers, in order. */
  const RouteTable := [HealthcheckRoute, ListMoviesRoute, CreateMovieRoute, ShowMovieRoute, UpdateMovieRoute,
                       DeleteMovieRoute, RegisterUserRoute, ActivateUserRoute, CreateTokenRoute, DebugVarsRoute]

  /** routes(): registers the ten routes, the movie routes behind requirePermission. */
  method Routes() returns (router: Router)
    ensures fresh(router)
    ensures router.routes == RouteTable
  {
    router := new Router.New();
    router.HandlerFunc(MethodGet, ["", "v1", "healthcheck"], Healthcheck, None);
    router.HandlerFunc(MethodGet, ["", "v1", "movies"], ListMovies, Some(MoviesRead));
    router.HandlerFunc(MethodPost, ["", "v1", "movies"], CreateMovie, Some(MoviesWrite));
    router.HandlerFunc(MethodGet, ["", "v1", "movies", ":id"], ShowMovie, Some(MoviesRead));
    router.HandlerFunc(MethodPatch, ["", "v1", "movies", ":id"], UpdateMovie, Some(MoviesWrite));
    router.HandlerFunc(MethodDelete, ["", "v1", "movies", ":id"], DeleteMovie, Some(MoviesWrite));
    router.HandlerFunc(MethodPost, ["", "v1", "users"], RegisterUser, None);
    router.HandlerFunc(MethodPut, ["", "v1", "users", "activated"], ActivateUser, None);
    router.HandlerFunc(MethodPost, ["", "v1", "tokens", "authentication"], CreateAuthenticationToken, None);
    router.HandlerFunc(MethodGet, ["", "debug", "vars"], DebugVars, None);
  }

  predicate IsMovieEndpoint(e: Endpoint) {
    e in {ListMovies, CreateMovie, ShowMovie, UpdateMovie, DeleteMovie}
  }

  /**
   * Whatever the request, the route it reaches is gated exactly when it is a movie
   * route: reading movies needs movies:read, changing them movies:write.
   */
  lemma RoutePermissions(verb: string, path: string)
    ensures Lookup(RouteTable, verb, path).Matched? ==>
              var route := Lookup(RouteTable, verb, path).route;
              && (IsMovieEndpoint(route.endpoint) && verb == MethodGet ==> route.permission == Some(MoviesRead))
              && (IsMovieEndpoint(route.endpoint) && verb != MethodGet ==> route.permission == Some(MoviesWrite))
              && (!IsMovieEndpoint(route.endpoint) ==> route.permission == None)
  {
    var d := Lookup(RouteTable, verb, path);
    if d.Matched? {
      assert GatedAsRegistered(d.route) by {
        forall i | 0 <= i < |RouteTable|
          ensures GatedAsRegistered(RouteTable[i])
        {
        }
      }
    }
  }

  /** A route needs movies:read for GET, movies:write otherwise, when it is a movie route, and nothing else. */
  predicate GatedAsRegistered(route: Route) {
    && (IsMovieEndpoint(route.endpoint) && route.verb == MethodGet ==> route.permission == Some(MoviesRead))
    && (IsMovieEndpoint(route.endpoint) && route.verb != MethodGet ==> route.permission == Some(MoviesWrite))
    && (!IsMovieEndpoint(route.endpoint) ==> route.permission == None)
  }

  /** Split of a path given by its segments. */
  lemma {:induction false} SegmentsOf(segments: seq<string>, path: string)
    requires |segments| >= 1 && forall i :: 0 <= i < |segments| ==> '/' !in segments[i]
    requires Join(segments, '/') == path
    ensures Split(path, '/') == segments
  {
    SplitJoin(segments, '/');
  }

  /** The table's patterns, written out as registered. */
  lemma PatternTexts()
    ensures PatternText(HealthcheckRoute.pattern) == "/v1/healthcheck"
    ensures PatternText(ListMoviesRoute.pattern) == "/v1/movies"
    ensures PatternText(ShowMovieRoute.pattern) == "/v1/movies/:id"
    ensures PatternText(RegisterUserRoute.pattern) == "/v1/users"
    ensures PatternText(ActivateUserRoute.pattern) == "/v1/users/activated"
    ensures PatternText(CreateTokenRoute.pattern) == "/v1/tokens/authentication"
    ensures PatternText(DebugVarsRoute.pattern) == "/debug/vars"
  {
    ShortPatternTexts();
    ItemPatternText();
    ActivatePatternText();
    TokenPatternText();
  }

  lemma ItemPatternText()
    ensures PatternText(ShowMovieRoute.pattern) == "/v1/movies/:id"
  {
    JoinFour("v1", "movies", ":id");
    assert "/" + "v1" + "/" + "movies" + "/" + ":id" == "/v1/movies/:id";
  }

  lemma ActivatePatternText()
    ensures PatternText(ActivateUserRoute.pattern) == "/v1/users/activated"
  {
    JoinFour("v1", "users", "activated");
    assert "/" + "v1" + "/" + "users" + "/" + "activated" == "/v1/users/activated";
  }

  lemma TokenPatternText()
    ensures PatternText(CreateTokenRoute.pattern) == "/v1/tokens/authentication"
  {
    JoinFour("v1", "tokens", "authentication");
    assert "/" + "v1" + "/" + "tokens" + "/" + "authentication" == "/v1/tokens/authentication";
  }

  lemma ShortPatternTexts()
    ensures PatternText(HealthcheckRoute.pattern) == "/v1/healthcheck"
    ensures PatternText(ListMoviesRoute.pattern) == "/v1/movies"
    ensures PatternText(RegisterUserRoute.pattern) == "/v1/users"
    ensures PatternText(DebugVarsRoute.pattern) == "/debug/vars"
  {
    HealthcheckPatternText();
    CollectionPatternText();
    UsersPatternText();
    DebugPatternText();
  }

  lemma HealthcheckPatternText()
    ensures PatternText(HealthcheckRoute.pattern) == "/v1/healthcheck"
  {
    JoinThree("v1", "healthcheck");
    assert "/" + "v1" + "/" + "healthcheck" == "/v1/healthcheck";
  }

  lemma CollectionPatternText()
    ensures PatternText(ListMoviesRoute.pattern) == "/v1/movies"
  {
    JoinThree("v1", "movies");
    assert "/" + "v1" + "/" + "movies" == "/v1/movies";
  }

  lemma UsersPatternText()
    ensures PatternText(RegisterUserRoute.pattern) == "/v1/users"
  {
    JoinThree("v1", "users");
    assert "/" + "v1" + "/" + "users" == "/v1/users";
  }

  lemma DebugPatternText()
    ensures PatternText(DebugVarsRoute.pattern) == "/debug/vars"
  {
    JoinThree("debug", "vars");
    assert "/" + "debug" + "/" + "vars" == "/debug/vars";
  }

  lemma JoinThree(a: string, b: string)
    ensures Join(["", a, b], '/') == "/" + a + "/" + b
  {
    assert Join([b], '/') == b;
    assert Join([a, b], '/') == a + "/" + b;
    assert Join(["", a, b], '/') == "" + "/" + (a + "/" + b);
  }

  lemma JoinFour(a: string, b: string, c: string)
    ensures Join(["", a, b, c], '/') == "/" + a + "/" + b + "/" + c
  {
    assert Join([c], '/') == c;
    assert Join([b, c], '/') == b + "/" + c;
    assert Join([a, b, c], '/') == a + "/" + (b + "/" + c);
    assert Join(["", a, b, c], '/') == "" + "/" + (a + "/" + (b + "/" + c));
  }

  /** A path of the form "/a/b/c" has the segments "", a, b and c. */
  lemma FourSegments(a: string, b: string, c: string)
    requires '/' !in a && '/' !in b && '/' !in c
    ensures Split("/" + a + "/" + b + "/" + c, '/') == ["", a, b, c]
  {
    JoinFour(a, b, c);
    SegmentsOf(["", a, b, c], "/" + a + "/" + b + "/" + c);
  }

  /** Find answers the first route of the method whose pattern matches. */
  lemma {:induction false} FindAt(routes: seq<Route>, verb: string, path: string, k: nat)
    requires k < |routes| && routes[k].verb == verb && PathMatches(routes[k].pattern, path)
    requires forall j :: 0 <= j < k ==> !(routes[j].verb == verb && PathMatches(routes[j].pattern, path))
    ensures Find(routes, verb, path) == Some(routes[k])
    decreases k
  {
    if k > 0 {
      assert !(routes[0].verb == verb && PathMatches(routes[0].pattern, path));
      FindAt(routes[1..], verb, path, k - 1);
    }
  }

  /** GET /v1/movies lists the movies and POST /v1/movies creates one. */
  lemma MoviesCollection(path: string)
    requires Split(path, '/') == ["", "v1", "movies"]
    ensures Lookup(RouteTable, MethodGet, path) == Matched(ListMoviesRoute)
    ensures Lookup(RouteTable, MethodPost, path) == Matched(CreateMovieRoute)
  {
    CollectionPatterns(path);
    FindAt(RouteTable, MethodGet, path, 1);
    FindAt(RouteTable, MethodPost, path, 2);
  }

  /** Other methods on /v1/movies are not allowed. */
  lemma MoviesCollectionOtherMethods(verb: string, path: string)
    requires Split(path, '/') == ["", "v1", "movies"]
    requires verb != MethodGet && verb != MethodPost && verb != MethodOptions
    ensures Lookup(RouteTable, verb, path) == Unrouted(MethodNotAllowed)
  {
    CollectionPatterns(path);
    NotAllowedAt(RouteTable, verb, path, 1);
  }

  /** A path some route matches, but no route of the method, is answered with method-not-allowed. */
  lemma NotAllowedAt(routes: seq<Route>, verb: string, path: string, k: nat)
    requires k < |routes| && PathMatches(routes[k].pattern, path)
    requires forall i :: 0 <= i < |routes| ==> !(routes[i].verb == verb && PathMatches(routes[i].pattern, path))
    ensures Lookup(routes, verb, path) == Unrouted(MethodNotAllowed)
  {
  }

  /** A path no route matches is answered with not-found. */
  lemma NotFoundWhenNoPattern(routes: seq<Route>, verb: string, path: string)
    requires forall i :: 0 <= i < |routes| ==> !PathMatches(routes[i].pattern, path)
    ensures Lookup(routes, verb, path) == Unrouted(NotFound)
  {
  }

  /** Only the two /v1/movies patterns match a path with the segments "", "v1", "movies". */
  lemma CollectionPatterns(path: string)
    requires Split(path, '/') == ["", "v1", "movies"]
    ensures forall j :: 0 <= j < |RouteTable| ==> (PathMatches(RouteTable[j].pattern, path) <==> j == 1 || j == 2)
  {
    forall j | 0 <= j < |RouteTable|
      ensures PathMatches(RouteTable[j].pattern, path) <==> j == 1 || j == 2
    {
      if j == 0 {
        assert RouteTable[j].pattern[2] != "movies";
      } else if j >= 3 {
        assert |RouteTable[j].pattern| != 3 || RouteTable[j].pattern[1..] != ["v1", "movies"];
      }
    }
  }

  /** Only the three /v1/movies/:id patterns match a path with the segments "", "v1", "movies" and a non-empty id. */
  lemma ItemPatterns(path: string)
    requires |Split(path, '/')| == 4 && Split(path, '/')[..3] == ["", "v1", "movies"] && Split(path, '/')[3] != ""
    ensures forall j :: 0 <= j < |RouteTable| ==> (PathMatches(RouteTable[j].pattern, path) <==> 3 <= j <= 5)
  {
    var ss := Split(path, '/');
    assert ss[0] == "" && ss[1] == "v1" && ss[2] == "movies";
    forall j | 0 <= j < |RouteTable|
      ensures PathMatches(RouteTable[j].pattern, path) <==> 3 <= j <= 5
    {
      if j == 7 {
        assert RouteTable[j].pattern[2] != "movies";
      } else if j == 8 {
        assert RouteTable[j].pattern[2] != "movies";
      }
    }
  }

  /** GET, PATCH and DELETE /v1/movies/<id> show, update and delete the movie, for any non-empty id. */
  lemma MovieItem(path: string)
    requires |Split(path, '/')| == 4 && Split(path, '/')[..3] == ["", "v1", "movies"] && Split(path, '/')[3] != ""
    ensures Lookup(RouteTable, MethodGet, path) == Matched(ShowMovieRoute)
    ensures Lookup(RouteTable, MethodPatch, path) == Matched(UpdateMovieRoute)
    ensures Lookup(RouteTable, MethodDelete, path) == Matched(DeleteMovieRoute)
  {
    ItemAt(path, 3);
    ItemAt(path, 4);
    ItemAt(path, 5);
  }

  lemma ItemAt(path: string, k: nat)
    requires |Split(path, '/')| == 4 && Split(path, '/')[..3] == ["", "v1", "movies"] && Split(path, '/')[3] != ""
    requires 3 <= k <= 5
    ensures Lookup(RouteTable, RouteTable[k].verb, path) == Matched(RouteTable[k])
  {
    ItemPatterns(path);
    FindAt(RouteTable, RouteTable[k].verb, path, k);
  }

  /** Other methods on /v1/movies/<id> are not allowed. */
  lemma MovieItemOtherMethods(verb: string, path: string)
    requires |Split(path, '/')| == 4 && Split(path, '/')[..3] == ["", "v1", "movies"] && Split(path, '/')[3] != ""
    requires verb != MethodGet && verb != MethodPatch && verb != MethodDelete && verb != MethodOptions
    ensures Lookup(RouteTable, verb, path) == Unrouted(MethodNotAllowed)
  {
    ItemPatterns(path);
    NotAllowedAt(RouteTable, verb, path, 3);
  }

  /** The Location header of a created movie leads to its show route. */
  lemma LocationRoutesToShow(id: Int64)
    ensures Lookup(RouteTable, MethodGet, "/v1/movies/" + FormatInt(id)) == Matched(ShowMovieRoute)
  {
    ItemPathSegments(FormatInt(id));
    MovieItem("/v1/movies/" + FormatInt(id));
  }

  /** The path of a movie item has the segments "", "v1", "movies" and the id. */
  lemma ItemPathSegments(x: string)
    requires '/' !in x
    ensures Split("/v1/movies/" + x, '/') == ["", "v1", "movies", x]
  {
    assert "/" + "v1" + "/" + "movies" + "/" + x == "/v1/movies/" + x;
    FourSegments("v1", "movies", x);
  }

  /** A path outside /v1 and /debug is not found, whatever the method. */
  lemma OutsideNotFound(verb: string, path: string)
    requires |Split(path, '/')| < 2 || Split(path, '/')[1] !in {"v1", "debug"}
    ensures Lookup(RouteTable, verb, path) == Unrouted(NotFound)
  {
    forall i | 0 <= i < |RouteTable|
      ensures !PathMatches(RouteTable[i].pattern, path)
    {
      if |Split(path, '/')| >= 2 {
        assert !SegmentMatches(RouteTable[i].pattern[1], Split(path, '/')[1]);
      }
    }
    NotFoundWhenNoPattern(RouteTable, verb, path);
  }

  // ----- The middleware chain -----

  /** What became of a request. */
  datatype Served =
    | Preflight
    | Refused(response: ErrorResponse)
    | Handled(endpoint: Endpoint, user: DataUsers.Principal)

  /** The end of a gate chain: every gate passed. */
  function Reached(): ApiMiddleware.Handler {
    (user: DataUsers.Principal) => ApiMiddleware.Next
  }

  /** A route's gate: requirePermission with the route's code, or nothing for an ungated route. */
  function Gate(route: Route, permissionsFor: Int64 -> Result<seq<string>, StoreError>, user: DataUsers.Principal)
    : ApiMiddleware.Decision
  {
    if route.permission.None? then ApiMiddleware.Next
    else ApiMiddleware.RequirePermission(route.permission.value, permissionsFor, Reached())(user)
  }

  /**
   * A request through enableCORS, rateLimit, authenticate, the router and the
   * route's gate, in that order (metrics and recoverPanic, the two outer layers, do
   * not decide anything). `host` is what net.SplitHostPort made of the remote
   * address; `getForToken` and `permissionsFor` stand for the store lookups.
   */
  method ServeHTTP(router: Router, limiter: ApiMiddleware.RateLimiter, w: Writer, r: Request,
                   trustedOrigins: seq<string>, host: Option<string>, now: int,
                   getForToken: (string, string) -> Result<DataUsers.User, StoreError>,
                   permissionsFor: Int64 -> Result<seq<string>, StoreError>)
    returns (served: Served)
    requires limiter.Valid()
    modifies limiter, w
    ensures limiter.Valid()
    ensures ApiMiddleware.TrustedPreflight(r, trustedOrigins) ==>
              served == Preflight && limiter.clients == old(limiter.clients)
    ensures !ApiMiddleware.TrustedPreflight(r, trustedOrigins) && host.None? ==>
              served == Refused(ServerError) && limiter.clients == old(limiter.clients)
    ensures !ApiMiddleware.TrustedPreflight(r, trustedOrigins) && host.Some? ==>
              var bucket := ApiMiddleware.Bucket(old(limiter.clients), host.value);
              var admitted := ApiMiddleware.Allow(bucket, now).0;
              var auth := ApiMiddleware.Authenticate(Get(r.header, "Authorization"), getForToken);
              var dispatch := Lookup(router.routes, r.verb, r.path);
              && host.value in limiter.clients
              && limiter.clients[host.value] == ApiMiddleware.Client(ApiMiddleware.Allow(bucket, now).1, now)
              && (!admitted ==> served == Refused(RateLimitExceeded))
              && (admitted && auth.Halt? ==> served == Refused(auth.response))
              && (admitted && auth.Proceed? && dispatch.Unrouted? ==> served == Refused(dispatch.response))
              && (admitted && auth.Proceed? && dispatch.Matched? ==>
                    var gate := Gate(dispatch.route, permissionsFor, auth.user);
                    && (gate.Next? ==> served == Handled(dispatch.route.endpoint, auth.user))
                    && (gate.Reject? ==> served == Refused(gate.response)))
    ensures served.Handled? ==> host.Some? && ApiMiddleware.Allow(ApiMiddleware.Bucket(old(limiter.clients), host.value), now).0
    ensures served.Handled? ==>
              && !ApiMiddleware.TrustedPreflight(r, trustedOrigins) && host.Some?
              && ApiMiddleware.Authenticate(Get(r.header, "Authorization"), getForToken) == ApiMiddleware.Proceed(served.user)
              && Lookup(router.routes, r.verb, r.path).Matched?
              && served.endpoint == Lookup(router.routes, r.verb, r.path).route.endpoint
    ensures served.Handled? && Lookup(router.routes, r.verb, r.path).route.permission.Some? ==>
              var code := Lookup(router.routes, r.verb, r.path).route.permission.value;
              && served.user.Known? && served.user.user.activated
              && permissionsFor(served.user.user.id).Success?
              && code in permissionsFor(served.user.user.id).value
  {
    var cors := ApiMiddleware.EnableCORS(w, r, trustedOrigins);
    if cors == ApiMiddleware.Preflighted {
      return Preflight;
    }
    var admitted := limiter.Admit(host, now);
    if admitted.Reject? {
      return Refused(admitted.response);
    }
    var authenticated := ApiMiddleware.AuthenticateRequest(w, r, getForToken);
    if authenticated.Halt? {
      return Refused(authenticated.response);
    }
    var user := authenticated.user;
    var dispatch := Lookup(router.routes, r.verb, r.path);
    if dispatch.Unrouted? {
      return Refused(dispatch.response);
    }
    var route := dispatch.route;
    if route.permission.Some? {
      ApiMiddleware.GateOrder(route.permission.value, permissionsFor, Reached(), user);
    }
    var gate := Gate(route, permissionsFor, user);
    if gate.Reject? {
      return Refused(gate.response);
    }
    return Handled(route.endpoint, user);
  }
}
