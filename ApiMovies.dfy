/**
 * cmd/api/movies.go: the movie handlers' decisions. The JSON reader, the movie
 * validator and the store are parameters; each handler yields the response it
 * sends.
 */
module ApiMovies {
  import opened Wrappers
  import opened Strconv
  import opened Http
  import opened ApiErrors
  import opened ApiHelpers
  import Strings
  import Validator
  import DataFilters
  import DataRuntime

  /** data.Movie. */
  datatype Movie = Movie(id: Int64, createdAt: int, title: string, year: Int32,
                         runtime: DataRuntime.Runtime, genres: seq<string>, version: Int32)

  /**
   * The input of updateMovieHandler: None for a field absent from the body (a nil
   * reference, or nil genres).
   */
  datatype UpdateInput = UpdateInput(title: Option<string>, year: Option<Int32>,
                                     runtime: Option<DataRuntime.Runtime>, genres: Option<seq<string>>)

  /** The input of createMovieHandler. */
  datatype CreateInput = CreateInput(title: string, year: Int32, runtime: DataRuntime.Runtime, genres: seq<string>)

  /** The value of a field after a partial update: the input's when present, the stored one otherwise. */
  function Pick<T>(input: Option<T>, stored: T): T {
    if input.Some? then input.value else stored
  }

  /** The stored movie after a partial update, field by field. */
  function Merged(movie: Movie, input: UpdateInput): Movie {
    movie.(title := Pick(input.title, movie.title),
           year := Pick(input.year, movie.year),
           runtime := Pick(input.runtime, movie.runtime),
           genres := Pick(input.genres, movie.genres))
  }

  /** The field updates of updateMovieHandler, applied one after another to the stored movie. */
  method MergeUpdate(stored: Movie, input: UpdateInput) returns (movie: Movie)
    ensures movie == Merged(stored, input)
    ensures movie.id == stored.id && movie.version == stored.version && movie.createdAt == stored.createdAt
    ensures input.title.Some? ==> movie.title == input.title.value
    ensures input.title.None? ==> movie.title == stored.title
    ensures input.genres.Some? ==> movie.genres == input.genres.value
    ensures input.genres.None? ==> movie.genres == stored.genres
  {
    movie := stored;
    if input.title.Some? {
      movie := movie.(title := input.title.value);
    }
    if input.year.Some? {
      movie := movie.(year := input.year.value);
    }
    if input.runtime.Some? {
      movie := movie.(runtime := input.runtime.value);
    }
    if input.genres.Some? {
      movie := movie.(genres := input.genres.value);
    }
  }

  /** An update with no fields leaves the movie as it was. */
  lemma MergedEmpty(movie: Movie)
    ensures Merged(movie, UpdateInput(None, None, None, None)) == movie
  {
  }

  /** Applying the same update twice is applying it once. */
  lemma MergedIdempotent(movie: Movie, input: UpdateInput)
    ensures Merged(Merged(movie, input), input) == Merged(movie, input)
  {
  }

  /** An explicit empty genre list clears the genres; absent genres keep them. */
  lemma MergedGenres(movie: Movie, input: UpdateInput)
    ensures input.genres == Some([]) ==> Merged(movie, input).genres == []
    ensures input.genres == None ==> Merged(movie, input).genres == movie.genres
  {
  }

  /** Two updates in a row are one update where the later present fields win. */
  lemma MergedCompose(movie: Movie, first: UpdateInput, second: UpdateInput)
    ensures Merged(Merged(movie, first), second) ==
            Merged(movie, UpdateInput(if second.title.Some? then second.title else first.title,
                                      if second.year.Some? then second.year else first.year,
                                      if second.runtime.Some? then second.runtime else first.runtime,
                                      if second.genres.Some? then second.genres else first.genres))
  {
  }

  /** The response for a store failure where a missing record means not-found. */
  function LookupFailure(err: StoreError): (e: ErrorResponse)
    ensures e == NotFound <==> err == RecordNotFound
    ensures e != NotFound ==> e == ServerError
  {
    if err == RecordNotFound then NotFound else ServerError
  }

  /** showMovieHandler. `get` stands for Movies.Get. */
  function ShowMovie(idParam: string, get: Int64 -> Result<Movie, StoreError>): (resp: Response<Movie>)
    ensures ReadIDParam(idParam).1.Some? ==> resp == Error(NotFound)
    ensures resp.Json? ==> get(ReadIDParam(idParam).0).Success? && resp == Json(StatusOK, get(ReadIDParam(idParam).0).value)
  {
    var (id, err) := ReadIDParam(idParam);
    if err.Some? then Error(NotFound)
    else
      match get(id)
      case Failure(e) => Error(LookupFailure(e))
      case Success(movie) => Json(StatusOK, movie)
  }

  const DeletedMessage := "movie successfully deleted"

  /** deleteMovieHandler. `delete` stands for Movies.Delete. */
  function DeleteMovie(idParam: string, delete: Int64 -> Option<StoreError>): (resp: Response<string>)
    ensures ReadIDParam(idParam).1.Some? ==> resp == Error(NotFound)
    ensures resp.Json? ==> resp == Json(StatusOK, DeletedMessage)
  {
    var (id, err) := ReadIDParam(idParam);
    if err.Some? then Error(NotFound)
    else
      match delete(id)
      case Some(e) => Error(LookupFailure(e))
      case None => Json(StatusOK, DeletedMessage)
  }

  /**
   * The id and lookup outcomes map alike in the show and delete handlers: a bad id
   * or a missing record is not-found, any other store error a server error.
   */
  lemma ShowDeleteNotFound(idParam: string, get: Int64 -> Result<Movie, StoreError>,
                           delete: Int64 -> Option<StoreError>)
    ensures ShowMovie(idParam, get) == Error(NotFound) <==>
              ReadIDParam(idParam).1.Some? || get(ReadIDParam(idParam).0) == Failure(RecordNotFound)
    ensures DeleteMovie(idParam, delete) == Error(NotFound) <==>
              ReadIDParam(idParam).1.Some? || delete(ReadIDParam(idParam).0) == Some(RecordNotFound)
    ensures (ReadIDParam(idParam).1.None? && get(ReadIDParam(idParam).0).Failure? &&
             get(ReadIDParam(idParam).0).error != RecordNotFound) ==> ShowMovie(idParam, get) == Error(ServerError)
    ensures (ReadIDParam(idParam).1.None? && delete(ReadIDParam(idParam).0).Some? &&
             delete(ReadIDParam(idParam).0).value != RecordNotFound) ==> DeleteMovie(idParam, delete) == Error(ServerError)
  {
  }

  /**
   * updateMovieHandler. `readJSON` is the decoded body or its error message,
   * `validateMovie` the errors ValidateMovie records on a fresh validator, and
   * `update` stands for Movies.Update, which answers the movie as stored.
   */
  method UpdateMovie(idParam: string, get: Int64 -> Result<Movie, StoreError>,
                     readJSON: Result<UpdateInput, string>, validateMovie: Movie -> Validator.Errors,
                     update: Movie -> Result<Movie, StoreError>)
    returns (resp: Response<Movie>)
    ensures ReadIDParam(idParam).1.Some? ==> resp == Error(NotFound)
    ensures ReadIDParam(idParam).1.None? ==>
              var stored := get(ReadIDParam(idParam).0);
              && (stored.Failure? ==> resp == Error(LookupFailure(stored.error)))
              && (stored.Success? && readJSON.Failure? ==> resp == Error(BadRequest(readJSON.error)))
              && (stored.Success? && readJSON.Success? ==>
                    var movie := Merged(stored.value, readJSON.value);
                    && (validateMovie(movie) != map[] ==> resp == Error(FailedValidation(validateMovie(movie))))
                    && (validateMovie(movie) == map[] && update(movie) == Failure(EditConflict) ==>
                          resp == Error(EditConflictResponse))
                    && (validateMovie(movie) == map[] && update(movie).Failure? && update(movie).error != EditConflict ==>
                          resp == Error(ServerError))
                    && (validateMovie(movie) == map[] && update(movie).Success? ==>
                          resp == Json(StatusOK, update(movie).value)))
  {
    var (id, err) := ReadIDParam(idParam);
    if err.Some? {
      return Error(NotFound);
    }
    var stored := get(id);
    if stored.Failure? {
      return Error(LookupFailure(stored.error));
    }
    if readJSON.Failure? {
      return Error(BadRequest(readJSON.error));
    }
    var movie := MergeUpdate(stored.value, readJSON.value);
    var v := new Validator.Validator.New();
    // ValidateMovie is not part of this model: its findings are recorded as a whole.
    v.errors := validateMovie(movie);
    if !v.Valid() {
      return Error(FailedValidation(v.errors));
    }
    var updated := update(movie);
    if updated.Failure? {
      if updated.error == EditConflict {
        return Error(EditConflictResponse);
      }
      return Error(ServerError);
    }
    return Json(StatusOK, updated.value);
  }

  /** The Location header of a created movie. */
  function Location(id: Int64): (path: string)
    ensures path == "/v1/movies/" + FormatInt(id)
  {
    "/v1/movies/" + FormatInt(id)
  }

  /**
   * createMovieHandler: the response and, on success, its Location header.
   * `insert` stands for Movies.Insert, which answers the movie with its ID,
   * creation time and version filled in.
   */
  function CreateMovie(readJSON: Result<CreateInput, string>, validateMovie: Movie -> Validator.Errors,
                       insert: Movie -> Result<Movie, StoreError>)
    : (r: (Response<Movie>, Option<string>))
    ensures r.1.Some? <==> r.0.Json?
    ensures r.0.Json? ==> r.0.status == StatusCreated && r.1 == Some(Location(r.0.body.id))
    ensures readJSON.Failure? ==> r.0 == Error(BadRequest(readJSON.error))
    ensures readJSON.Success? ==>
              var input := readJSON.value;
              var movie := Movie(0, 0, input.title, input.year, input.runtime, input.genres, 0);
              && (validateMovie(movie) != map[] ==> r.0 == Error(FailedValidation(validateMovie(movie))))
              && (validateMovie(movie) == map[] && insert(movie).Failure? ==> r.0 == Error(ServerError))
              && (validateMovie(movie) == map[] && insert(movie).Success? ==> r.0 == Json(StatusCreated, insert(movie).value))
  {
    match readJSON
    case Failure(message) => (Error(BadRequest(message)), None)
    case Success(input) =>
      var movie := Movie(0, 0, input.title, input.year, input.runtime, input.genres, 0);
      var errs := validateMovie(movie);
      if errs != map[] then (Error(FailedValidation(errs)), None)
      else
        match insert(movie)
        case Failure(_) => (Error(ServerError), None)
        case Success(created) => (Json(StatusCreated, created), Some(Location(created.id)))
  }

  const DefaultPage := 1
  const DefaultPageSize := 20
  const DefaultSort := "id"
  const SortSafelist := ["id", "title", "year", "runtime", "-id", "-title", "-year", "-runtime"]

  /** The parsed query string of listMoviesHandler. */
  datatype ListInput = ListInput(title: string, genres: seq<string>, filters: DataFilters.Filters)

  /** The integer read by readInt when it succeeds, or the default. */
  function IntOr(qs: Header, key: string, defaultValue: int): int {
    var s := Get(qs, key);
    if s == "" || Atoi(s).None? then defaultValue else Atoi(s).value
  }

  /** The errors readInt records for a key: one when the value is present but not an integer. */
  function IntErrors(errs: Validator.Errors, qs: Header, key: string): Validator.Errors {
    var s := Get(qs, key);
    Validator.Checked(errs, s == "" || Atoi(s).Some?, key, IntegerMessage)
  }

  /** The input listMoviesHandler reads from the query string. */
  function ListInputOf(qs: Header): ListInput {
    ListInput(ReadString(qs, "title", ""), ReadCSV(qs, "genres", []),
              DataFilters.Filters(IntOr(qs, "page", DefaultPage), IntOr(qs, "page_size", DefaultPageSize),
                                  ReadString(qs, "sort", DefaultSort), SortSafelist))
  }

  /** All the errors of listMoviesHandler's validator: the two integer reads, then the filters. */
  function ListErrors(qs: Header): Validator.Errors {
    var e := IntErrors(IntErrors(map[], qs, "page"), qs, "page_size");
    DataFilters.FilterErrors(e, ListInputOf(qs).filters)
  }

  /** The query-string reads of listMoviesHandler, in order, recording integer errors in `v`. */
  method ReadListInput(qs: Header, v: Validator.Validator) returns (input: ListInput)
    modifies v
    ensures input == ListInputOf(qs)
    ensures v.errors == IntErrors(IntErrors(old(v.errors), qs, "page"), qs, "page_size")
  {
    var title := ReadString(qs, "title", "");
    var genres := ReadCSV(qs, "genres", []);
    var page := ReadInt(qs, "page", DefaultPage, v);
    var pageSize := ReadInt(qs, "page_size", DefaultPageSize, v);
    var sort := ReadString(qs, "sort", DefaultSort);
    input := ListInput(title, genres, DataFilters.Filters(page, pageSize, sort, SortSafelist));
  }

  /**
   * listMoviesHandler. `getAll` stands for Movies.GetAll; it is called only once
   * the query string has validated.
   */
  method ListMovies(qs: Header, getAll: (string, seq<string>, DataFilters.Filters) -> Result<seq<Movie>, StoreError>)
    returns (resp: Response<seq<Movie>>)
    ensures ListErrors(qs) != map[] ==> resp == Error(FailedValidation(ListErrors(qs)))
    ensures ListErrors(qs) == map[] ==>
              var input := ListInputOf(qs);
              var result := getAll(input.title, input.genres, input.filters);
              && (result.Failure? ==> resp == Error(ServerError))
              && (result.Success? ==> resp == Json(StatusOK, result.value))
  {
    var v := new Validator.Validator.New();
    var input := ReadListInput(qs, v);
    DataFilters.ValidateFilters(v, input.filters);
    if !v.Valid() {
      return Error(FailedValidation(v.errors));
    }
    var result := getAll(input.title, input.genres, input.filters);
    if result.Failure? {
      return Error(ServerError);
    }
    return Json(StatusOK, result.value);
  }

  /** An empty query string lists with page 1, 20 per page, sorted by id, and validates. */
  lemma ListDefaults()
    ensures ListInputOf(map[]) == ListInput("", [], DataFilters.Filters(1, 20, "id", SortSafelist))
    ensures ListErrors(map[]) == map[]
  {
    DataFilters.FilterErrorsFresh(DataFilters.Filters(1, 20, "id", SortSafelist));
  }

  /**
   * The query string validates exactly when page and page_size are absent or
   * integers in range and the sort is one of the eight safelisted values.
   */
  lemma ListErrorsValid(qs: Header)
    ensures ListErrors(qs) == map[] <==>
              (Get(qs, "page") == "" || Atoi(Get(qs, "page")).Some?) &&
              (Get(qs, "page_size") == "" || Atoi(Get(qs, "page_size")).Some?) &&
              DataFilters.FiltersOk(ListInputOf(qs).filters)
  {
    var e := IntErrors(IntErrors(map[], qs, "page"), qs, "page_size");
    if e == map[] {
      DataFilters.FilterErrorsFresh(ListInputOf(qs).filters);
    }
  }

  /** Every safelisted sort selects one of the four movie columns. */
  method SafelistColumns(sort: string) returns (column: string)
    requires sort in SortSafelist
    ensures column in {"id", "title", "year", "runtime"}
  {
    column := DataFilters.SortColumn(DataFilters.Filters(DefaultPage, DefaultPageSize, sort, SortSafelist));
    if sort in SortSafelist[..4] {
      assert sort[0] != '-';
    } else {
      assert sort in SortSafelist[4..];
      assert column == ("-" + column)[1..] == sort[1..];
    }
  }
}
