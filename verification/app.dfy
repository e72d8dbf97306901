/** The web layer: input validation of every route, the search dispatch, the fallback
    `recommend` used when the pipeline cannot be imported, the layer's own streaming
    lookup and the fuzzy title match. A route's answer is a status and a JSON body, or an
    exception the route does not catch (which the framework turns into a 500 page). */
module App {
  import opened Common
  import opened PyStr
  import opened Tmdb
  import TrainModel

  /** TMDB genre ids by the exact (lower-case) query that selects them. */
  const GenreKeywords: map<string, int> := map[
    "action" := 28, "adventure" := 12, "animation" := 16, "comedy" := 35,
    "crime" := 80, "documentary" := 99, "drama" := 18, "family" := 10751,
    "fantasy" := 14, "history" := 36, "horror" := 27, "music" := 10402,
    "mystery" := 9648, "romance" := 10749, "science fiction" := 878,
    "tv movie" := 10770, "thriller" := 53, "war" := 10752, "western" := 37]

  const RecommendDefaultK := 9
  const FullRecommendationsDefaultK := 19
  const FuzzyThreshold: real := 70.0
  const ActorType := "actor"
  const NameRequired := "Movie name is required!"
  const QueryRequired := "Query is required!"

  /** What `search_actor` and `fetch_movies` answer: the `results` list, or an error. */
  datatype Fetched = Movies(movies: seq<Hit>) | FetchFailed(message: string)

  /** `search_actor(name)`, the genre discover call and the title search, by their input. */
  datatype Finder = Finder(actor: string -> Fetched, genre: int -> Fetched, title: string -> Fetched)

  /** The layer's globals: the imported pipeline (None when the import failed), its own
      `TMDB_API_KEY` lookup, TMDB as it answers with that key, and the search helpers. */
  datatype AppEnv = AppEnv(pipeline: Option<TrainModel.Env>, apiKey: Option<string>, api: Api, finder: Finder)

  datatype Body =
    | ErrorBody(message: string)
    | MovieList(movies: seq<Hit>)
    | Recommendations(entries: seq<TrainModel.Entry>)
    | Streaming(free: seq<Option<string>>, paid: seq<Option<string>>)
    | MovieInfo(details: TrainModel.MovieDetails)

  datatype Response = Response(status: int, body: Body) | Unhandled

  /** `if not API_KEY`: the variable is unset or empty. */
  predicate HasKey(apiKey: Option<string>) {
    apiKey.Some? && apiKey.value != ""
  }

  /** `request.args.get(name, "").strip()`. */
  function Param(p: Option<string>): string {
    Strip(p.GetOr(""))
  }

  /** A request parameter that is absent or only whitespace. */
  predicate Blank(p: Option<string>) {
    AllSpace(p.GetOr(""))
  }

  /** `query.lower() in genre_keywords`: a whole-string match against the table. */
  function GenreId(query: string): (r: Option<int>)
    ensures r.Some? <==> Lower(query) in GenreKeywords
    ensures r.Some? ==> r.value == GenreKeywords[Lower(query)]
  {
    var key := Lower(query);
    if key in GenreKeywords then Some(GenreKeywords[key]) else None
  }

  // ---------------------------------------------------------------- recommend

  /** `recommend(movie_name, k)` together with the way `/recommend` turns an error tuple
      into its status: the pipeline when it was imported, else TMDB's recommendations. */
  function Recommend(env: AppEnv, movieName: string, k: int): (r: Response)
    ensures env.pipeline.Some? ==>
      match TrainModel.FullRecommendations(env.pipeline.value, movieName, k)
      case Threw => r == Response(500, ErrorBody("Failed to fetch recommendations."))
      case Returned(entries) => r == Response(200, Recommendations(entries))
    ensures env.pipeline.None? && !HasKey(env.apiKey) ==>
      r == Response(500, ErrorBody("TMDB API key is missing."))
    ensures env.pipeline.None? ==>
      (r.Response? && r.status == 404 <==>
         HasKey(env.apiKey) && env.api.search(movieName).Reply?
         && env.api.search(movieName).status == Ok && env.api.search(movieName).body.results == [])
    ensures env.pipeline.None? && HasKey(env.apiKey) && env.api.search(movieName).Reply?
            && env.api.search(movieName).status != Ok ==>
      r == Response(500, ErrorBody("Failed to fetch movie info."))
    ensures env.pipeline.None? && HasKey(env.apiKey) && FirstHit(env.api.search(movieName)).Some?
            && env.api.recommendations(FirstHit(env.api.search(movieName)).value.id).Reply?
            && env.api.recommendations(FirstHit(env.api.search(movieName)).value.id).status != Ok ==>
      r == Response(500, ErrorBody("Failed to fetch recommendations."))
    ensures env.pipeline.None? ==>
      (r == Unhandled <==>
         HasKey(env.apiKey)
         && (|| env.api.search(movieName).Raised?
             || (FirstHit(env.api.search(movieName)).Some?
                 && env.api.recommendations(FirstHit(env.api.search(movieName)).value.id).Raised?)))
    ensures env.pipeline.None? ==>
      (r.Response? && r.status == 200 <==>
         && HasKey(env.apiKey) && FirstHit(env.api.search(movieName)).Some?
         && env.api.recommendations(FirstHit(env.api.search(movieName)).value.id).Reply?
         && env.api.recommendations(FirstHit(env.api.search(movieName)).value.id).status == Ok)
    ensures env.pipeline.None? && r.Response? && r.status == 200 ==>
      r.body == MovieList(PyPrefix(env.api.recommendations(FirstHit(env.api.search(movieName)).value.id).body.results, k))
    ensures r.Response? ==> r.status in {200, 404, 500}
  {
    match env.pipeline
    case Some(pipeline) =>
      (match TrainModel.FullRecommendations(pipeline, movieName, k)
       case Threw => Response(500, ErrorBody("Failed to fetch recommendations."))
       case Returned(entries) => Response(200, Recommendations(entries)))
    case None =>
      if !HasKey(env.apiKey) then Response(500, ErrorBody("TMDB API key is missing."))
      // the fallback's `requests.get` calls are not guarded: an exception escapes
      else match env.api.search(movieName)
        case Raised(_) => Unhandled
        case Reply(status, found) =>
          if status != Ok then Response(500, ErrorBody("Failed to fetch movie info."))
          else if found.results == [] then Response(404, ErrorBody("Movie not found."))
          else match env.api.recommendations(found.results[0].id)
            case Raised(_) => Unhandled
            case Reply(status', recs) =>
              if status' != Ok then Response(500, ErrorBody("Failed to fetch recommendations."))
              else Response(200, MovieList(PyPrefix(recs.results, k)))
  }

  // ---------------------------------------------------------------- streaming

  predicate AllNamed(ps: seq<Provider>) {
    forall i :: 0 <= i < |ps| ==> ps[i].name.Some?
  }

  /** The layer's own `get_ott_links`: unlike the pipeline's it needs the API key, and it
      answers an empty or missing `results` with an error instead of empty lists. */
  function GetOttLinks(apiKey: Option<string>, api: Api, movieName: string): (r: TrainModel.OttResult)
    ensures !HasKey(apiKey) ==> r == TrainModel.OttError("TMDB API key is missing")
    ensures r.Ott? <==>
      && HasKey(apiKey)
      && FirstHit(api.search(movieName)).Some?
      && var providers := api.watchProviders(FirstHit(api.search(movieName)).value.id);
         && providers.Reply? && providers.status == Ok && providers.body.results != map[]
         && AllNamed(TrainModel.InRegion(providers.body).free)
         && AllNamed(TrainModel.InRegion(providers.body).flatrate)
    ensures r.Ott? ==>
      && var region := TrainModel.InRegion(api.watchProviders(FirstHit(api.search(movieName)).value.id).body);
         r.free == TrainModel.ProviderNames(region.free) && r.paid == TrainModel.ProviderNames(region.flatrate)
  {
    if !HasKey(apiKey) then TrainModel.OttError("TMDB API key is missing")
    else match api.search(movieName)
      case Raised(e) => TrainModel.OttError(AsyncErrorMessage(e))
      case Reply(status, found) =>
        if status != Ok then TrainModel.OttError("Failed to fetch movie info from TMDB.")
        else if found.results == [] then TrainModel.OttError("Movie not found or no streaming info available.")
        else match api.watchProviders(found.results[0].id)
          case Raised(e) => TrainModel.OttError(AsyncErrorMessage(e))
          case Reply(status', providers) =>
            if status' != Ok then TrainModel.OttError("Failed to fetch streaming info from TMDB.")
            else if providers.results == map[] then TrainModel.OttError("No streaming info available.")
            else
              var region := TrainModel.InRegion(providers);
              // `p["provider_name"]` raises KeyError on an offer without a name
              if !AllNamed(region.free) || !AllNamed(region.flatrate) then
                TrainModel.OttError("Unexpected error: 'provider_name'")
              else TrainModel.Ott(TrainModel.ProviderNames(region.free), TrainModel.ProviderNames(region.flatrate))
  }

  // ---------------------------------------------------------------- routes

  /** `/recommend`: 400 exactly for a blank movie name, else `recommend` with k = 9. */
  function RecommendMovie(env: AppEnv, movieName: Option<string>): (r: Response)
    ensures r == Response(400, ErrorBody(NameRequired)) <==> Blank(movieName)
    ensures !Blank(movieName) ==> r == Recommend(env, Param(movieName), RecommendDefaultK)
  {
    var name := Param(movieName);
    if name == "" then Response(400, ErrorBody(NameRequired))
    else Recommend(env, name, RecommendDefaultK)
  }

  /** `/ott`: 400 exactly for a blank movie name; otherwise 200 with the lookup's dictionary,
      an error dictionary included. */
  function OttRoute(env: AppEnv, movieName: Option<string>): (r: Response)
    ensures r.Response?
    ensures r.status == 400 <==> Blank(movieName)
    ensures !Blank(movieName) ==>
      match GetOttLinks(env.apiKey, env.api, Param(movieName))
      case Ott(free, paid) => r == Response(200, Streaming(free, paid))
      case OttError(message) => r == Response(200, ErrorBody(message))
  {
    var name := Param(movieName);
    if name == "" then Response(400, ErrorBody(NameRequired))
    else match GetOttLinks(env.apiKey, env.api, name)
      case Ott(free, paid) => Response(200, Streaming(free, paid))
      case OttError(message) => Response(200, ErrorBody(message))
  }

  /** `/movie_details`: 500 when the pipeline is missing, whatever the name; then 400
      exactly for a blank name; then 200 with the details dictionary. */
  function MovieDetails(env: AppEnv, movieName: Option<string>): (r: Response)
    ensures r.Response?
    ensures r.status == 500 <==> env.pipeline.None?
    ensures r.status == 400 <==> env.pipeline.Some? && Blank(movieName)
    ensures env.pipeline.Some? && !Blank(movieName) ==> r.status == 200
    ensures r.status == 200 ==>
      match TrainModel.GetMovieFullDetails(env.pipeline.value.api, Param(movieName))
      case DetailsError(message) => r.body == ErrorBody(message)
      case Details(_, _, _, _, _, _, _) => r.body == MovieInfo(TrainModel.GetMovieFullDetails(env.pipeline.value.api, Param(movieName)))
  {
    if env.pipeline.None? then Response(500, ErrorBody("get_movie_full_details function not available."))
    else
      var name := Param(movieName);
      if name == "" then Response(400, ErrorBody(NameRequired))
      else match TrainModel.GetMovieFullDetails(env.pipeline.value.api, name)
        case DetailsError(message) => Response(200, ErrorBody(message))
        case details => Response(200, MovieInfo(details))
  }

  /** `/full_recommendations`: 500 when the pipeline is missing; then 400 exactly for a
      blank name; then the pipeline with k from the request, 19 when absent or not an
      integer. This route does not catch an exception from the pipeline. */
  function FullRecommendations(env: AppEnv, movieName: Option<string>, k: Option<int>): (r: Response)
    ensures env.pipeline.None? ==> r == Response(500, ErrorBody("get_full_recommendations function not available."))
    ensures r == Response(400, ErrorBody(NameRequired)) <==> env.pipeline.Some? && Blank(movieName)
    ensures env.pipeline.Some? && !Blank(movieName) ==>
      match TrainModel.FullRecommendations(env.pipeline.value, Param(movieName), k.GetOr(FullRecommendationsDefaultK))
      case Threw => r == Unhandled
      case Returned(entries) => r == Response(200, Recommendations(entries))
  {
    if env.pipeline.None? then Response(500, ErrorBody("get_full_recommendations function not available."))
    else
      var name := Param(movieName);
      var count := k.GetOr(FullRecommendationsDefaultK);
      if name == "" then Response(400, ErrorBody(NameRequired))
      else match TrainModel.FullRecommendations(env.pipeline.value, name, count)
        case Threw => Unhandled
        case Returned(entries) => Response(200, Recommendations(entries))
  }

  // ---------------------------------------------------------------- search

  /** Both helpers answer with `jsonify`, status 200, an error dictionary included. */
  function FetchedResponse(f: Fetched): (r: Response)
    ensures r.Response? && r.status == 200
    ensures f.Movies? ==> r.body == MovieList(f.movies)
    ensures f.FetchFailed? ==> r.body == ErrorBody(f.message)
  {
    match f
    case Movies(movies) => Response(200, MovieList(movies))
    case FetchFailed(message) => Response(200, ErrorBody(message))
  }

  /** `/search`: 400 for a blank query; then actor search when the type says so; then the
      genre discover call when the whole query is a genre; then, for a query of several
      words, actor search unless it answers with an error; then title search. */
  function SearchMovies(env: AppEnv, query: Option<string>, searchType: Option<string>): (r: Response)
    ensures r.Response?
    ensures r.status == 400 <==> Blank(query)
    ensures !Blank(query) ==> r == Dispatch(env.finder, Param(query), Lower(Param(searchType)))
  {
    var q := Param(query);
    if q == "" then Response(400, ErrorBody(QueryRequired))
    else Dispatch(env.finder, q, Lower(Param(searchType)))
  }

  /** The dispatch of a non-blank query. */
  function Dispatch(finder: Finder, q: string, kind: string): (r: Response)
    ensures r.Response? && r.status == 200
  {
    if kind == ActorType then FetchedResponse(finder.actor(q))
    else if GenreId(q).Some? then FetchedResponse(finder.genre(GenreId(q).value))
    else if |Split(q)| > 1 && finder.actor(q).Movies? then FetchedResponse(finder.actor(q))
    else FetchedResponse(finder.title(q))
  }

  /** `/search` as written: for a query of several words it reads the actor answer with
      `actor_result.json.get("error")`. A successful answer is a JSON list, which has no
      `get`, so the route raises; an error answer with a non-empty message falls through
      to title search. */
  function SearchMoviesAsWritten(env: AppEnv, query: Option<string>, searchType: Option<string>): (r: Response)
    ensures r.Response? && r.status == 400 <==> Blank(query)
    ensures !Blank(query) ==> r == DispatchAsWritten(env.finder, Param(query), Lower(Param(searchType)))
  {
    var q := Param(query);
    if q == "" then Response(400, ErrorBody(QueryRequired))
    else DispatchAsWritten(env.finder, q, Lower(Param(searchType)))
  }

  /** The dispatch of a non-blank query as written. */
  function DispatchAsWritten(finder: Finder, q: string, kind: string): (r: Response)
    ensures r.Response? ==> r.status == 200
  {
    if kind == ActorType then FetchedResponse(finder.actor(q))
    else if GenreId(q).Some? then FetchedResponse(finder.genre(GenreId(q).value))
    else if |Split(q)| > 1 then MultiWordAsWritten(finder, q)
    else FetchedResponse(finder.title(q))
  }

  /** The several-words branch as written: `.get` on the actor answer raises for a movie
      list, and only an error with a non-empty message falls through to title search. */
  function MultiWordAsWritten(finder: Finder, q: string): (r: Response)
    ensures r == Unhandled <==> finder.actor(q).Movies?
    ensures finder.actor(q).FetchFailed? && finder.actor(q).message != "" ==>
      r == FetchedResponse(finder.title(q))
    ensures finder.actor(q).FetchFailed? && finder.actor(q).message == "" ==>
      r == Response(200, ErrorBody(""))
  {
    match finder.actor(q)
    case Movies(_) => Unhandled
    case FetchFailed(message) =>
      if message != "" then FetchedResponse(finder.title(q)) else FetchedResponse(finder.actor(q))
  }

  // ---------------------------------------------------------------- fuzzy match

  /** The index of the first best-scoring choice. */
  function BestIndex(query: string, choices: seq<string>, score: (string, string) -> real): (i: nat)
    requires |choices| > 0
    ensures i < |choices|
    ensures forall j :: 0 <= j < |choices| ==> score(query, choices[j]) <= score(query, choices[i])
    ensures forall j :: 0 <= j < i ==> score(query, choices[j]) < score(query, choices[i])
    decreases |choices|
  {
    if |choices| == 1 then 0
    else
      var i := BestIndex(query, choices[..|choices| - 1], score);
      if score(query, choices[i]) < score(query, choices[|choices| - 1]) then |choices| - 1 else i
  }

  /** `process.extractOne(query, choices, scorer=score)`: the (choice, score, index) triple
      of the first best choice, None when there is no choice. */
  function ExtractOne(query: string, choices: seq<string>, score: (string, string) -> real): (r: Option<(string, real, nat)>)
    ensures r.None? <==> choices == []
    ensures r.Some? ==>
      && r.value.2 < |choices| && r.value.0 == choices[r.value.2]
      && r.value.1 == score(query, r.value.0)
      && (forall j :: 0 <= j < |choices| ==> score(query, choices[j]) <= r.value.1)
      && (forall j :: 0 <= j < r.value.2 ==> score(query, choices[j]) < r.value.1)
  {
    if choices == [] then None
    else
      var i := BestIndex(query, choices, score);
      Some((choices[i], score(query, choices[i]), i))
  }

  /** `fuzzy_match_movie` as written: `match, score = process.extractOne(...)` unpacks a
      triple into two names (ValueError), or None (TypeError), so no call returns. */
  function FuzzyMatchMovieAsWritten(query: string, choices: seq<string>, score: (string, string) -> real): (r: Outcome<Option<string>>)
    ensures r.Threw?
  {
    match ExtractOne(query, choices, score)
    case None => Threw
    case Some(_) => Threw
  }

  /** `fuzzy_match_movie` as meant: the best choice when its score is above 70, else None. */
  function FuzzyMatchMovie(query: string, choices: seq<string>, score: (string, string) -> real): (r: Option<string>)
    ensures r.Some? <==> exists c :: c in choices && score(query, c) > FuzzyThreshold
    ensures r.Some? ==> r.value in choices && score(query, r.value) > FuzzyThreshold
    ensures r.Some? ==> forall c :: c in choices ==> score(query, c) <= score(query, r.value)
  {
    match ExtractOne(query, choices, score)
    case None => None
    case Some((best, bestScore, _)) => if bestScore > FuzzyThreshold then Some(best) else None
  }
}
