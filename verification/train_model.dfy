/** The recommendation pipeline: the nearest-neighbour tier, the TMDB fallback tier, the
    per-title enrichment (details and streaming providers) and the assembly of the final
    list. The fitted model is handed in as a value; TMDB is the endpoint oracle `Api`. */
module TrainModel {
  import opened Common
  import opened PyStr
  import opened Tmdb

  /** The fitted k-NN structure: `rank(v)` lists every fitted row, nearest to v first. */
  datatype NeighbourIndex = NeighbourIndex(rank: seq<real> -> seq<nat>)

  /** The fitted TF-IDF vectoriser; `transform` gives None where the library would raise. */
  datatype Vectorizer = Vectorizer(transform: string -> Option<seq<real>>)

  /** The artifacts loaded at start-up; each is None when loading failed. `movies` is the
      `title` column of the movies table, by row position. */
  datatype Artifacts = Artifacts(knn: Option<NeighbourIndex>, vectorizer: Option<Vectorizer>,
                                 movies: Option<seq<string>>)

  /** What the module reads from its globals: the artifacts, the API key and TMDB. */
  datatype Env = Env(artifacts: Artifacts, apiKey: string, api: Api)

  /** The dictionary both tiers return: `recommended_movies` and `source`, or `error`. */
  datatype RecResult = Recommended(titles: seq<string>, source: string) | RecError(message: string)

  /** The dictionary `get_movie_full_details` returns. */
  datatype MovieDetails =
    | Details(title: JsonValue, overview: JsonValue, rating: JsonValue, releaseDate: JsonValue,
              cast: string, crew: string, posterUrl: Option<string>)
    | DetailsError(message: string)

  /** The dictionary `get_ott_links` returns: `Free` and `Paid` provider names, or `error`. */
  datatype OttResult = Ott(free: seq<Option<string>>, paid: seq<Option<string>>) | OttError(message: string)

  /** The `ott_availability` field of an entry: the provider lists, or "Not Available". */
  datatype OttField = Available(free: seq<Option<string>>, paid: seq<Option<string>>) | NotAvailable

  /** One element of the final `recommended_movies` list. */
  datatype Entry = Entry(title: JsonValue, overview: JsonValue, rating: JsonValue, releaseDate: JsonValue,
                         cast: string, crew: string, posterUrl: Option<string>, ott: OttField)

  const MlSource := "ML model"
  const TmdbSource := "TMDB fallback"
  const MlUnavailable := "Pre-trained ML model or movies mapping is not available."
  const MlFailed := "ML recommendation failed: "
  const FallbackFailed := "Error during TMDB fallback: "
  const PosterBase := "https://image.tmdb.org/t/p/w500"
  const Placeholder := "N/A"
  const Director := "Director"
  const India := "IN"
  const CastShown := 3

  /** `movie_name.lower().strip()`: the lower-cased name with only whitespace cut off on
      either side, so no whitespace at either end and no upper-case letter left; empty
      exactly for a blank name. */
  function Normalize(s: string): (r: string)
    ensures exists i :: StrippedAt(Lower(s), r, i)
    ensures r == [] || (!IsSpace(r[0]) && !IsSpace(r[|r| - 1]))
    ensures forall i :: 0 <= i < |r| ==> !('A' <= r[i] <= 'Z')
    ensures r == [] <==> AllSpace(s)
  {
    var lowered := Lower(s);
    var r := Strip(lowered);
    LowerKeepsBlank(s, lowered);
    LowerLeavesNoCapitals(s, lowered);
    StripKeepsLowerCase(lowered, r);
    r
  }

  /** Lower-casing neither adds nor removes whitespace. */
  lemma LowerKeepsBlank(s: string, l: string)
    requires |l| == |s| && forall i :: 0 <= i < |s| ==> l[i] == LowerChar(s[i])
    ensures AllSpace(l) <==> AllSpace(s)
  {
    if AllSpace(l) {
      forall i | 0 <= i < |s| ensures IsSpace(s[i]) {
        assert IsSpace(l[i]);
      }
    }
  }

  /** Stripping a string without upper-case letters leaves none. */
  lemma StripKeepsLowerCase(s: string, r: string)
    requires forall i :: 0 <= i < |s| ==> !('A' <= s[i] <= 'Z')
    requires exists k :: StrippedAt(s, r, k)
    ensures forall i :: 0 <= i < |r| ==> !('A' <= r[i] <= 'Z')
  {
    var k :| StrippedAt(s, r, k);
    forall i | 0 <= i < |r| ensures !('A' <= r[i] <= 'Z') {
      assert r[i] == s[k + i];
    }
  }

  // ---------------------------------------------------------------- ML tier

  predicate Loaded(a: Artifacts) {
    a.knn.Some? && a.vectorizer.Some? && a.movies.Some?
  }

  /** The model is loaded and the query vectorises. */
  predicate MlReady(a: Artifacts, movieName: string) {
    Loaded(a) && a.vectorizer.value.transform(Normalize(movieName)).Some?
  }

  /** Every fitted row, nearest to the query first. */
  function Ranking(a: Artifacts, movieName: string): seq<nat>
    requires MlReady(a, movieName)
  {
    a.knn.value.rank(a.vectorizer.value.transform(Normalize(movieName)).value)
  }

  /** The k+1 nearest rows exist, k >= 1, and the rows after the nearest are all rows
      of the movies table. */
  predicate MlAnswers(a: Artifacts, movieName: string, k: int) {
    && MlReady(a, movieName)
    && 1 <= k && k + 1 <= |Ranking(a, movieName)|
    && forall i :: 1 <= i <= k ==> Ranking(a, movieName)[i] < |a.movies.value|
  }

  /** `recommend_ml`: the titles of the k+1 nearest rows with the first one dropped. */
  function RecommendMl(a: Artifacts, movieName: string, k: int): (r: Outcome<RecResult>)
    ensures !Loaded(a) ==> r == Returned(RecError(MlUnavailable))
    ensures r.Threw? <==> Loaded(a) && !MlReady(a, movieName)
    ensures r.Returned? && r.value.Recommended? <==> MlAnswers(a, movieName, k)
    ensures r.Returned? && r.value.Recommended? ==>
      && r.value.source == MlSource
      && |r.value.titles| == k
      && forall i :: 0 <= i < k ==> r.value.titles[i] == a.movies.value[Ranking(a, movieName)[i + 1]]
  {
    if !Loaded(a) then Returned(RecError(MlUnavailable))
    // `vectorizer.transform` is called outside the `try`, so its exception escapes
    else if !MlReady(a, movieName) then Threw
    else Returned(FromNeighbours(Ranking(a, movieName), a.movies.value, k))
  }

  /** The `try` block of `recommend_ml`: the titles of the rows after the nearest among the
      k+1 nearest, or the error the library raises on the way. */
  function FromNeighbours(ranked: seq<nat>, movies: seq<string>, k: int): (r: RecResult)
    ensures r.Recommended? <==>
      1 <= k && k + 1 <= |ranked| && forall i :: 1 <= i <= k ==> ranked[i] < |movies|
    ensures r.Recommended? ==>
      && r.source == MlSource && |r.titles| == k
      && forall i :: 0 <= i < k ==> r.titles[i] == movies[ranked[i + 1]]
  {
    // `kneighbors(..., n_neighbors=k+1)` raises unless 1 <= k+1 <= the number of fitted rows
    if !(1 <= k + 1 <= |ranked|) then RecError(MlFailed + "n_neighbors out of range")
    // `indices.squeeze()` of a 1x1 array is a scalar, and slicing a scalar raises
    else if k == 0 then RecError(MlFailed + "'int' object is not subscriptable")
    // `movies_df.iloc[rows]` raises on a row the table does not have
    else if forall i :: 1 <= i <= k ==> ranked[i] < |movies| then
      Recommended(seq(k, i requires 0 <= i < k => movies[ranked[i + 1]]), MlSource)
    else RecError(MlFailed + "positional indexers are out-of-bounds")
  }

  // ---------------------------------------------------------------- TMDB tier

  predicate AllTitled(hits: seq<Hit>) {
    forall i :: 0 <= i < |hits| ==> hits[i].title.Some?
  }

  function TitlesOf(hits: seq<Hit>): seq<string>
    requires AllTitled(hits)
  {
    seq(|hits|, i requires 0 <= i < |hits| => hits[i].title.value)
  }

  /** The non-empty similar-titles listing of the first search hit for a query, when both
      calls answered 200. */
  function SimilarHits(api: Api, query: string): Option<seq<Hit>> {
    match FirstHit(api.search(query))
    case None => None
    case Some(hit) =>
      var resp := api.similar(hit.id);
      if resp.Reply? && resp.status == Ok && resp.body.results != [] then Some(resp.body.results) else None
  }

  /** The second step of `recommend_tmdb`: the first at most k titles of a similar-titles
      response that answered 200 with a non-empty `results`. */
  function FromSimilar(resp: Http<Listing>, k: int): (r: RecResult)
    ensures r.Recommended? <==>
      resp.Reply? && resp.status == Ok && resp.body.results != [] && AllTitled(resp.body.results)
    ensures r.Recommended? ==>
      r.source == TmdbSource && r.titles == PyPrefix(TitlesOf(resp.body.results), k)
  {
    match resp
    case Raised(e) => RecError(FallbackFailed + e.text)
    case Reply(status, similar) =>
      if status != Ok then RecError("TMDB API similar movies fetch failed.")
      else if similar.results == [] then RecError("No similar movies found on TMDB.")
      // the comprehension reads `movie["title"]` of every result before slicing
      else if !AllTitled(similar.results) then RecError(FallbackFailed + "'title'")
      else Recommended(PyPrefix(TitlesOf(similar.results), k), TmdbSource)
  }

  /** The `try` block of `recommend_tmdb` for the already normalised query. */
  function FromSearch(api: Api, query: string, k: int): (r: RecResult)
    ensures r.Recommended? <==> SimilarHits(api, query).Some? && AllTitled(SimilarHits(api, query).value)
    ensures r.Recommended? ==>
      r.source == TmdbSource && r.titles == PyPrefix(TitlesOf(SimilarHits(api, query).value), k)
  {
    match api.search(query)
    case Raised(e) => RecError(FallbackFailed + e.text)
    case Reply(status, found) =>
      if status != Ok then RecError("TMDB API search failed.")
      else if found.results == [] then RecError("Movie not found in TMDB.")
      else FromSimilar(api.similar(found.results[0].id), k)
  }

  /** `recommend_tmdb`: the first at most k similar titles of the best search hit for the
      normalised query. */
  function RecommendTmdb(apiKey: string, api: Api, movieName: string, k: int): (r: RecResult)
    ensures apiKey == "" ==> r == RecError("TMDB API key is missing.")
    ensures r.Recommended? <==>
      apiKey != "" && SimilarHits(api, Normalize(movieName)).Some?
      && AllTitled(SimilarHits(api, Normalize(movieName)).value)
    ensures r.Recommended? ==>
      r.source == TmdbSource && r.titles == PyPrefix(TitlesOf(SimilarHits(api, Normalize(movieName)).value), k)
  {
    if apiKey == "" then RecError("TMDB API key is missing.")
    else FromSearch(api, Normalize(movieName), k)
  }

  // ---------------------------------------------------------------- enrichment

  /** The poster link: the w500 image prefix and the poster path, when the path is truthy. */
  function PosterUrl(hit: Hit): (r: Option<string>)
    ensures r.Some? <==> hit.posterPath.Some? && hit.posterPath.value != ""
    ensures r.Some? ==> r.value == PosterBase + hit.posterPath.value
  {
    match hit.posterPath
    case Some(path) => if path != "" then Some(PosterBase + path) else None
    case None => None
  }

  /** The names of the first three cast entries, in billing order. */
  function CastNames(cast: seq<Credit>): (r: seq<string>)
    ensures |r| == Min(CastShown, |cast|)
    ensures forall i :: 0 <= i < |r| ==> r[i] == cast[i].name
  {
    var top := if |cast| <= CastShown then cast else cast[..CastShown];
    seq(|top|, i requires 0 <= i < |top| => top[i].name)
  }

  predicate IsDirector(c: Credit) {
    c.job == Some(Director)
  }

  /** The names of the crew entries whose job is "Director", in crew order: every name
      is a director's, and every director's name is there. */
  function DirectorNames(crew: seq<Credit>): (r: seq<string>)
    ensures |r| <= |crew|
    ensures forall n :: n in r ==> exists c :: c in crew && IsDirector(c) && c.name == n
    ensures forall c :: c in crew && IsDirector(c) ==> c.name in r
  {
    if crew == [] then []
    else (if IsDirector(crew[0]) then [crew[0].name] else []) + DirectorNames(crew[1..])
  }

  /** `get_movie_full_details`: search, details, then credits; a failed credits call
      still yields a record, with empty cast and crew. */
  function GetMovieFullDetails(api: Api, movieName: string): (r: MovieDetails)
    ensures r.Details? <==>
      && FirstHit(api.search(movieName)).Some?
      && var id := FirstHit(api.search(movieName)).value.id;
         api.details(id).Reply? && api.details(id).status == Ok && api.credits(id).Reply?
    ensures r.Details? ==>
      && var hit := FirstHit(api.search(movieName)).value;
         var record := api.details(hit.id).body;
         var credits := api.credits(hit.id);
         && r.title == record.title && r.overview == record.overview
         && r.rating == record.voteAverage && r.releaseDate == record.releaseDate
         && r.posterUrl == PosterUrl(hit)
         && (credits.status == Ok ==>
               r.cast == Join(CastNames(credits.body.cast), ", ")
               && r.crew == Join(DirectorNames(credits.body.crew), ", "))
         && (credits.status != Ok ==> r.cast == "" && r.crew == "")
  {
    match api.search(movieName)
    case Raised(e) => DetailsError(AsyncErrorMessage(e))
    case Reply(status, found) =>
      if status != Ok then DetailsError("Failed to fetch movie info from TMDB.")
      else if found.results == [] then DetailsError("Movie not found.")
      else
        var hit := found.results[0];
        match api.details(hit.id)
        case Raised(e) => DetailsError(AsyncErrorMessage(e))
        case Reply(status', record) =>
          if status' != Ok then DetailsError("Failed to fetch additional movie details.")
          else match api.credits(hit.id)
            case Raised(e) => DetailsError(AsyncErrorMessage(e))
            case Reply(status'', credits) =>
              var cast := if status'' != Ok then [] else CastNames(credits.cast);
              var crew := if status'' != Ok then [] else DirectorNames(credits.crew);
              Details(record.title, record.overview, record.voteAverage, record.releaseDate,
                      Join(cast, ", "), Join(crew, ", "), PosterUrl(hit))
  }

  /** The offers for India; a missing region is a region without offers. */
  function InRegion(wp: WatchProviders): (r: Region)
    ensures India in wp.results ==> r == wp.results[India]
    ensures India !in wp.results ==> r.free == [] && r.flatrate == []
  {
    if India in wp.results then wp.results[India] else Region([], [])
  }

  /** `[p.get("provider_name") for p in ps]`. */
  function ProviderNames(ps: seq<Provider>): (r: seq<Option<string>>)
    ensures |r| == |ps|
    ensures forall i :: 0 <= i < |ps| ==> r[i] == ps[i].name
  {
    seq(|ps|, i requires 0 <= i < |ps| => ps[i].name)
  }

  /** `get_ott_links`: the Indian `free` offers as Free and `flatrate` offers as Paid;
      a missing region or list gives empty lists, not an error. */
  function GetOttLinks(api: Api, movieName: string): (r: OttResult)
    ensures r.Ott? <==>
      && FirstHit(api.search(movieName)).Some?
      && var id := FirstHit(api.search(movieName)).value.id;
         api.watchProviders(id).Reply? && api.watchProviders(id).status == Ok
    ensures r.Ott? ==>
      && var region := InRegion(api.watchProviders(FirstHit(api.search(movieName)).value.id).body);
         r.free == ProviderNames(region.free) && r.paid == ProviderNames(region.flatrate)
  {
    match api.search(movieName)
    case Raised(e) => OttError(AsyncErrorMessage(e))
    case Reply(status, found) =>
      if status != Ok then OttError("Failed to fetch movie info from TMDB.")
      else if found.results == [] then OttError("No streaming info available.")
      else match api.watchProviders(found.results[0].id)
        case Raised(e) => OttError(AsyncErrorMessage(e))
        case Reply(status', providers) =>
          if status' != Ok then OttError("Failed to fetch streaming info from TMDB.")
          else
            var region := InRegion(providers);
            Ott(ProviderNames(region.free), ProviderNames(region.flatrate))
  }

  // ---------------------------------------------------------------- assembly

  /** One entry of the final list: an error record gives "N/A" in every detail field and
      no poster; an error from the providers gives "Not Available"; anything else passes
      through unchanged. */
  function MakeEntry(details: MovieDetails, ott: OttResult): (e: Entry)
    ensures details.DetailsError? ==>
      && e.title == JString(Placeholder) && e.overview == JString(Placeholder)
      && e.rating == JString(Placeholder) && e.releaseDate == JString(Placeholder)
      && e.cast == Placeholder && e.crew == Placeholder && e.posterUrl == None
    ensures details.Details? ==>
      && e.title == details.title && e.overview == details.overview
      && e.rating == details.rating && e.releaseDate == details.releaseDate
      && e.cast == details.cast && e.crew == details.crew && e.posterUrl == details.posterUrl
    ensures e.ott == NotAvailable <==> ott.OttError?
    ensures ott.Ott? ==> e.ott == Available(ott.free, ott.paid)
  {
    var ottField := if ott.OttError? then NotAvailable else Available(ott.free, ott.paid);
    match details
    case DetailsError(_) =>
      var na := JString(Placeholder);
      Entry(na, na, na, na, Placeholder, Placeholder, None, ottField)
    case Details(title, overview, rating, releaseDate, cast, crew, posterUrl) =>
      Entry(title, overview, rating, releaseDate, cast, crew, posterUrl, ottField)
  }

  /** Both lookups for one title, as the inner `asyncio.gather` pairs them. */
  function Enrich(api: Api, title: string): (MovieDetails, OttResult) {
    (GetMovieFullDetails(api, title), GetOttLinks(api, title))
  }

  /** The outer `asyncio.gather`: the pair of every title, in title order. */
  function EnrichAll(api: Api, titles: seq<string>): (r: seq<(MovieDetails, OttResult)>)
    ensures |r| == |titles|
    ensures forall i :: 0 <= i < |titles| ==> r[i] == Enrich(api, titles[i])
  {
    if titles == [] then []
    else EnrichAll(api, titles[..|titles| - 1]) + [Enrich(api, titles[|titles| - 1])]
  }

  /** The entry of every (details, providers) pair, in order. */
  function Assemble(pairs: seq<(MovieDetails, OttResult)>): (r: seq<Entry>)
    ensures |r| == |pairs|
    ensures forall i :: 0 <= i < |pairs| ==> r[i] == MakeEntry(pairs[i].0, pairs[i].1)
  {
    if pairs == [] then []
    else Assemble(pairs[..|pairs| - 1]) + [MakeEntry(pairs[|pairs| - 1].0, pairs[|pairs| - 1].1)]
  }

  /** The titles `get_full_recommendations` enriches: the ML tier's unless it answered
      with an error, else the TMDB tier's, else none. */
  function Candidates(env: Env, movieName: string, k: int): (r: Outcome<seq<string>>)
    ensures r.Threw? <==> RecommendMl(env.artifacts, movieName, k).Threw?
    ensures r.Returned? && r.value != [] ==>
      || (RecommendMl(env.artifacts, movieName, k).value.Recommended?
          && r.value == RecommendMl(env.artifacts, movieName, k).value.titles)
      || (RecommendTmdb(env.apiKey, env.api, movieName, k).Recommended?
          && r.value == RecommendTmdb(env.apiKey, env.api, movieName, k).titles)
  {
    match RecommendMl(env.artifacts, movieName, k)
    case Threw => Threw
    case Returned(ml) =>
      var rec := if ml.RecError? then RecommendTmdb(env.apiKey, env.api, movieName, k) else ml;
      Returned(if rec.Recommended? then rec.titles else [])
  }

  /** `get_full_recommendations`: the entries of the enriched candidate titles. */
  function FullRecommendations(env: Env, movieName: string, k: int): (r: Outcome<seq<Entry>>)
    ensures r.Threw? <==> Candidates(env, movieName, k).Threw?
    ensures r.Returned? ==> |r.value| == |Candidates(env, movieName, k).value|
  {
    match Candidates(env, movieName, k)
    case Threw => Threw
    case Returned(titles) => Returned(Assemble(EnrichAll(env.api, titles)))
  }

  /** `get_full_recommendations` as the source runs it: the ML tier, the TMDB tier when
      the ML answer holds an error, then the enrichment of the titles it got. */
  method GetFullRecommendations(env: Env, movieName: string, k: int) returns (r: Outcome<seq<Entry>>)
    ensures r == FullRecommendations(env, movieName, k)
  {
    var ml := RecommendMl(env.artifacts, movieName, k);
    if ml.Threw? {
      return Threw;
    }
    var rec := ml.value;
    if rec.RecError? {
      rec := RecommendTmdb(env.apiKey, env.api, movieName, k);
    }
    var titles := if rec.Recommended? then rec.titles else [];
    assert Candidates(env, movieName, k) == Returned(titles);
    var entries := EnrichTitles(env.api, titles);
    return Returned(entries);
  }

  /** The two loops of `get_full_recommendations`: gather the (details, providers) pair of
      every title into `tasks`, then append the entry of each pair in turn. */
  method EnrichTitles(api: Api, titles: seq<string>) returns (entries: seq<Entry>)
    ensures entries == Assemble(EnrichAll(api, titles))
  {
    var tasks: seq<(MovieDetails, OttResult)> := [];
    for i := 0 to |titles|
      invariant tasks == EnrichAll(api, titles[..i])
    {
      assert titles[..i + 1][..i] == titles[..i];
      tasks := tasks + [Enrich(api, titles[i])];
    }
    assert titles[..|titles|] == titles;

    entries := [];
    for i := 0 to |tasks|
      invariant entries == Assemble(tasks[..i])
    {
      assert tasks[..i + 1][..i] == tasks[..i];
      var (details, ott) := tasks[i];
      entries := entries + [MakeEntry(details, ott)];
    }
    assert tasks[..|tasks|] == tasks;
  }
}
