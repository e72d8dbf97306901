/** What the recommendation pipeline promises as a whole: which tier answers, how many
    entries come back and in which order, and what is read of each TMDB response. */
module TrainModelProps {
  import opened Common
  import opened Tmdb
  import opened TrainModel

  /** The result has exactly one entry per candidate title, in candidate order, each built
      from that title's own details and providers lookups. */
  lemma OneEntryPerTitle(env: Env, movieName: string, k: int)
    ensures FullRecommendations(env, movieName, k).Threw? <==> Candidates(env, movieName, k).Threw?
    ensures FullRecommendations(env, movieName, k).Returned? ==>
      && var titles := Candidates(env, movieName, k).value;
         var entries := FullRecommendations(env, movieName, k).value;
         && |entries| == |titles|
         && forall i :: 0 <= i < |titles| ==>
              entries[i] == MakeEntry(GetMovieFullDetails(env.api, titles[i]), GetOttLinks(env.api, titles[i]))
  {
  }

  /** The TMDB tier is used only when the ML answer holds an error: an ML answer is used
      unchanged, and then neither the API key nor TMDB has any say in the titles. */
  lemma TierChoice(env: Env, movieName: string, k: int, apiKey': string, api': Api)
    ensures RecommendMl(env.artifacts, movieName, k).Returned?
            && RecommendMl(env.artifacts, movieName, k).value.Recommended? ==>
      && Candidates(env, movieName, k) == Returned(RecommendMl(env.artifacts, movieName, k).value.titles)
      && Candidates(Env(env.artifacts, apiKey', api'), movieName, k) == Candidates(env, movieName, k)
    ensures RecommendMl(env.artifacts, movieName, k).Returned?
            && RecommendMl(env.artifacts, movieName, k).value.RecError? ==>
      Candidates(env, movieName, k) ==
        Returned(match RecommendTmdb(env.apiKey, env.api, movieName, k)
                 case Recommended(titles, _) => titles
                 case RecError(_) => [])
  {
  }

  /** When both tiers fail the result is an empty list, not an error. */
  lemma BothTiersFailGiveEmptyList(env: Env, movieName: string, k: int)
    requires RecommendMl(env.artifacts, movieName, k).Returned?
    requires RecommendMl(env.artifacts, movieName, k).value.RecError?
    requires RecommendTmdb(env.apiKey, env.api, movieName, k).RecError?
    ensures FullRecommendations(env, movieName, k) == Returned([])
  {
  }

  /** With the model not loaded and a search that finds nothing, the caller gets an
      empty list and no title is enriched. */
  lemma UnknownMovieWithoutModel(env: Env, movieName: string, k: int)
    requires !Loaded(env.artifacts)
    requires env.api.search(Normalize(movieName)).Reply?
    requires env.api.search(Normalize(movieName)).status == Ok
    requires env.api.search(Normalize(movieName)).body.results == []
    ensures FullRecommendations(env, movieName, k) == Returned([])
  {
    BothTiersFailGiveEmptyList(env, movieName, k);
  }

  /** For k >= 0 there are at most k entries, and exactly k whenever the ML tier answers. */
  lemma AtMostKEntries(env: Env, movieName: string, k: int)
    requires k >= 0
    ensures FullRecommendations(env, movieName, k).Returned? ==>
      |FullRecommendations(env, movieName, k).value| <= k
    ensures MlAnswers(env.artifacts, movieName, k) ==>
      FullRecommendations(env, movieName, k).Returned?
      && |FullRecommendations(env, movieName, k).value| == k
  {
    OneEntryPerTitle(env, movieName, k);
  }

  /** A negative k (the `k` query parameter is not checked) never reaches the ML tier's
      neighbour search, and the TMDB tier then drops the last -k similar titles. */
  lemma NegativeKDropsFromTheEnd(env: Env, movieName: string, k: int)
    requires k < 0 && MlReady(env.artifacts, movieName)
    ensures RecommendMl(env.artifacts, movieName, k).Returned?
    ensures RecommendMl(env.artifacts, movieName, k).value.RecError?
    ensures RecommendTmdb(env.apiKey, env.api, movieName, k).Recommended? ==>
      |RecommendTmdb(env.apiKey, env.api, movieName, k).titles|
        == Max(0, |SimilarHits(env.api, Normalize(movieName)).value| + k)
  {
    assert !MlAnswers(env.artifacts, movieName, k);
    SearchSliceLength(env.api, Normalize(movieName), k);
  }

  /** The TMDB tier's answer for a query is Python's slice of the similar titles by k. */
  lemma SearchSliceLength(api: Api, query: string, k: int)
    ensures FromSearch(api, query, k).Recommended? ==>
      |FromSearch(api, query, k).titles|
        == var n := |SimilarHits(api, query).value|;
           if k >= 0 then Min(k, n) else Max(0, n + k)
  {
    if FromSearch(api, query, k).Recommended? {
      TitlesPrefixLength(SimilarHits(api, query).value, k);
    }
  }

  /** Python's slice of the similar titles counts hits, one title per hit. */
  lemma TitlesPrefixLength(hits: seq<Hit>, k: int)
    requires AllTitled(hits)
    ensures |PyPrefix(TitlesOf(hits), k)| == if k >= 0 then Min(k, |hits|) else Max(0, |hits| + k)
  {
    assert |TitlesOf(hits)| == |hits|;
  }

  /** The TMDB tier depends on the movie name only through its lower-cased, stripped form. */
  lemma TmdbSeesNormalisedName(apiKey: string, api: Api, a: string, b: string, k: int)
    requires Normalize(a) == Normalize(b)
    ensures RecommendTmdb(apiKey, api, a, k) == RecommendTmdb(apiKey, api, b, k)
  {
  }

  /** Filtering the crew keeps crew order: the directors of a concatenation are the
      directors of each part, in turn. */
  lemma {:induction false} DirectorNamesKeepOrder(a: seq<Credit>, b: seq<Credit>)
    ensures DirectorNames(a + b) == DirectorNames(a) + DirectorNames(b)
  {
    if a == [] {
      assert a + b == b;
    } else {
      assert (a + b)[0] == a[0];
      assert (a + b)[1..] == a[1..] + b;
      DirectorNamesKeepOrder(a[1..], b);
    }
  }

  /** Two provider responses that agree on everything `get_ott_links` reads: the same
      exception, or the same status and the same offers for India. */
  predicate SameForIndia(x: Http<WatchProviders>, y: Http<WatchProviders>) {
    || (x.Raised? && x == y)
    || (x.Reply? && y.Reply? && x.status == y.status && InRegion(x.body) == InRegion(y.body))
  }

  /** Only India's offers are read: the offers of every other region are discarded. */
  lemma OttReadsOnlyIndia(api: Api, api': Api, movieName: string)
    requires api.search(movieName) == api'.search(movieName)
    requires FirstHit(api.search(movieName)).Some? ==>
      SameForIndia(api.watchProviders(FirstHit(api.search(movieName)).value.id),
                   api'.watchProviders(FirstHit(api.search(movieName)).value.id))
    ensures GetOttLinks(api, movieName) == GetOttLinks(api', movieName)
  {
  }

  /** A failed providers lookup beside a successful details lookup still gives a fully
      populated entry: every detail field is the details record's, and the providers are
      marked "Not Available". */
  lemma ProviderFailureIsIsolated(api: Api, title: string)
    requires GetMovieFullDetails(api, title).Details?
    requires GetOttLinks(api, title).OttError?
    ensures
      var details := GetMovieFullDetails(api, title);
      var entry := MakeEntry(details, GetOttLinks(api, title));
      && entry.ott == NotAvailable
      && entry.title == details.title == api.details(FirstHit(api.search(title)).value.id).body.title
      && entry.overview == details.overview && entry.rating == details.rating
      && entry.releaseDate == details.releaseDate
      && entry.cast == details.cast && entry.crew == details.crew
      && entry.posterUrl == details.posterUrl
  {
  }
}
