/** What the web layer promises across calls: the order in which `/search` picks a
    helper, the two defects of the layer and their corrections, how its streaming lookup
    differs from the pipeline's, and what the fallback `recommend` reads. */
module AppProps {
  import opened Common
  import opened PyStr
  import opened Tmdb
  import TrainModel
  import opened App

  /** A requested actor search wins over everything else, a genre name included. */
  lemma ActorTypeWins(finder: Finder, q: string)
    ensures Dispatch(finder, q, ActorType) == FetchedResponse(finder.actor(q))
  {
  }

  /** A query whose lower-cased form is a genre name goes to the discover call with that
      genre's id, unless the type asks for an actor. */
  lemma GenreGoesToDiscover(finder: Finder, q: string, kind: string)
    requires kind != ActorType && Lower(q) in GenreKeywords
    ensures Dispatch(finder, q, kind) == FetchedResponse(finder.genre(GenreKeywords[Lower(q)]))
  {
  }

  /** A whole-query genre name is looked up as a genre before the query is split into
      words: "science fiction" goes to the discover call with genre 878, never to the actor
      or title helpers, although it has two words. */
  lemma GenreBeforeWords(finder: Finder, kind: string)
    requires kind != ActorType
    ensures Dispatch(finder, "science fiction", kind) == FetchedResponse(finder.genre(878))
  {
    ScienceFictionIsAGenre();
  }

  /** The table maps "science fiction" to 878. */
  lemma ScienceFictionIsAGenre()
    ensures GenreId("science fiction") == Some(878)
  {
    ScienceFictionIsLowerCase();
  }

  lemma ScienceFictionIsLowerCase()
    ensures Lower("science fiction") == "science fiction"
  {
    var key := "science fiction";
    assert forall i :: 0 <= i < |key| ==> 'a' <= key[i] <= 'z' || key[i] == ' ';
    LowerKeepsLowerCase(key);
  }

  /** Genre matching ignores case: a query and its lower-cased form select the same genre. */
  lemma GenreMatchIgnoresCase(q: string)
    ensures GenreId(Lower(q)) == GenreId(q)
  {
    LowerIdempotent(q);
  }

  /** A query with no whitespace inside, not a genre and not typed as an actor, goes to
      title search and never asks the actor helper. */
  lemma SingleWordGoesToTitleSearch(finder: Finder, q: string, kind: string, actor': string -> Fetched)
    requires q != [] && forall i :: 0 <= i < |q| ==> !IsSpace(q[i])
    requires kind != ActorType && GenreId(q).None?
    ensures Dispatch(finder, q, kind) == FetchedResponse(finder.title(q))
    ensures Dispatch(Finder(actor', finder.genre, finder.title), q, kind) == Dispatch(finder, q, kind)
  {
    MultiWordIffInnerSpace(q);
  }

  /** A query with whitespace inside, not a genre and not typed as an actor, is tried as an
      actor name first; title search answers when actor search reports an error. */
  lemma MultiWordTriesActorFirst(finder: Finder, q: string, kind: string)
    requires q != [] && !IsSpace(q[0]) && !IsSpace(q[|q| - 1])
    requires kind != ActorType && GenreId(q).None?
    requires exists i :: 0 <= i < |q| && IsSpace(q[i])
    ensures finder.actor(q).Movies? ==> Dispatch(finder, q, kind) == FetchedResponse(finder.actor(q))
    ensures finder.actor(q).FetchFailed? ==> Dispatch(finder, q, kind) == FetchedResponse(finder.title(q))
  {
    MultiWordIffInnerSpace(q);
  }

  /** The defect of `/search` as written: a query of several words whose actor search
      succeeds raises instead of answering, where the corrected route answers 200 with the
      actor's movies. */
  lemma SearchAsWrittenRaisesOnActorHit(finder: Finder, q: string, kind: string)
    requires q != [] && !IsSpace(q[0]) && !IsSpace(q[|q| - 1])
    requires kind != ActorType && GenreId(q).None?
    requires exists i :: 0 <= i < |q| && IsSpace(q[i])
    requires finder.actor(q).Movies?
    ensures DispatchAsWritten(finder, q, kind) == Unhandled
    ensures Dispatch(finder, q, kind) == Response(200, MovieList(finder.actor(q).movies))
  {
    MultiWordIffInnerSpace(q);
  }

  /** Away from that case the route as written and the corrected route agree, as long as
      the actor helper reports errors with a non-empty message. */
  lemma SearchAgreesElsewhere(finder: Finder, q: string, kind: string)
    requires finder.actor(q).FetchFailed? ==> finder.actor(q).message != ""
    requires DispatchAsWritten(finder, q, kind) != Unhandled
    ensures DispatchAsWritten(finder, q, kind) == Dispatch(finder, q, kind)
  {
  }

  /** The defect of `fuzzy_match_movie` as written: even an exact title among the choices
      raises, where the corrected function returns it. */
  lemma FuzzyMatchAsWrittenRaisesOnExactTitle(score: (string, string) -> real)
    requires forall a, b :: score(a, b) == if a == b then 100.0 else 0.0
    ensures FuzzyMatchMovieAsWritten("Avatar", ["Avatar", "Titanic"], score) == Threw
    ensures FuzzyMatchMovie("Avatar", ["Avatar", "Titanic"], score) == Some("Avatar")
  {
    var choices := ["Avatar", "Titanic"];
    assert choices[0] == "Avatar" && choices[1] == "Titanic";
    assert "Avatar" != "Titanic";
    var i := BestIndex("Avatar", choices, score);
    assert score("Avatar", choices[i]) >= score("Avatar", choices[0]) == 100.0;
  }

  /** Of several choices scoring the same best score, the first is returned. */
  lemma FuzzyMatchPrefersTheFirstBest(query: string, choices: seq<string>, score: (string, string) -> real, i: nat)
    requires i < |choices| && score(query, choices[i]) > FuzzyThreshold
    requires forall j :: 0 <= j < |choices| ==> score(query, choices[j]) <= score(query, choices[i])
    requires forall j :: 0 <= j < i ==> score(query, choices[j]) < score(query, choices[i])
    ensures FuzzyMatchMovie(query, choices, score) == Some(choices[i])
  {
  }

  /** The layer's streaming lookup and the pipeline's agree whenever the key is set, India
      or another region is listed and every Indian offer is named. */
  lemma OttVariantsAgree(apiKey: Option<string>, api: Api, movieName: string)
    requires HasKey(apiKey)
    requires FirstHit(api.search(movieName)).Some? ==>
      var providers := api.watchProviders(FirstHit(api.search(movieName)).value.id);
      providers.Reply? && providers.status == Ok ==>
        && providers.body.results != map[]
        && AllNamed(TrainModel.InRegion(providers.body).free)
        && AllNamed(TrainModel.InRegion(providers.body).flatrate)
    ensures App.GetOttLinks(apiKey, api, movieName).Ott? <==> TrainModel.GetOttLinks(api, movieName).Ott?
    ensures App.GetOttLinks(apiKey, api, movieName).Ott? ==>
      App.GetOttLinks(apiKey, api, movieName) == TrainModel.GetOttLinks(api, movieName)
  {
  }

  /** Where they differ: a movie TMDB lists no region for is an error for the layer and
      two empty lists for the pipeline. */
  lemma OttVariantsDifferOnNoRegions(apiKey: Option<string>, api: Api, movieName: string)
    requires HasKey(apiKey) && FirstHit(api.search(movieName)).Some?
    requires api.watchProviders(FirstHit(api.search(movieName)).value.id) == Reply(Ok, WatchProviders(map[]))
    ensures App.GetOttLinks(apiKey, api, movieName) == TrainModel.OttError("No streaming info available.")
    ensures TrainModel.GetOttLinks(api, movieName) == TrainModel.Ott([], [])
  {
  }

  /** With the pipeline present, neither the layer's own API key nor TMDB as the layer sees
      it plays any part in `/recommend`. */
  lemma RecommendReadsOneTier(env: AppEnv, movieName: string, k: int, apiKey': Option<string>, api': Api)
    ensures env.pipeline.Some? ==>
      Recommend(AppEnv(env.pipeline, apiKey', api', env.finder), movieName, k) == Recommend(env, movieName, k)
  {
  }

  /** The fallback answers at most k movies for k >= 0, and all but the last -k for k < 0. */
  lemma FallbackCount(env: AppEnv, movieName: string, k: int)
    requires env.pipeline.None?
    requires Recommend(env, movieName, k).Response? && Recommend(env, movieName, k).status == 200
    ensures k >= 0 ==> |Recommend(env, movieName, k).body.movies| <= k
    ensures k < 0 ==>
      |Recommend(env, movieName, k).body.movies|
        == Max(0, |env.api.recommendations(FirstHit(env.api.search(movieName)).value.id).body.results| + k)
  {
  }

  /** `/full_recommendations` without a `k` parameter asks the pipeline for 19 entries. */
  lemma FullRecommendationsDefault(env: AppEnv, movieName: Option<string>)
    ensures App.FullRecommendations(env, movieName, None)
            == App.FullRecommendations(env, movieName, Some(FullRecommendationsDefaultK))
  {
  }
}
