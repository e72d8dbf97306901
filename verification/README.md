# Movie recommendation service: a Dafny model

This project models the decision logic of a small movie-recommendation web service. The
service has two parts.

**The recommendation pipeline** (`train_model.py`) has two tiers:

- a nearest-neighbour model over a table of movies (the ML tier);
- TMDB's "similar movies" endpoint, used as the fallback tier.

It enriches every recommended title with two TMDB lookups: full details (cast, directors,
poster) and the streaming providers available in India. It then assembles one entry per
title.

**The web layer** (`app.py`) does the following:

- validates request parameters;
- routes `/search` queries to an actor, genre or title search;
- falls back to TMDB's own recommendations when the pipeline cannot be imported;
- has its own variant of the streaming-provider lookup;
- carries a fuzzy title matcher.

## How the model is built

Every TMDB endpoint is an oracle: a function from its key (a query string or a movie id)
to its response. A response is either a status code with a decoded body, or the
exception the HTTP client raised (`Tmdb.Api`, `Tmdb.Http`).

The fitted k-NN model is a ranking oracle, and the TF-IDF vectoriser is a partial
function (`TrainModel.NeighbourIndex`, `TrainModel.Vectorizer`).

A Python call that may let an exception escape returns a `Common.Outcome`. A route
answers with a status and a JSON body, or with `App.Unhandled` for an exception the route
does not catch.

The Python string operations the code relies on are modelled in module `PyStr`:

- `strip`, with Python's whitespace set;
- `lower`;
- `split` with no arguments;
- `", ".join`.

Slicing `xs[:k]`, including a negative k, is `Common.PyPrefix`.

`get_full_recommendations` builds its task list and its result list in two loops. It is
the method `TrainModel.GetFullRecommendations`, together with `TrainModel.EnrichTitles`,
which holds the loops. `GetFullRecommendations` is proved equal to the function
`TrainModel.FullRecommendations`. `EnrichTitles` is proved equal to
`Assemble(EnrichAll(..))`, the part of that function it computes. The properties of
the pipeline are proved about these functions.

Everything else in the core is guard clauses, slices and comprehensions, so it is
modelled as functions.

Two behaviours of the code are easy to misread:

- **The several-words branch of `/search` can be reached.** The branch at
  app.py:213-219 reads the actor answer through Flask's `Response.json`, which is a
  property. A successful actor search therefore reaches `.get` on a list and raises
  (see Findings).
- **An unknown movie gives an empty list.** When the model is not loaded and TMDB's search
  answers 200 with no results, `get_full_recommendations` returns an empty `recommended_movies` list,
  not an error. This is `TrainModelProps.UnknownMovieWithoutModel`.

## Model

| member | source | states |
|---|---|---|
| Common.PyPrefix | train_model.py:57 | `xs[:k]` keeps the first min(k, len) elements for k >= 0, and all but the last -k for k < 0; it is always a prefix of xs |
| PyStr.Strip | app.py:147 | the result is a contiguous piece of the input with only whitespace around it, has no whitespace at either end, and is empty exactly when the input is all whitespace |
| PyStr.PieceWithinSpace | app.py:147 | cutting the leading whitespace and then the trailing whitespace keeps a contiguous piece of the input with only whitespace around it, which neither starts nor ends with whitespace and is empty exactly when the input is all whitespace |
| PyStr.Lower | app.py:196 | lower-casing keeps the length and maps every character through the ASCII lower-case map |
| PyStr.Split | app.py:213 | every token of `str.split()` is non-empty and holds no whitespace character |
| PyStr.SplitEmptyIffBlank | app.py:213 | `split()` gives no token exactly when the string is all whitespace |
| PyStr.MultiWordIffInnerSpace | app.py:213 | for a stripped non-empty query, `len(split()) > 1` holds exactly when it contains a whitespace character |
| PyStr.Join | train_model.py:121-122 | an empty list joins to ""; otherwise the join is as long as all names together with one separator between each two |
| PyStr.JoinEnds | train_model.py:121-122 | a join starts with the first name and ends with the last |
| PyStr.JoinAppend | train_model.py:121-122 | joining a concatenation of two non-empty name lists puts the separator once between the two joins |
| PyStr.LowerKeepsLowerCase | app.py:206 | a string without upper-case letters is unchanged by `lower()` |
| PyStr.LowerIdempotent | app.py:206 | lower-casing twice is lower-casing once |
| PyStr.LowerLeavesNoCapitals | train_model.py:37 | a lower-cased name holds no upper-case letter |
| Tmdb.FirstHit | train_model.py:90-97 | a first hit exists exactly when the search answered 200 with non-empty results, and it is then `results[0]` |
| Tmdb.AsyncErrorMessage | train_model.py:125-128 | the message ends with the exception's text, and it starts with "Network error: " exactly for a client error |
| TrainModel.Normalize | train_model.py:37 | the normalised name is a contiguous piece of the lower-cased name with only whitespace around it; it has no whitespace at either end and no upper-case letter, and it is empty exactly for a blank name |
| TrainModel.LowerKeepsBlank | train_model.py:37 | lower-casing keeps a name blank or non-blank |
| TrainModel.StripKeepsLowerCase | train_model.py:37 | stripping a name without upper-case letters leaves none |
| TrainModel.RecommendMl | train_model.py:62-82 | an error when an artifact is missing; the call raises exactly when the vectoriser does; titles are returned exactly when k >= 1, k+1 neighbours exist and the rows exist; then there are exactly k titles, title i is the movie at neighbour i+1, and the source is "ML model" |
| TrainModel.FromNeighbours | train_model.py:75-82 | titles exactly when k >= 1, k+1 neighbours exist and neighbours 1..k are rows of the table; then exactly k titles, title i the movie at neighbour i+1, tagged "ML model" |
| TrainModel.FromSearch | train_model.py:42-60 | the search-and-similar step succeeds exactly when the search has a hit, the similar call answers 200 with results and all of them have titles; the titles are then their first at most k |
| TrainModel.FromSimilar | train_model.py:51-58 | the similar-titles step succeeds exactly on a 200 with non-empty, all-titled results; the titles are then their first at most k titles, tagged "TMDB fallback" |
| TrainModel.RecommendTmdb | train_model.py:35-60 | a missing key is an error; success holds exactly when the key is set, the normalised search and the similar call both succeed, and every similar movie has a title; the titles are then the first at most k |
| TrainModel.PosterUrl | train_model.py:98-99 | a poster URL exists exactly when poster_path is truthy, and it is then the w500 prefix followed by the path |
| TrainModel.CastNames | train_model.py:113 | the names of the first min(3, len) cast entries, in order |
| TrainModel.DirectorNames | train_model.py:114 | every name kept belongs to a crew entry whose job is "Director", and every such entry's name is kept |
| TrainModel.GetMovieFullDetails | train_model.py:84-128 | a record exactly when the search has a hit, the details call answers 200 and the credits call answers; the record's fields come from the details body and the poster from the hit; a non-200 credits call gives empty cast and crew |
| TrainModel.InRegion | train_model.py:148-151 | India's offers when TMDB lists India, and no offers at all otherwise |
| TrainModel.ProviderNames | train_model.py:153-154 | the `provider_name` values of the offers, one per offer, in order |
| TrainModel.GetOttLinks | train_model.py:130-159 | provider lists exactly when the search has a hit and the providers call answers 200; Free and Paid are then the names of India's `free` and `flatrate` offers, with a missing region or list giving empty lists |
| TrainModel.MakeEntry | train_model.py:178-187 | an error record gives "N/A" in every detail field and no poster; a record passes through unchanged; ott_availability is "Not Available" exactly when the providers answer is an error |
| TrainModel.EnrichAll | train_model.py:169-175 | the gather yields one pair per title, and pair i is the details and providers lookups of title i |
| TrainModel.Assemble | train_model.py:176-188 | assembly yields one entry per pair, and entry i is built from pair i |
| TrainModel.Candidates | train_model.py:163-168 | raises exactly when the ML tier raises; any titles it gives are exactly the titles of one of the two tiers |
| TrainModel.FullRecommendations | train_model.py:161-189 | raises exactly when the tier choice raises; otherwise there is one entry per candidate title |
| TrainModel.GetFullRecommendations | train_model.py:161-168 | the method's result equals `FullRecommendations`, whose properties are the TrainModelProps lemmas |
| TrainModel.EnrichTitles | train_model.py:169-189 | the two loops build exactly the entries of the titles' (details, providers) pairs, in order |
| TrainModelProps.OneEntryPerTitle | train_model.py:168-189 | the call raises exactly when the candidate tier raises; otherwise there is exactly one entry per candidate title, in order, built from that title's own lookups |
| TrainModelProps.TierChoice | train_model.py:163-166 | an ML answer without an error is used unchanged, and then the API key and TMDB play no part; an ML error hands over to the TMDB tier, whose error gives no titles |
| TrainModelProps.BothTiersFailGiveEmptyList | train_model.py:168 | when both tiers answer with an error the result is an empty list, not an error |
| TrainModelProps.UnknownMovieWithoutModel | train_model.py:68-69 | with the model not loaded and a search that answers 200 with an empty `results` list, the result is an empty list |
| TrainModelProps.AtMostKEntries | train_model.py:57 | for k >= 0 there are at most k entries, and exactly k whenever the ML tier answers |
| TrainModelProps.NegativeKDropsFromTheEnd | train_model.py:76 | when the model is loaded and the name vectorises, a negative k makes the ML tier answer with an error, and the TMDB tier then keeps all similar titles but the last -k |
| TrainModelProps.SearchSliceLength | train_model.py:57 | the TMDB tier's title count is min(k, n) for k >= 0 and max(0, n + k) for k < 0, n being the number of similar hits |
| TrainModelProps.TmdbSeesNormalisedName | train_model.py:37 | the TMDB tier depends on the movie name only through its lower-cased, stripped form |
| TrainModelProps.DirectorNamesKeepOrder | train_model.py:114 | the director names of two crew lists put together are the first list's followed by the second's, so crew order is kept |
| TrainModelProps.OttReadsOnlyIndia | train_model.py:148-151 | two provider answers that agree on India's offers give the same result, whatever other regions hold |
| TrainModelProps.ProviderFailureIsIsolated | train_model.py:178-186 | a failed providers lookup next to a good details lookup still gives an entry whose every detail field is the details record's, with the providers marked "Not Available" |
| App.GenreId | app.py:206-207 | a query is a genre exactly when its lower-cased form is a key of the table, and the id is then that key's id |
| App.Recommend | app.py:57-95 | with the pipeline, a raised exception gives 500 and a result gives 200; without it: a missing key gives 500; a non-200 search gives 500 "Failed to fetch movie info."; 404 exactly when the search answers 200 with no results; a non-200 recommendations answer gives 500 "Failed to fetch recommendations."; the route fails exactly when one of the two calls raises; 200 exactly when both answer 200, holding the first at most k recommendations of the first hit; no other status occurs |
| App.GetOttLinks | app.py:97-139 | a missing key is an error; lists exactly when the key is set, the search has a hit, the providers call answers 200 with a non-empty results map and every Indian offer has a name; Free and Paid are then India's `free` and `flatrate` names |
| App.RecommendMovie | app.py:145-154 | 400 "Movie name is required!" exactly when the name is blank; otherwise `recommend` with k = 9 on the stripped name |
| App.OttRoute | app.py:225-231 | 400 exactly for a blank name; otherwise 200 with the lookup's answer, an error answer included |
| App.MovieDetails | app.py:233-243 | 500 exactly when the pipeline is missing, whatever the name; 400 exactly for a blank name with the pipeline present; otherwise always 200, with the details record or its error dictionary |
| App.FullRecommendations | app.py:245-256 | 500 when the pipeline is missing; 400 exactly for a blank name with the pipeline present; otherwise the pipeline's entries for k from the request (19 by default), with an exception left uncaught |
| App.FetchedResponse | app.py:156-169 | a helper's JSON answer is always status 200 and carries the helper's movies or its error message |
| App.SearchMovies | app.py:193-223 | always a response; 400 exactly for a blank query; otherwise the dispatch of the stripped query under the lower-cased type |
| App.Dispatch | app.py:201-223 | the corrected dispatch of a non-blank query always answers 200 |
| App.SearchMoviesAsWritten | app.py:193-223 | the route as written: 400 exactly for a blank query, otherwise the dispatch as written |
| App.MultiWordAsWritten | app.py:214-219 | the branch as written raises exactly when actor search found movies; an error with a non-empty message falls through to title search, an empty one is returned as it is |
| App.DispatchAsWritten | app.py:201-223 | the dispatch as written, when it answers, answers 200 |
| App.BestIndex | app.py:54 | the index of a best-scoring choice; every earlier choice scores strictly less, so it is the first best |
| App.ExtractOne | app.py:54 | nothing exactly for no choices; otherwise a (choice, score, index) triple whose choice sits at that index, scores the given score, no choice scores more, and every earlier choice scores less |
| App.FuzzyMatchMovieAsWritten | app.py:53-55 | the function as written never returns |
| App.FuzzyMatchMovie | app.py:53-55 | a match exactly when some choice scores above 70; the match is then one of the choices, scores above 70, and scores no less than any choice |
| AppProps.ActorTypeWins | app.py:202-203 | a type of "actor" sends every query to actor search, a genre name included |
| AppProps.GenreGoesToDiscover | app.py:205-210 | a query whose lower-cased form is a genre name goes to the discover call with that genre's id, unless the type asks for an actor |
| AppProps.GenreBeforeWords | app.py:205-213 | "science fiction" goes to the genre search with id 878, although it has two words |
| AppProps.ScienceFictionIsAGenre | app.py:40 | the table maps "science fiction" to 878 |
| AppProps.ScienceFictionIsLowerCase | app.py:206 | the key "science fiction" is its own lower-cased form |
| AppProps.GenreMatchIgnoresCase | app.py:206 | a query and its lower-cased form select the same genre |
| AppProps.SingleWordGoesToTitleSearch | app.py:213-223 | a query without inner whitespace that is not a genre goes to title search, and the actor helper has no say in the answer |
| AppProps.MultiWordTriesActorFirst | app.py:212-219 | a query with inner whitespace that is not a genre gets the actor's movies when actor search succeeds, and title search when it reports an error |
| AppProps.SearchAsWrittenRaisesOnActorHit | app.py:214-219 | for such a query with a successful actor search, the route as written raises, where the corrected route answers 200 with the actor's movies |
| AppProps.SearchAgreesElsewhere | app.py:201-223 | whenever the route as written answers and the actor helper's error messages are non-empty, the corrected route gives the same answer |
| AppProps.FuzzyMatchAsWrittenRaisesOnExactTitle | app.py:53-55 | with an exact title among the choices, the function as written raises, where the corrected one returns that title |
| AppProps.FuzzyMatchPrefersTheFirstBest | app.py:54-55 | of choices tied for the best score above 70, the first one is returned |
| AppProps.OttVariantsAgree | app.py:126-133 | with a key set, a non-empty regions map and named offers, the layer's lookup and the pipeline's give lists in the same cases and the same lists |
| AppProps.OttVariantsDifferOnNoRegions | app.py:126-127 | for a movie with no listed region, the layer answers "No streaming info available." where the pipeline answers two empty lists |
| AppProps.RecommendReadsOneTier | app.py:64-70 | with the pipeline present, the layer's own API key and TMDB play no part in `/recommend` |
| AppProps.FallbackCount | app.py:94 | a 200 from the fallback holds at most k movies for k >= 0, and all recommendations but the last -k for k < 0 |
| AppProps.FullRecommendationsDefault | app.py:251 | `/full_recommendations` without k behaves as with k = 19 |

## Left out

- `recommendation.py`, the offline training script. It only loads data, fits the library's nearest-neighbour model and writes the artifacts.
- HTTP, sessions and timeouts. Every response is an input value, and a raised exception is one more kind of response. URL building and query-string encoding are not modelled.
- JSON decoding failures of a 200 response are not modelled. Neither is the difference between a null and an absent key in a TMDB body, which is read as an empty list or as no value.
- Credit entries without a `name` key are not modelled, and `Credit.name` is always present.
- `asyncio.gather` is modelled as a sequential map in title order. Concurrency is not modelled.
- TF-IDF vectorisation, the cosine nearest-neighbour search and the fuzzy scorer are oracles. Their floating-point arithmetic is not modelled.
- The texts of library exception messages are placeholders. These are the ML tier's "ML recommendation failed: ..." details and the `str(e)` in network errors.
- `PyStr.Lower` lower-cases ASCII letters only. This is exact for the genre table and for the "actor" type; for other text it differs from Python's full Unicode `lower()`.
- `fetch_movies` and `search_actor` are reduced to their answer: the movie list or the error message (`App.Finder`).
- Flask wiring, logging, dotenv, the index page and `app.run` are not modelled.
- `app.py`'s own loading of the model files is not modelled, because nothing in the layer reads what it loads.
- `vote_average` is passed through as an opaque JSON value.
- The `k` query parameter of `/full_recommendations` is an optional integer. A value that does not parse as an integer is the absent value, as the request API makes it.

## Findings

| source | as written | input that shows it | evidently intended | confidence | as-written member | corrected member |
|---|---|---|---|---|---|---|
| app.py:213-219 | the several-words branch calls `actor_result.json.get("error")`; a successful actor search answers a JSON list, so `.get` raises AttributeError and the route fails with a server error | `/search?query=Tom Hanks` when actor search finds the actor and their movies (AppProps.SearchAsWrittenRaisesOnActorHit) | return the actor's movies, and fall back to title search only on an error answer | high (not executed) | App.SearchMoviesAsWritten | App.SearchMovies |
| app.py:53-55 | `match, score = process.extractOne(...)` unpacks the (choice, score, index) triple that `extractOne` returns into two names (ValueError), or unpacks None for an empty list (TypeError), so the function never returns | `fuzzy_match_movie("Avatar", ["Avatar", "Titanic"])` (AppProps.FuzzyMatchAsWrittenRaisesOnExactTitle) | return the best-scoring choice when its score is above 70, else None | high (not executed) | App.FuzzyMatchMovieAsWritten | App.FuzzyMatchMovie |
