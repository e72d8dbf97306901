/** The TMDB web API as the core sees it: every endpoint is a function from its key
    (a query string or a movie id) to the response it gives, so that a response is a value
    (a status code and a decoded body) or the exception the HTTP client raised. */
module Tmdb {
  import opened Common

  /** An exception raised by the HTTP client; `isClientError` tells an
      `aiohttp.ClientError` from anything else (a timeout, for one). */
  datatype Exception = Exception(isClientError: bool, text: string)

  datatype Http<B> = Reply(status: int, body: B) | Raised(exc: Exception)

  /** One entry of a `results` list (search, similar, recommendations, discover).
      `title` is None when the entry has no "title" key; `posterPath` when it has no
      poster path or a null one. */
  datatype Hit = Hit(id: int, title: Option<string>, posterPath: Option<string>)

  /** A listing body; a missing or null `results` is the empty list. */
  datatype Listing = Listing(results: seq<Hit>)

  /** `/movie/{id}`: the four fields the core reads, JNull when absent. */
  datatype MovieRecord = MovieRecord(title: JsonValue, overview: JsonValue,
                                     voteAverage: JsonValue, releaseDate: JsonValue)

  /** One `cast` or `crew` entry of `/movie/{id}/credits`. */
  datatype Credit = Credit(name: string, job: Option<string>)

  /** `/movie/{id}/credits`; a missing list is the empty list. */
  datatype Credits = Credits(cast: seq<Credit>, crew: seq<Credit>)

  /** One streaming offer; `name` is None when it has no "provider_name" key. */
  datatype Provider = Provider(name: Option<string>)

  /** The offers of one region; a missing list is the empty list. */
  datatype Region = Region(flatrate: seq<Provider>, free: seq<Provider>)

  /** `/movie/{id}/watch/providers`: regions by country code; a missing `results` is empty. */
  datatype WatchProviders = WatchProviders(results: map<string, Region>)

  /** The endpoints the core calls, each keyed the way its URL is built. */
  datatype Api = Api(
    search: string -> Http<Listing>,
    similar: int -> Http<Listing>,
    recommendations: int -> Http<Listing>,
    details: int -> Http<MovieRecord>,
    credits: int -> Http<Credits>,
    watchProviders: int -> Http<WatchProviders>)

  const Ok := 200

  /** The first hit of a search that answered 200 with a non-empty `results`. */
  function FirstHit(resp: Http<Listing>): (r: Option<Hit>)
    ensures r.Some? <==> resp.Reply? && resp.status == Ok && resp.body.results != []
    ensures r.Some? ==> r.value in resp.body.results && r.value == resp.body.results[0]
  {
    if resp.Reply? && resp.status == Ok && resp.body.results != [] then Some(resp.body.results[0])
    else None
  }

  const NetworkPrefix := "Network error: "
  const UnexpectedPrefix := "Unexpected error: "

  /** The message the `aiohttp` handlers build from an exception: the exception's own text,
      after a prefix that tells a client error from anything else. */
  function AsyncErrorMessage(e: Exception): (r: string)
    ensures |e.text| < |r| && r[|r| - |e.text|..] == e.text
    ensures |NetworkPrefix| <= |r| && (r[..|NetworkPrefix|] == NetworkPrefix <==> e.isClientError)
  {
    var prefix := if e.isClientError then NetworkPrefix else UnexpectedPrefix;
    assert (prefix + e.text)[..|prefix|] == prefix;
    assert (prefix + e.text)[0] == prefix[0];
    prefix + e.text
  }
}
