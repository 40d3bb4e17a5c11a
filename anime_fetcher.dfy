/**
 * The streaming-API client: URL templates, the classification of an HTTP
 * exchange into success or failure, and the server fallback of
 * `getStreamInfo`. The HTTP exchange and the JSON parser are parameters.
 */
module Fetcher {
  import opened Wrappers
  import opened Text

  /** The exceptions a request can end in: `HttpException(code, message)`, another `IOException`, a parse error. */
  datatype Failure = HttpError(code: int, message: string) | IoError(message: string) | ParseError

  /** Kotlin's `Result<T>`. */
  datatype Result<+T> = Success(value: T) | Failed(error: Failure)

  /** What the transport reports for one request: a response, or an `IOException` before one arrived. */
  datatype Exchange = Response(code: int, body: Option<string>) | TransportError(message: string)

  // ---------------------------------------------------------------------------
  // Response records (Gson targets)
  // ---------------------------------------------------------------------------

  datatype Episodes = Episodes(sub: int, dub: int)
  datatype SearchAnime = SearchAnime(id: string, name: string, poster: string, duration: string,
                                     kind: string, rating: string, episodes: Episodes)
  datatype PopularAnime = PopularAnime(episodes: Episodes, id: string, jname: string, name: string,
                                       poster: string, kind: string)
  datatype SearchData = SearchData(animes: seq<SearchAnime>, mostPopularAnimes: seq<PopularAnime>,
                                   currentPage: int, totalPages: int, hasNextPage: bool,
                                   searchQuery: string, searchFilters: map<string, seq<string>>)
  datatype SearchResult = SearchResult(success: bool, data: SearchData)
  datatype Episode = Episode(number: int, title: string, episodeId: string, isFiller: bool)
  datatype EpisodeData = EpisodeData(totalEpisodes: int, episodes: seq<Episode>)
  datatype EpisodeList = EpisodeList(success: bool, data: EpisodeData)
  datatype Track = Track(file: string, trackLabel: string, kind: string, isDefault: bool)
  datatype Interval = Interval(start: int, end: int)
  datatype Source = Source(url: string, kind: string)
  datatype StreamData = StreamData(tracks: seq<Track>, intro: Interval, outro: Interval,
                                   sources: seq<Source>, anilistID: Option<int>, malID: Option<int>)
  datatype StreamInfo = StreamInfo(success: bool, data: StreamData)

  // ---------------------------------------------------------------------------
  // URL templates
  // ---------------------------------------------------------------------------

  /** The search URL for an already URL-encoded query. */
  function SearchUrl(base: string, encodedQuery: string, page: int): (url: string)
    ensures base <= url && |url| == |base| + 25 + |encodedQuery| + 6 + |IntToString(page)|
    ensures url[|base|..|base| + 25] == "/api/v2/hianime/search?q="
    ensures url[|base| + 25..|url| - |IntToString(page)| - 6] == encodedQuery
    ensures url[|url| - |IntToString(page)| - 6..] == "&page=" + IntToString(page)
  {
    var head := base + "/api/v2/hianime/search?q=";
    var tail := "&page=" + IntToString(page);
    Pieces(base, "/api/v2/hianime/search?q=", encodedQuery + tail);
    Pieces(head, encodedQuery, tail);
    head + encodedQuery + tail
  }

  /** Where the three parts of a concatenation sit in it. */
  lemma Pieces(a: string, b: string, c: string)
    ensures a + b + c == a + (b + c)
    ensures (a + b + c)[..|a|] == a
    ensures (a + b + c)[|a|..|a| + |b|] == b
    ensures (a + b + c)[|a| + |b|..] == c
  {
  }

  /** The episode-list URL of an anime. */
  function EpisodesUrl(base: string, animeId: string): (url: string)
    ensures base <= url && |url| == |base| + 22 + |animeId| + 9
    ensures url[|base|..|base| + 22] == "/api/v2/hianime/anime/"
    ensures url[|base| + 22..|url| - 9] == animeId
    ensures url[|url| - 9..] == "/episodes"
  {
    var head := base + "/api/v2/hianime/anime/";
    Pieces(base, "/api/v2/hianime/anime/", animeId + "/episodes");
    Pieces(head, animeId, "/episodes");
    head + animeId + "/episodes"
  }

  /** The stream-sources URL of an episode on one server; the server is joined with a second `?`. */
  function SourcesUrl(base: string, episodeId: string, server: string): (url: string)
    ensures base <= url && |url| == |base| + 47 + |episodeId| + 8 + |server|
    ensures url[|base|..|base| + 47] == "/api/v2/hianime/episode/sources?animeEpisodeId="
    ensures url[|base| + 47..|url| - |server| - 8] == episodeId
    ensures url[|url| - |server| - 8..] == "?server=" + server
  {
    var head := base + "/api/v2/hianime/episode/sources?animeEpisodeId=";
    var tail := "?server=" + server;
    Pieces(base, "/api/v2/hianime/episode/sources?animeEpisodeId=", episodeId + tail);
    Pieces(head, episodeId, tail);
    head + episodeId + tail
  }

  // ---------------------------------------------------------------------------
  // One request
  // ---------------------------------------------------------------------------

  /** OkHttp's `isSuccessful`: a status code in 200..299. */
  predicate IsSuccessful(code: int) {
    200 <= code < 300
  }

  /** `executeGetRequest`: the body of a successful response; otherwise the failure that ends the call. */
  function ExecuteGetRequest(exchange: Exchange): (r: Result<string>)
    ensures r.Success? <==> exchange.Response? && IsSuccessful(exchange.code) && exchange.body.Some?
    ensures r.Success? ==> r.value == exchange.body.value
    ensures exchange.Response? && !IsSuccessful(exchange.code) ==>
      r == Failed(HttpError(exchange.code, "Unexpected code " + IntToString(exchange.code)))
    ensures exchange.Response? && IsSuccessful(exchange.code) && exchange.body.None? ==>
      r == Failed(IoError("Empty response body"))
    ensures exchange.TransportError? ==> r == Failed(IoError(exchange.message))
  {
    match exchange
    case TransportError(msg) => Failed(IoError(msg))
    case Response(code, body) =>
      if !IsSuccessful(code) then Failed(HttpError(code, "Unexpected code " + IntToString(code)))
      else if body.None? then Failed(IoError("Empty response body"))
      else Success(body.value)
  }

  /** `result.mapCatching { gson.fromJson(it, …) }`: a parser failure becomes a failed result. */
  function MapCatching<T>(r: Result<string>, parse: string -> Option<T>): (m: Result<T>)
    ensures r.Failed? ==> m == Failed(r.error)
    ensures r.Success? && parse(r.value).None? ==> m == Failed(ParseError)
    ensures r.Success? && parse(r.value).Some? ==> m == Success(parse(r.value).value)
  {
    match r
    case Failed(e) => Failed(e)
    case Success(body) =>
      match parse(body)
      case None => Failed(ParseError)
      case Some(v) => Success(v)
  }

  // ---------------------------------------------------------------------------
  // Server fallback
  // ---------------------------------------------------------------------------

  /** The servers `getStreamInfo` tries, in order. */
  const Servers: seq<string> := ["hd-1", "hd-2"]

  /** The failure returned when every server answered 500. */
  const AllServersFailed: Failure := HttpError(500, "Failed after trying all servers")

  /** Only an `HttpException` with code 500 moves on to the next server. */
  predicate Retryable(r: Result<StreamInfo>) {
    r.Failed? && r.error.HttpError? && r.error.code == 500
  }

  /** The outcome of asking one server for the sources of an episode. */
  function Attempt(base: string, episodeId: string, server: string,
                   respond: string -> Exchange, parse: string -> Option<StreamInfo>): Result<StreamInfo>
  {
    MapCatching(ExecuteGetRequest(respond(SourcesUrl(base, episodeId, server))), parse)
  }

  /** The result of trying `servers` in order: the first attempt that is not a 500, else the terminal failure. */
  function Resolve(servers: seq<string>, base: string, episodeId: string,
                   respond: string -> Exchange, parse: string -> Option<StreamInfo>): (r: Result<StreamInfo>)
    ensures servers == [] ==> r == Failed(AllServersFailed)
    ensures servers != [] && !Retryable(Attempt(base, episodeId, servers[0], respond, parse)) ==>
      r == Attempt(base, episodeId, servers[0], respond, parse)
  {
    if servers == [] then Failed(AllServersFailed)
    else
      var r := Attempt(base, episodeId, servers[0], respond, parse);
      if Retryable(r) then Resolve(servers[1..], base, episodeId, respond, parse) else r
  }

  /** The URLs requested while trying `servers`: a server is asked only after every earlier one answered 500. */
  function Tried(servers: seq<string>, base: string, episodeId: string,
                 respond: string -> Exchange, parse: string -> Option<StreamInfo>): (urls: seq<string>)
    ensures |urls| <= |servers|
    ensures forall i :: 0 <= i < |urls| ==> urls[i] == SourcesUrl(base, episodeId, servers[i])
  {
    if servers == [] then []
    else
      var url := SourcesUrl(base, episodeId, servers[0]);
      var rest := Tried(servers[1..], base, episodeId, respond, parse);
      if Retryable(Attempt(base, episodeId, servers[0], respond, parse)) then [url] + rest else [url]
  }

  /** One server's turn in the fallback: its URL is requested, and the rest are tried only after a 500. */
  lemma FallbackStep(servers: seq<string>, base: string, episodeId: string,
                     respond: string -> Exchange, parse: string -> Option<StreamInfo>)
    requires servers != []
    ensures var a := Attempt(base, episodeId, servers[0], respond, parse);
      Resolve(servers, base, episodeId, respond, parse) ==
        (if Retryable(a) then Resolve(servers[1..], base, episodeId, respond, parse) else a)
    ensures var a := Attempt(base, episodeId, servers[0], respond, parse);
      Tried(servers, base, episodeId, respond, parse) ==
        [SourcesUrl(base, episodeId, servers[0])] +
        (if Retryable(a) then Tried(servers[1..], base, episodeId, respond, parse) else [])
  {
  }

  lemma AppendShift(before: seq<string>, url: string, later: seq<string>)
    ensures before + ([url] + later) == (before + [url]) + later
  {
  }

  /** The loop of `getStreamInfo` over its server list. */
  method TryServers(servers: seq<string>, base: string, episodeId: string,
                    respond: string -> Exchange, parse: string -> Option<StreamInfo>)
    returns (result: Result<StreamInfo>, requested: seq<string>)
    ensures result == Resolve(servers, base, episodeId, respond, parse)
    ensures requested == Tried(servers, base, episodeId, respond, parse)
  {
    var rest := servers;
    requested := [];
    while rest != []
      invariant Resolve(servers, base, episodeId, respond, parse) == Resolve(rest, base, episodeId, respond, parse)
      invariant Tried(servers, base, episodeId, respond, parse) ==
                requested + Tried(rest, base, episodeId, respond, parse)
      decreases |rest|
    {
      var url := SourcesUrl(base, episodeId, rest[0]);
      result := MapCatching(ExecuteGetRequest(respond(url)), parse);
      FallbackStep(rest, base, episodeId, respond, parse);
      if !Retryable(result) {
        requested := requested + [url];
        return;
      }
      AppendShift(requested, url, Tried(rest[1..], base, episodeId, respond, parse));
      requested := requested + [url];
      rest := rest[1..];
    }
    result := Failed(AllServersFailed);
  }

  /** `getStreamInfo(episodeId)`: tries "hd-1", then "hd-2" only if "hd-1" answered 500. */
  method GetStreamInfo(base: string, episodeId: string,
                       respond: string -> Exchange, parse: string -> Option<StreamInfo>)
    returns (result: Result<StreamInfo>, requested: seq<string>)
    ensures result == Resolve(Servers, base, episodeId, respond, parse)
    ensures requested == Tried(Servers, base, episodeId, respond, parse)
  {
    result, requested := TryServers(Servers, base, episodeId, respond, parse);
  }

  /** At most two requests, to "hd-1" and then "hd-2", each at most once and in that order. */
  lemma TriedServers(base: string, episodeId: string,
                     respond: string -> Exchange, parse: string -> Option<StreamInfo>)
    ensures var urls := Tried(Servers, base, episodeId, respond, parse);
      urls == [SourcesUrl(base, episodeId, "hd-1")] ||
      urls == [SourcesUrl(base, episodeId, "hd-1"), SourcesUrl(base, episodeId, "hd-2")]
  {
    assert Servers[1..] == ["hd-2"];
    assert Servers[1..][1..] == [];
  }

  /** "hd-2" is asked exactly when "hd-1" answered 500. */
  lemma SecondServerOnlyAfter500(base: string, episodeId: string,
                                 respond: string -> Exchange, parse: string -> Option<StreamInfo>)
    ensures |Tried(Servers, base, episodeId, respond, parse)| == 2 <==>
      Retryable(Attempt(base, episodeId, "hd-1", respond, parse))
  {
    assert Servers[1..] == ["hd-2"];
    assert Servers[1..][1..] == [];
  }

  /** The result: the first server's outcome unless it is a 500; then the second's unless that is a 500 too. */
  lemma ResolveCases(base: string, episodeId: string,
                     respond: string -> Exchange, parse: string -> Option<StreamInfo>)
    ensures var r1 := Attempt(base, episodeId, "hd-1", respond, parse);
      var r2 := Attempt(base, episodeId, "hd-2", respond, parse);
      Resolve(Servers, base, episodeId, respond, parse) ==
        if !Retryable(r1) then r1 else if !Retryable(r2) then r2 else Failed(AllServersFailed)
  {
    assert Servers[1..] == ["hd-2"];
    assert Servers[1..][1..] == [];
  }

  /** Whenever the call fails, its failure is either a non-500 failure of some server or the terminal one. */
  lemma {:induction false} ResolveFailure(servers: seq<string>, base: string, episodeId: string,
                                          respond: string -> Exchange, parse: string -> Option<StreamInfo>)
    requires Resolve(servers, base, episodeId, respond, parse).Failed?
    ensures var r := Resolve(servers, base, episodeId, respond, parse);
      r == Failed(AllServersFailed) ||
      (!Retryable(r) && exists s :: s in servers && r == Attempt(base, episodeId, s, respond, parse))
  {
    if servers != [] {
      var r1 := Attempt(base, episodeId, servers[0], respond, parse);
      if Retryable(r1) {
        ResolveFailure(servers[1..], base, episodeId, respond, parse);
        var r := Resolve(servers, base, episodeId, respond, parse);
        if r != Failed(AllServersFailed) {
          var s :| s in servers[1..] && r == Attempt(base, episodeId, s, respond, parse);
          assert s in servers;
        }
      } else {
        assert servers[0] in servers;
      }
    }
  }
}
