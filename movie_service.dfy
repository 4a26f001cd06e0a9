/** The exported queries of the movie service, `fetchMovie`, `searchMovies` and
    `fetchMovieById`: each builds its url and sends it to the request manager,
    or, in development mode, answers from the sample catalogue instead. */
module MovieService {
  import opened Wrappers
  import opened Text
  import opened Endpoints
  import opened Movies
  import opened RequestManager

  /** The configuration the queries read (`config.isDevelopment`,
      `config.api.defaultTitle`, `config.api.apiKey`). */
  datatype Config = Config(isDevelopment: bool, defaultTitle: string, apiKey: string)

  /** Where a query is sent. */
  datatype Route = ToMockSearch(term: string) | ToMockById(id: string) | ToLive(url: string)

  /** What a query hands back. */
  datatype Outcome =
    | LiveOutcome(get: GetResult)
    | MockSearchOutcome(search: MockSearch)
    | MockByIdOutcome(detail: Result<MovieResponse, string>)

  function WithApiKey(endpoint: string, cfg: Config): string {
    endpoint + "&apikey=" + cfg.apiKey
  }

  predicate CanFetchMovie(cfg: Config, title: Option<string>) {
    cfg.isDevelopment || IsAscii(OrElse(title, cfg.defaultTitle))
  }

  function FetchMovieRoute(cfg: Config, title: Option<string>): Route
    requires CanFetchMovie(cfg, title)
  {
    if cfg.isDevelopment then ToMockSearch(OrElse(title, ""))
    else ToLive(WithApiKey(ByTitle(OrElse(title, cfg.defaultTitle)), cfg))
  }

  function SearchMoviesRoute(cfg: Config, searchTerm: string): Route
    requires cfg.isDevelopment || IsAscii(searchTerm)
  {
    if cfg.isDevelopment then ToMockSearch(searchTerm)
    else ToLive(WithApiKey(Search(searchTerm), cfg))
  }

  function FetchMovieByIdRoute(cfg: Config, id: string): Route {
    if cfg.isDevelopment then ToMockById(id)
    else ToLive(WithApiKey(ById(id), cfg))
  }

  lemma AppendCancel(x: string, y: string, k: string)
    requires x + k == y + k
    ensures x == y
  {
    assert |x| == |y|;
    assert x == (x + k)[..|x|];
    assert y == (y + k)[..|y|];
  }

  /** In production two searches share a cache entry exactly when their terms
      agree after whitespace runs are replaced by `+`. */
  lemma SearchCacheKeys(cfg: Config, a: string, b: string)
    requires !cfg.isDevelopment && IsAscii(a) && IsAscii(b)
    ensures SearchMoviesRoute(cfg, a) == SearchMoviesRoute(cfg, b)
            <==> ReplaceWhitespace(a) == ReplaceWhitespace(b)
  {
    var k := "&apikey=" + cfg.apiKey;
    assert WithApiKey(Search(a), cfg) == Search(a) + k;
    assert WithApiKey(Search(b), cfg) == Search(b) + k;
    if Search(a) + k == Search(b) + k {
      AppendCancel(Search(a), Search(b), k);
    }
    SearchSameUrl(a, b);
  }

  /** In production a title lookup, a search and an id lookup never share a
      cache entry. */
  lemma LiveRoutesDisjoint(cfg: Config, title: Option<string>, term: string, id: string)
    requires !cfg.isDevelopment && CanFetchMovie(cfg, title) && IsAscii(term)
    ensures FetchMovieRoute(cfg, title) != SearchMoviesRoute(cfg, term)
    ensures FetchMovieRoute(cfg, title) != FetchMovieByIdRoute(cfg, id)
    ensures SearchMoviesRoute(cfg, term) != FetchMovieByIdRoute(cfg, id)
  {
    var t := OrElse(title, cfg.defaultTitle);
    var byTitle, search, byId := ByTitle(t), Search(term), ById(id);
    assert byTitle[2] == 't' && search[2] == 's' && byId[2] == 'i';
    assert WithApiKey(byTitle, cfg)[2] == byTitle[2];
    assert WithApiKey(search, cfg)[2] == search[2];
    assert WithApiKey(byId, cfg)[2] == byId[2];
  }

  /** A missing title and an empty one are the same query: the default title in
      production, the whole catalogue in development. */
  lemma FetchMovieDefaults(cfg: Config)
    requires CanFetchMovie(cfg, None)
    ensures CanFetchMovie(cfg, Some(""))
    ensures FetchMovieRoute(cfg, None) == FetchMovieRoute(cfg, Some(""))
    ensures cfg.isDevelopment ==> FetchMovieRoute(cfg, None) == ToMockSearch("")
    ensures !cfg.isDevelopment ==> FetchMovieRoute(cfg, None) == ToLive(WithApiKey(ByTitle(cfg.defaultTitle), cfg))
  {
  }

  /** In development `fetchMovie(t)` and `searchMovies(t)` are the same sample
      search, so they share its cache. */
  lemma DevelopmentTitleIsSearch(cfg: Config, title: string)
    requires cfg.isDevelopment
    ensures FetchMovieRoute(cfg, Some(title)) == SearchMoviesRoute(cfg, title)
  {
  }

  /** A live `get(url)`: its answer and the new live state are `GetStep`'s,
      and the sample-data state is untouched. */
  twostate predicate SentLive(m: ApiRequestManager, url: string, o: Outcome)
    reads m
  {
    && o == LiveOutcome(GetStep(old(m.Live()), url).0)
    && m.Live() == GetStep(old(m.Live()), url).1
    && m.mockData == old(m.mockData)
    && m.mockSearchCache == old(m.mockSearchCache)
    && m.mockTimers == old(m.mockTimers)
  }

  /** `searchMockData(term)`: a cached answer for the normalised term is handed
      back at once; otherwise the catalogue is loaded and a delayed search of
      the normalised term is scheduled. The live state and the search cache are
      untouched. */
  twostate predicate SearchedSample(m: ApiRequestManager, term: string, o: Outcome)
    reads m
  {
    var key := NormalizedTerm(term);
    && m.Live() == old(m.Live())
    && m.mockSearchCache == old(m.mockSearchCache)
    && (if key in old(m.mockSearchCache) then
          && o == MockSearchOutcome(Ready(old(m.mockSearchCache)[key]))
          && m.mockData == old(m.mockData)
          && m.mockTimers == old(m.mockTimers)
        else
          && o == MockSearchOutcome(Delayed)
          && m.mockData == Some(m.sample)
          && m.mockTimers == old(m.mockTimers) + [MockTimer(key, m.sample)])
    && (o.search.Ready? ==> o.search.response == SearchCatalog(m.sample, key))
  }

  /** `getMovieByIdFromMock(id)`: the catalogue lookup; the catalogue is loaded
      and nothing else changes. */
  twostate predicate LookedUpSample(m: ApiRequestManager, id: string, o: Outcome)
    reads m
  {
    && o == MockByIdOutcome(MovieByIdFromCatalog(m.sample, id))
    && m.mockData == Some(m.sample)
    && m.Live() == old(m.Live())
    && m.mockSearchCache == old(m.mockSearchCache)
    && m.mockTimers == old(m.mockTimers)
  }

  /** Sends a routed query to the request manager. */
  method Dispatch(m: ApiRequestManager, route: Route) returns (o: Outcome)
    requires m.Valid()
    modifies m
    ensures m.Valid()
    ensures route.ToLive? ==> SentLive(m, route.url, o)
    ensures route.ToMockSearch? ==> SearchedSample(m, route.term, o)
    ensures route.ToMockById? ==> LookedUpSample(m, route.id, o)
  {
    match route
    case ToLive(url) =>
      var r := m.Get(url);
      o := LiveOutcome(r);
    case ToMockSearch(term) =>
      var r := m.SearchMockData(term);
      o := MockSearchOutcome(r);
    case ToMockById(id) =>
      var r := m.GetMovieByIdFromMock(id);
      o := MockByIdOutcome(r);
  }

  /** `fetchMovie(title)` */
  method FetchMovie(m: ApiRequestManager, cfg: Config, title: Option<string>) returns (o: Outcome)
    requires m.Valid() && CanFetchMovie(cfg, title)
    modifies m
    ensures m.Valid()
    ensures cfg.isDevelopment ==> SearchedSample(m, OrElse(title, ""), o)
    ensures !cfg.isDevelopment ==> SentLive(m, WithApiKey(ByTitle(OrElse(title, cfg.defaultTitle)), cfg), o)
  {
    o := Dispatch(m, FetchMovieRoute(cfg, title));
  }

  /** `searchMovies(searchTerm)` */
  method SearchMovies(m: ApiRequestManager, cfg: Config, searchTerm: string) returns (o: Outcome)
    requires m.Valid() && (cfg.isDevelopment || IsAscii(searchTerm))
    modifies m
    ensures m.Valid()
    ensures cfg.isDevelopment ==> SearchedSample(m, searchTerm, o)
    ensures !cfg.isDevelopment ==> SentLive(m, WithApiKey(Search(searchTerm), cfg), o)
  {
    o := Dispatch(m, SearchMoviesRoute(cfg, searchTerm));
  }

  /** `fetchMovieById(id)` */
  method FetchMovieById(m: ApiRequestManager, cfg: Config, id: string) returns (o: Outcome)
    requires m.Valid()
    modifies m
    ensures m.Valid()
    ensures cfg.isDevelopment ==> LookedUpSample(m, id, o)
    ensures !cfg.isDevelopment ==> SentLive(m, WithApiKey(ById(id), cfg), o)
  {
    o := Dispatch(m, FetchMovieByIdRoute(cfg, id));
  }
}
