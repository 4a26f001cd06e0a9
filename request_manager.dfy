/** `ApiRequestManager`, the request cache of the movie service.

    Live path: a response is cached by url once its request succeeds; a second
    `get` of a url whose request is still in flight joins that request instead
    of starting another; a failed request is forgotten so that the next `get`
    retries. Promises are replaced by explicit events: `Get` starts or joins a
    request, `Succeed` and `Fail` settle it.

    Sample-data path: the catalogue is loaded once; a search is answered from a
    cache keyed by the normalised term, or else answered after a delay, which
    is modelled as a scheduled timer that `FireMockTimer` runs. */
module RequestManager {
  import opened Wrappers
  import opened Text
  import opened Movies

  /** The live-request state: responses cached by url, urls whose request is in
      flight, and, for the proofs, the log of requests started and settled. */
  datatype LiveCache = LiveCache(
    cache: map<string, MovieResponse>,
    pending: set<string>,
    started: seq<string>,
    settled: seq<string>)

  const EmptyLive := LiveCache(map[], {}, [], [])

  /** No url is both cached and in flight, and the requests started but not yet
      settled are exactly the pending urls, each once: at most one request per
      url is ever outstanding. */
  ghost predicate LiveValid(s: LiveCache) {
    && s.cache.Keys !! s.pending
    && multiset(s.started) == multiset(s.settled) + multiset(s.pending)
  }

  /** What `get(url)` hands back: the cached response, the promise of the
      request already in flight, or the promise of a request it has just started. */
  datatype GetResult = Hit(response: MovieResponse) | Joined | Started

  function GetStep(s: LiveCache, url: string): (GetResult, LiveCache) {
    if url in s.cache then (Hit(s.cache[url]), s)
    else if url in s.pending then (Joined, s)
    else (Started, s.(pending := s.pending + {url}, started := s.started + [url]))
  }

  /** The request for `url` resolved with `r`: cache it, drop the pending entry. */
  function SucceedStep(s: LiveCache, url: string, r: MovieResponse): LiveCache
    requires url in s.pending
  {
    s.(cache := s.cache[url := r], pending := s.pending - {url}, settled := s.settled + [url])
  }

  /** The request for `url` was rejected: drop the pending entry, cache nothing. */
  function FailStep(s: LiveCache, url: string): LiveCache
    requires url in s.pending
  {
    s.(pending := s.pending - {url}, settled := s.settled + [url])
  }

  datatype Event = GetEvent(url: string) | SucceedEvent(url: string, response: MovieResponse) | FailEvent(url: string)

  /** A promise settles only while its request is in flight. */
  predicate Enabled(s: LiveCache, e: Event) {
    e.GetEvent? || e.url in s.pending
  }

  function Apply(s: LiveCache, e: Event): LiveCache
    requires Enabled(s, e)
  {
    match e
    case GetEvent(url) => GetStep(s, url).1
    case SucceedEvent(url, r) => SucceedStep(s, url, r)
    case FailEvent(url) => FailStep(s, url)
  }

  predicate RunEnabled(s: LiveCache, events: seq<Event>)
    decreases |events|
  {
    events == [] || (Enabled(s, events[0]) && RunEnabled(Apply(s, events[0]), events[1..]))
  }

  function Run(s: LiveCache, events: seq<Event>): LiveCache
    requires RunEnabled(s, events)
    decreases |events|
  {
    if events == [] then s else Run(Apply(s, events[0]), events[1..])
  }

  lemma ApplyKeepsValid(s: LiveCache, e: Event)
    requires LiveValid(s) && Enabled(s, e)
    ensures LiveValid(Apply(s, e))
  {
    match e
    case GetEvent(url) =>
      if url !in s.cache && url !in s.pending {
        assert multiset(s.pending + {url}) == multiset(s.pending) + multiset{url};
      }
    case SucceedEvent(url, r) =>
      assert multiset(s.pending) == multiset(s.pending - {url}) + multiset{url};
    case FailEvent(url) =>
      assert multiset(s.pending) == multiset(s.pending - {url}) + multiset{url};
  }

  /** Every url stays in flight at most once along any run of events. */
  lemma {:induction false} RunKeepsValid(s: LiveCache, events: seq<Event>)
    requires LiveValid(s) && RunEnabled(s, events)
    ensures LiveValid(Run(s, events))
    decreases |events|
  {
    if events != [] {
      ApplyKeepsValid(s, events[0]);
      RunKeepsValid(Apply(s, events[0]), events[1..]);
    }
  }

  /** In a valid state, the requests started for a url outnumber those settled
      by one exactly while the url is pending, and by none otherwise. */
  lemma AtMostOneInFlight(s: LiveCache, url: string)
    requires LiveValid(s)
    ensures multiset(s.started)[url] == multiset(s.settled)[url] + (if url in s.pending then 1 else 0)
  {
  }

  /** Cached entries are never evicted or replaced. */
  lemma {:induction false} RunKeepsCache(s: LiveCache, events: seq<Event>, url: string)
    requires LiveValid(s) && RunEnabled(s, events) && url in s.cache
    ensures url in Run(s, events).cache && Run(s, events).cache[url] == s.cache[url]
    decreases |events|
  {
    if events != [] {
      ApplyKeepsValid(s, events[0]);
      RunKeepsCache(Apply(s, events[0]), events[1..], url);
    }
  }

  /** `n` calls of `get(url)` in a row. */
  function GetMany(s: LiveCache, url: string, n: nat): (seq<GetResult>, LiveCache)
    decreases n
  {
    if n == 0 then ([], s)
    else
      var (r, s1) := GetStep(s, url);
      var (rs, s2) := GetMany(s1, url, n - 1);
      ([r] + rs, s2)
  }

  lemma {:induction false} GetManyWhilePending(s: LiveCache, url: string, n: nat)
    requires url !in s.cache && url in s.pending
    ensures GetMany(s, url, n).1 == s
    ensures |GetMany(s, url, n).0| == n
    ensures forall i :: 0 <= i < n ==> GetMany(s, url, n).0[i] == Joined
  {
    if n > 0 {
      GetManyWhilePending(s, url, n - 1);
    }
  }

  /** Deduplication: `n` calls of `get` for an uncached url that is not in
      flight start exactly one request; every later call joins it. */
  lemma DedupConcurrentGets(s: LiveCache, url: string, n: nat)
    requires url !in s.cache && url !in s.pending && n >= 1
    ensures var (rs, s') := GetMany(s, url, n);
      && |rs| == n && rs[0] == Started
      && (forall i :: 1 <= i < n ==> rs[i] == Joined)
      && s'.started == s.started + [url]
      && s'.pending == s.pending + {url}
      && s'.cache == s.cache
  {
    var s1 := GetStep(s, url).1;
    GetManyWhilePending(s1, url, n - 1);
  }

  /** Once the shared request succeeds, every later `get` is served from the
      cache without starting another request. */
  lemma SuccessIsCached(s: LiveCache, url: string, r: MovieResponse)
    requires url !in s.cache
    ensures var s1 := GetStep(s, url).1;
      && url in s1.pending
      && var s2 := SucceedStep(s1, url, r);
      && GetStep(s2, url) == (Hit(r), s2)
      && url !in s2.pending
  {
  }

  /** A failure is not cached: the next `get` starts a fresh request, and the
      cache is as it was before. */
  lemma FailureIsNotCached(s: LiveCache, url: string)
    requires url !in s.cache
    ensures var s1 := GetStep(s, url).1;
      && url in s1.pending
      && var s2 := FailStep(s1, url);
      && s2.cache == s.cache && url !in s2.pending
      && GetStep(s2, url).0 == Started
      && GetStep(s2, url).1.started == s1.started + [url]
  {
  }

  /** A delayed sample search: the normalised term and the catalogue it searches. */
  datatype MockTimer = MockTimer(term: string, movies: seq<Movie>)

  /** What `searchMockData` hands back: a cached response, or a promise that
      resolves when its timer fires. */
  datatype MockSearch = Ready(response: MovieResponse) | Delayed

  class ApiRequestManager {
    var cache: map<string, MovieResponse>
    var pendingRequests: set<string>
    ghost var started: seq<string>
    ghost var settled: seq<string>

    /** `mockDataPromise`: None until the catalogue is first requested. */
    var mockData: Option<seq<Movie>>
    ghost var loads: nat
    var mockSearchCache: map<string, MovieResponse>
    var mockTimers: seq<MockTimer>

    /** The contents of the sample catalogue file. */
    const sample: seq<Movie>

    ghost function Live(): LiveCache
      reads this
    {
      LiveCache(cache, pendingRequests, started, settled)
    }

    /** The live cache is consistent, the catalogue has been loaded at most once,
        and every cached sample search holds the answer for its term. */
    ghost predicate Valid()
      reads this
    {
      && LiveValid(Live())
      && loads == (if mockData.Some? then 1 else 0)
      && (mockData.Some? ==> mockData.value == sample)
      && (forall k :: 0 <= k < |mockTimers| ==> mockTimers[k].movies == sample)
      && (forall key :: key in mockSearchCache ==> mockSearchCache[key] == SearchCatalog(sample, key))
    }

    constructor (sample: seq<Movie>)
      ensures Valid() && this.sample == sample
      ensures Live() == EmptyLive
      ensures mockData == None && mockSearchCache == map[] && mockTimers == []
    {
      this.sample := sample;
      cache, pendingRequests, started, settled := map[], {}, [], [];
      mockData, loads, mockSearchCache, mockTimers := None, 0, map[], [];
    }

    /** `get(url)` */
    method Get(url: string) returns (r: GetResult)
      requires Valid()
      modifies this
      ensures Valid()
      ensures (r, Live()) == GetStep(old(Live()), url)
      ensures mockData == old(mockData) && mockSearchCache == old(mockSearchCache) && mockTimers == old(mockTimers)
    {
      if url in cache {
        return Hit(cache[url]);
      }
      if url in pendingRequests {
        return Joined;
      }
      pendingRequests := pendingRequests + {url};
      started := started + [url];
      r := Started;
      ApplyKeepsValid(old(Live()), GetEvent(url));
    }

    /** The request for `url` resolved with `response`. */
    method Succeed(url: string, response: MovieResponse)
      requires Valid() && url in pendingRequests
      modifies this
      ensures Valid()
      ensures Live() == SucceedStep(old(Live()), url, response)
      ensures mockData == old(mockData) && mockSearchCache == old(mockSearchCache) && mockTimers == old(mockTimers)
    {
      ApplyKeepsValid(Live(), SucceedEvent(url, response));
      cache := cache[url := response];
      pendingRequests := pendingRequests - {url};
      settled := settled + [url];
    }

    /** The request for `url` was rejected; the error goes back to its callers. */
    method Fail(url: string)
      requires Valid() && url in pendingRequests
      modifies this
      ensures Valid()
      ensures Live() == FailStep(old(Live()), url)
      ensures mockData == old(mockData) && mockSearchCache == old(mockSearchCache) && mockTimers == old(mockTimers)
    {
      ApplyKeepsValid(Live(), FailEvent(url));
      pendingRequests := pendingRequests - {url};
      settled := settled + [url];
    }

    /** `getMockData()`: loads the catalogue on the first call only. */
    method GetMockData() returns (movies: seq<Movie>)
      requires Valid()
      modifies this
      ensures Valid()
      ensures movies == sample && mockData == Some(sample)
      ensures loads == 1 && (old(mockData).Some? ==> loads == old(loads))
      ensures Live() == old(Live())
      ensures mockSearchCache == old(mockSearchCache) && mockTimers == old(mockTimers)
    {
      if mockData.None? {
        mockData := Some(sample);
        loads := loads + 1;
      }
      movies := mockData.value;
    }

    /** `searchMockData(searchTerm)`: a cached answer for the normalised term, or
        else a delayed search is scheduled. Nothing checks for a search of the
        same term already waiting on its timer. */
    method SearchMockData(searchTerm: string) returns (r: MockSearch)
      requires Valid()
      modifies this
      ensures Valid()
      ensures var key := NormalizedTerm(searchTerm);
        if key in old(mockSearchCache) then
          && r == Ready(old(mockSearchCache)[key])
          && mockData == old(mockData) && mockTimers == old(mockTimers)
        else
          && r == Delayed
          && mockData == Some(sample)
          && mockTimers == old(mockTimers) + [MockTimer(key, sample)]
      ensures r.Ready? ==> r.response == SearchCatalog(sample, NormalizedTerm(searchTerm))
      ensures mockSearchCache == old(mockSearchCache) && Live() == old(Live())
    {
      var key := NormalizedTerm(searchTerm);
      if key in mockSearchCache {
        return Ready(mockSearchCache[key]);
      }
      var allMovies := GetMockData();
      mockTimers := mockTimers + [MockTimer(key, allMovies)];
      r := Delayed;
    }

    /** The delay of the `i`-th scheduled sample search elapses: the search runs,
        its answer is cached under the normalised term and handed to its caller. */
    method FireMockTimer(i: nat) returns (response: MovieResponse)
      requires Valid() && i < |mockTimers|
      modifies this
      ensures Valid()
      ensures response == SearchCatalog(sample, old(mockTimers)[i].term)
      ensures mockSearchCache == old(mockSearchCache)[old(mockTimers)[i].term := response]
      ensures mockTimers == old(mockTimers)[..i] + old(mockTimers)[i + 1..]
      ensures mockData == old(mockData) && Live() == old(Live())
    {
      var t := mockTimers[i];
      response := SearchCatalog(t.movies, t.term);
      mockSearchCache := mockSearchCache[t.term := response];
      mockTimers := mockTimers[..i] + mockTimers[i + 1..];
    }

    /** `getMovieByIdFromMock(id)`: a lookup in the loaded catalogue; its answer
        is not cached. */
    method GetMovieByIdFromMock(id: string) returns (r: Result<MovieResponse, string>)
      requires Valid()
      modifies this
      ensures Valid()
      ensures r == MovieByIdFromCatalog(sample, id)
      ensures mockData == Some(sample)
      ensures mockSearchCache == old(mockSearchCache) && mockTimers == old(mockTimers) && Live() == old(Live())
    {
      var allMovies := GetMockData();
      r := MovieByIdFromCatalog(allMovies, id);
    }
  }
}
