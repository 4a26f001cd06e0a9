# Movie app core, modelled in Dafny

This project models the data-handling core of a small React/Redux movie
browser:

- **`ApiRequestManager`** (`src/services/movieService.ts`): the request cache.
  A live `get(url)` is answered from the cache, or it joins the request for that
  url that is already in flight, or it starts a new one. A success is cached
  and a failure is forgotten. In development mode, searches and id lookups are
  answered from a sample catalogue. The catalogue is loaded once. Searches are
  cached under the trimmed, lower-cased term and answered after a delay.
- **The service functions** `fetchMovie`, `searchMovies` and `fetchMovieById`.
  They choose between the sample path and a live url built by the `endpoints`
  helpers (`src/config/app.config.ts`), with the API key appended.
- **`endpoints.search` / `byTitle` / `byId`**: whitespace runs become `+`, and
  then `encodeURIComponent` is applied (percent-encoding, section 2.1 of RFC
  3986, with JavaScript's unescaped set). The result is the cache key.
- **The `localStorage` helpers** (`src/utils/storage.ts`) for the token and the
  favourites list, and **the favourites slice** (`src/store/favoritesSlice.ts`),
  which writes every change through to storage.
- **The movies slice** (`src/store/moviesSlice.ts`): its status machine, its
  list reducers, the `fetchMovieById` thunk and the `selectMovieById` selector.
- **The `useSearch` hook** (`src/utils/search.ts`): a debounced search that
  updates the term at once and calls `onSearch` when its timer fires.

Promises and timers become explicit events. `Get`, `Succeed` and `Fail` drive a
live request. `FireMockTimer` ends the delay of a sample search. `TimerFires`
runs the debounce callback. Classes hold the state the source mutates in place.
Each method is proved against a pure step function (`GetStep`, `SucceedStep`,
`Debounce`, `Fire`, `Removed`, `WithMovie`, ...), and the lemmas about those
functions state the promised behaviour.

Files: `wrappers.dfy` (Option, Result), `seqs.dfy` (filter, find, duplicates),
`text.dfy` (trim, lower case, decimal numbers), `endpoints.dfy`, `movies.dfy`,
`request_manager.dfy`, `movie_service.dfy`, `storage.dfy`,
`favorites_slice.dfy`, `movies_slice.dfy`, `search_hook.dfy`.

## Model

| member | source | states |
|---|---|---|
| RequestManager.ApplyKeepsValid | src/services/movieService.ts:27-56 | every `get`, success and failure keeps the cache and the in-flight set disjoint, and keeps requests started = requests settled + in flight |
| RequestManager.RunKeepsValid | src/services/movieService.ts:27-56 | the same invariant holds along any sequence of enabled events |
| RequestManager.AtMostOneInFlight | src/services/movieService.ts:33-54 | in a valid state each url has exactly one unsettled request while pending and none otherwise |
| RequestManager.RunKeepsCache | src/services/movieService.ts:41-46 | a cached response is never evicted or replaced by any later events |
| RequestManager.GetManyWhilePending | src/services/movieService.ts:33-36 | while a url is in flight and uncached, every `get` joins it and changes nothing |
| RequestManager.DedupConcurrentGets | src/services/movieService.ts:27-56 | n gets of a fresh url start exactly one request; the other n-1 join it; the cache is unchanged |
| RequestManager.SuccessIsCached | src/services/movieService.ts:41-46 | after the request succeeds the url is no longer pending and the next `get` hits the cache with that response |
| RequestManager.FailureIsNotCached | src/services/movieService.ts:47-51 | after a failure the cache is as before, the url is not pending, and the next `get` starts a new request |
| RequestManager.ApiRequestManager.constructor | src/services/movieService.ts:16-20 | starts with empty caches, nothing in flight, the catalogue unloaded |
| RequestManager.ApiRequestManager.Get | src/services/movieService.ts:27-56 | result and new live state are those of `GetStep`; the invariant is kept |
| RequestManager.ApiRequestManager.Succeed | src/services/movieService.ts:41-46 | caches the response and clears the pending entry (`SucceedStep`) |
| RequestManager.ApiRequestManager.Fail | src/services/movieService.ts:47-51 | clears the pending entry and caches nothing (`FailStep`) |
| RequestManager.ApiRequestManager.GetMockData | src/services/movieService.ts:133-140 | returns the catalogue; it is loaded on the first call only, so the load count stays 1 |
| RequestManager.ApiRequestManager.SearchMockData | src/services/movieService.ts:63-76 | a cached normalised term is answered at once with the catalogue search; otherwise a delayed search is scheduled, with no deduplication of identical waiting searches |
| RequestManager.ApiRequestManager.FireMockTimer | src/services/movieService.ts:76-124 | when the delay ends, the search result for the term is returned and cached under the normalised term |
| RequestManager.ApiRequestManager.GetMovieByIdFromMock | src/services/movieService.ts:147-167 | loads the catalogue and answers the id lookup, caching nothing |
| Movies.SearchCatalog | src/services/movieService.ts:76-124 | the delayed search's response: status 200 'OK', a search payload holding at most the catalogue's movies, all from the catalogue |
| Movies.MovieByIdFromCatalog | src/services/movieService.ts:147-167 | an error is 'Movie not found' and means no catalogue movie has the id; a success is a 200 'True' detail payload of a catalogue movie with the id |
| Movies.SearchEmptyTerm | src/services/movieService.ts:81-94 | an empty term lists the whole catalogue in order, with `totalResults` its size in decimal and `Response` 'True' |
| Movies.SearchTerm | src/services/movieService.ts:95-118 | lists exactly the movies whose title, actors or director contains the term, with their multiplicity and in catalogue order; `totalResults` is the count; 'True' iff some match; error 'Movie not found!' iff none |
| Movies.MovieByIdSpec | src/services/movieService.ts:147-167 | fails with 'Movie not found' iff no movie has the id; otherwise returns the first such movie as a detail payload with 'True', status 200 |
| Movies.NormalizedTermInsensitive | src/services/movieService.ts:64-69 | terms that differ only in letter case or surrounding whitespace share one cache key |
| Movies.NormalizedTermIdempotent | src/services/movieService.ts:65 | normalising a normalised term changes nothing |
| MovieService.Dispatch | src/services/movieService.ts:178-214 | a live route is a `get` of its url, leaving the sample state alone; a sample search answers from the search cache or schedules a delayed search of the normalised term; an id lookup loads the catalogue and answers from it; both sample paths leave the live state and the search cache alone |
| MovieService.FetchMovie | src/services/movieService.ts:178-186 | development: the sample search of the title, or '' when it is missing or empty (cached answer or scheduled search); production: a `get` of `byTitle` of the title (or the default title when it is missing or empty) plus the key, sample state unchanged |
| MovieService.SearchMovies | src/services/movieService.ts:193-200 | development: the sample search of the term (cached answer or scheduled search of the normalised term); production: a `get` of `search(term)` plus the key, sample state unchanged |
| MovieService.FetchMovieById | src/services/movieService.ts:207-214 | development: the catalogue id lookup, with only the catalogue load changing state; production: a `get` of `byId(id)` plus the key, sample state unchanged |
| MovieService.SearchCacheKeys | src/services/movieService.ts:193-200 | in production two searches share a cache entry iff their terms agree once whitespace runs become `+` |
| MovieService.LiveRoutesDisjoint | src/services/movieService.ts:178-214 | title, search and id requests never share a cache key |
| MovieService.FetchMovieDefaults | src/services/movieService.ts:178-186 | a missing title and an empty title give the same request: the default title live, everything in development |
| MovieService.DevelopmentTitleIsSearch | src/services/movieService.ts:178-200 | in development `fetchMovie(t)` and `searchMovies(t)` are the same sample search |
| Endpoints.ReplaceWhitespace | src/config/app.config.ts:23 | the replaced text contains no whitespace |
| Endpoints.ReplaceWhitespaceNoSpace | src/config/app.config.ts:23 | text without whitespace is left unchanged |
| Endpoints.ReplaceWhitespaceIdempotent | src/config/app.config.ts:23 | replacing twice equals replacing once |
| Endpoints.LeadingRun | src/config/app.config.ts:23 | a leading whitespace run becomes one `+` |
| Endpoints.CollapseRun | src/config/app.config.ts:23 | a whitespace run between words becomes one `+` |
| Endpoints.ReplaceRunExamples | src/config/app.config.ts:23 | "a b", "a  b" and "a+b" all become "a+b" |
| Endpoints.EncodeURIComponent | src/config/app.config.ts:23 | every output character is unreserved, `%` or a hex digit |
| Endpoints.DecodeEncode | src/config/app.config.ts:23 | decoding the encoding gives back the ASCII text |
| Endpoints.EncodeInjective | src/config/app.config.ts:23 | distinct ASCII texts encode differently |
| Endpoints.EncodePlusExample | src/config/app.config.ts:23 | `+` is escaped as `%2B` |
| Endpoints.SearchSameUrl | src/config/app.config.ts:23 | two queries give the same search url iff they agree after the whitespace replacement |
| Endpoints.SpaceAndPlusSameUrl | src/config/app.config.ts:23 | a query and its `+`-joined form give the same url |
| Endpoints.Search | src/config/app.config.ts:23 | the url is `/?s=` followed by text that decodes back to the query with whitespace runs replaced |
| Endpoints.ByTitle | src/config/app.config.ts:25 | the url is `/?t=` followed by text that decodes back to the title with whitespace runs replaced |
| Endpoints.ByIdSameUrl | src/config/app.config.ts:24 | the id is inserted without encoding, so two id lookups share a url exactly when their ids are equal |
| Endpoints.BuildersDisjoint | src/config/app.config.ts:23-25 | search, title and id urls never coincide |
| Storage.AddedSpec | src/utils/storage.ts:62-69 | adding appends the id only when absent; afterwards the id is present and nothing else changed |
| Storage.RemovedSpec | src/utils/storage.ts:76-81 | removing drops every copy of the id and keeps every other id, with its count and order |
| Storage.RemovedAbsent | src/utils/storage.ts:76-81 | removing an absent id leaves the list unchanged |
| Storage.EditsKeepNoDup | src/utils/storage.ts:62-81 | adding and removing keep a duplicate-free list duplicate-free |
| Storage.Store.SetToken | src/utils/storage.ts:24-34 | after storing, `getToken` returns the token; the favourites are untouched |
| Storage.Store.RemoveToken | src/utils/storage.ts:24-42 | after removal, `getToken` returns none; the favourites are untouched |
| Storage.Store.AddFavorite | src/utils/storage.ts:52-69 | returns the stored list (empty when nothing is stored) with the id added, which `getFavorites` then returns and in which `isFavorite` holds; writes only when the id was absent |
| Storage.Store.RemoveFavorite | src/utils/storage.ts:76-91 | returns and always writes the list with the id removed, after which `isFavorite(id)` is false |
| FavoritesSlice.ToggleFlips | src/store/favoritesSlice.ts:32-41 | toggling flips the membership of the id and of no other id |
| FavoritesSlice.ToggleTwice | src/store/favoritesSlice.ts:32-41 | toggling an absent id twice gives back the original list |
| FavoritesSlice.ToggleKeepsNoDup | src/store/favoritesSlice.ts:32-41 | toggling keeps the list duplicate-free |
| FavoritesSlice.FavoritesState.constructor | src/store/favoritesSlice.ts:9-12 | the initial list is the one in storage |
| FavoritesSlice.FavoritesState.AddToFavorites | src/store/favoritesSlice.ts:18-25 | appends an absent id and writes it through once; a present id causes no storage write; store and storage stay in agreement; no duplicates appear |
| FavoritesSlice.FavoritesState.RemoveFromFavorites | src/store/favoritesSlice.ts:26-31 | removes the id from store and storage with one write; they stay in agreement |
| FavoritesSlice.FavoritesState.ToggleFavorite | src/store/favoritesSlice.ts:32-41 | removes a present id, appends an absent one, in store and storage alike |
| FavoritesSlice.FavoritesState.SelectIsFavorite | src/store/favoritesSlice.ts:50-51 | while store and storage agree, `selectIsFavorite` answers as storage's `isFavorite` does |
| MoviesSlice.WithoutMovieSpec | src/store/moviesSlice.ts:98-100 | no movie with the id remains; every other movie keeps its count and order |
| MoviesSlice.WithMovieKeepsUniqueIds | src/store/moviesSlice.ts:123-130 | the fulfilled lookup never adds a second movie with the same id, and the id is listed afterwards |
| MoviesSlice.FetchMovieByIdThunk | src/store/moviesSlice.ts:62-85 | a result has the requested id and comes from the list or the catalogue; an error is 'Movie not found' |
| MoviesSlice.FetchMovieByIdThunkSpec | src/store/moviesSlice.ts:62-85 | fails iff neither list nor catalogue has the id; otherwise returns the first listed movie with the id, or, when none is listed, the first catalogue movie with it |
| MoviesSlice.FetchMovieByIdPrefersList | src/store/moviesSlice.ts:67-71 | when the list has the id the catalogue is not consulted |
| MoviesSlice.SelectMovieById | src/store/moviesSlice.ts:146-147 | none iff no listed movie has the id, otherwise the first listed one that does |
| MoviesSlice.MoviesState.constructor | src/store/moviesSlice.ts:41-47 | empty list, 'idle', no error, no selection |
| MoviesSlice.MoviesState.SetMovies | src/store/moviesSlice.ts:92-94 | replaces the list only |
| MoviesSlice.MoviesState.AddMovie | src/store/moviesSlice.ts:95-97 | appends the movie without a duplicate check |
| MoviesSlice.MoviesState.RemoveMovie | src/store/moviesSlice.ts:98-100 | the list without the id's movies; nothing else changes |
| MoviesSlice.MoviesState.SetSelectedMovie | src/store/moviesSlice.ts:101-103 | sets the selection only |
| MoviesSlice.MoviesState.Pending | src/store/moviesSlice.ts:108-110 | both pending cases set 'loading' and nothing else |
| MoviesSlice.MoviesState.FetchMoviesFulfilled | src/store/moviesSlice.ts:111-114 | 'succeeded' and the payload as list |
| MoviesSlice.MoviesState.FetchMoviesRejected | src/store/moviesSlice.ts:115-118 | 'failed' and the message, or 'Something went wrong' when it is missing or empty |
| MoviesSlice.MoviesState.FetchMovieByIdFulfilled | src/store/moviesSlice.ts:123-130 | 'succeeded', the payload selected and appended only if its id is not listed; unique ids are kept |
| MoviesSlice.MoviesState.FetchMovieByIdRejected | src/store/moviesSlice.ts:131-134 | 'failed' and the message, or 'Could not fetch movie' |
| MoviesSlice.MoviesState.FetchMovieById | src/store/moviesSlice.ts:62-134 | pending, then the thunk on the current list, then fulfilled with its movie or rejected with 'Movie not found'; unique ids are kept |
| SearchHook.InitialSpec | src/utils/search.ts:16-21 | starts with the initial term, inactive, nothing scheduled, no calls, consistent |
| SearchHook.DebounceKeepsConsistent | src/utils/search.ts:24-61 | a call keeps "active flag iff active search" and "nothing blank is active, scheduled or searched" |
| SearchHook.FireKeepsConsistent | src/utils/search.ts:48-58 | the timer callback keeps the same invariant, so `onSearch` never receives blank text |
| SearchHook.DebounceAllKeepsConsistent | src/utils/search.ts:24-61 | any burst of calls keeps the invariant |
| SearchHook.DebounceSpec | src/utils/search.ts:26-48 | sets the term at once, calls nothing, and schedules the term iff it is not blank and not the active search |
| SearchHook.BlankClearsSearch | src/utils/search.ts:36-40 | a blank term clears the active search and the flag and schedules nothing |
| SearchHook.SameTermNotRepeated | src/utils/search.ts:43-45 | the active term typed again causes no new `onSearch` call |
| SearchHook.FireSpec | src/utils/search.ts:48-58 | a scheduled timer calls `onSearch` once with its term and makes it the active search; without one nothing changes |
| SearchHook.BurstKeepsOnlyLast | src/utils/search.ts:27-33 | after a burst only the last term can be scheduled and no call was made |
| SearchHook.DebounceAllCalls | src/utils/search.ts:24-47 | `debouncedSearch` never calls `onSearch` itself |
| SearchHook.DebounceAllActive | src/utils/search.ts:36-45 | calls never start a search: the active search is kept or cleared |
| SearchHook.BurstThenFire | src/utils/search.ts:26-58 | a burst then the timer gives at most one call, with the last term; exactly one when that term is not blank and not already active; the term is then active unless blank |
| SearchHook.SearchHookState.constructor | src/utils/search.ts:16-21 | the initial state |
| SearchHook.SearchHookState.DebouncedSearch | src/utils/search.ts:24-61 | updates the fields as `Debounce` does and keeps the invariant |
| SearchHook.SearchHookState.TimerFires | src/utils/search.ts:48-58 | updates the fields as `Fire` does and returns the term passed to `onSearch` |
| SearchHook.SearchHookState.SetSearchTerm | src/utils/search.ts:16 | changes the term only |

## Left out

- HTTP transport (`src/api/axiosInstance.ts`) is not part of this model. A request's outcome is the `Succeed`/`Fail` event with any response.
- Promises, the event loop and real time are left out. The 300 ms sample delay and the `debounceTime` of `useSearch` become explicit events, so only the order of events is modelled. Callers joined to a failed request receive the same rejection; the model records the failure but not the error value.
- `getMockData` and the `fetchMovies` thunk import bundled JSON. The catalogue contents are a constructor parameter, and the `fetchMovies` payload is a method parameter. A failing import is not modelled.
- `localStorage` holds JSON text. The model stores the decoded list, so `JSON.parse` of malformed text is not modelled. Only the two keys the app uses are modelled.
- A movie keeps only `imdbID`, `Title`, `Actors` and `Director`. The other fields are only copied through and are never read by the core.
- `endpoints.movies` and `endpoints.movie` (src/config/app.config.ts:21-22) are not used by the service and are left out. So is the `console.log` of the configuration.
- Text handling is ASCII only: whitespace is space and tab to carriage return, lower-casing maps A-Z, and percent-encoding covers ASCII. Unicode whitespace, case mappings and UTF-8 escaping are not modelled.
- Endpoints.Search: requires ASCII input, so non-ASCII queries are outside the model.
- Endpoints.ByTitle: requires ASCII input, for the same reason.
- MovieService.FetchMovie: in production the title (or default) must be ASCII, because it goes through `byTitle`.
- MovieService.SearchMovies: in production the term must be ASCII, because it goes through `search`.
- The request cache has no `clear` or eviction operation and no response normaliser; the model has none either.
- `useSearch` ignores the promise `onSearch` returns, and a timer left pending at unmount is not cancelled. Neither is modelled. The React re-rendering and `useCallback` memoisation are not modelled either.
