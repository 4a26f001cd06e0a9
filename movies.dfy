/** Movie records, the response envelopes of the movie service, and the pure
    part of its sample-data path: the catalogue search behind `searchMockData`
    and the id lookup behind `getMovieByIdFromMock`. */
module Movies {
  import opened Wrappers
  import opened Seqs
  import opened Text

  /** A movie record. Only the fields the core reads are kept; the others
      (year, plot, poster, ratings, ...) are carried through untouched. */
  datatype Movie = Movie(imdbID: string, Title: string, Actors: string, Director: string)

  /** The `data` of a response: the search shape or the single-record shape. */
  datatype Payload =
    | SearchPayload(Search: seq<Movie>, totalResults: string, Response: string, Error: Option<string>)
    | DetailPayload(movie: Movie, Response: string, Error: Option<string>)

  /** The response object handed back by the service (`AxiosResponse`). */
  datatype MovieResponse = MovieResponse(data: Payload, status: nat, statusText: string)

  /** The envelope `searchMockData` and `getMovieByIdFromMock` build around their data. */
  function Ok(data: Payload): MovieResponse {
    MovieResponse(data, 200, "OK")
  }

  /** `searchTerm.trim().toLowerCase()`: the key of the sample-search cache. */
  function NormalizedTerm(term: string): string {
    Lower(Trim(term))
  }

  /** The filter of `searchMockData`: the lower-cased title, actors or
      director contain the (already normalised) term. */
  predicate MatchesTerm(term: string, m: Movie) {
    Contains(Lower(m.Title), term) || Contains(Lower(m.Actors), term) || Contains(Lower(m.Director), term)
  }

  function Matching(term: string): Movie -> bool {
    (m: Movie) => MatchesTerm(term, m)
  }

  function HasId(id: string): Movie -> bool {
    (m: Movie) => m.imdbID == id
  }

  /** The response the sample-data search builds for a normalised term once its
      delay has elapsed. */
  function SearchCatalog(allMovies: seq<Movie>, normalizedTerm: string): (r: MovieResponse)
    ensures r.status == 200 && r.statusText == "OK" && r.data.SearchPayload?
    ensures |r.data.Search| <= |allMovies| && forall m :: m in r.data.Search ==> m in allMovies
  {
    if normalizedTerm == [] then
      Ok(SearchPayload(allMovies, NatToString(|allMovies|), "True", None))
    else
      var movies := Filter(allMovies, Matching(normalizedTerm));
      Ok(SearchPayload(movies, NatToString(|movies|),
                       if |movies| > 0 then "True" else "False",
                       if |movies| == 0 then Some("Movie not found!") else None))
  }

  /** An empty normalised term lists the whole catalogue, in order. */
  lemma SearchEmptyTerm(allMovies: seq<Movie>)
    ensures var r := SearchCatalog(allMovies, []);
      && r.status == 200 && r.data.SearchPayload?
      && r.data.Search == allMovies
      && ParseNat(r.data.totalResults) == Some(|allMovies|)
      && r.data.Response == "True" && r.data.Error == None
  {
    ParseNatToString(|allMovies|);
  }

  /** A non-empty term lists exactly the matching movies: each one as often as
      it occurs in the catalogue, in catalogue order. The envelope reports
      'True' iff there is a match and 'Movie not found!' iff there is none. */
  lemma SearchTerm(allMovies: seq<Movie>, term: string)
    requires term != []
    ensures var r := SearchCatalog(allMovies, term);
      && r.status == 200 && r.data.SearchPayload?
      && (forall m :: m in r.data.Search <==> m in allMovies && MatchesTerm(term, m))
      && (forall m :: multiset(r.data.Search)[m] == if MatchesTerm(term, m) then multiset(allMovies)[m] else 0)
      && IsSubsequence(r.data.Search, allMovies)
      && ParseNat(r.data.totalResults) == Some(|r.data.Search|)
      && (r.data.Response == "True" <==> |r.data.Search| > 0)
      && (r.data.Response == "False" <==> |r.data.Search| == 0)
      && (r.data.Error == Some("Movie not found!") <==> |r.data.Search| == 0)
      && (r.data.Error.None? <==> |r.data.Search| > 0)
  {
    var movies := Filter(allMovies, Matching(term));
    forall m ensures multiset(movies)[m] == if MatchesTerm(term, m) then multiset(allMovies)[m] else 0 {
      FilterCount(allMovies, Matching(term), m);
    }
    FilterIsSubsequence(allMovies, Matching(term));
    ParseNatToString(|movies|);
  }

  /** `getMovieByIdFromMock` after the catalogue is loaded: the first movie with
      the id, returned as a detail payload with `Response` 'True', or the error
      'Movie not found'. */
  function MovieByIdFromCatalog(allMovies: seq<Movie>, id: string): (r: Result<MovieResponse, string>)
    ensures r.Failure? ==> r.error == "Movie not found" && forall m :: m in allMovies ==> m.imdbID != id
    ensures r.Success? ==> && r.value.status == 200 && r.value.data.DetailPayload?
                           && r.value.data.movie in allMovies && r.value.data.movie.imdbID == id
                           && r.value.data.Response == "True"
  {
    match Find(allMovies, HasId(id))
    case None => Failure("Movie not found")
    case Some(m) => Success(Ok(DetailPayload(m, "True", None)))
  }

  lemma MovieByIdSpec(allMovies: seq<Movie>, id: string)
    ensures var r := MovieByIdFromCatalog(allMovies, id);
      && (r.Failure? <==> forall i :: 0 <= i < |allMovies| ==> allMovies[i].imdbID != id)
      && (r.Failure? ==> r.error == "Movie not found")
      && (r.Success? ==> (exists i :: 0 <= i < |allMovies| && allMovies[i].imdbID == id
                           && (forall j :: 0 <= j < i ==> allMovies[j].imdbID != id)
                           && r.value == Ok(DetailPayload(allMovies[i], "True", None))))
  {
    var k := FirstIndex(allMovies, HasId(id));
    if k.None? {
      assert forall i :: 0 <= i < |allMovies| ==> allMovies[i].imdbID != id by {
        forall i | 0 <= i < |allMovies| ensures allMovies[i].imdbID != id {
          assert !HasId(id)(allMovies[i]);
        }
      }
    } else {
      var i := k.value;
      assert HasId(id)(allMovies[i]);
      forall j | 0 <= j < i ensures allMovies[j].imdbID != id {
        assert !HasId(id)(allMovies[j]);
      }
    }
  }

  /** Searching and lower-casing see only the normalised term: terms that differ
      in the case of their letters or in surrounding whitespace share one cache
      entry. */
  lemma NormalizedTermInsensitive(a: string, b: string, w1: string, w2: string)
    requires Lower(a) == Lower(b)
    requires AllSpace(w1) && AllSpace(w2)
    ensures NormalizedTerm(w1 + a + w2) == NormalizedTerm(b)
  {
    TrimPadded(w1, a, w2);
    LowerTrim(a);
    LowerTrim(b);
  }

  lemma NormalizedTermIdempotent(t: string)
    ensures NormalizedTerm(NormalizedTerm(t)) == NormalizedTerm(t)
  {
    var u := Trim(t);
    LowerTrim(u);
    TrimIdempotent(t);
    assert Trim(Lower(u)) == Lower(u);
    LowerIdempotent(u);
  }
}
