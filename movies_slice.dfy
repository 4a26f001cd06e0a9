/** The movies slice of the store: the loaded list, the request status, the
    last error and the selected movie, with its reducers, the `fetchMovieById`
    thunk and the `selectMovieById` selector. */
module MoviesSlice {
  import opened Wrappers
  import opened Seqs
  import opened Text
  import opened Movies

  datatype Status = Idle | Loading | Succeeded | Failed

  const FetchMoviesDefaultError := "Something went wrong"
  const FetchMovieDefaultError := "Could not fetch movie"
  const NotFound := "Movie not found"

  function Ids(list: seq<Movie>): seq<string>
  {
    seq(|list|, i requires 0 <= i < |list| => list[i].imdbID)
  }

  /** No two movies in the list share an `imdbID`. */
  ghost predicate UniqueIds(list: seq<Movie>) {
    NoDup(Ids(list))
  }

  /** `list.some(movie => movie.imdbID === id)` */
  predicate HasMovie(list: seq<Movie>, id: string) {
    exists i :: 0 <= i < |list| && list[i].imdbID == id
  }

  function OtherId(id: string): Movie -> bool {
    (m: Movie) => m.imdbID != id
  }

  /** The list after `removeMovie(id)`. */
  function WithoutMovie(list: seq<Movie>, id: string): seq<Movie> {
    Filter(list, OtherId(id))
  }

  /** The list after `fetchMovieById.fulfilled`: the payload is appended unless
      a movie with its id is already listed. */
  function WithMovie(list: seq<Movie>, m: Movie): seq<Movie> {
    if HasMovie(list, m.imdbID) then list else list + [m]
  }

  /** `removeMovie(id)` removes every movie with the id and keeps every other
      movie, as often as it occurred and in order. */
  lemma WithoutMovieSpec(list: seq<Movie>, id: string)
    ensures !HasMovie(WithoutMovie(list, id), id)
    ensures forall m: Movie :: m.imdbID != id ==> multiset(WithoutMovie(list, id))[m] == multiset(list)[m]
    ensures IsSubsequence(WithoutMovie(list, id), list)
  {
    var r := WithoutMovie(list, id);
    forall i | 0 <= i < |r| ensures r[i].imdbID != id {
      assert r[i] in r;
    }
    forall m: Movie | m.imdbID != id ensures multiset(r)[m] == multiset(list)[m] {
      FilterCount(list, OtherId(id), m);
    }
    FilterIsSubsequence(list, OtherId(id));
  }

  /** The fulfilled lookup never introduces a second movie with the same id, and
      afterwards the id is listed. */
  lemma WithMovieKeepsUniqueIds(list: seq<Movie>, m: Movie)
    requires UniqueIds(list)
    ensures UniqueIds(WithMovie(list, m))
    ensures HasMovie(WithMovie(list, m), m.imdbID)
  {
    if !HasMovie(list, m.imdbID) {
      assert Ids(list + [m]) == Ids(list) + [m.imdbID];
      assert m.imdbID !in Ids(list);
      AppendFreshKeepsNoDup(Ids(list), m.imdbID);
      assert (list + [m])[|list|] == m;
    }
  }

  /** The body of the `fetchMovieById` thunk: the first listed movie with the
      id if there is one, else the first catalogue movie with it, else the
      error 'Movie not found'. */
  function FetchMovieByIdThunk(list: seq<Movie>, catalogue: seq<Movie>, id: string): (r: Result<Movie, string>)
    ensures r.Success? ==> r.value.imdbID == id && (r.value in list || r.value in catalogue)
    ensures r.Failure? ==> r.error == NotFound
  {
    match Find(list, HasId(id))
    case Some(m) => Success(m)
    case None =>
      match Find(catalogue, HasId(id))
      case Some(m) => Success(m)
      case None => Failure(NotFound)
  }

  /** The id is `i`'s and no earlier movie's. */
  predicate FirstWithId(movies: seq<Movie>, id: string, i: int) {
    0 <= i < |movies| && movies[i].imdbID == id && forall j :: 0 <= j < i ==> movies[j].imdbID != id
  }

  lemma FetchMovieByIdThunkSpec(list: seq<Movie>, catalogue: seq<Movie>, id: string)
    ensures var r := FetchMovieByIdThunk(list, catalogue, id);
      && (r.Failure? <==> !HasMovie(list, id) && !HasMovie(catalogue, id))
      && (HasMovie(list, id) ==> r.Success? && r.value in list)
      && (forall i :: FirstWithId(list, id, i) ==> r == Success(list[i]))
      && (!HasMovie(list, id) ==> forall i :: FirstWithId(catalogue, id, i) ==> r == Success(catalogue[i]))
  {
    var r := FetchMovieByIdThunk(list, catalogue, id);
    forall i | FirstWithId(list, id, i) ensures r == Success(list[i]) {
      assert forall j :: 0 <= j < i ==> !HasId(id)(list[j]);
      FindIsFirst(list, HasId(id), i);
    }
    if !HasMovie(list, id) {
      assert forall x :: x in list ==> !HasId(id)(x);
      forall i | FirstWithId(catalogue, id, i) ensures r == Success(catalogue[i]) {
        assert forall j :: 0 <= j < i ==> !HasId(id)(catalogue[j]);
        FindIsFirst(catalogue, HasId(id), i);
      }
      if !HasMovie(catalogue, id) {
        assert forall x :: x in catalogue ==> !HasId(id)(x);
      } else {
        var i :| 0 <= i < |catalogue| && catalogue[i].imdbID == id;
        assert HasId(id)(catalogue[i]);
      }
    } else {
      var i :| 0 <= i < |list| && list[i].imdbID == id;
      assert HasId(id)(list[i]);
    }
  }

  /** A listed movie is found without consulting the catalogue. */
  lemma FetchMovieByIdPrefersList(list: seq<Movie>, c1: seq<Movie>, c2: seq<Movie>, id: string)
    requires HasMovie(list, id)
    ensures FetchMovieByIdThunk(list, c1, id) == FetchMovieByIdThunk(list, c2, id)
  {
    var i :| 0 <= i < |list| && list[i].imdbID == id;
    assert HasId(id)(list[i]);
  }

  /** `selectMovieById(state, id)`: the first listed movie with the id, if any. */
  function SelectMovieById(list: seq<Movie>, id: string): (r: Option<Movie>)
    ensures r.None? <==> !HasMovie(list, id)
    ensures r.Some? ==> exists i :: 0 <= i < |list| && list[i] == r.value && r.value.imdbID == id
                                    && forall j :: 0 <= j < i ==> list[j].imdbID != id
  {
    var k := FirstIndex(list, HasId(id));
    if k.None? then
      assert forall i :: 0 <= i < |list| ==> !HasId(id)(list[i]);
      None
    else
      assert HasId(id)(list[k.value]);
      assert forall j :: 0 <= j < k.value ==> !HasId(id)(list[j]);
      Some(list[k.value])
  }

  class MoviesState {
    var list: seq<Movie>
    var status: Status
    var error: Option<string>
    var selectedMovie: Option<Movie>

    constructor ()
      ensures list == [] && status == Idle && error == None && selectedMovie == None
    {
      list, status, error, selectedMovie := [], Idle, None, None;
    }

    /** `setMovies(movies)`: replaces the list wholesale. */
    method SetMovies(movies: seq<Movie>)
      modifies this
      ensures list == movies
      ensures status == old(status) && error == old(error) && selectedMovie == old(selectedMovie)
    {
      list := movies;
    }

    /** `addMovie(m)`: appends without checking for an existing id. */
    method AddMovie(m: Movie)
      modifies this
      ensures list == old(list) + [m]
      ensures status == old(status) && error == old(error) && selectedMovie == old(selectedMovie)
    {
      list := list + [m];
    }

    /** `removeMovie(id)` */
    method RemoveMovie(id: string)
      modifies this
      ensures list == WithoutMovie(old(list), id)
      ensures status == old(status) && error == old(error) && selectedMovie == old(selectedMovie)
    {
      list := WithoutMovie(list, id);
    }

    /** `setSelectedMovie(m)` */
    method SetSelectedMovie(m: Option<Movie>)
      modifies this
      ensures selectedMovie == m
      ensures list == old(list) && status == old(status) && error == old(error)
    {
      selectedMovie := m;
    }

    /** `fetchMovies.pending` and `fetchMovieById.pending`: only the status changes. */
    method Pending()
      modifies this
      ensures status == Loading
      ensures list == old(list) && error == old(error) && selectedMovie == old(selectedMovie)
    {
      status := Loading;
    }

    /** `fetchMovies.fulfilled` */
    method FetchMoviesFulfilled(movies: seq<Movie>)
      modifies this
      ensures status == Succeeded && list == movies
      ensures error == old(error) && selectedMovie == old(selectedMovie)
    {
      status := Succeeded;
      list := movies;
    }

    /** `fetchMovies.rejected`: the error's message, or the default one. */
    method FetchMoviesRejected(message: Option<string>)
      modifies this
      ensures status == Failed && error == Some(OrElse(message, FetchMoviesDefaultError))
      ensures list == old(list) && selectedMovie == old(selectedMovie)
    {
      status := Failed;
      error := Some(OrElse(message, FetchMoviesDefaultError));
    }

    /** `fetchMovieById.fulfilled` */
    method FetchMovieByIdFulfilled(m: Movie)
      modifies this
      ensures status == Succeeded && selectedMovie == Some(m)
      ensures list == WithMovie(old(list), m)
      ensures UniqueIds(old(list)) ==> UniqueIds(list)
      ensures error == old(error)
    {
      status := Succeeded;
      selectedMovie := Some(m);
      if !HasMovie(list, m.imdbID) {
        list := list + [m];
      }
      if UniqueIds(old(list)) {
        WithMovieKeepsUniqueIds(old(list), m);
      }
    }

    /** `fetchMovieById.rejected`: the error's message, or the default one. */
    method FetchMovieByIdRejected(message: Option<string>)
      modifies this
      ensures status == Failed && error == Some(OrElse(message, FetchMovieDefaultError))
      ensures list == old(list) && selectedMovie == old(selectedMovie)
    {
      status := Failed;
      error := Some(OrElse(message, FetchMovieDefaultError));
    }

    /** Dispatching `fetchMovieById(id)`: pending, then the thunk against the
        current list and the catalogue, then fulfilled or rejected. */
    method FetchMovieById(id: string, catalogue: seq<Movie>)
      modifies this
      ensures var r := FetchMovieByIdThunk(old(list), catalogue, id);
        if r.Success? then
          status == Succeeded && selectedMovie == Some(r.value) && list == WithMovie(old(list), r.value)
          && error == old(error)
        else
          status == Failed && error == Some(NotFound) && list == old(list)
          && selectedMovie == old(selectedMovie)
      ensures UniqueIds(old(list)) ==> UniqueIds(list)
    {
      Pending();
      var r := FetchMovieByIdThunk(list, catalogue, id);
      if r.Success? {
        FetchMovieByIdFulfilled(r.value);
      } else {
        FetchMovieByIdRejected(Some(r.error));
      }
    }
  }
}
