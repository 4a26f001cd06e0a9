/** The `localStorage` helpers: the authentication token and the list of
    favourite movie ids. The browser store is a class with one field per key
    (None when the key is absent); the JSON text under the favourites key is
    represented by the list it encodes. */
module Storage {
  import opened Wrappers
  import opened Seqs

  /** The list after adding `id`: appended at the end when absent, unchanged
      otherwise. */
  function Added(ids: seq<string>, id: string): seq<string> {
    if id in ids then ids else ids + [id]
  }

  function Other(id: string): string -> bool {
    (x: string) => x != id
  }

  /** The list after removing `id`: `ids.filter(x => x !== id)`. */
  function Removed(ids: seq<string>, id: string): seq<string> {
    Filter(ids, Other(id))
  }

  /** `addFavorite` and `addToFavorites` append exactly the absent id; the list
      is otherwise untouched. */
  lemma AddedSpec(ids: seq<string>, id: string)
    ensures id in Added(ids, id)
    ensures id in ids ==> Added(ids, id) == ids
    ensures id !in ids ==> Added(ids, id)[..|ids|] == ids && |Added(ids, id)| == |ids| + 1
    ensures forall x :: x in Added(ids, id) <==> x in ids || x == id
  {
    if id !in ids {
      assert (ids + [id])[..|ids|] == ids;
    }
  }

  /** `removeFavorite` and `removeFromFavorites` drop every occurrence of the id
      and keep every other occurrence, in order. */
  lemma RemovedSpec(ids: seq<string>, id: string)
    ensures id !in Removed(ids, id)
    ensures forall x :: x != id ==> multiset(Removed(ids, id))[x] == multiset(ids)[x]
    ensures IsSubsequence(Removed(ids, id), ids)
  {
    forall x | x != id ensures multiset(Removed(ids, id))[x] == multiset(ids)[x] {
      FilterCount(ids, Other(id), x);
    }
    FilterIsSubsequence(ids, Other(id));
  }

  /** Removing an id that is not there changes nothing. */
  lemma RemovedAbsent(ids: seq<string>, id: string)
    requires id !in ids
    ensures Removed(ids, id) == ids
  {
    FilterAll(ids, Other(id));
  }

  /** Both edits keep a duplicate-free list duplicate-free. */
  lemma EditsKeepNoDup(ids: seq<string>, id: string)
    requires NoDup(ids)
    ensures NoDup(Added(ids, id)) && NoDup(Removed(ids, id))
  {
    if id !in ids {
      AppendFreshKeepsNoDup(ids, id);
    }
    FilterKeepsNoDup(ids, Other(id));
  }

  /** The browser's `localStorage`, reduced to the two keys the app uses:
      'movie_app_token' and 'movie_app_favorites'. */
  class Store {
    var token: Option<string>
    var favorites: Option<seq<string>>
    /** How many times the favourites key has been written. */
    ghost var favoriteWrites: nat

    constructor (token: Option<string>, favorites: Option<seq<string>>)
      ensures this.token == token && this.favorites == favorites && favoriteWrites == 0
    {
      this.token, this.favorites, favoriteWrites := token, favorites, 0;
    }

    /** `getToken()` */
    function GetToken(): Option<string>
      reads this
    {
      token
    }

    /** `setToken(t)` */
    method SetToken(t: string)
      modifies this
      ensures GetToken() == Some(t)
      ensures favorites == old(favorites) && favoriteWrites == old(favoriteWrites)
    {
      token := Some(t);
    }

    /** `removeToken()` */
    method RemoveToken()
      modifies this
      ensures GetToken() == None
      ensures favorites == old(favorites) && favoriteWrites == old(favoriteWrites)
    {
      token := None;
    }

    /** `getFavorites()`: the stored list, or the empty list when nothing is stored. */
    function GetFavorites(): seq<string>
      reads this
    {
      favorites.GetOr([])
    }

    /** `isFavorite(id)` */
    function IsFavorite(id: string): bool
      reads this
    {
      id in GetFavorites()
    }

    /** `addFavorite(id)`: writes and returns the list with the id appended when
        it is absent; when it is present, returns the list without writing. */
    method AddFavorite(id: string) returns (r: seq<string>)
      modifies this
      ensures r == Added(old(GetFavorites()), id) && IsFavorite(id)
      ensures id in old(GetFavorites()) ==> favorites == old(favorites) && favoriteWrites == old(favoriteWrites)
      ensures id !in old(GetFavorites()) ==> favorites == Some(r) && favoriteWrites == old(favoriteWrites) + 1
      ensures GetFavorites() == r && token == old(token)
    {
      var list := GetFavorites();
      if id !in list {
        list := list + [id];
        favorites := Some(list);
        favoriteWrites := favoriteWrites + 1;
      }
      r := list;
    }

    /** `removeFavorite(id)`: always writes the filtered list, and returns it. */
    method RemoveFavorite(id: string) returns (r: seq<string>)
      modifies this
      ensures r == Removed(old(GetFavorites()), id) && !IsFavorite(id)
      ensures favorites == Some(r) && favoriteWrites == old(favoriteWrites) + 1
      ensures token == old(token)
    {
      r := Removed(GetFavorites(), id);
      favorites := Some(r);
      favoriteWrites := favoriteWrites + 1;
    }
  }
}
