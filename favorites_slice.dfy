/** The favourites slice of the store: the list of favourite movie ids, kept in
    step with the browser's storage by every reducer. */
module FavoritesSlice {
  import opened Seqs
  import opened Storage

  /** The list after `toggleFavorite(id)`: removed when present, appended when absent. */
  function Toggled(ids: seq<string>, id: string): seq<string> {
    if id in ids then Removed(ids, id) else ids + [id]
  }

  /** Toggling flips the membership of the id and of no other id. */
  lemma ToggleFlips(ids: seq<string>, id: string)
    ensures id in Toggled(ids, id) <==> id !in ids
    ensures forall x :: x != id ==> (x in Toggled(ids, id) <==> x in ids)
  {
    RemovedSpec(ids, id);
  }

  /** Toggling an absent id twice gives back exactly the original list. */
  lemma ToggleTwice(ids: seq<string>, id: string)
    requires id !in ids
    ensures Toggled(Toggled(ids, id), id) == ids
  {
    var once := ids + [id];
    assert id in once;
    FilterAll(ids, Other(id));
    assert Removed(once, id) == Removed(ids, id) by {
      assert Filter([id], Other(id)) == [];
      FilterAppend(ids, [id], Other(id));
    }
  }

  /** Toggling keeps a duplicate-free list duplicate-free. */
  lemma ToggleKeepsNoDup(ids: seq<string>, id: string)
    requires NoDup(ids)
    ensures NoDup(Toggled(ids, id))
  {
    EditsKeepNoDup(ids, id);
  }

  class FavoritesState {
    var ids: seq<string>
    /** The browser storage the reducers write through to. */
    const storage: Store

    /** The list in the store equals the list in storage. */
    ghost predicate InSync()
      reads this, storage
    {
      ids == storage.GetFavorites()
    }

    /** The initial state reads the saved favourites. */
    constructor (storage: Store)
      ensures this.storage == storage && InSync()
    {
      this.storage := storage;
      ids := storage.GetFavorites();
    }

    /** `addToFavorites(id)`: appends an absent id, and only then adds it to storage. */
    method AddToFavorites(id: string)
      modifies this, storage
      ensures ids == Added(old(ids), id)
      ensures id in old(ids) ==> storage.favorites == old(storage.favorites)
      ensures id !in old(ids) ==> storage.GetFavorites() == Added(old(storage.GetFavorites()), id)
      ensures id in old(ids) ==> storage.favoriteWrites == old(storage.favoriteWrites)
      ensures old(InSync()) && id !in old(ids) ==> storage.favoriteWrites == old(storage.favoriteWrites) + 1
      ensures old(InSync()) ==> InSync()
      ensures NoDup(old(ids)) ==> NoDup(ids)
      ensures storage.token == old(storage.token)
    {
      if id !in ids {
        ids := ids + [id];
        var _ := storage.AddFavorite(id);
      }
      if NoDup(old(ids)) { EditsKeepNoDup(old(ids), id); }
    }

    /** `removeFromFavorites(id)`: removes every occurrence, here and in storage. */
    method RemoveFromFavorites(id: string)
      modifies this, storage
      ensures ids == Removed(old(ids), id)
      ensures storage.GetFavorites() == Removed(old(storage.GetFavorites()), id)
      ensures storage.favoriteWrites == old(storage.favoriteWrites) + 1
      ensures old(InSync()) ==> InSync()
      ensures NoDup(old(ids)) ==> NoDup(ids)
      ensures storage.token == old(storage.token)
    {
      ids := Removed(ids, id);
      var _ := storage.RemoveFavorite(id);
      if NoDup(old(ids)) { EditsKeepNoDup(old(ids), id); }
    }

    /** `toggleFavorite(id)` */
    method ToggleFavorite(id: string)
      modifies this, storage
      ensures ids == Toggled(old(ids), id)
      ensures id in old(ids) ==> storage.GetFavorites() == Removed(old(storage.GetFavorites()), id)
      ensures id !in old(ids) ==> storage.GetFavorites() == Added(old(storage.GetFavorites()), id)
      ensures id in old(ids) ==> storage.favoriteWrites == old(storage.favoriteWrites) + 1
      ensures old(InSync()) && id !in old(ids) ==> storage.favoriteWrites == old(storage.favoriteWrites) + 1
      ensures old(InSync()) ==> InSync()
      ensures NoDup(old(ids)) ==> NoDup(ids)
      ensures storage.token == old(storage.token)
    {
      if id in ids {
        ids := Removed(ids, id);
        var _ := storage.RemoveFavorite(id);
      } else {
        ids := ids + [id];
        var _ := storage.AddFavorite(id);
      }
      if NoDup(old(ids)) { ToggleKeepsNoDup(old(ids), id); }
    }

    /** `selectIsFavorite(state, id)`: while the store and storage agree, it
        answers as storage's `isFavorite` does. */
    function SelectIsFavorite(id: string): (r: bool)
      reads this, storage
      ensures InSync() ==> r == storage.IsFavorite(id)
    {
      id in ids
    }
  }
}
