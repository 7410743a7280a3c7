/** The signed-in reader's library (`src/app/library-service.ts`): a list of books
    kept in the reader's own storage space under the key `library`, reloaded whenever
    the signed-in user changes. Every change is published to subscribers first and
    written to storage second. */
module UserLibrary {
  import opened Wrappers
  import opened Lists
  import opened BookModel

  /** The key of the list inside the reader's storage space. */
  const LibKey := "library"

  /** `add`: a book whose id is already listed changes nothing; otherwise it is
      appended at the end. Either way the id is listed afterwards and distinct ids
      stay distinct. */
  function Added(items: seq<Book>, book: Book): (r: seq<Book>)
    ensures HasId(r, book.id)
    ensures HasId(items, book.id) ==> r == items
    ensures !HasId(items, book.id) ==> |r| == |items| + 1 && r[..|items|] == items && r[|items|] == book
    ensures UniqueIds(items) ==> UniqueIds(r)
  {
    var r := if HasId(items, book.id) then items else items + [book];
    assert r[|r| - 1] == book || HasId(items, book.id);
    r
  }

  /** `toggleFavorite`: every entry with the id flips its own flag, a missing flag
      counting as false; the other entries and all ids stay as they were. */
  function FavoriteToggled(items: seq<Book>, id: string): (r: seq<Book>)
    ensures |r| == |items|
    ensures forall i :: 0 <= i < |items| ==> r[i].id == items[i].id
    ensures forall i :: 0 <= i < |items| && items[i].id == id ==>
              IsFavorite(r[i]) == !IsFavorite(items[i]) && r[i] == Merge(items[i], FavoritePatch(!IsFavorite(items[i])))
    ensures forall i :: 0 <= i < |items| && items[i].id != id ==> r[i] == items[i]
    ensures UniqueIds(items) ==> UniqueIds(r)
  {
    seq(|items|, i requires 0 <= i < |items| =>
      if items[i].id == id then Merge(items[i], FavoritePatch(!IsFavorite(items[i]))) else items[i])
  }

  /** Toggling the same id twice gives every entry back its favourite flag as
      `!!favorite` reads it. */
  lemma {:induction false} ToggleTwice(items: seq<Book>, id: string)
    ensures var r := FavoriteToggled(FavoriteToggled(items, id), id);
            |r| == |items| && forall i :: 0 <= i < |items| ==> IsFavorite(r[i]) == IsFavorite(items[i])
  {
    var once := FavoriteToggled(items, id);
    var twice := FavoriteToggled(once, id);
    forall i | 0 <= i < |items| ensures IsFavorite(twice[i]) == IsFavorite(items[i]) {
      assert once[i].id == items[i].id;
    }
  }

  /** The reader's library as a store: the list subscribers see, the storage cell it
      is written to, and the log of what the store did, in order. */
  class LibraryService {
    var items: seq<Book>
    var persisted: Slot<seq<Book>>
    var effects: seq<Effect<seq<Book>>>

    /** The subject starts from what the reader's storage holds, or the empty list. */
    constructor (stored: Slot<seq<Book>>)
      ensures items == stored.GetOr([]) && persisted == stored && effects == []
    {
      items := stored.GetOr([]);
      persisted := stored;
      effects := [];
    }

    /** The signed-in user changed: read that user's list and publish it. */
    method Reload(stored: Slot<seq<Book>>)
      modifies this
      ensures items == stored.GetOr([]) && persisted == stored
      ensures effects == old(effects) + [Published(items)]
    {
      items := stored.GetOr([]);
      persisted := stored;
      effects := effects + [Published(items)];
    }

    /** `commit`: publish, then persist. */
    method Commit(next: seq<Book>)
      modifies this
      ensures items == next && persisted == Present(next)
      ensures effects == old(effects) + [Published(next), Stored(next)]
    {
      items := next;
      effects := effects + [Published(next)];
      persisted := Present(next);
      effects := effects + [Stored(next)];
    }

    /** `add`: commits only when the id is new. */
    method Add(book: Book)
      modifies this
      ensures items == Added(old(items), book)
      ensures HasId(old(items), book.id) ==> unchanged(this)
      ensures !HasId(old(items), book.id) ==>
                persisted == Present(items) && effects == old(effects) + [Published(items), Stored(items)]
    {
      if !HasId(items, book.id) {
        Commit(items + [book]);
      }
    }

    /** `remove`: commits even when nothing matched. */
    method Remove(id: string)
      modifies this
      ensures items == RemoveId(old(items), id) && persisted == Present(items)
      ensures effects == old(effects) + [Published(items), Stored(items)]
    {
      Commit(RemoveId(items, id));
    }

    method ToggleFavorite(id: string)
      modifies this
      ensures items == FavoriteToggled(old(items), id) && persisted == Present(items)
      ensures effects == old(effects) + [Published(items), Stored(items)]
    {
      Commit(FavoriteToggled(items, id));
    }

    method SetStatus(id: string, status: Status)
      modifies this
      ensures items == UpdateWhere(old(items), id, StatusPatch(Some(status)))
      ensures persisted == Present(items)
      ensures effects == old(effects) + [Published(items), Stored(items)]
    {
      Commit(UpdateWhere(items, id, StatusPatch(Some(status))));
    }

    method Update(id: string, patch: BookPatch)
      modifies this
      ensures items == UpdateWhere(old(items), id, patch) && persisted == Present(items)
      ensures effects == old(effects) + [Published(items), Stored(items)]
    {
      Commit(UpdateWhere(items, id, patch));
    }

    method Clear()
      modifies this
      ensures items == [] && persisted == Present([])
      ensures effects == old(effects) + [Published([]), Stored([])]
    {
      Commit([]);
    }
  }
}
