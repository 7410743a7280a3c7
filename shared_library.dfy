/** The library store the pages use (`src/app/shared/library.ts`): one list of books
    under the fixed browser-storage key `litloom.library.v1`, newest first. Every change
    is published to subscribers first and written to storage second. */
module SharedLibrary {
  import opened Wrappers
  import opened Lists
  import opened BookModel
  import UserLibrary

  /** The one storage key, shared by every user of the browser. */
  const StorageKey := "litloom.library.v1"

  /** `add`: a book whose id is listed changes nothing; otherwise it goes to the front
      with its status defaulted to unread and `addedAt` set to the current time
      `now`, overwriting whatever the caller passed. */
  function Added(books: seq<Book>, book: Book, now: string): (r: seq<Book>)
    ensures HasId(r, book.id)
    ensures HasId(books, book.id) ==> r == books
    ensures !HasId(books, book.id) ==>
              |r| == |books| + 1 && r[1..] == books
              && r[0] == book.(status := Some(book.status.GetOr(Unread)), addedAt := Some(now))
    ensures UniqueIds(books) ==> UniqueIds(r)
  {
    if HasId(books, book.id) then books
    else
      var r := [book.(status := Some(book.status.GetOr(Unread)), addedAt := Some(now))] + books;
      assert forall i :: 0 < i < |r| ==> r[i] == books[i - 1];
      assert r[0].id == book.id;
      r
  }

  /** `toggleFavorite`: an unknown id changes nothing; otherwise every entry with the
      id gets the flag opposite to that of the first such entry. */
  function Toggled(books: seq<Book>, id: string): (r: seq<Book>)
    ensures !HasId(books, id) ==> r == books
    ensures |r| == |books| && forall i :: 0 <= i < |books| ==> r[i].id == books[i].id
  {
    match Find(books, id)
    case None => books
    case Some(b) => UpdateWhere(books, id, FavoritePatch(!IsFavorite(b)))
  }

  /** With distinct ids this store toggles exactly like the per-user library, which
      flips each entry's own flag. */
  lemma {:induction false} ToggledAgrees(books: seq<Book>, id: string)
    requires UniqueIds(books)
    ensures Toggled(books, id) == UserLibrary.FavoriteToggled(books, id)
  {
    var a, b := Toggled(books, id), UserLibrary.FavoriteToggled(books, id);
    forall i | 0 <= i < |books| ensures a[i] == b[i] {
      if books[i].id == id {
        FindUnique(books, id, i);
      }
    }
  }

  class LibraryService {
    var books: seq<Book>
    var persisted: Slot<seq<Book>>
    var effects: seq<Effect<seq<Book>>>

    /** The subject starts from the stored list; an empty or unreadable cell gives the
        empty list. */
    constructor (stored: Slot<seq<Book>>)
      ensures books == stored.GetOr([]) && persisted == stored && effects == []
    {
      books := stored.GetOr([]);
      persisted := stored;
      effects := [];
    }

    /** `next` then `save`. */
    method Publish(next: seq<Book>)
      modifies this
      ensures books == next && persisted == Present(next)
      ensures effects == old(effects) + [Published(next), Stored(next)]
    {
      books := next;
      effects := effects + [Published(next)];
      persisted := Present(next);
      effects := effects + [Stored(next)];
    }

    method Add(book: Book, now: string)
      modifies this
      ensures books == Added(old(books), book, now)
      ensures HasId(old(books), book.id) ==> unchanged(this)
      ensures !HasId(old(books), book.id) ==>
                persisted == Present(books) && effects == old(effects) + [Published(books), Stored(books)]
    {
      if !HasId(books, book.id) {
        Publish([book.(status := Some(book.status.GetOr(Unread)), addedAt := Some(now))] + books);
      }
    }

    method Remove(id: string)
      modifies this
      ensures books == RemoveId(old(books), id) && persisted == Present(books)
      ensures effects == old(effects) + [Published(books), Stored(books)]
    {
      Publish(RemoveId(books, id));
    }

    method Update(id: string, patch: BookPatch)
      modifies this
      ensures books == UpdateWhere(old(books), id, patch) && persisted == Present(books)
      ensures effects == old(effects) + [Published(books), Stored(books)]
    {
      Publish(UpdateWhere(books, id, patch));
    }

    method Clear()
      modifies this
      ensures books == [] && persisted == Present([])
      ensures effects == old(effects) + [Published([]), Stored([])]
    {
      Publish([]);
    }

    /** An unknown id publishes nothing and stores nothing. */
    method ToggleFavorite(id: string)
      modifies this
      ensures books == Toggled(old(books), id)
      ensures !HasId(old(books), id) ==> unchanged(this)
      ensures HasId(old(books), id) ==>
                persisted == Present(books) && effects == old(effects) + [Published(books), Stored(books)]
    {
      var item := Find(books, id);
      if item.Some? {
        Update(id, FavoritePatch(!IsFavorite(item.value)));
      }
    }

    /** `setStatus` is `update` with a patch that holds only the status. */
    method SetStatus(id: string, status: Option<Status>)
      modifies this
      ensures books == UpdateWhere(old(books), id, StatusPatch(status)) && persisted == Present(books)
      ensures effects == old(effects) + [Published(books), Stored(books)]
    {
      Update(id, StatusPatch(status));
    }
  }
}
