/** The reader's own shelf (`src/app/library/my-books/my-books.ts`): chip counts, the
    five filters, the form that adds a book by hand, and the id it makes up from title,
    author and the time. */
module MyBooksPage {
  import opened Wrappers
  import opened Js
  import opened Lists
  import opened BookModel
  import SharedLibrary

  /** The filter chips. */
  datatype Shelf = All | ReadingShelf | FinishedShelf | UnreadShelf | FavoritesShelf

  /** `(b.status ?? 'unread') === 'unread'`: a book without a status counts as unread. */
  function Unread(): Book -> bool {
    (b: Book) => b.status.GetOr(Status.Unread) == Status.Unread
  }

  /** The `filtered$` switch: the books of the chosen shelf, in library order. */
  function Filtered(books: seq<Book>, shelf: Shelf): (r: seq<Book>)
    ensures IsSubsequence(r, books)
    ensures shelf == All ==> r == books
    ensures shelf == UnreadShelf ==>
              forall i :: 0 <= i < |books| && books[i].status in {None, Some(Status.Unread)} ==> books[i] in r
    ensures shelf == UnreadShelf ==>
              forall i :: 0 <= i < |r| ==> r[i].status in {None, Some(Status.Unread)}
    ensures shelf == FavoritesShelf ==> forall i :: 0 <= i < |r| ==> IsFavorite(r[i])
    ensures shelf == FavoritesShelf ==> forall i :: 0 <= i < |books| && IsFavorite(books[i]) ==> books[i] in r
    ensures shelf == ReadingShelf ==> forall i :: 0 <= i < |r| ==> r[i].status == Some(Reading)
    ensures shelf == ReadingShelf ==> forall i :: 0 <= i < |books| && books[i].status == Some(Reading) ==> books[i] in r
    ensures shelf == FinishedShelf ==> forall i :: 0 <= i < |r| ==> r[i].status == Some(Finished)
    ensures shelf == FinishedShelf ==> forall i :: 0 <= i < |books| && books[i].status == Some(Finished) ==> books[i] in r
  {
    match shelf
    case FavoritesShelf => FilterIsSubsequence(books, IsFavorite); FilterMembers(books, IsFavorite); Filter(books, IsFavorite)
    case ReadingShelf =>
      FilterIsSubsequence(books, WithStatus(Reading)); FilterMembers(books, WithStatus(Reading)); Filter(books, WithStatus(Reading))
    case FinishedShelf =>
      FilterIsSubsequence(books, WithStatus(Finished)); FilterMembers(books, WithStatus(Finished)); Filter(books, WithStatus(Finished))
    case UnreadShelf => FilterIsSubsequence(books, Unread()); FilterMembers(books, Unread()); Filter(books, Unread())
    case All => SubsequenceOfSelf(books); books
  }

  /** The chip counts are the sizes of the matching shelves. */
  lemma {:induction false} CountsMatchShelves(books: seq<Book>)
    ensures CountsOf(books).total == |Filtered(books, All)|
    ensures CountsOf(books).reading == |Filtered(books, ReadingShelf)|
    ensures CountsOf(books).finished == |Filtered(books, FinishedShelf)|
    ensures CountsOf(books).favorites == |Filtered(books, FavoritesShelf)|
  {
  }

  /** Every book is on exactly one of the reading, finished and unread shelves. */
  lemma {:induction false} StatusShelvesPartition(books: seq<Book>)
    ensures |Filtered(books, ReadingShelf)| + |Filtered(books, FinishedShelf)|
            + |Filtered(books, UnreadShelf)| == |books|
  {
    if books != [] {
      StatusShelvesPartition(books[1..]);
    }
  }

  /** A character a slug keeps. */
  predicate SlugChar(c: char) {
    'a' <= c <= 'z' || '0' <= c <= '9'
  }

  /** A character that may appear in a slug. */
  predicate SlugOrDash(c: char) {
    SlugChar(c) || c == '-'
  }

  /** No two dashes next to each other. */
  predicate NoDoubleDash(s: string) {
    forall i :: 0 <= i < |s| - 1 ==> !(s[i] == '-' && s[i + 1] == '-')
  }

  /** `s` with its leading characters that a slug would not keep dropped. */
  function SkipOthers(s: string): (r: string)
    ensures |r| <= |s| && r == s[|s| - |r|..]
    ensures r == [] || SlugChar(r[0])
  {
    if s != [] && !SlugChar(s[0]) then
      var r := SkipOthers(s[1..]);
      assert s[1..][|s| - 1 - |r|..] == s[|s| - |r|..];
      r
    else s
  }

  /** `.replace(/[^a-z0-9]+/g, '-')`: each run of other characters becomes one dash. */
  function Dashed(s: string): (r: string)
    ensures forall i :: 0 <= i < |r| ==> SlugOrDash(r[i])
    ensures NoDoubleDash(r)
    ensures s != [] && SlugChar(s[0]) ==> r != [] && r[0] == s[0]
    decreases |s|
  {
    if s == [] then ""
    else if SlugChar(s[0]) then
      var rest := Dashed(s[1..]);
      ConsSlugOrDash(s[0], rest);
      [s[0]] + rest
    else
      var rest := Dashed(SkipOthers(s[1..]));
      ConsSlugOrDash('-', rest);
      ['-'] + rest
  }

  /** A slug character, or a dash before something that is not a dash, put in front
      of slug text keeps it slug text without double dashes. */
  lemma ConsSlugOrDash(c: char, rest: string)
    requires SlugOrDash(c) && (c == '-' ==> rest == [] || SlugChar(rest[0]))
    requires forall i :: 0 <= i < |rest| ==> SlugOrDash(rest[i])
    requires NoDoubleDash(rest)
    ensures forall i :: 0 <= i < |[c] + rest| ==> SlugOrDash(([c] + rest)[i])
    ensures NoDoubleDash([c] + rest)
  {
    var r := [c] + rest;
    forall i | 0 < i < |r| ensures r[i] == rest[i - 1] {}
  }

  /** `.replace(/(^-|-$)/g, '')`: one dash at the front and one at the end go. */
  function StripDashes(s: string): (r: string)
    ensures |r| <= |s|
    ensures forall i :: 0 <= i < |r| ==> r[i] in s
  {
    var a := if s != [] && s[0] == '-' then s[1..] else s;
    if a != [] && a[|a| - 1] == '-' then a[..|a| - 1] else a
  }

  /** `slug` in `makeId`. */
  function Slug(s: string): (r: string)
    ensures forall i :: 0 <= i < |r| ==> SlugOrDash(r[i])
    ensures r == [] || (r[0] != '-' && r[|r| - 1] != '-')
    ensures NoDoubleDash(r)
  {
    var d := Dashed(ToLower(s));
    var r := StripDashes(d);
    SlugShape(d);
    r
  }

  /** Stripping one dash at each end of a dashed string leaves no dash at either end. */
  lemma {:induction false} SlugShape(d: string)
    requires forall i :: 0 <= i < |d| ==> SlugOrDash(d[i])
    requires NoDoubleDash(d)
    ensures var r := StripDashes(d);
            (r == [] || (r[0] != '-' && r[|r| - 1] != '-')) && NoDoubleDash(r)
  {
    var a := if d != [] && d[0] == '-' then d[1..] else d;
    assert a == [] || a[0] != '-' || d == "-" by {
      if d != [] && d[0] == '-' && |d| > 1 {
        assert d[1] != '-';
      }
    }
    assert NoDoubleDash(a) by {
      if d != [] && d[0] == '-' {
      }
    }
    if a != [] && a[|a| - 1] == '-' {
      var r := a[..|a| - 1];
      if |a| > 1 {
        assert a[|a| - 2] != '-';
      }
      assert forall i :: 0 <= i < |r| ==> r[i] == a[i];
    }
  }

  /** A string made of slug characters is its own dashed form. */
  lemma {:induction false} DashedOfSlugChars(s: string)
    requires forall i :: 0 <= i < |s| ==> SlugChar(s[i])
    ensures Dashed(s) == s
  {
    if s != [] {
      DashedOfSlugChars(s[1..]);
    }
  }

  /** A dash followed by slug characters: `Dashed` keeps a single dash before a slug
      character as it is. */
  lemma {:induction false} DashedOfSlug(s: string)
    requires forall i :: 0 <= i < |s| ==> SlugOrDash(s[i])
    requires NoDoubleDash(s)
    requires s == [] || s[0] != '-'
    requires s == [] || s[|s| - 1] != '-'
    ensures Dashed(s) == s
    decreases |s|
  {
    if s != [] {
      var t := s[1..];
      if t != [] && t[0] == '-' {
        assert |t| > 1 && SlugChar(t[1]);
        var u := t[1..];
        DashedOfSlug(u);
        assert SkipOthers(u) == u;
        assert Dashed(t) == "-" + u;
        assert t == "-" + u;
      } else {
        DashedOfSlug(t);
      }
    }
  }

  /** A slug is made of characters that `toLowerCase` leaves alone. */
  lemma {:induction false} LowerOfSlug(s: string)
    requires forall i :: 0 <= i < |s| ==> SlugOrDash(s[i])
    ensures ToLower(s) == s
  {
  }

  /** Slugging a slug changes nothing. */
  lemma {:induction false} SlugIdempotent(s: string)
    ensures Slug(Slug(s)) == Slug(s)
  {
    var r := Slug(s);
    LowerOfSlug(r);
    DashedOfSlug(r);
  }

  /** A digit of `toString(36)`. */
  function Base36Digit(d: int): (c: char)
    requires 0 <= d < 36
    ensures SlugChar(c)
  {
    if d < 10 then ('0' as int + d) as char else ('a' as int + d - 10) as char
  }

  /** `n.toString(36)` for a non-negative whole number. */
  function Base36(n: nat): (r: string)
    ensures r != [] && forall i :: 0 <= i < |r| ==> SlugChar(r[i])
  {
    if n < 36 then [Base36Digit(n)] else Base36(n / 36) + [Base36Digit(n % 36)]
  }

  /** `makeId`: title slug, author slug and the time in base 36, joined by dashes; the
      clock reading `now` is a parameter. */
  function MakeId(title: string, author: string, now: nat): (r: string)
    ensures forall i :: 0 <= i < |r| ==> SlugOrDash(r[i])
    ensures r != [] && r[|r| - 1] != '-'
    ensures |r| >= |Base36(now)| && r[|r| - |Base36(now)|..] == Base36(now)
  {
    var tail := Base36(now);
    var r := Slug(title) + "-" + Slug(author) + "-" + tail;
    JoinSlugOrDash(Slug(title), "-");
    JoinSlugOrDash(Slug(title) + "-", Slug(author));
    JoinSlugOrDash(Slug(title) + "-" + Slug(author), "-");
    JoinSlugOrDash(Slug(title) + "-" + Slug(author) + "-", tail);
    assert r[|r| - 1] == tail[|tail| - 1];
    r
  }

  /** Joining two texts of slug characters and dashes gives one. */
  lemma {:induction false} JoinSlugOrDash(a: string, b: string)
    requires forall i :: 0 <= i < |a| ==> SlugOrDash(a[i])
    requires forall i :: 0 <= i < |b| ==> SlugOrDash(b[i])
    ensures forall i :: 0 <= i < |a + b| ==> SlugOrDash((a + b)[i])
  {
    forall i | 0 <= i < |a + b| ensures SlugOrDash((a + b)[i]) {
      if i >= |a| {
        assert (a + b)[i] == b[i - |a|];
      }
    }
  }

  /** What `submitNewBook` adds, or nothing when the trimmed title is empty. A picked
      image wins over a typed cover address; a blank author is "Unknown". */
  function Submission(title: string, author: string, coverUrl: string, description: string,
                      preview: Option<string>, now: nat): (r: Option<Book>)
    ensures r.None? <==> Trim(title) == ""
    ensures r.Some? ==> r.value.title == Trim(title) && r.value.title != ""
    ensures r.Some? ==> r.value.author == Some(if Trim(author) == "" then "Unknown" else Trim(author))
    ensures r.Some? ==> r.value.status == Some(Status.Unread) && r.value.favorite == Some(false)
    ensures r.Some? && preview.Some? && preview.value != "" ==> r.value.coverUrl == preview
    ensures r.Some? && !(preview.Some? && preview.value != "") ==>
              r.value.coverUrl == (if Trim(coverUrl) == "" then None else Some(Trim(coverUrl)))
    ensures r.Some? ==> r.value.description == (if Trim(description) == "" then None else Some(Trim(description)))
    ensures r.Some? ==> r.value.id == MakeId(Trim(title), r.value.author.value, now)
  {
    var t := Trim(title);
    if t == "" then None
    else
      var a := if Trim(author) == "" then "Unknown" else Trim(author);
      var cover := if preview.Some? && preview.value != "" then preview
                   else if Trim(coverUrl) != "" then Some(Trim(coverUrl)) else None;
      var desc := if Trim(description) != "" then Some(Trim(description)) else None;
      Some(Book(MakeId(t, a, now), t, Some(a), cover, desc, Some(Status.Unread), Some(false), None))
  }

  /** A title of white space only never adds a book. */
  lemma {:induction false} BlankTitleAddsNothing(title: string, author: string, coverUrl: string,
                                                description: string, preview: Option<string>, now: nat)
    requires forall i :: 0 <= i < |title| ==> IsSpace(title[i])
    ensures Submission(title, author, coverUrl, description, preview, now).None?
  {
    TrimEmptyMeansBlank(title);
  }

  class MyBooksComponent {
    var shelf: Shelf
    var showAdd: bool
    var newTitle: string
    var newAuthor: string
    var newCoverUrl: string
    var newDescription: string
    var previewDataUrl: Option<string>
    var selectedBook: Option<Book>
    const library: SharedLibrary.LibraryService

    constructor (library: SharedLibrary.LibraryService)
      ensures shelf == All && !showAdd && selectedBook.None? && previewDataUrl.None?
      ensures newTitle == "" && newAuthor == "" && newCoverUrl == "" && newDescription == ""
      ensures this.library == library
    {
      shelf, showAdd, selectedBook, previewDataUrl := All, false, None, None;
      newTitle, newAuthor, newCoverUrl, newDescription := "", "", "", "";
      this.library := library;
    }

    /** `counts$` */
    function Counts(): (r: BookModel.Counts)
      reads this, library
      ensures r.total == |library.books| && r.reading + r.finished <= r.total
    {
      CountsOf(library.books)
    }

    /** `filtered$` */
    function Visible(): (r: seq<Book>)
      reads this, library
      ensures IsSubsequence(r, library.books)
    {
      Filtered(library.books, shelf)
    }

    method SetFilter(f: Shelf)
      modifies this
      ensures shelf == f && showAdd == old(showAdd) && selectedBook == old(selectedBook)
    {
      shelf := f;
    }

    method ToggleFavorite(id: string)
      modifies library
      ensures library.books == SharedLibrary.Toggled(old(library.books), id)
    {
      library.ToggleFavorite(id);
    }

    method SetStatus(id: string, s: Option<Status>)
      modifies library
      ensures library.books == UpdateWhere(old(library.books), id, StatusPatch(s))
    {
      library.SetStatus(id, s);
    }

    method Remove(id: string)
      modifies library
      ensures library.books == RemoveId(old(library.books), id)
    {
      library.Remove(id);
    }

    /** `addNewBook` opens and closes the form. */
    method AddNewBook()
      modifies this
      ensures showAdd == !old(showAdd) && shelf == old(shelf)
    {
      showAdd := !showAdd;
    }

    /** `submitNewBook`, at clock reading `now` and library time `addedAt`: a blank
        title changes nothing (the alert is not modelled); otherwise the book goes into
        the library and the form is emptied and closed. */
    method SubmitNewBook(now: nat, addedAt: string)
      modifies this, library
      ensures Submission(old(newTitle), old(newAuthor), old(newCoverUrl), old(newDescription),
                         old(previewDataUrl), now).None? ==>
                unchanged(this) && unchanged(library)
      ensures Submission(old(newTitle), old(newAuthor), old(newCoverUrl), old(newDescription),
                         old(previewDataUrl), now).Some? ==>
                library.books == SharedLibrary.Added(old(library.books),
                  Submission(old(newTitle), old(newAuthor), old(newCoverUrl), old(newDescription),
                             old(previewDataUrl), now).value, addedAt)
                && newTitle == "" && newAuthor == "" && newCoverUrl == "" && newDescription == ""
                && previewDataUrl.None? && !showAdd
    {
      var book := Submission(newTitle, newAuthor, newCoverUrl, newDescription, previewDataUrl, now);
      if book.None? {
        return;
      }
      library.Add(book.value, addedAt);
      ResetForm();
    }

    method ResetForm()
      modifies this
      ensures newTitle == "" && newAuthor == "" && newCoverUrl == "" && newDescription == ""
      ensures previewDataUrl.None? && !showAdd
      ensures shelf == old(shelf) && selectedBook == old(selectedBook)
    {
      newTitle, newAuthor, newCoverUrl, newDescription := "", "", "", "";
      previewDataUrl, showAdd := None, false;
    }

    method OpenDetails(b: Book)
      modifies this
      ensures selectedBook == Some(b) && shelf == old(shelf) && showAdd == old(showAdd)
    {
      selectedBook := Some(b);
    }

    method CloseDetails()
      modifies this
      ensures selectedBook.None? && shelf == old(shelf) && showAdd == old(showAdd)
    {
      selectedBook := None;
    }

    /** Adding from the dialog marks the book as being read. */
    method AddToLibraryFromDialog(b: Book)
      modifies this, library
      ensures library.books == UpdateWhere(old(library.books), b.id, StatusPatch(Some(Reading)))
      ensures selectedBook.None?
    {
      library.SetStatus(b.id, Some(Reading));
      CloseDetails();
    }

    method AddToCartFromDialog(b: Book)
      modifies this
      ensures selectedBook.None? && shelf == old(shelf)
    {
      CloseDetails();
    }
  }
}
