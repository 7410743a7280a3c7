/** The shop page (`src/app/store/store.ts`): search over the catalogue, twelve books a
    page, and the two buttons that put a book in the cart or in the library, which for
    a visitor who is not signed in only remember the wish until after sign-in. */
module StorePage {
  import opened Wrappers
  import opened Js
  import opened Lists
  import opened Catalog
  import opened BookModel
  import opened Intents
  import CartStore
  import SharedLibrary
  import Auth

  /** `itemsPerPage` */
  const PerPage := 12

  /** Minutes an intent stays valid when `set` is called without a time to live. */
  const IntentTtl := 20

  /** Some author of the list contains the term once lower-cased. */
  predicate AnyAuthorIncludes(authors: seq<string>, term: string)
    decreases |authors|
  {
    authors != [] && (Includes(ToLower(authors[0]), term) || AnyAuthorIncludes(authors[1..], term))
  }

  /** The test `searchBooks` filters by, for an already lower-cased term. */
  predicate MatchesTerm(b: CatalogBook, term: string) {
    Includes(ToLower(b.title), term) || Includes(ToLower(b.genre), term)
    || (b.authors.Some? && AnyAuthorIncludes(b.authors.value, term))
  }

  function Matching(term: string): CatalogBook -> bool {
    (b: CatalogBook) => MatchesTerm(b, term)
  }

  /** `searchBooks`: the books whose title, genre or one of whose authors contains the
      lower-cased search term, in catalogue order; no matching book is dropped. */
  function Searched(books: seq<CatalogBook>, searchTerm: string): (r: seq<CatalogBook>)
    ensures IsSubsequence(r, books)
    ensures forall i :: 0 <= i < |r| ==> MatchesTerm(r[i], ToLower(searchTerm))
    ensures forall i :: 0 <= i < |books| && MatchesTerm(books[i], ToLower(searchTerm)) ==> books[i] in r
  {
    FilterIsSubsequence(books, Matching(ToLower(searchTerm)));
    FilterMembers(books, Matching(ToLower(searchTerm)));
    Filter(books, Matching(ToLower(searchTerm)))
  }

  /** Every string contains the empty string. */
  lemma {:induction false} IncludesEmpty(s: string)
    ensures Includes(s, "")
  {
    assert StartsWith(s, "");
  }

  /** An empty search keeps the whole catalogue. */
  lemma {:induction false} EmptySearchKeepsAll(books: seq<CatalogBook>)
    ensures Searched(books, "") == books
  {
    assert ToLower("") == "";
    forall i | 0 <= i < |books| ensures Matching("")(books[i]) {
      IncludesEmpty(ToLower(books[i].title));
    }
    FilterAll(books, Matching(""));
  }

  /** `paginatedBooks`: the slice of twelve that page `page` shows. */
  function PageOf<T>(filtered: seq<T>, page: int): (r: seq<T>)
    ensures |r| <= PerPage
    ensures 1 <= page && (page - 1) * PerPage <= |filtered| ==>
              r == filtered[(page - 1) * PerPage..Min((page - 1) * PerPage + PerPage, |filtered|)]
  {
    var start := (page - 1) * PerPage;
    Slice(filtered, start, start + PerPage)
  }

  /** `totalPages`: `Math.ceil(length / 12 || 1)`; an empty result still has page 1. */
  function TotalPages(n: nat): (r: int)
    ensures r >= 1
    ensures n > 0 ==> (r - 1) * PerPage < n <= r * PerPage
    ensures n <= PerPage ==> r == 1
  {
    if n == 0 then 1 else (n + PerPage - 1) / PerPage
  }

  /** Each book of the result is on page `i / 12 + 1`, at position `i % 12`, and that
      page is one of the `totalPages` pages. */
  lemma {:induction false} PagesCoverResult<T>(filtered: seq<T>, i: int)
    requires 0 <= i < |filtered|
    ensures 1 <= i / PerPage + 1 <= TotalPages(|filtered|)
    ensures i % PerPage < |PageOf(filtered, i / PerPage + 1)|
    ensures PageOf(filtered, i / PerPage + 1)[i % PerPage] == filtered[i]
  {
    var p := i / PerPage;
    assert p * PerPage + i % PerPage == i;
    assert p * PerPage <= i;
  }

  /** The pages after the last one are empty; every page up to it has a book. */
  lemma {:induction false} PagesBeyondLastAreEmpty<T>(filtered: seq<T>, page: int)
    requires page >= 1
    ensures page > TotalPages(|filtered|) ==> PageOf(filtered, page) == []
    ensures filtered != [] && page <= TotalPages(|filtered|) ==> PageOf(filtered, page) != []
  {
  }

  /** A field that `||` passes over when it is missing or empty. */
  predicate Truthy(o: Option<string>) {
    o.Some? && o.value != ""
  }

  /** `a || b` over optional strings. */
  function OrElse(a: Option<string>, b: Option<string>): (r: Option<string>)
    ensures Truthy(a) ==> r == a
    ensures !Truthy(a) ==> r == b
  {
    if Truthy(a) then a else b
  }

  /** `.replace(/\s+/g, '-')`: every run of white space becomes one dash. */
  function DashSpaces(s: string): (r: string)
    ensures forall i :: 0 <= i < |r| ==> !IsSpace(r[i])
    ensures (forall i :: 0 <= i < |s| ==> !IsSpace(s[i])) ==> r == s
    decreases |s|
  {
    if s == [] then ""
    else if IsSpace(s[0]) then "-" + DashSpaces(TrimStart(s))
    else [s[0]] + DashSpaces(s[1..])
  }

  /** The id `mapToLibraryBook` makes up when the product has neither id, ISBN nor
      SKU: title and first author, lower-cased, with white space turned into dashes. */
  function FallbackId(b: CatalogBook): (r: string)
    ensures forall i :: 0 <= i < |r| ==> !IsSpace(r[i])
  {
    var first := if b.authors.Some? && b.authors.value != [] && b.authors.value[0] != ""
                 then b.authors.value[0] else "unknown";
    DashSpaces(ToLower(b.title + "-" + first))
  }

  /** `mapToLibraryBook`: an unread, non-favourite library book; the id is the
      product's id, ISBN, SKU or made-up id, the first that is there; the cover the
      first non-empty image field; the author the joined author list, else the single
      author, else "Unknown". */
  function ToLibraryBook(b: CatalogBook): (r: Book)
    ensures b.id.Some? ==> r.id == IntToString(b.id.value)
    ensures b.id.None? && b.isbn.Some? ==> r.id == b.isbn.value
    ensures b.id.None? && b.isbn.None? && b.sku.Some? ==> r.id == b.sku.value
    ensures b.id.None? && b.isbn.None? && b.sku.None? ==> r.id == FallbackId(b)
    ensures r.title == b.title && r.description == b.description
    ensures r.status == Some(Unread) && r.favorite == Some(false) && r.addedAt.None?
    ensures b.authors.Some? && b.authors.value != [] ==> r.author == Some(Join(b.authors.value, ", "))
    ensures !(b.authors.Some? && b.authors.value != []) ==>
              r.author == (if Truthy(b.author) then b.author else Some("Unknown"))
    ensures r.coverUrl.None? || Truthy(r.coverUrl)
    ensures r.coverUrl.Some? ==> r.coverUrl in [b.image, b.thumbnail, b.cover, b.picture]
    ensures r.coverUrl.None? <==>
              !Truthy(b.image) && !Truthy(b.thumbnail) && !Truthy(b.cover) && !Truthy(b.picture)
  {
    var id := if b.id.Some? then IntToString(b.id.value)
              else if b.isbn.Some? then b.isbn.value
              else if b.sku.Some? then b.sku.value
              else FallbackId(b);
    var cover := CoverOf(b);
    var author := if b.authors.Some? && b.authors.value != [] then Join(b.authors.value, ", ")
                  else if Truthy(b.author) then b.author.value else "Unknown";
    Book(id, b.title, Some(author), cover, b.description, Some(Unread), Some(false), None)
  }

  /** `p.image || p.thumbnail || p.cover || p.picture || undefined`: the first
      non-empty image field, or none when all are missing or empty. */
  function CoverOf(b: CatalogBook): (r: Option<string>)
    ensures r.None? || Truthy(r)
    ensures r.Some? ==> r in [b.image, b.thumbnail, b.cover, b.picture]
    ensures r.None? <==> !Truthy(b.image) && !Truthy(b.thumbnail) && !Truthy(b.cover) && !Truthy(b.picture)
  {
    OrElse(b.image, OrElse(b.thumbnail, OrElse(b.cover, OrElse(b.picture, None))))
  }

  /** Two products with different numeric ids become library books with different
      ids, so adding both keeps both. */
  lemma {:induction false} NumericIdsStayDistinct(a: CatalogBook, b: CatalogBook)
    requires a.id.Some? && b.id.Some? && a.id != b.id
    ensures ToLibraryBook(a).id != ToLibraryBook(b).id
  {
    if ToLibraryBook(a).id == ToLibraryBook(b).id {
      IntToStringInjective(a.id.value, b.id.value);
    }
  }

  /** What an intent remembers: a shop book for the cart, or the mapped library book. */
  datatype Wish = CartBook(book: CatalogBook) | LibraryBook(libraryBook: Book)

  /** The intent a signed-out click on "add to cart" leaves. */
  function CartIntent(b: CatalogBook): (r: Intent<Wish>)
    ensures r.kind == AddToCart && r.data == CartBook(b) && r.redirectTo == "/cart"
  {
    Intent(AddToCart, CartBook(b), "/cart", None)
  }

  /** The intent a signed-out click on "add to library" leaves. */
  function LibraryIntent(b: CatalogBook): (r: Intent<Wish>)
    ensures r.kind == AddToLibrary && r.data == LibraryBook(ToLibraryBook(b))
    ensures r.redirectTo == "/library"
  {
    Intent(AddToLibrary, LibraryBook(ToLibraryBook(b)), "/library", None)
  }

  class StoreComponent {
    var books: seq<CatalogBook>
    var filteredBooks: seq<CatalogBook>
    var searchTerm: string
    var currentPage: int
    const auth: Auth.AuthService
    const intent: IntentService<Wish>
    const cart: CartStore.StoreService
    const library: SharedLibrary.LibraryService

    constructor (auth: Auth.AuthService, intent: IntentService<Wish>, cart: CartStore.StoreService,
                 library: SharedLibrary.LibraryService)
      ensures books == [] && filteredBooks == [] && searchTerm == "" && currentPage == 1
      ensures this.auth == auth && this.intent == intent && this.cart == cart && this.library == library
    {
      books, filteredBooks, searchTerm, currentPage := [], [], "", 1;
      this.auth, this.intent, this.cart, this.library := auth, intent, cart, library;
    }

    /** The catalogue arrives (`data ?? []`): everything is shown until a search. */
    method BooksLoaded(data: Option<seq<CatalogBook>>)
      modifies this
      ensures books == data.GetOr([]) && filteredBooks == books
      ensures searchTerm == old(searchTerm) && currentPage == old(currentPage)
    {
      books := data.GetOr([]);
      filteredBooks := books;
    }

    /** `searchBooks`: filter and go back to the first page. */
    method SearchBooks()
      modifies this
      ensures filteredBooks == Searched(books, searchTerm) && currentPage == 1
      ensures books == old(books) && searchTerm == old(searchTerm)
    {
      filteredBooks := Searched(books, searchTerm);
      currentPage := 1;
    }

    method GoToPage(page: int)
      modifies this
      ensures currentPage == page
      ensures books == old(books) && filteredBooks == old(filteredBooks) && searchTerm == old(searchTerm)
    {
      currentPage := page;
    }

    /** `paginatedBooks`: at most twelve books of the result, from the current page. */
    function PaginatedBooks(): (r: seq<CatalogBook>)
      reads this
      ensures |r| <= PerPage
      ensures currentPage == 1 ==> r == filteredBooks[..Min(PerPage, |filteredBooks|)]
    {
      PageOf(filteredBooks, currentPage)
    }

    function PageCount(): (r: int)
      reads this
      ensures r >= 1 && (filteredBooks != [] ==> (r - 1) * PerPage < |filteredBooks| <= r * PerPage)
    {
      TotalPages(|filteredBooks|)
    }

    /** `addToCart`: a reader's cart gets one more copy; a visitor's wish is kept as
        an intent, stamped at `now`, and the cart is left alone. */
    method AddToCart(book: CatalogBook, now: int)
      modifies intent, cart
      ensures !old(auth.IsAuthenticated()) ==>
                intent.slot == Present(Stamped(CartIntent(book), IntentTtl, now)) && unchanged(cart)
      ensures old(auth.IsAuthenticated()) ==>
                unchanged(intent) && cart.cart == CartStore.AddLine(old(cart.cart), book, 1)
                && cart.signedIn == old(cart.signedIn)
                && cart.persisted == (if cart.signedIn then Present(cart.cart) else old(cart.persisted))
    {
      if !auth.IsAuthenticated() {
        intent.Set(CartIntent(book), IntentTtl, now);
        return;
      }
      cart.AddToCart(book, 1);
    }

    /** `addToLibrary`: the mapped book goes into a reader's library (at time
        `addedAt`); a visitor's wish is kept as an intent and the library is left
        alone. */
    method AddToLibrary(book: CatalogBook, now: int, addedAt: string)
      modifies intent, library
      ensures !old(auth.IsAuthenticated()) ==>
                intent.slot == Present(Stamped(LibraryIntent(book), IntentTtl, now)) && unchanged(library)
      ensures old(auth.IsAuthenticated()) ==>
                unchanged(intent)
                && library.books == SharedLibrary.Added(old(library.books), ToLibraryBook(book), addedAt)
    {
      var mapped := ToLibraryBook(book);
      if !auth.IsAuthenticated() {
        intent.Set(LibraryIntent(book), IntentTtl, now);
        return;
      }
      library.Add(mapped, addedAt);
    }
  }
}
