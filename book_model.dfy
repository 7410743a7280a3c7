/** The library's book record (`src/app/shared/book.model.ts`) and the list operations
    that both library stores build on: look-up by id, removal by id, patching by id and
    the counts shown on the chips. */
module BookModel {
  import opened Wrappers
  import opened Js
  import opened Lists

  datatype Status = Unread | Reading | Finished

  /** A book in a reader's library; every field but `id` and `title` is optional. */
  datatype Book = Book(
    id: string,
    title: string,
    author: Option<string>,
    coverUrl: Option<string>,
    description: Option<string>,
    status: Option<Status>,
    favorite: Option<bool>,
    addedAt: Option<string>)

  /** `!!b.favorite`: a missing flag reads as false. */
  predicate IsFavorite(b: Book) {
    b.favorite == Some(true)
  }

  /** A `Partial<Book>`: each key either missing or present with a value. */
  datatype BookPatch = BookPatch(
    id: Field<string>,
    title: Field<string>,
    author: Field<Option<string>>,
    coverUrl: Field<Option<string>>,
    description: Field<Option<string>>,
    status: Field<Option<Status>>,
    favorite: Field<Option<bool>>,
    addedAt: Field<Option<string>>)

  const EmptyPatch := BookPatch(Keep, Keep, Keep, Keep, Keep, Keep, Keep, Keep)

  /** `{ status }` */
  function StatusPatch(s: Option<Status>): BookPatch {
    EmptyPatch.(status := Put(s))
  }

  /** `{ favorite: f }` */
  function FavoritePatch(f: bool): BookPatch {
    EmptyPatch.(favorite := Put(Some(f)))
  }

  /** `{ ...b, ...patch }`: the keys present in the patch win; the empty patch changes
      nothing. */
  function Merge(b: Book, patch: BookPatch): (r: Book)
    ensures patch == EmptyPatch ==> r == b
    ensures patch.id.Keep? ==> r.id == b.id
  {
    Book(patch.id.Over(b.id), patch.title.Over(b.title), patch.author.Over(b.author),
         patch.coverUrl.Over(b.coverUrl), patch.description.Over(b.description),
         patch.status.Over(b.status), patch.favorite.Over(b.favorite),
         patch.addedAt.Over(b.addedAt))
  }

  /** `items.some(b => b.id === id)` */
  predicate HasId(items: seq<Book>, id: string) {
    exists i :: 0 <= i < |items| && items[i].id == id
  }

  /** No two entries share an id: what the de-duplicating `add` of both stores keeps. */
  ghost predicate UniqueIds(items: seq<Book>) {
    UniqueBy(items, IdOf)
  }

  function IdOf(b: Book): string { b.id }

  /** `items.find(b => b.id === id)`: the first entry with the id. */
  function Find(items: seq<Book>, id: string): (r: Option<Book>)
    ensures r.Some? <==> HasId(items, id)
    ensures r.Some? ==> r.value.id == id && r.value in items
    ensures r.Some? ==> exists i :: 0 <= i < |items| && items[i] == r.value && forall j :: 0 <= j < i ==> items[j].id != id
  {
    if items == [] then None
    else if items[0].id == id then Some(items[0])
    else
      assert forall i :: 0 < i < |items| ==> items[i] == items[1..][i - 1];
      Find(items[1..], id)
  }

  /** With distinct ids, the entry found is the one entry that has the id. */
  lemma {:induction false} FindUnique(items: seq<Book>, id: string, i: int)
    requires UniqueIds(items) && 0 <= i < |items| && items[i].id == id
    ensures Find(items, id) == Some(items[i])
  {
    if i > 0 {
      assert items[0].id != id;
      FindUnique(items[1..], id, i - 1);
    }
  }

  /** The test `b => b.id !== id` that removal filters by. */
  function OtherThan(id: string): Book -> bool {
    (b: Book) => b.id != id
  }

  /** `items.filter(b => b.id !== id)`: every entry with the id goes, the others stay in
      their order, and distinct ids stay distinct. */
  function RemoveId(items: seq<Book>, id: string): (r: seq<Book>)
    ensures !HasId(r, id)
    ensures IsSubsequence(r, items)
    ensures forall i :: 0 <= i < |items| && items[i].id != id ==> items[i] in r
    ensures UniqueIds(items) ==> UniqueIds(r)
  {
    FilterKeepsUnique(items, OtherThan(id), IdOf);
    FilterIsSubsequence(items, OtherThan(id));
    FilterMembers(items, OtherThan(id));
    Filter(items, OtherThan(id))
  }

  /** `items.map(b => b.id === id ? { ...b, ...patch } : b)`: exactly the entries with
      the id take the patch; an unknown id leaves the list as it was. */
  function UpdateWhere(items: seq<Book>, id: string, patch: BookPatch): (r: seq<Book>)
    ensures |r| == |items|
    ensures forall i :: 0 <= i < |items| && items[i].id != id ==> r[i] == items[i]
    ensures forall i :: 0 <= i < |items| && items[i].id == id ==> r[i] == Merge(items[i], patch)
    ensures !HasId(items, id) ==> r == items
    ensures patch.id.Keep? ==> forall i :: 0 <= i < |items| ==> r[i].id == items[i].id
    ensures patch.id.Keep? && UniqueIds(items) ==> UniqueIds(r)
  {
    seq(|items|, i requires 0 <= i < |items| =>
      if items[i].id == id then Merge(items[i], patch) else items[i])
  }

  /** The counts on the library chips. */
  datatype Counts = Counts(total: nat, reading: nat, finished: nat, favorites: nat)

  /** `b => b.status === s` */
  function WithStatus(s: Status): Book -> bool {
    (b: Book) => b.status == Some(s)
  }

  /** The chip counts: every count is at most the total, and a book is never counted
      both as reading and as finished. */
  function CountsOf(books: seq<Book>): (r: Counts)
    ensures r.total == |books|
    ensures r.reading + r.finished <= r.total
    ensures r.favorites <= r.total
    ensures r.reading == |Filter(books, WithStatus(Reading))|
    ensures r.finished == |Filter(books, WithStatus(Finished))|
    ensures r.favorites == |Filter(books, IsFavorite)|
  {
    FilterDisjointSizes(books, WithStatus(Reading), WithStatus(Finished));
    Counts(|books|, |Filter(books, WithStatus(Reading))|, |Filter(books, WithStatus(Finished))|,
           |Filter(books, IsFavorite)|)
  }

  /** The id of a store product: text, or a number that `String(...)` prints. */
  datatype ProductId = TextId(text: string) | NumberId(number: int)

  /** A store product as `toBook` accepts it. */
  datatype Product = Product(
    id: ProductId,
    title: string,
    author: Option<string>,
    thumbnail: Option<string>,
    image: Option<string>,
    description: Option<string>)

  /** `String(p.id)` */
  function IdText(id: ProductId): string {
    match id
    case TextId(s) => s
    case NumberId(n) => IntToString(n)
  }

  /** `toBook`: a product becomes an unread library book that always names an author
      and takes the thumbnail as cover before the image (`??` keeps an empty string). */
  function ToBook(p: Product): (r: Book)
    ensures r.id == IdText(p.id) && r.title == p.title
    ensures r.author.Some? && (p.author.None? ==> r.author == Some("Unknown"))
    ensures p.author.Some? ==> r.author == p.author
    ensures r.coverUrl == (if p.thumbnail.Some? then p.thumbnail else p.image)
    ensures r.description == p.description
    ensures r.status == Some(Unread) && !IsFavorite(r) && r.addedAt.None?
  {
    Book(IdText(p.id), p.title, Some(p.author.GetOr("Unknown")),
         if p.thumbnail.Some? then p.thumbnail else p.image,
         p.description, Some(Unread), None, None)
  }

  /** Two products with different numeric ids become books with different ids, so
      the de-duplicating `add` keeps them apart. */
  lemma {:induction false} ToBookNumericIdsDistinct(p: Product, q: Product)
    requires p.id.NumberId? && q.id.NumberId? && p.id != q.id
    ensures ToBook(p).id != ToBook(q).id
  {
    if ToBook(p).id == ToBook(q).id {
      IntToStringInjective(p.id.number, q.id.number);
    }
  }
}
