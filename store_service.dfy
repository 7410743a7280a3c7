/** The shop cart (`src/app/store-service.ts`): lines of catalogue books with a
    quantity, changed in place, re-published after every change as the list of lines,
    the number of copies and the price total, and written to the signed-in reader's
    storage space under the key `cart` only while someone is signed in. */
module CartStore {
  import opened Wrappers
  import opened Js
  import opened Lists
  import opened Catalog

  /** The key of the cart inside the reader's storage space. */
  const CartKey := "cart"

  datatype CartItem = CartItem(book: CatalogBook, qty: int)

  function BookIdOf(line: CartItem): Option<int> { line.book.id }

  /** No two lines are for the same book id. */
  ghost predicate UniqueLines(cart: seq<CartItem>) {
    UniqueBy(cart, BookIdOf)
  }

  /** Every line holds at least one copy. */
  ghost predicate PositiveQty(cart: seq<CartItem>) {
    forall i :: 0 <= i < |cart| ==> cart[i].qty >= 1
  }

  /** `cart.find(i => i.book.id === id)`, as a position: the first line for the id,
      or -1 when there is none. */
  function IndexOf(cart: seq<CartItem>, id: Option<int>): (k: int)
    ensures -1 <= k < |cart|
    ensures k >= 0 ==> cart[k].book.id == id && forall j :: 0 <= j < k ==> cart[j].book.id != id
    ensures k < 0 ==> forall j :: 0 <= j < |cart| ==> cart[j].book.id != id
  {
    if cart == [] then -1
    else if cart[0].book.id == id then 0
    else
      var k := IndexOf(cart[1..], id);
      assert forall j :: 0 < j < |cart| ==> cart[j] == cart[1..][j - 1];
      if k < 0 then -1 else k + 1
  }

  /** The number of copies: `reduce((sum, i) => sum + i.qty, 0)`. */
  function Count(cart: seq<CartItem>): int {
    if cart == [] then 0 else cart[0].qty + Count(cart[1..])
  }

  /** What one line costs; a missing or non-numeric price counts as 0. */
  function Cost(line: CartItem): real {
    OrZero(line.book.price) * line.qty as real
  }

  /** `getTotal`: the price of every line times its quantity, summed. */
  function Total(cart: seq<CartItem>): real {
    if cart == [] then 0.0 else Cost(cart[0]) + Total(cart[1..])
  }

  lemma {:induction false} SumsAppend(a: seq<CartItem>, b: seq<CartItem>)
    ensures Count(a + b) == Count(a) + Count(b)
    ensures Total(a + b) == Total(a) + Total(b)
  {
    if a != [] {
      assert (a + b)[1..] == a[1..] + b;
      SumsAppend(a[1..], b);
    } else {
      assert a + b == b;
    }
  }

  /** Line `k` with its quantity replaced by `q`. */
  function WithQty(cart: seq<CartItem>, k: int, q: int): seq<CartItem>
    requires 0 <= k < |cart|
  {
    cart[k := cart[k].(qty := q)]
  }

  lemma {:induction false} SumsWithQty(cart: seq<CartItem>, k: int, q: int)
    requires 0 <= k < |cart|
    ensures Count(WithQty(cart, k, q)) == Count(cart) - cart[k].qty + q
    ensures Total(WithQty(cart, k, q)) == Total(cart) + OrZero(cart[k].book.price) * (q - cart[k].qty) as real
  {
    if k > 0 {
      SumsWithQty(cart[1..], k - 1, q);
      assert WithQty(cart, k, q)[1..] == WithQty(cart[1..], k - 1, q);
    } else {
      assert WithQty(cart, k, q)[1..] == cart[1..];
    }
  }

  /** `filter(i => i.book.id !== id)` */
  function OtherBook(id: Option<int>): CartItem -> bool {
    (line: CartItem) => line.book.id != id
  }

  /** `removeById`: every line for the id goes; the other lines stay, in order. */
  function RemoveLine(cart: seq<CartItem>, id: Option<int>): (r: seq<CartItem>)
    ensures IndexOf(r, id) < 0
    ensures IsSubsequence(r, cart)
    ensures forall i :: 0 <= i < |cart| && cart[i].book.id != id ==> cart[i] in r
    ensures UniqueLines(cart) ==> UniqueLines(r)
    ensures PositiveQty(cart) ==> PositiveQty(r)
    ensures IndexOf(cart, id) < 0 ==> r == cart
  {
    FilterKeepsUnique(cart, OtherBook(id), BookIdOf);
    FilterIsSubsequence(cart, OtherBook(id));
    FilterMembers(cart, OtherBook(id));
    if IndexOf(cart, id) < 0 then FilterAll(cart, OtherBook(id)); Filter(cart, OtherBook(id))
    else Filter(cart, OtherBook(id))
  }

  /** Removing the one line for a book takes away exactly its copies and its cost. */
  lemma {:induction false} SumsRemoveLine(cart: seq<CartItem>, id: Option<int>)
    requires UniqueLines(cart) && IndexOf(cart, id) >= 0
    ensures var k := IndexOf(cart, id);
            Count(RemoveLine(cart, id)) == Count(cart) - cart[k].qty
            && Total(RemoveLine(cart, id)) == Total(cart) - Cost(cart[k])
  {
    var rest := cart[1..];
    assert UniqueLines(rest) by {
      forall i, j | 0 <= i < j < |rest| ensures BookIdOf(rest[i]) != BookIdOf(rest[j]) {
        assert rest[i] == cart[i + 1] && rest[j] == cart[j + 1];
      }
    }
    if cart[0].book.id == id {
      forall j | 0 <= j < |rest| ensures OtherBook(id)(rest[j]) {
        assert rest[j] == cart[j + 1];
        assert BookIdOf(cart[0]) != BookIdOf(cart[j + 1]);
      }
      FilterAll(rest, OtherBook(id));
    } else {
      assert IndexOf(rest, id) == IndexOf(cart, id) - 1;
      SumsRemoveLine(rest, id);
    }
  }

  /** `addToCart`: a book already in the cart gets `qty` more copies on its line and no
      new line; a new book gets a line at the end. The count grows by `qty`, the total
      by `qty` times the price of the book on the line, and distinct lines and
      positive quantities are kept. */
  function AddLine(cart: seq<CartItem>, book: CatalogBook, qty: int): (r: seq<CartItem>)
    ensures var k := IndexOf(cart, book.id);
            && (k >= 0 ==> |r| == |cart| && r[k].book == cart[k].book && r[k].qty == cart[k].qty + qty)
            && (k < 0 ==> r == cart + [CartItem(book, qty)])
            && (forall i :: 0 <= i < |cart| && i != k ==> r[i] == cart[i])
            && Count(r) == Count(cart) + qty
            && Total(r) == Total(cart) + Cost(CartItem(if k >= 0 then cart[k].book else book, qty))
    ensures IndexOf(r, book.id) >= 0
    ensures UniqueLines(cart) ==> UniqueLines(r)
    ensures PositiveQty(cart) && qty >= 1 ==> PositiveQty(r)
  {
    var k := IndexOf(cart, book.id);
    if k >= 0 then
      var q := cart[k].qty + qty;
      SumsWithQty(cart, k, q);
      assert (q - cart[k].qty) as real == qty as real;
      assert Cost(CartItem(cart[k].book, qty)) == OrZero(cart[k].book.price) * (q - cart[k].qty) as real;
      RaisedLine(cart, k, q);
      WithQty(cart, k, q)
    else
      var line := CartItem(book, qty);
      SumsAppend(cart, [line]);
      assert [line][1..] == [];
      assert Count([line]) == qty && Total([line]) == Cost(line);
      AppendedLine(cart, line);
      cart + [line]
  }

  /** A new quantity on line `k` keeps every line's book, so the line is still found
      and lines stay distinct. */
  lemma {:induction false} RaisedLine(cart: seq<CartItem>, k: int, q: int)
    requires 0 <= k < |cart|
    ensures IndexOf(WithQty(cart, k, q), cart[k].book.id) >= 0
    ensures UniqueLines(cart) ==> UniqueLines(WithQty(cart, k, q))
    ensures PositiveQty(cart) && q >= 1 ==> PositiveQty(WithQty(cart, k, q))
  {
    var r := WithQty(cart, k, q);
    assert forall i :: 0 <= i < |r| ==> r[i].book == cart[i].book;
    assert r[k].book.id == cart[k].book.id;
  }

  /** A line for a book not yet in the cart, put at the end, is found there and keeps
      lines distinct. */
  lemma {:induction false} AppendedLine(cart: seq<CartItem>, line: CartItem)
    requires IndexOf(cart, line.book.id) < 0
    ensures IndexOf(cart + [line], line.book.id) >= 0
    ensures UniqueLines(cart) ==> UniqueLines(cart + [line])
    ensures PositiveQty(cart) && line.qty >= 1 ==> PositiveQty(cart + [line])
  {
    var r := cart + [line];
    assert r[|cart|] == line;
    assert forall i :: 0 <= i < |cart| ==> r[i] == cart[i];
  }

  /** `setQty`: a quantity of zero or less removes the line; otherwise only the line
      for the id takes the new quantity, and an unknown id changes nothing. */
  function QtySet(cart: seq<CartItem>, id: Option<int>, qty: int): (r: seq<CartItem>)
    ensures qty <= 0 ==> r == RemoveLine(cart, id) && IndexOf(r, id) < 0
    ensures qty > 0 && IndexOf(cart, id) < 0 ==> r == cart
    ensures var k := IndexOf(cart, id);
            qty > 0 && k >= 0 ==>
              |r| == |cart| && r[k].qty == qty && r[k].book == cart[k].book
              && (forall i :: 0 <= i < |cart| && i != k ==> r[i] == cart[i])
              && Count(r) == Count(cart) - cart[k].qty + qty
    ensures UniqueLines(cart) ==> UniqueLines(r)
    ensures PositiveQty(cart) ==> PositiveQty(r)
  {
    var k := IndexOf(cart, id);
    if qty <= 0 then RemoveLine(cart, id)
    else if k < 0 then cart
    else
      SumsWithQty(cart, k, qty);
      WithQty(cart, k, qty)
  }

  /** `increment`: one more copy on the line for the id, nothing else changes. */
  function Incremented(cart: seq<CartItem>, id: Option<int>): (r: seq<CartItem>)
    ensures IndexOf(cart, id) < 0 ==> r == cart
    ensures var k := IndexOf(cart, id);
            k >= 0 ==>
              |r| == |cart| && r[k].qty == cart[k].qty + 1 && r[k].book == cart[k].book
              && (forall i :: 0 <= i < |cart| && i != k ==> r[i] == cart[i])
              && Count(r) == Count(cart) + 1
    ensures UniqueLines(cart) ==> UniqueLines(r)
    ensures PositiveQty(cart) ==> PositiveQty(r)
  {
    var k := IndexOf(cart, id);
    if k < 0 then cart
    else
      SumsWithQty(cart, k, cart[k].qty + 1);
      WithQty(cart, k, cart[k].qty + 1)
  }

  /** `decrement`: a line with more than one copy loses one; a line with one copy (or
      fewer) is removed; an unknown id changes nothing. */
  function Decremented(cart: seq<CartItem>, id: Option<int>): (r: seq<CartItem>)
    ensures IndexOf(cart, id) < 0 ==> r == cart
    ensures var k := IndexOf(cart, id);
            k >= 0 && cart[k].qty > 1 ==>
              |r| == |cart| && r[k].qty == cart[k].qty - 1 && r[k].book == cart[k].book
              && (forall i :: 0 <= i < |cart| && i != k ==> r[i] == cart[i])
              && Count(r) == Count(cart) - 1
    ensures var k := IndexOf(cart, id);
            k >= 0 && cart[k].qty <= 1 ==> r == RemoveLine(cart, id) && IndexOf(r, id) < 0
    ensures UniqueLines(cart) ==> UniqueLines(r)
    ensures PositiveQty(cart) ==> PositiveQty(r)
  {
    var k := IndexOf(cart, id);
    if k < 0 then cart
    else if cart[k].qty > 1 then
      SumsWithQty(cart, k, cart[k].qty - 1);
      WithQty(cart, k, cart[k].qty - 1)
    else RemoveLine(cart, id)
  }

  /** The test `Number(price) || 0` keeps a price by. */
  function HasPrice(line: CartItem): bool {
    line.book.price.Finite?
  }

  /** Lines whose price is missing or not a number add nothing to the total: it is
      the total of the priced lines alone. */
  lemma {:induction false} TotalSkipsUnpriced(cart: seq<CartItem>)
    ensures Total(cart) == Total(Filter(cart, HasPrice))
  {
    if cart != [] {
      TotalSkipsUnpriced(cart[1..]);
    }
  }

  /** With at least one copy on every line the count is at least the number of lines;
      with non-negative prices the total is never negative. */
  lemma {:induction false} SumsBounds(cart: seq<CartItem>)
    requires PositiveQty(cart)
    ensures Count(cart) >= |cart|
    ensures (forall i :: 0 <= i < |cart| ==> OrZero(cart[i].book.price) >= 0.0) ==> Total(cart) >= 0.0
  {
    if cart != [] {
      SumsBounds(cart[1..]);
    }
  }

  /** The cart store. `cart` is the live line list; `items`, `count` and `total` are
      the values last pushed onto the three streams; `persisted` is the storage cell
      of the signed-in reader's cart. */
  class StoreService {
    var cart: seq<CartItem>
    var signedIn: bool
    var persisted: Slot<seq<CartItem>>
    var items: seq<CartItem>
    var count: int
    var total: real

    /** The streams show the current cart: what every public operation leaves behind. */
    ghost predicate Published()
      reads this
    {
      items == cart && count == Count(cart) && total == Total(cart)
    }

    /** Loads the cart of whoever is signed in when the store is created. */
    constructor (signedIn: bool, stored: Slot<seq<CartItem>>)
      ensures this.signedIn == signedIn && persisted == stored
      ensures cart == (if signedIn then stored.GetOr([]) else [])
      ensures Published()
    {
      this.signedIn := signedIn;
      persisted := stored;
      var lines := if signedIn then stored.GetOr([]) else [];
      cart := lines;
      items := lines;
      count := Count(lines);
      total := Total(lines);
    }

    /** `recalc`: push the lines, the copy count and the total. */
    method Recalc()
      modifies this
      ensures cart == old(cart) && signedIn == old(signedIn) && persisted == old(persisted)
      ensures Published()
    {
      items := cart;
      count := Count(cart);
      total := Total(cart);
    }

    /** `loadCart`, run again whenever the signed-in user changes: a signed-out
        visitor has an empty cart; a reader gets their stored cart, or an empty one
        when the cell is empty or unreadable. */
    method LoadCart(signedIn: bool, stored: Slot<seq<CartItem>>)
      modifies this
      ensures this.signedIn == signedIn && persisted == stored
      ensures cart == (if signedIn then stored.GetOr([]) else [])
      ensures Published()
    {
      this.signedIn := signedIn;
      persisted := stored;
      cart := if signedIn then stored.GetOr([]) else [];
      Recalc();
    }

    /** `saveCart`: write only while signed in, then re-publish. */
    method SaveCart()
      modifies this
      ensures cart == old(cart) && signedIn == old(signedIn)
      ensures persisted == (if signedIn then Present(cart) else old(persisted))
      ensures Published()
    {
      if signedIn {
        persisted := Present(cart);
      }
      Recalc();
    }

    method AddToCart(book: CatalogBook, qty: int)
      modifies this
      ensures cart == AddLine(old(cart), book, qty) && signedIn == old(signedIn)
      ensures persisted == (if signedIn then Present(cart) else old(persisted))
      ensures Published()
    {
      var k := IndexOf(cart, book.id);
      if k >= 0 {
        cart := cart[k := cart[k].(qty := cart[k].qty + qty)];
      } else {
        cart := cart + [CartItem(book, qty)];
      }
      SaveCart();
    }

    /** `removeById`, which saves even when nothing matched. */
    method RemoveById(id: Option<int>)
      modifies this
      ensures cart == RemoveLine(old(cart), id) && signedIn == old(signedIn)
      ensures persisted == (if signedIn then Present(cart) else old(persisted))
      ensures Published()
    {
      cart := RemoveLine(cart, id);
      SaveCart();
    }

    /** An unknown id with a positive quantity saves nothing and publishes nothing. */
    method SetQty(id: Option<int>, qty: int)
      modifies this
      ensures cart == QtySet(old(cart), id, qty) && signedIn == old(signedIn)
      ensures qty > 0 && IndexOf(old(cart), id) < 0 ==> unchanged(this)
      ensures qty <= 0 || IndexOf(old(cart), id) >= 0 ==>
                persisted == (if signedIn then Present(cart) else old(persisted)) && Published()
    {
      if qty <= 0 {
        RemoveById(id);
        return;
      }
      var k := IndexOf(cart, id);
      if k >= 0 {
        cart := cart[k := cart[k].(qty := qty)];
        SaveCart();
      }
    }

    method Increment(id: Option<int>)
      modifies this
      ensures cart == Incremented(old(cart), id) && signedIn == old(signedIn)
      ensures IndexOf(old(cart), id) < 0 ==> unchanged(this)
      ensures IndexOf(old(cart), id) >= 0 ==>
                persisted == (if signedIn then Present(cart) else old(persisted)) && Published()
    {
      var k := IndexOf(cart, id);
      if k >= 0 {
        cart := cart[k := cart[k].(qty := cart[k].qty + 1)];
        SaveCart();
      }
    }

    method Decrement(id: Option<int>)
      modifies this
      ensures cart == Decremented(old(cart), id) && signedIn == old(signedIn)
      ensures IndexOf(old(cart), id) < 0 ==> unchanged(this)
      ensures IndexOf(old(cart), id) >= 0 ==>
                persisted == (if signedIn then Present(cart) else old(persisted)) && Published()
    {
      var k := IndexOf(cart, id);
      if k < 0 {
        return;
      }
      if cart[k].qty > 1 {
        cart := cart[k := cart[k].(qty := cart[k].qty - 1)];
        SaveCart();
      } else {
        RemoveById(id);
      }
    }

    /** `removeFromCart` drops every line for the item's book. */
    method RemoveFromCart(item: CartItem)
      modifies this
      ensures cart == RemoveLine(old(cart), item.book.id) && signedIn == old(signedIn)
      ensures persisted == (if signedIn then Present(cart) else old(persisted))
      ensures Published()
    {
      cart := RemoveLine(cart, item.book.id);
      SaveCart();
    }

    method ClearCart()
      modifies this
      ensures cart == [] && signedIn == old(signedIn)
      ensures persisted == (if signedIn then Present([]) else old(persisted))
      ensures Published()
    {
      cart := [];
      SaveCart();
    }

    /** Empties the cart on screen without touching storage, as on sign-out. */
    method ClearCartInMemory()
      modifies this
      ensures cart == [] && signedIn == old(signedIn) && persisted == old(persisted)
      ensures Published()
    {
      cart := [];
      Recalc();
    }

    /** `getTotal` */
    function GetTotal(): real
      reads this
    {
      Total(cart)
    }
  }
}
