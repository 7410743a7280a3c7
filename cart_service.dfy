/** The older cart (`src/app/cart-service.ts`): an untyped list that only grows. */
module LegacyCart {

  /** The entries are whatever callers push, so the class is generic in them. */
  class CartService<T> {
    var cart: seq<T>

    /** A new service starts with an empty cart. */
    constructor ()
      ensures cart == []
    {
      cart := [];
    }

    /** `addToCart`: the entry goes at the end; one more entry, earlier ones untouched. */
    method AddToCart(book: T)
      modifies this
      ensures |cart| == |old(cart)| + 1
      ensures cart[..|old(cart)|] == old(cart) && cart[|cart| - 1] == book
    {
      cart := cart + [book];
    }

    /** `getCartCount` is the number of entries. */
    function GetCartCount(): (n: nat)
      reads this
      ensures n == |cart|
    {
      |cart|
    }
  }
}
