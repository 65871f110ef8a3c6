/** The shared product and cart records of the storefront (src/app/models/product.models.ts). */
module Models {
  import opened Wrappers

  /** A catalog entry. Prices are whole cents. */
  datatype Product = Product(id: int, title: string, price: int, image: string, stock: int)

  /** A cart line: a snapshot of the product taken when it was first added, and a quantity. */
  datatype CartItem = CartItem(id: int, title: string, price: int, image: string, quantity: int)

  /** A user's cart: its lines in insertion order. */
  datatype Cart = Cart(items: seq<CartItem>)

  const EmptyCart: Cart := Cart([])

  /** An optional string as JavaScript's `if (s)` reads it: present and not the empty string. */
  predicate Truthy(s: Option<string>)
  {
    s.Some? && s.value != ""
  }

  /** A flag map of a page, read as JavaScript reads `flags[id]`: a missing key is false. */
  predicate Flagged(flags: map<int, bool>, id: int)
  {
    id in flags && flags[id]
  }

  /** JavaScript's `a || b` on two optional strings. */
  function Or(a: Option<string>, b: Option<string>): (r: Option<string>)
    ensures Truthy(r) <==> Truthy(a) || Truthy(b)
    ensures Truthy(a) ==> r == a
    ensures !Truthy(a) ==> r == b
  {
    if Truthy(a) then a else b
  }
}
