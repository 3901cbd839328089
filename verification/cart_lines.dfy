/**
  The contents of the session cart of store/cart.py: a dict from line key to
  line record. Python dicts keep insertion order, so the model is the sequence
  of (key, line) entries in that order with no key twice (`Valid`).

  Prices are integer cents. The source turns the catalogue's decimal price and
  variant extra into binary floating point before adding them (store/cart.py:19-21)
  and wraps the float back into a Decimal when it sums (store/cart.py:46,51);
  the model keeps the exact decimal value throughout.
*/
module CartLines {
  import opened Wrappers
  import opened CartKeys

  /** The catalogue fields `add` reads from a product; `image` is its URL if it has one. */
  datatype Product = Product(id: nat, price: int, name: string, image: Option<string>)

  /** The catalogue fields `add` reads from a product variant. */
  datatype Variant = Variant(id: nat, priceExtra: int, name: string)

  /** One stored line of the cart, with the fields the source writes at first insertion. */
  datatype Line = Line(
    quantity: int,
    price: int,
    productId: string,
    variantId: Option<nat>,
    name: string,
    variantName: string,
    image: string)

  datatype Entry = Entry(key: string, line: Line)

  type Lines = seq<Entry>

  /** A line as iteration yields it: the stored record annotated with its key and total. */
  datatype Item = Item(key: string, line: Line, totalPrice: int)

  /** The errors Python raises on the paths the model covers. */
  datatype Error =
    | MissingCartKey     // `del session['cart']` when the session holds no cart
    | NegativeLength     // `len()` of an object whose `__len__` is negative
    | LengthOverflow     // `len()` of an object whose `__len__` exceeds `sys.maxsize`

  /** `sys.maxsize` on a 64-bit CPython: the largest value `len()` can return. */
  const MaxSize: int := 0x7FFF_FFFF_FFFF_FFFF

  /** The quantity `add` uses when the caller passes none, as the add-to-cart view does. */
  const DefaultQuantity: int := 1

  // ---------------------------------------------------------------------------
  // Lookup

  /** The keys in iteration (insertion) order. */
  function KeyOrder(c: Lines): seq<string> {
    if c == [] then [] else [c[0].key] + KeyOrder(c[1..])
  }

  /** The representation invariant a dict guarantees: no key occurs twice. */
  predicate Valid(c: Lines) {
    c == [] || (c[0].key !in KeyOrder(c[1..]) && Valid(c[1..]))
  }

  /** `self.cart.get(k)`. */
  function Get(c: Lines, k: string): Option<Line> {
    if c == [] then None
    else if c[0].key == k then Some(c[0].line)
    else Get(c[1..], k)
  }

  /** The cart as a plain dict, forgetting the insertion order. */
  function ToMap(c: Lines): map<string, Line> {
    if c == [] then map[] else ToMap(c[1..])[c[0].key := c[0].line]
  }

  // ---------------------------------------------------------------------------
  // Operations of store/cart.py

  function VariantId(variant: Option<Variant>): Option<nat> {
    match variant
    case Some(v) => Some(v.id)
    case None => None
  }

  /** The key `add` files a (product, variant) pair under. */
  function KeyFor(product: Product, variant: Option<Variant>): string {
    KeyOf(product.id, VariantId(variant))
  }

  /**
    The record `add` creates for a key it has not seen: quantity 0, the unit
    price of the product plus the variant's extra, and the display fields.
  */
  function Snapshot(product: Product, variant: Option<Variant>): Line {
    Line(
      0,
      product.price + (match variant case Some(v) => v.priceExtra case None => 0),
      DecimalText.Digits(product.id),
      VariantId(variant),
      product.name,
      match variant case Some(v) => v.name case None => "",
      match product.image case Some(url) => url case None => "")
  }

  /** Adds `q` to the quantity of the line stored under `k`, leaving everything else alone. */
  function Bump(c: Lines, k: string, q: int): Lines {
    if c == [] then []
    else
      var e := c[0];
      var head := if e.key == k then Entry(k, e.line.(quantity := e.line.quantity + q)) else e;
      [head] + Bump(c[1..], k, q)
  }

  /** `Cart.add(product, quantity, variant)`. */
  function Add(c: Lines, product: Product, quantity: int, variant: Option<Variant>): Lines {
    var k := KeyFor(product, variant);
    var present := if k in KeyOrder(c) then c else c + [Entry(k, Snapshot(product, variant))];
    Bump(present, k, quantity)
  }

  /** `Cart.remove(cart_key)`: deletes the entry if there is one. */
  function Remove(c: Lines, k: string): Lines {
    if c == [] then []
    else if c[0].key == k then Remove(c[1..], k)
    else [c[0]] + Remove(c[1..], k)
  }

  function LineTotal(l: Line): int {
    l.price * l.quantity
  }

  /** `Cart.get_total_price()`, in cents. */
  function Total(c: Lines): int {
    if c == [] then 0 else LineTotal(c[0].line) + Total(c[1..])
  }

  /** `Cart.__len__()`: the number of units, not of lines. */
  function Len(c: Lines): int {
    if c == [] then 0 else c[0].line.quantity + Len(c[1..])
  }

  /**
    `len(cart)`: Python refuses a negative `__len__` with a ValueError and one
    above `sys.maxsize` with an OverflowError, checking the sign first.
  */
  function Length(c: Lines): Result<nat, Error> {
    var n := Len(c);
    if n < 0 then Failure(NegativeLength)
    else if n > MaxSize then Failure(LengthOverflow)
    else Success(n)
  }

  /** `Cart.__iter__()`: every line, in order, with its key and line total. */
  function Items(c: Lines): seq<Item> {
    if c == [] then []
    else [Item(c[0].key, c[0].line, LineTotal(c[0].line))] + Items(c[1..])
  }

  function ItemsTotal(items: seq<Item>): int {
    if items == [] then 0 else items[0].totalPrice + ItemsTotal(items[1..])
  }
}
