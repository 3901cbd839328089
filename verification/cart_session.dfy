/**
  The session side of store/cart.py. The session holds the cart dict under the
  key 'cart', or nothing. A `Cart` object keeps a reference to that same dict,
  so while the session still holds it every `add` and `remove` on the object
  is also a change to the session; after `clear` deletes the session entry the
  object goes on holding the orphaned dict.
*/
module CartSession {
  import opened Wrappers
  import opened CartLines
  import CartLaws

  /** The one session entry the cart uses: `session.get('cart')`. */
  datatype Session = Session(cart: Option<Lines>)

  /** A `Cart` object: the session it was built from and the dict it holds as `self.cart`. */
  datatype Handle = Handle(session: Session, lines: Lines)

  /** The session still holds the object's own dict, so writes reach the session. */
  predicate Attached(h: Handle) {
    h.session.cart == Some(h.lines)
  }

  /**
    `Cart(request)`: a missing or empty stored cart is replaced by a new empty
    dict; a non-empty one is taken over as it is.
  */
  function Open(s: Session): Handle {
    match s.cart
    case Some(c) => if c != [] then Handle(s, c) else Handle(Session(Some([])), [])
    case None => Handle(Session(Some([])), [])
  }

  /** Applies an update of the object's dict, which the session sees while attached. */
  function Update(h: Handle, lines': Lines): Handle {
    Handle(if Attached(h) then Session(Some(lines')) else h.session, lines')
  }

  /** `cart.add(product, quantity, variant)` on the object. */
  function HandleAdd(h: Handle, product: Product, quantity: int, variant: Option<Variant>): Handle {
    Update(h, Add(h.lines, product, quantity, variant))
  }

  /** `cart.remove(cart_key)` on the object. */
  function HandleRemove(h: Handle, k: string): Handle {
    Update(h, Remove(h.lines, k))
  }

  /** `cart.clear()`: `del session['cart']`, which raises a KeyError when there is none. */
  function Clear(h: Handle): Result<Handle, Error> {
    if h.session.cart.None? then Failure(MissingCartKey)
    else Success(Handle(Session(None), h.lines))
  }

  /** Constructing a cart over a session without a stored cart, or with an empty one, starts empty. */
  lemma OpenStartsEmpty(s: Session)
    requires s.cart.None? || s.cart == Some([])
    ensures Open(s).lines == [] && Total(Open(s).lines) == 0 && Len(Open(s).lines) == 0
    ensures Open(s).session.cart == Some([])
  {
  }

  /** Constructing a cart over a session with a non-empty stored cart keeps it, and the session, as they were. */
  lemma OpenResumesStoredCart(s: Session)
    requires s.cart.Some? && s.cart.value != []
    ensures Open(s).lines == s.cart.value
    ensures Open(s).session == s
  {
  }

  /** A freshly constructed object is attached, and its dict has no repeated key when the stored one had none. */
  lemma OpenAttached(s: Session)
    requires s.cart.Some? ==> Valid(s.cart.value)
    ensures Attached(Open(s))
    ensures Valid(Open(s).lines)
  {
  }

  /** While attached, `add` and `remove` reach the session, and keys stay distinct. */
  lemma UpdatesWriteThrough(h: Handle, product: Product, quantity: int, variant: Option<Variant>, k: string)
    requires Attached(h) && Valid(h.lines)
    ensures Attached(HandleAdd(h, product, quantity, variant))
    ensures HandleAdd(h, product, quantity, variant).session.cart == Some(Add(h.lines, product, quantity, variant))
    ensures Valid(HandleAdd(h, product, quantity, variant).lines)
    ensures Attached(HandleRemove(h, k))
    ensures HandleRemove(h, k).session.cart == Some(Remove(h.lines, k))
    ensures Valid(HandleRemove(h, k).lines)
  {
    CartLaws.AddValid(h.lines, product, quantity, variant);
    CartLaws.RemoveValid(h.lines, k);
  }

  /**
    `clear` on an attached object leaves the session without a cart, so the
    next object built over that session is empty with total 0 and length 0.
  */
  lemma ClearThenOpenIsEmpty(h: Handle)
    requires Attached(h)
    ensures Clear(h).Success?
    ensures Clear(h).value.session.cart.None?
    ensures Open(Clear(h).value.session).lines == []
    ensures Total(Open(Clear(h).value.session).lines) == 0
    ensures Len(Open(Clear(h).value.session).lines) == 0
  {
  }

  /** A second `clear` on the same object finds no session entry and raises. */
  lemma ClearTwiceFails(h: Handle, h': Handle)
    requires Clear(h) == Success(h')
    ensures Clear(h') == Failure(MissingCartKey)
  {
  }

  /**
    After `clear` the object still holds the old dict: its total and length
    are unchanged, and later adds and removes no longer reach the session.
  */
  lemma ClearLeavesObjectStale(h: Handle, h': Handle, product: Product, quantity: int, variant: Option<Variant>, k: string)
    requires Clear(h) == Success(h')
    ensures Total(h'.lines) == Total(h.lines) && Len(h'.lines) == Len(h.lines)
    ensures HandleAdd(h', product, quantity, variant).session.cart.None?
    ensures HandleRemove(h', k).session.cart.None?
  {
  }
}
