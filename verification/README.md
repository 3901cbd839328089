# Session shopping cart of the storefront

This project models the session cart of the Django storefront (`store/cart.py`):
a per-session dict from a composite line key to a line record, with the
operations `add`, `remove`, iteration, `get_total_price`, `len` and `clear`,
and the `Cart(request)` constructor that creates the dict when the session
has none.

Modules:

- `Wrappers` (`wrappers.dfy`): `Option` and `Result`.
- `DecimalText` (`decimal_text.dfy`): `str(n)` for non-negative identifiers, and the reading back.
- `CartKeys` (`cart_keys.dfy`): the key `"<product id>_<variant id | no_variant>"`, its parse, and the proof that distinct (product, variant) pairs get distinct keys.
- `CartLines` (`cart_lines.dfy`): the catalogue inputs `Product` and `Variant`, the stored `Line`, and the cart contents as a sequence of (key, line) entries in dict insertion order. It defines `Add`, `Remove`, `Items` (iteration), `Total`, `Len` and `Length` (Python's `len()`), and `ToMap`, the cart as a plain dict.
- `CartLaws` (`cart_laws.dfy`): the properties of those operations.
- `CartSession` (`cart_session.dfy`): the session as an optional cart and a `Cart` object as a `Handle` of (session, own dict). While the session still holds the object's dict, changes to the object reach the session. `clear` deletes the session entry.

Prices are integer cents. Identifiers are non-negative integers, as the
database's automatic keys are. Quantities are unrestricted integers, because `add` does not check them.
When no quantity is passed, `add` uses 1 (`CartLines.DefaultQuantity`, store/cart.py:13). The add-to-cart view
(store/views.py:25) always relies on this default.

Behaviour of the code that the model keeps:

- Iteration is not read-only. `__iter__` writes `total_price` and `key` into each stored record (store/cart.py:46-47). No other operation reads those fields, and each iteration overwrites them. The model's `Items` returns the annotated items and leaves the stored lines as they were.
- `add` accepts any integer quantity and adds it unchecked. Python's `len()` raises a ValueError when `__len__` is negative, and an OverflowError when it exceeds `sys.maxsize`. So `len(cart)` raises whenever the unit count leaves 0..2^63-1. See `CartLaws.LengthFailsBelowZero` and `CartLaws.LengthOverflowsAboveMaxSize`.
- After `clear`, the `Cart` object keeps the old dict. Its total and length are unchanged, and later adds no longer reach the session. A second `clear` on the same object raises a KeyError, because `del session['cart']` finds no entry.

## Model

| member | source | states |
|---|---|---|
| DecimalText.ValueOfDigits | store/cart.py:14-15 | Reading back the decimal text of an identifier gives the identifier, so `str(id)` loses nothing. |
| DecimalText.Digits | store/cart.py:14-15 | `str(id)` for a non-negative id: a non-empty run of digits with no leading zero, "0" exactly for 0. `ValueOfDigits` and `DigitsOfValue` prove it is a bijection onto canonical decimal text. |
| DecimalText.DigitsOfValue | store/cart.py:14-15 | Every canonical decimal text is `str()` of the number it denotes. |
| CartKeys.KeyOf | store/cart.py:14-16 | The line key: product id, `_`, then variant id or `no_variant`. `ParseKeyOf`, `KeyOfParse` and `KeyOfInjective` specify it. |
| CartKeys.KeyOfParse | store/cart.py:14-16 | A string that parses as a key is exactly `KeyOf` of the ids it parses to. With `ParseKeyOf`, the parse is the exact inverse of key rendering. |
| CartKeys.ParseKeyOf | store/cart.py:14-16 | Every key renders a product id and a variant id (or `no_variant`) that parse back from it. |
| CartKeys.KeyOfInjective | store/cart.py:14-16 | Two (product id, variant id) pairs render to the same key exactly when they are the same pair. A missing variant never collides with any variant id. |
| CartLines.Add | store/cart.py:13-34 | `Cart.add`. Specified by `AddNewLine`, `AddExistingLine`, `AddFrame`, `AddIsMapUpdate`, `AddTotal` and `AddLen`. |
| CartLines.Remove | store/cart.py:36-39 | `Cart.remove`. Specified by `RemoveDeletes`, `RemoveAbsent`, `RemoveAt`, `RemoveIsMapRemoval` and `RemoveSums`. |
| CartLines.Items | store/cart.py:44-48 | `Cart.__iter__`. Specified by `ItemsDescribeLines` and `ItemsSumToTotal`. |
| CartLines.Total | store/cart.py:50-51 | `get_total_price`: the sum of price times quantity. Related to `add`, `remove` and iteration by `AddTotal`, `RemoveSums` and `ItemsSumToTotal`. |
| CartLines.Len | store/cart.py:53-54 | `__len__`: the sum of quantities, not the number of lines. Related to `add` and `remove` by `AddLen` and `RemoveSums`. |
| CartLines.Length | store/cart.py:53-54 | `len(cart)`: the unit count when it lies in 0..`sys.maxsize`, otherwise ValueError or OverflowError. Specified by `LengthAfterAdd`, `LengthFailsBelowZero` and `LengthOverflowsAboveMaxSize`. |
| CartLaws.SameKeyIffSameIds | store/cart.py:13-16 | `add` targets the same line exactly when product id and variant id agree, or when both calls have no variant. Prices and names play no part. |
| CartLaws.AddNewLine | store/cart.py:18-33 | On an absent key, `add` appends a last line with exactly the requested quantity. Its price is the product price plus the variant's extra, if a variant is given, and its display fields come from the product and variant. |
| CartLaws.AddExistingLine | store/cart.py:18-33 | On a present key, `add` raises the quantity by the requested amount. Price, ids, names and image stay as stored, and key order is unchanged. |
| CartLaws.AddFrame | store/cart.py:13-34 | `add` leaves every other key's line unchanged. It never removes or reorders a key. |
| CartLaws.AddValid | store/cart.py:16-33 | After `add`, no key occurs twice. |
| CartLaws.AddIsMapUpdate | store/cart.py:13-33 | As a dict, `add` is one update of its key: either the old line with accumulated quantity, or a fresh snapshot holding the requested quantity. |
| CartLaws.AddTotal | store/cart.py:50-51 | `add` raises the total by the quantity times the unit price the line stores. |
| CartLaws.AddLen | store/cart.py:53-54 | `add` raises the unit count by exactly the requested quantity, whether or not the line is new. |
| CartLaws.LengthAfterAdd | store/cart.py:53-54 | `len(cart)` after `add` is the old unit count plus the quantity, whenever that sum lies in 0..`sys.maxsize`. Negative quantities are included. |
| CartLaws.LengthOverflowsAboveMaxSize | store/cart.py:53-54 | If an add takes the unit count above `sys.maxsize`, `len(cart)` raises an OverflowError. |
| CartLaws.DefaultAddRaisesLenByOne | store/cart.py:13-33 | An add with the default quantity, as the add-to-cart view makes, raises the unit count by exactly one. |
| CartLaws.LengthFailsBelowZero | store/cart.py:53-54 | If an add takes the unit count below zero, `len(cart)` raises a ValueError. |
| CartLaws.AddAllAccumulates | store/cart.py:18-33 | Repeated adds to an existing line add up their quantities and change nothing else on the line. |
| CartLaws.RepeatedAddsKeepFirstSnapshot | store/cart.py:18-33 | Consider a run of adds to one key that starts without that key. It ends with quantity equal to the sum of the requests. Price and display fields come from the first call, even if later calls carry different prices. |
| CartLaws.RemoveDeletes | store/cart.py:36-39 | After `remove(k)`, `k` has no line, and every other key's line is unchanged. |
| CartLaws.RemoveAbsent | store/cart.py:36-39 | Removing a key that is not present leaves the cart exactly as it was, with no error. |
| CartLaws.RemoveAt | store/cart.py:36-39 | Deleting the key of entry i removes exactly that entry. The remaining entries keep their insertion order. |
| CartLaws.RemoveValid | store/cart.py:36-38 | After `remove`, no key occurs twice. |
| CartLaws.RemoveIsMapRemoval | store/cart.py:36-39 | As a dict, `remove(k)` is the removal of `k`. |
| CartLaws.RemoveSums | store/cart.py:36-38 | Removing a present line lowers the total by its line total and the unit count by its quantity. |
| CartLaws.ItemsDescribeLines | store/cart.py:44-48 | Iteration yields one item per line, in insertion order. Each item's key looks up the line it carries, and its total is unit price times quantity. |
| CartLaws.ItemsSumToTotal | store/cart.py:44-51 | `get_total_price` equals the sum of the line totals that iteration yields. |
| CartSession.Open | store/cart.py:6-11 | `Cart(request)`. Specified by `OpenStartsEmpty`, `OpenResumesStoredCart` and `OpenAttached`. |
| CartSession.Clear | store/cart.py:56-58 | `Cart.clear`. Specified by `ClearThenOpenIsEmpty`, `ClearTwiceFails` and `ClearLeavesObjectStale`. |
| CartSession.OpenStartsEmpty | store/cart.py:6-11 | A cart built over a session with no stored cart, or an empty one, is empty with total 0 and length 0. The session then holds that empty dict. |
| CartSession.OpenResumesStoredCart | store/cart.py:6-11 | A cart built over a session with a non-empty stored cart takes that dict as it is. The session is left unchanged. |
| CartSession.OpenAttached | store/cart.py:6-11 | A freshly built cart object holds the same dict as its session. |
| CartSession.UpdatesWriteThrough | store/cart.py:8-39 | While the session holds the object's dict, `add` and `remove` on the object change the session's cart the same way, and keys stay distinct. |
| CartSession.ClearThenOpenIsEmpty | store/cart.py:56-58 | After `clear`, the session holds no cart. The next cart built over it is empty, with total 0 and length 0. |
| CartSession.ClearTwiceFails | store/cart.py:56-58 | A second `clear` on the same object raises a KeyError. |
| CartSession.ClearLeavesObjectStale | store/cart.py:56-58 | After `clear`, the object keeps its old total and length. Its later adds and removes do not reach the session. |

## Left out

- Floating point: `add` converts the product price and the variant extra to binary floats before adding them (store/cart.py:19-21). The sums wrap the stored float back into a Decimal (store/cart.py:46,51). The model keeps exact cents. So a price such as 19.99, which no binary float represents exactly, sums exactly in the model but not in the source.
- `CartLines.MaxSize`: `sys.maxsize` is fixed at its 64-bit CPython value, 2^63-1. A 32-bit interpreter would overflow earlier.
- `session.modified` (`save`, store/cart.py:41-42): the dirty flag only tells the session framework to persist the session.
- Other session keys, and several `Cart` objects over one session: the model has one object per session. Whether writes reach the session is judged by comparing contents, which stands in for Python's object identity.
- The image: `product.image.url` is a storage-backend call, modelled as an optional URL string on the product.
- `CartLines.Items`: the `total_price` and `key` fields that `__iter__` writes back into the stored records are not modelled.
- Checkout, order creation and stock decrement: store/urls.py:12-13 routes to `views.checkout` and `views.profile`, which store/views.py does not define, so there is no cart-consuming code to model.
- `store/models.py` (ORM declarations, slug generation, the settings singleton), `store/views.py`, `store/urls.py`, `store/forms.py`, `store/admin.py`, `store/context_processors.py` and `populate_db.py`: framework glue and seeding scripts with no cart logic of their own.
