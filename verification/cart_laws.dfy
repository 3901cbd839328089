/**
  What the cart operations of store/cart.py promise: accumulation on a repeated
  key, the price snapshot taken at first insertion, frame conditions on other
  keys, and the laws relating `add` and `remove` to the total and the length.
*/
module CartLaws {
  import opened Wrappers
  import opened CartKeys
  import opened CartLines

  // ---------------------------------------------------------------------------
  // Structural facts about the entry sequence

  lemma {:induction false} GetSomeIffKey(c: Lines, k: string)
    ensures Get(c, k).Some? <==> k in KeyOrder(c)
  {
    if c != [] {
      GetSomeIffKey(c[1..], k);
    }
  }

  lemma {:induction false} KeyOrderAppend(c: Lines, e: Entry)
    ensures KeyOrder(c + [e]) == KeyOrder(c) + [e.key]
  {
    if c != [] {
      assert (c + [e])[1..] == c[1..] + [e];
      KeyOrderAppend(c[1..], e);
    }
  }

  lemma {:induction false} GetAppend(c: Lines, e: Entry, k: string)
    ensures Get(c + [e], k) ==
      if k in KeyOrder(c) then Get(c, k)
      else if e.key == k then Some(e.line)
      else None
  {
    if c != [] {
      assert (c + [e])[1..] == c[1..] + [e];
      GetAppend(c[1..], e, k);
    }
  }

  lemma {:induction false} ValidAppend(c: Lines, e: Entry)
    requires Valid(c)
    requires e.key !in KeyOrder(c)
    ensures Valid(c + [e])
  {
    if c != [] {
      assert (c + [e])[1..] == c[1..] + [e];
      ValidAppend(c[1..], e);
      KeyOrderAppend(c[1..], e);
    }
  }

  lemma {:induction false} SumsAppend(c: Lines, e: Entry)
    ensures Total(c + [e]) == Total(c) + LineTotal(e.line)
    ensures Len(c + [e]) == Len(c) + e.line.quantity
  {
    if c != [] {
      assert (c + [e])[1..] == c[1..] + [e];
      SumsAppend(c[1..], e);
    }
  }

  lemma {:induction false} BumpKeepsKeys(c: Lines, k: string, q: int)
    ensures KeyOrder(Bump(c, k, q)) == KeyOrder(c)
  {
    if c != [] {
      BumpKeepsKeys(c[1..], k, q);
    }
  }

  lemma {:induction false} BumpGet(c: Lines, k: string, q: int, k': string)
    ensures Get(Bump(c, k, q), k') ==
      if k' != k then Get(c, k')
      else match Get(c, k)
        case None => None
        case Some(l) => Some(l.(quantity := l.quantity + q))
  {
    if c != [] {
      BumpGet(c[1..], k, q, k');
    }
  }

  lemma {:induction false} BumpAbsent(c: Lines, k: string, q: int)
    requires k !in KeyOrder(c)
    ensures Bump(c, k, q) == c
  {
    if c != [] {
      BumpAbsent(c[1..], k, q);
    }
  }

  lemma LineTotalBump(l: Line, q: int)
    ensures LineTotal(l.(quantity := l.quantity + q)) == LineTotal(l) + q * l.price
  {
  }

  lemma {:induction false} BumpSums(c: Lines, k: string, q: int)
    requires Valid(c)
    ensures Total(Bump(c, k, q)) ==
      Total(c) + (match Get(c, k) case Some(l) => q * l.price case None => 0)
    ensures Len(Bump(c, k, q)) ==
      Len(c) + (if k in KeyOrder(c) then q else 0)
  {
    GetSomeIffKey(c, k);
    if c != [] {
      if c[0].key == k {
        BumpAbsent(c[1..], k, q);
        LineTotalBump(c[0].line, q);
      } else {
        BumpSums(c[1..], k, q);
      }
    }
  }

  lemma {:induction false} BumpValid(c: Lines, k: string, q: int)
    requires Valid(c)
    ensures Valid(Bump(c, k, q))
  {
    if c != [] {
      BumpValid(c[1..], k, q);
      BumpKeepsKeys(c[1..], k, q);
    }
  }

  /** The dict view holds exactly what lookup finds. */
  lemma {:induction false} ToMapGet(c: Lines, k: string)
    ensures k in ToMap(c) <==> Get(c, k).Some?
    ensures k in ToMap(c) ==> Get(c, k) == Some(ToMap(c)[k])
  {
    if c != [] {
      ToMapGet(c[1..], k);
    }
  }

  // ---------------------------------------------------------------------------
  // add

  /** Adding with the same product id and variant id, or both without a variant, targets the same line. */
  lemma SameKeyIffSameIds(p1: Product, v1: Option<Variant>, p2: Product, v2: Option<Variant>)
    ensures KeyFor(p1, v1) == KeyFor(p2, v2) <==> p1.id == p2.id && VariantId(v1) == VariantId(v2)
  {
    KeyOfInjective(p1.id, VariantId(v1), p2.id, VariantId(v2));
  }

  /**
    On a key not yet in the cart, `add` appends a new last line holding exactly
    the requested quantity and the product's price plus the variant's extra.
  */
  lemma AddNewLine(c: Lines, product: Product, quantity: int, variant: Option<Variant>)
    requires KeyFor(product, variant) !in KeyOrder(c)
    ensures Get(Add(c, product, quantity, variant), KeyFor(product, variant))
      == Some(Snapshot(product, variant).(quantity := quantity))
    ensures Get(Add(c, product, quantity, variant), KeyFor(product, variant)).value.price
      == product.price + (if variant.Some? then variant.value.priceExtra else 0)
    ensures KeyOrder(Add(c, product, quantity, variant)) == KeyOrder(c) + [KeyFor(product, variant)]
  {
    var k := KeyFor(product, variant);
    var e := Entry(k, Snapshot(product, variant));
    BumpGet(c + [e], k, quantity, k);
    GetAppend(c, e, k);
    BumpKeepsKeys(c + [e], k, quantity);
    KeyOrderAppend(c, e);
  }

  /**
    On a key already in the cart, `add` raises the quantity by the requested
    amount and keeps every other field of the line, the price included.
  */
  lemma AddExistingLine(c: Lines, product: Product, quantity: int, variant: Option<Variant>, l: Line)
    requires Get(c, KeyFor(product, variant)) == Some(l)
    ensures Get(Add(c, product, quantity, variant), KeyFor(product, variant))
      == Some(l.(quantity := l.quantity + quantity))
    ensures KeyOrder(Add(c, product, quantity, variant)) == KeyOrder(c)
  {
    var k := KeyFor(product, variant);
    GetSomeIffKey(c, k);
    BumpGet(c, k, quantity, k);
    BumpKeepsKeys(c, k, quantity);
  }

  /** `add` changes no other line and never removes or reorders a key. */
  lemma AddFrame(c: Lines, product: Product, quantity: int, variant: Option<Variant>, k': string)
    requires k' != KeyFor(product, variant)
    ensures Get(Add(c, product, quantity, variant), k') == Get(c, k')
    ensures KeyOrder(c) <= KeyOrder(Add(c, product, quantity, variant))
  {
    var k := KeyFor(product, variant);
    var e := Entry(k, Snapshot(product, variant));
    if k in KeyOrder(c) {
      BumpGet(c, k, quantity, k');
      BumpKeepsKeys(c, k, quantity);
    } else {
      BumpGet(c + [e], k, quantity, k');
      GetAppend(c, e, k');
      GetSomeIffKey(c, k');
      BumpKeepsKeys(c + [e], k, quantity);
      KeyOrderAppend(c, e);
    }
  }

  /** `add` keeps the keys distinct. */
  lemma AddValid(c: Lines, product: Product, quantity: int, variant: Option<Variant>)
    requires Valid(c)
    ensures Valid(Add(c, product, quantity, variant))
  {
    var k := KeyFor(product, variant);
    if k in KeyOrder(c) {
      BumpValid(c, k, quantity);
    } else {
      var e := Entry(k, Snapshot(product, variant));
      ValidAppend(c, e);
      BumpValid(c + [e], k, quantity);
    }
  }

  /** `add` raises the total by the quantity times the line's stored unit price. */
  lemma AddTotal(c: Lines, product: Product, quantity: int, variant: Option<Variant>)
    requires Valid(c)
    ensures Get(Add(c, product, quantity, variant), KeyFor(product, variant)).Some?
    ensures Total(Add(c, product, quantity, variant)) ==
      Total(c) + quantity * Get(Add(c, product, quantity, variant), KeyFor(product, variant)).value.price
  {
    var k := KeyFor(product, variant);
    if k in KeyOrder(c) {
      GetSomeIffKey(c, k);
      AddExistingLine(c, product, quantity, variant, Get(c, k).value);
      BumpSums(c, k, quantity);
    } else {
      var e := Entry(k, Snapshot(product, variant));
      AddNewLine(c, product, quantity, variant);
      ValidAppend(c, e);
      SumsAppend(c, e);
      GetAppend(c, e, k);
      BumpSums(c + [e], k, quantity);
    }
  }

  /** `add` raises the number of units by exactly the requested quantity. */
  lemma AddLen(c: Lines, product: Product, quantity: int, variant: Option<Variant>)
    requires Valid(c)
    ensures Len(Add(c, product, quantity, variant)) == Len(c) + quantity
  {
    var k := KeyFor(product, variant);
    if k in KeyOrder(c) {
      BumpSums(c, k, quantity);
    } else {
      var e := Entry(k, Snapshot(product, variant));
      ValidAppend(c, e);
      SumsAppend(c, e);
      KeyOrderAppend(c, e);
      BumpSums(c + [e], k, quantity);
    }
  }

  /**
    `len(cart)` after `add` is the old unit count plus the quantity, whenever
    that sum is one `len()` can return.
  */
  lemma LengthAfterAdd(c: Lines, product: Product, quantity: int, variant: Option<Variant>)
    requires Valid(c)
    requires 0 <= Len(c) + quantity <= MaxSize
    ensures Length(Add(c, product, quantity, variant)) == Success(Len(c) + quantity)
  {
    AddLen(c, product, quantity, variant);
  }

  /** An add without an explicit quantity, as the add-to-cart view makes, raises the unit count by one. */
  lemma DefaultAddRaisesLenByOne(c: Lines, product: Product, variant: Option<Variant>)
    requires Valid(c)
    ensures Len(Add(c, product, DefaultQuantity, variant)) == Len(c) + 1
  {
    AddLen(c, product, DefaultQuantity, variant);
  }

  /** An add that takes the unit count above `sys.maxsize` makes `len(cart)` raise an OverflowError. */
  lemma LengthOverflowsAboveMaxSize(c: Lines, product: Product, quantity: int, variant: Option<Variant>)
    requires Valid(c)
    requires Len(c) + quantity > MaxSize
    ensures Length(Add(c, product, quantity, variant)) == Failure(LengthOverflow)
  {
    AddLen(c, product, quantity, variant);
  }

  /**
    As a dict, `add` is a single update: the key maps to the accumulated old
    line, or to a fresh snapshot holding the requested quantity.
  */
  lemma AddIsMapUpdate(c: Lines, product: Product, quantity: int, variant: Option<Variant>)
    ensures var k := KeyFor(product, variant);
      ToMap(Add(c, product, quantity, variant)) ==
        if k in ToMap(c) then ToMap(c)[k := ToMap(c)[k].(quantity := ToMap(c)[k].quantity + quantity)]
        else ToMap(c)[k := Snapshot(product, variant).(quantity := quantity)]
  {
    var k := KeyFor(product, variant);
    var a := Add(c, product, quantity, variant);
    var m := if k in ToMap(c) then ToMap(c)[k := ToMap(c)[k].(quantity := ToMap(c)[k].quantity + quantity)]
      else ToMap(c)[k := Snapshot(product, variant).(quantity := quantity)];
    ToMapGet(c, k);
    GetSomeIffKey(c, k);
    if k in KeyOrder(c) {
      AddExistingLine(c, product, quantity, variant, Get(c, k).value);
    } else {
      AddNewLine(c, product, quantity, variant);
    }
    forall k' | true
      ensures k' in ToMap(a) <==> k' in m
      ensures k' in m ==> ToMap(a)[k'] == m[k']
    {
      ToMapGet(a, k');
      ToMapGet(c, k');
      if k' != k {
        AddFrame(c, product, quantity, variant, k');
      }
    }
  }

  /**
    `add` does not check the sign of the quantity, so an add that takes the
    unit count below zero makes `len(cart)` raise instead of returning.
  */
  lemma LengthFailsBelowZero(c: Lines, product: Product, quantity: int, variant: Option<Variant>)
    requires Valid(c)
    requires Len(c) + quantity < 0
    ensures Length(Add(c, product, quantity, variant)) == Failure(NegativeLength)
  {
    AddLen(c, product, quantity, variant);
  }

  // ---------------------------------------------------------------------------
  // Repeated adds

  /** One call `add(product, quantity, variant)`. */
  datatype AddCall = AddCall(product: Product, quantity: int, variant: Option<Variant>)

  /** The cart after the calls, in order. */
  function AddAll(c: Lines, calls: seq<AddCall>): Lines
    decreases |calls|
  {
    if calls == [] then c
    else AddAll(Add(c, calls[0].product, calls[0].quantity, calls[0].variant), calls[1..])
  }

  function SumQuantities(calls: seq<AddCall>): int {
    if calls == [] then 0 else calls[0].quantity + SumQuantities(calls[1..])
  }

  predicate AllTarget(calls: seq<AddCall>, k: string) {
    forall i :: 0 <= i < |calls| ==> KeyFor(calls[i].product, calls[i].variant) == k
  }

  /** Adds to an existing line accumulate their quantities and change nothing else on it. */
  lemma {:induction false} AddAllAccumulates(c: Lines, calls: seq<AddCall>, k: string, l: Line)
    requires AllTarget(calls, k)
    requires Get(c, k) == Some(l)
    ensures Get(AddAll(c, calls), k) == Some(l.(quantity := l.quantity + SumQuantities(calls)))
    decreases |calls|
  {
    if calls != [] {
      var a := calls[0];
      AddExistingLine(c, a.product, a.quantity, a.variant, l);
      var l' := l.(quantity := l.quantity + a.quantity);
      assert AllTarget(calls[1..], k) by {
        forall i | 0 <= i < |calls[1..]|
          ensures KeyFor(calls[1..][i].product, calls[1..][i].variant) == k
        {
          assert calls[1..][i] == calls[i + 1];
        }
      }
      AddAllAccumulates(Add(c, a.product, a.quantity, a.variant), calls[1..], k, l');
    }
  }

  /**
    A run of adds to one key, starting from a cart without it, leaves a line
    whose quantity is the sum of the requested quantities and whose price and
    display fields are those of the FIRST call, whatever the later calls'
    products and variants carried.
  */
  lemma {:induction false} RepeatedAddsKeepFirstSnapshot(c: Lines, calls: seq<AddCall>)
    requires |calls| > 0
    requires AllTarget(calls, KeyFor(calls[0].product, calls[0].variant))
    requires KeyFor(calls[0].product, calls[0].variant) !in KeyOrder(c)
    ensures Get(AddAll(c, calls), KeyFor(calls[0].product, calls[0].variant))
      == Some(Snapshot(calls[0].product, calls[0].variant).(quantity := SumQuantities(calls)))
  {
    var a := calls[0];
    var k := KeyFor(a.product, a.variant);
    AddNewLine(c, a.product, a.quantity, a.variant);
    AddAllAccumulates(Add(c, a.product, a.quantity, a.variant), calls[1..], k,
      Snapshot(a.product, a.variant).(quantity := a.quantity));
  }

  // ---------------------------------------------------------------------------
  // remove

  /** After `remove(k)` there is no line under `k`; every other line is as it was. */
  lemma {:induction false} RemoveDeletes(c: Lines, k: string, k': string)
    ensures Get(Remove(c, k), k) == None
    ensures k' != k ==> Get(Remove(c, k), k') == Get(c, k')
  {
    if c != [] {
      RemoveDeletes(c[1..], k, k');
    }
  }

  /** Removing a key that is not there leaves the cart exactly as it was. */
  lemma {:induction false} RemoveAbsent(c: Lines, k: string)
    requires k !in KeyOrder(c)
    ensures Remove(c, k) == c
  {
    if c != [] {
      RemoveAbsent(c[1..], k);
    }
  }

  lemma {:induction false} RemoveKeyOrder(c: Lines, k: string, k': string)
    ensures k' in KeyOrder(Remove(c, k)) <==> k' in KeyOrder(c) && k' != k
  {
    if c != [] {
      RemoveKeyOrder(c[1..], k, k');
    }
  }

  /** `remove` keeps the keys distinct. */
  lemma {:induction false} RemoveValid(c: Lines, k: string)
    requires Valid(c)
    ensures Valid(Remove(c, k))
  {
    if c != [] {
      RemoveValid(c[1..], k);
      RemoveKeyOrder(c[1..], k, c[0].key);
    }
  }

  /** Deleting a present key takes out its entry and keeps the others in their order. */
  lemma {:induction false} RemoveAt(c: Lines, i: nat)
    requires Valid(c)
    requires i < |c|
    ensures Remove(c, c[i].key) == c[..i] + c[i + 1..]
  {
    KeyOrderAt(c[1..]);
    if i == 0 {
      RemoveAbsent(c[1..], c[0].key);
    } else {
      assert c[i].key == KeyOrder(c[1..])[i - 1];
      RemoveAt(c[1..], i - 1);
      assert c[1..][..i - 1] == c[1..i];
      assert c[1..][i..] == c[i + 1..];
      assert c[..i] == [c[0]] + c[1..i];
    }
  }

  /** Removing a present line lowers the total by its line total and the length by its quantity. */
  lemma {:induction false} RemoveSums(c: Lines, k: string, l: Line)
    requires Valid(c)
    requires Get(c, k) == Some(l)
    ensures Total(Remove(c, k)) == Total(c) - LineTotal(l)
    ensures Len(Remove(c, k)) == Len(c) - l.quantity
  {
    if c[0].key == k {
      RemoveAbsent(c[1..], k);
    } else {
      RemoveSums(c[1..], k, l);
    }
  }

  /** As a dict, `remove(k)` is the removal of `k`, present or not. */
  lemma {:induction false} RemoveIsMapRemoval(c: Lines, k: string)
    ensures ToMap(Remove(c, k)) == ToMap(c) - {k}
  {
    var r := Remove(c, k);
    forall k' | true
      ensures k' in ToMap(r) <==> k' in ToMap(c) - {k}
      ensures k' in ToMap(r) ==> ToMap(r)[k'] == (ToMap(c) - {k})[k']
    {
      ToMapGet(r, k');
      ToMapGet(c, k');
      RemoveDeletes(c, k, k');
    }
  }

  // ---------------------------------------------------------------------------
  // iteration and the aggregates

  lemma {:induction false} KeyOrderAt(c: Lines)
    ensures |KeyOrder(c)| == |c|
    ensures forall i :: 0 <= i < |c| ==> KeyOrder(c)[i] == c[i].key
  {
    if c != [] {
      KeyOrderAt(c[1..]);
    }
  }

  lemma {:induction false} ItemsAt(c: Lines)
    ensures |Items(c)| == |c|
    ensures forall i :: 0 <= i < |c| ==> Items(c)[i] == Item(c[i].key, c[i].line, LineTotal(c[i].line))
  {
    if c != [] {
      ItemsAt(c[1..]);
    }
  }

  /** In a cart without repeated keys, every entry is what its own key looks up. */
  lemma {:induction false} GetAt(c: Lines, i: nat)
    requires Valid(c)
    requires i < |c|
    ensures Get(c, c[i].key) == Some(c[i].line)
  {
    if i > 0 {
      KeyOrderAt(c[1..]);
      assert c[i].key == KeyOrder(c[1..])[i - 1];
      GetAt(c[1..], i - 1);
    }
  }

  /**
    Iteration yields one item per line, in key order; each item's key looks up
    the very line it carries, and its total is unit price times quantity.
  */
  lemma {:induction false} ItemsDescribeLines(c: Lines)
    requires Valid(c)
    ensures |Items(c)| == |c| == |KeyOrder(c)|
    ensures forall i :: 0 <= i < |c| ==>
      && Items(c)[i].key == KeyOrder(c)[i]
      && Get(c, Items(c)[i].key) == Some(Items(c)[i].line)
      && Items(c)[i].totalPrice == Items(c)[i].line.price * Items(c)[i].line.quantity
  {
    KeyOrderAt(c);
    ItemsAt(c);
    forall i | 0 <= i < |c|
      ensures Get(c, c[i].key) == Some(c[i].line)
    {
      GetAt(c, i);
    }
  }

  /** The total is the sum of the line totals iteration yields. */
  lemma {:induction false} ItemsSumToTotal(c: Lines)
    ensures ItemsTotal(Items(c)) == Total(c)
  {
    if c != [] {
      assert Items(c)[1..] == Items(c[1..]);
      ItemsSumToTotal(c[1..]);
    }
  }
}
