/**
  The composite line key of the session cart (store/cart.py:14-16): the decimal
  product id, an underscore, then the decimal variant id or the sentinel
  `no_variant`.
*/
module CartKeys {
  import opened Wrappers
  import opened DecimalText

  const NoVariant: string := "no_variant"

  /** The key text for a product id and an optional variant id. */
  function KeyOf(productId: nat, variantId: Option<nat>): string {
    Digits(productId) + "_" + VariantPart(variantId)
  }

  function VariantPart(variantId: Option<nat>): string {
    match variantId
    case Some(v) => Digits(v)
    case None => NoVariant
  }

  /** Position of the first `c` in `s`, or `|s|` when there is none. */
  function IndexOf(s: string, c: char): (i: nat)
    ensures i <= |s|
    ensures i < |s| ==> s[i] == c
    ensures forall j :: 0 <= j < i ==> s[j] != c
    decreases |s|
  {
    if s == [] then 0
    else if s[0] == c then 0
    else 1 + IndexOf(s[1..], c)
  }

  /**
    Reads a key back into its product id and optional variant id. Exactly the
    texts some `KeyOf` call renders parse; anything else, such as a free-form
    path segment or an id with a leading zero, reads as `None`.
  */
  function ParseKey(k: string): Option<(nat, Option<nat>)> {
    var i := IndexOf(k, '_');
    if i == |k| then None
    else
      var head := k[..i];
      var tail := k[i + 1..];
      if !Canonical(head) then None
      else if tail == NoVariant then Some((Value(head), None))
      else if Canonical(tail) then Some((Value(head), Some(Value(tail))))
      else None
  }

  lemma IndexOfIs(s: string, c: char, i: nat)
    requires i < |s| && s[i] == c
    requires forall j :: 0 <= j < i ==> s[j] != c
    ensures IndexOf(s, c) == i
  {
  }

  /** The parse recovers both identifiers from every key `KeyOf` renders. */
  lemma ParseKeyOf(productId: nat, variantId: Option<nat>)
    ensures ParseKey(KeyOf(productId, variantId)) == Some((productId, variantId))
  {
    var head := Digits(productId);
    var tail := VariantPart(variantId);
    var k := KeyOf(productId, variantId);
    assert k == head + "_" + tail;
    assert k[|head|] == '_';
    forall j | 0 <= j < |head|
      ensures k[j] != '_'
    {
      assert k[j] == head[j];
    }
    IndexOfIs(k, '_', |head|);
    assert k[..|head|] == head;
    assert k[|head| + 1..] == tail;
    ValueOfDigits(productId);
    match variantId
    case None =>
    case Some(v) =>
      ValueOfDigits(v);
      assert !IsDigit(NoVariant[0]);
      assert tail != NoVariant;
  }

  /** Whatever parses was rendered by `KeyOf` from the ids it parses to. */
  lemma KeyOfParse(k: string, productId: nat, variantId: Option<nat>)
    requires ParseKey(k) == Some((productId, variantId))
    ensures KeyOf(productId, variantId) == k
  {
    var i := IndexOf(k, '_');
    var head := k[..i];
    var tail := k[i + 1..];
    assert k == head + "_" + tail;
    DigitsOfValue(head);
    if tail != NoVariant {
      DigitsOfValue(tail);
    }
  }

  /** Two (product, variant) pairs share a key exactly when they are the same pair. */
  lemma KeyOfInjective(p1: nat, v1: Option<nat>, p2: nat, v2: Option<nat>)
    ensures KeyOf(p1, v1) == KeyOf(p2, v2) <==> p1 == p2 && v1 == v2
  {
    if KeyOf(p1, v1) == KeyOf(p2, v2) {
      ParseKeyOf(p1, v1);
      ParseKeyOf(p2, v2);
    }
  }
}
