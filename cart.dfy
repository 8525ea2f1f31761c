/** The computations inside the cart handlers of app/handlers/cart.go: the
    response projection, the duplicate check as the code writes it, and the
    lines that survive a removal. */
module Carts {
  import opened Common
  import opened Models

  /** `schemas.CartProductResponse`: a line item's own ID and its quantity. */
  datatype CartProductResponse = CartProductResponse(id: Uuid, quantity: int)

  /** `schemas.CartResponse`. */
  datatype CartResponse = CartResponse(id: Uuid, userId: Uuid, products: seq<CartProductResponse>)

  /** The response slice GetCart and AddToCart make with one slot per line item
      and fill by index (cart.go:40-51, cart.go:109-120). */
  method ResponseEntries(lines: seq<CartLine>) returns (entries: seq<CartProductResponse>)
    ensures |entries| == |lines|
    ensures forall i :: 0 <= i < |lines| ==>
              entries[i] == CartProductResponse(lines[i].id, lines[i].quantity)
  {
    var slots := new CartProductResponse[|lines|];
    for i := 0 to |lines|
      invariant forall k :: 0 <= k < i ==> slots[k] == CartProductResponse(lines[k].id, lines[k].quantity)
    {
      slots[i] := CartProductResponse(lines[i].id, lines[i].quantity);
    }
    entries := slots[..];
  }

  /** Some line item's own ID equals `id`. */
  predicate HasLineWithId(lines: seq<CartLine>, id: Uuid)
  {
    exists i :: 0 <= i < |lines| && lines[i].id == id
  }

  /** Some line item holds the product `productId`. */
  predicate HasLineForProduct(lines: seq<CartLine>, productId: Uuid)
  {
    exists i :: 0 <= i < |lines| && lines[i].productId == productId
  }

  /** The duplicate check of AddToCart (cart.go:92-96): it compares each line
      item's own ID, not its product ID, with the product's ID. */
  method ContainsLineId(lines: seq<CartLine>, productId: Uuid) returns (found: bool)
    ensures found == HasLineWithId(lines, productId)
  {
    for i := 0 to |lines|
      invariant forall k :: 0 <= k < i ==> lines[k].id != productId
    {
      if lines[i].id == productId {
        return true;
      }
    }
    return false;
  }

  /** A cart that already holds a product passes the check as written. */
  lemma DuplicateCheckMissesHeldProduct()
    ensures var lines := [CartLine("line-1", "product-1", 1)];
      HasLineForProduct(lines, "product-1") && !HasLineWithId(lines, "product-1")
  {
    var lines := [CartLine("line-1", "product-1", 1)];
    assert lines[0].productId == "product-1";
  }

  /** The line items that are not for `productId`, in order. */
  function WithoutProduct(lines: seq<CartLine>, productId: Uuid): (r: seq<CartLine>)
  {
    if lines == [] then []
    else
      var init := WithoutProduct(lines[..|lines| - 1], productId);
      if lines[|lines| - 1].productId == productId then init else init + [lines[|lines| - 1]]
  }

  /** Removal drops every line item for the product and keeps every other one,
      as often as it occurs. */
  lemma {:induction false} WithoutProductCounts(lines: seq<CartLine>, productId: Uuid, line: CartLine)
    ensures multiset(WithoutProduct(lines, productId))[line] ==
              if line.productId == productId then 0 else multiset(lines)[line]
  {
    if lines != [] {
      var init := lines[..|lines| - 1];
      WithoutProductCounts(init, productId, line);
      assert lines == init + [lines[|lines| - 1]];
    }
  }

  /** Removal never lengthens the cart, and leaves it as it was exactly when no
      line item is for the product. */
  lemma {:induction false} WithoutProductOnlyDrops(lines: seq<CartLine>, productId: Uuid)
    ensures |WithoutProduct(lines, productId)| <= |lines|
    ensures WithoutProduct(lines, productId) == lines <==> !HasLineForProduct(lines, productId)
  {
    if lines != [] {
      var init := lines[..|lines| - 1];
      WithoutProductOnlyDrops(init, productId);
      if HasLineForProduct(init, productId) {
        var i :| 0 <= i < |init| && init[i].productId == productId;
        assert lines[i] == init[i];
      }
      if HasLineForProduct(lines, productId) && !HasLineForProduct(init, productId) {
        var i :| 0 <= i < |lines| && lines[i].productId == productId;
        if i < |init| { assert init[i] == lines[i]; }
      }
    }
  }
}
