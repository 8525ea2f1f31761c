/** The selection loop of CreateOrder (app/handlers/orders.go:72-88): for each
    selected ID, in request order, the first cart line whose product ID reads
    the same is taken; the lines taken are then deleted by their own IDs. */
module Orders {
  import opened Common
  import opened Models

  /** The index of the first line for the product whose ID text is `sel`. */
  function FirstMatch(lines: seq<CartLine>, sel: string): (r: Option<nat>)
    ensures r.Some? ==> r.value < |lines| && lines[r.value].productId == sel
    ensures r.Some? ==> forall k :: 0 <= k < r.value ==> lines[k].productId != sel
    ensures r.None? ==> forall k :: 0 <= k < |lines| ==> lines[k].productId != sel
  {
    if lines == [] then None
    else if lines[0].productId == sel then Some(0)
    else match FirstMatch(lines[1..], sel)
      case None => None
      case Some(k) => Some(k + 1)
  }

  /** The cart lines the selections take, one per selection that matches, in request order. */
  function MatchedLines(lines: seq<CartLine>, sels: seq<string>): (r: seq<CartLine>)
  {
    if sels == [] then []
    else
      var init := MatchedLines(lines, sels[..|sels| - 1]);
      match FirstMatch(lines, sels[|sels| - 1])
      case None => init
      case Some(k) => init + [lines[k]]
  }

  /** The order item made from a cart line: its product and quantity (orders.go:76-80). */
  function ItemOf(line: CartLine): (r: OrderItem)
  {
    OrderItem(line.productId, line.quantity)
  }

  function ItemsOf(lines: seq<CartLine>): (r: seq<OrderItem>)
    ensures |r| == |lines| && forall k :: 0 <= k < |lines| ==> r[k] == ItemOf(lines[k])
  {
    if lines == [] then [] else ItemsOf(lines[..|lines| - 1]) + [ItemOf(lines[|lines| - 1])]
  }

  function IdsOf(lines: seq<CartLine>): (r: seq<Uuid>)
    ensures |r| == |lines| && forall k :: 0 <= k < |lines| ==> r[k] == lines[k].id
  {
    if lines == [] then [] else IdsOf(lines[..|lines| - 1]) + [lines[|lines| - 1].id]
  }

  /** The nested loop of CreateOrder: it builds `orderProducts` and `productsToRemove`. */
  method MatchSelections(lines: seq<CartLine>, sels: seq<string>)
    returns (items: seq<OrderItem>, toRemove: seq<Uuid>)
    ensures items == ItemsOf(MatchedLines(lines, sels))
    ensures toRemove == IdsOf(MatchedLines(lines, sels))
  {
    items, toRemove := [], [];
    for i := 0 to |sels|
      invariant items == ItemsOf(MatchedLines(lines, sels[..i]))
      invariant toRemove == IdsOf(MatchedLines(lines, sels[..i]))
    {
      assert sels[..i + 1][..i] == sels[..i];
      var j := 0;
      var taken := false;
      while j < |lines| && !taken
        invariant 0 <= j <= |lines|
        invariant !taken ==> forall k :: 0 <= k < j ==> lines[k].productId != sels[i]
        invariant !taken ==> items == ItemsOf(MatchedLines(lines, sels[..i]))
        invariant !taken ==> toRemove == IdsOf(MatchedLines(lines, sels[..i]))
        invariant taken ==> items == ItemsOf(MatchedLines(lines, sels[..i + 1]))
        invariant taken ==> toRemove == IdsOf(MatchedLines(lines, sels[..i + 1]))
      {
        if lines[j].productId == sels[i] {
          assert FirstMatch(lines, sels[i]) == Some(j);
          items := items + [ItemOf(lines[j])];
          toRemove := toRemove + [lines[j].id];
          taken := true;
        }
        j := j + 1;
      }
    }
    assert sels[..|sels|] == sels;
  }

  /** `Where("id IN ?", ids).Delete(...)`: the lines whose own ID is not listed. */
  function WithoutIds(lines: seq<CartLine>, ids: seq<Uuid>): (r: seq<CartLine>)
    ensures forall l :: l in r <==> l in lines && l.id !in ids
  {
    if lines == [] then []
    else
      var rest := WithoutIds(lines[1..], ids);
      assert forall l :: l in lines <==> l == lines[0] || l in lines[1..];
      if lines[0].id in ids then rest else [lines[0]] + rest
  }

  /** No two lines share an ID. */
  predicate UniqueIds(lines: seq<CartLine>)
  {
    forall i, j :: 0 <= i < j < |lines| ==> lines[i].id != lines[j].id
  }

  /** Every line taken is a line of the cart, for a selected product, and each
      selection takes at most one line. */
  lemma {:induction false} MatchedLinesFromCart(lines: seq<CartLine>, sels: seq<string>)
    ensures |MatchedLines(lines, sels)| <= |sels|
    ensures forall m :: m in MatchedLines(lines, sels) ==> m in lines && m.productId in sels
  {
    if sels != [] {
      var init := sels[..|sels| - 1];
      MatchedLinesFromCart(lines, init);
      assert forall s :: s in init ==> s in sels;
    }
  }

  /** A selection that matches takes the first line for its product; one that
      matches no line is skipped. */
  lemma MatchedLineIsFirst(lines: seq<CartLine>, sels: seq<string>, sel: string)
    ensures FirstMatch(lines, sel).Some? ==>
      MatchedLines(lines, sels + [sel]) == MatchedLines(lines, sels) + [lines[FirstMatch(lines, sel).value]]
    ensures FirstMatch(lines, sel).None? ==> MatchedLines(lines, sels + [sel]) == MatchedLines(lines, sels)
  {
    assert (sels + [sel])[..|sels|] == sels;
  }

  /** Selecting the same product twice takes the same line twice, since the cart
      list is not changed inside the loop (orders.go:74-88). */
  lemma DuplicateSelectionTakesLineTwice(lines: seq<CartLine>, sel: string)
    requires FirstMatch(lines, sel).Some?
    ensures var line := lines[FirstMatch(lines, sel).value];
      MatchedLines(lines, [sel, sel]) == [line, line]
  {
    var line := lines[FirstMatch(lines, sel).value];
    MatchedLineIsFirst(lines, [], sel);
    assert MatchedLines(lines, []) == [];
    MatchedLineIsFirst(lines, [sel], sel);
    assert [sel] + [sel] == [sel, sel];
  }

  /** With distinct line IDs, deleting by the IDs taken removes exactly the lines
      taken: every other line stays, and none that stays went into the order. */
  lemma ConversionMovesExactly(lines: seq<CartLine>, sels: seq<string>)
    requires UniqueIds(lines)
    ensures var taken := MatchedLines(lines, sels);
      var kept := WithoutIds(lines, IdsOf(taken));
      && (forall l :: l in lines ==> (l in kept <==> l !in taken))
      && (forall l :: l in kept ==> l.id !in IdsOf(taken))
  {
    var taken := MatchedLines(lines, sels);
    MatchedLinesFromCart(lines, sels);
    forall l | l in lines
      ensures l.id in IdsOf(taken) <==> l in taken
    {
      if l.id in IdsOf(taken) {
        var k :| 0 <= k < |taken| && IdsOf(taken)[k] == l.id;
        var m := taken[k];
        assert m in lines;
        var a :| 0 <= a < |lines| && lines[a] == m;
        var b :| 0 <= b < |lines| && lines[b] == l;
        assert a == b;
      }
      if l in taken {
        var k :| 0 <= k < |taken| && taken[k] == l;
        assert IdsOf(taken)[k] == l.id;
      }
    }
  }
}
