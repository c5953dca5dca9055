/** What the cart modal lists: each cart line resolved against the `products`
    table, and the total Σ price × quantity over the resolved lines. */
module CartView {
  import opened ShopTypes
  import opened CartLines

  /** The `products` table, looked up by id (`.eq('id', …).single()`). */
  type Catalog = map<ProductId, Product>

  /** `{...item, product}`: a line together with the product it resolved to. */
  datatype CartItem = CartItem(line: CartLine, product: Product)

  /** The cart modal's content: the listed items and the displayed total. */
  datatype View = View(items: seq<CartItem>, total: int)

  function Subtotal(item: CartItem): int
  {
    item.product.data.price * item.line.quantity
  }

  /** Σ price × quantity, accumulated from the left as the guest loop and the
      member `reduce` both do. */
  function ItemsTotal(items: seq<CartItem>): (t: int)
    ensures (forall k | 0 <= k < |items| :: Subtotal(items[k]) >= 0) ==> t >= 0
  {
    if items == [] then 0
    else ItemsTotal(items[..|items| - 1]) + Subtotal(items[|items| - 1])
  }

  /** The item a line contributes: one when its product resolves, none otherwise. */
  function ResolveLine(line: CartLine, catalog: Catalog): seq<CartItem>
  {
    if line.productId in catalog then [CartItem(line, catalog[line.productId])] else []
  }

  /** The lines whose product resolves, paired with it, in cart order. */
  function Resolved(lines: seq<CartLine>, catalog: Catalog): (r: seq<CartItem>)
    ensures |r| <= |lines|
    ensures forall k | 0 <= k < |r| :: r[k].line.productId in catalog && r[k].product == catalog[r[k].line.productId]
  {
    if lines == [] then []
    else Resolved(lines[..|lines| - 1], catalog) + ResolveLine(lines[|lines| - 1], catalog)
  }

  /** Every row of a member cart resolves; otherwise `item.product.price` in
      the `reduce` dereferences a missing product. */
  predicate AllResolve(rows: seq<CartLine>, catalog: Catalog)
  {
    forall i :: 0 <= i < |rows| ==> rows[i].productId in catalog
  }

  /** The guest branch of `loadCartItems`: one product lookup per line, the
      resolved ones pushed and added to the running total. */
  method ResolveGuestCart(lines: seq<CartLine>, catalog: Catalog) returns (items: seq<CartItem>, total: int)
    ensures items == Resolved(lines, catalog)
    ensures total == ItemsTotal(items)
  {
    items, total := [], 0;
    for i := 0 to |lines|
      invariant items == Resolved(lines[..i], catalog)
      invariant total == ItemsTotal(items)
    {
      assert lines[..i + 1][..i] == lines[..i];
      var line := lines[i];
      if line.productId in catalog {
        var product := catalog[line.productId];
        items := items + [CartItem(line, product)];
        total := total + product.data.price * line.quantity;
      }
    }
    assert lines[..|lines|] == lines;
  }

  /** The member branch of `loadCartItems`: the rows with their embedded
      product, or `None` when a row's product is missing and the total cannot
      be computed. */
  function MemberView(rows: seq<CartLine>, catalog: Catalog): (v: Option<View>)
    ensures v.Some? <==> AllResolve(rows, catalog)
    ensures v.Some? ==> |v.value.items| == |rows|
    ensures v.Some? ==> forall i :: 0 <= i < |rows| ==> v.value.items[i] == CartItem(rows[i], catalog[rows[i].productId])
    ensures v.Some? ==> v.value.total == ItemsTotal(v.value.items)
  {
    if AllResolve(rows, catalog) then
      ResolvedAllLength(rows, catalog);
      var items := Resolved(rows, catalog);
      Some(View(items, ItemsTotal(items)))
    else None
  }

  // ---------------------------------------------------------------------------

  lemma {:induction false} ItemsTotalAppend(a: seq<CartItem>, b: seq<CartItem>)
    ensures ItemsTotal(a + b) == ItemsTotal(a) + ItemsTotal(b)
  {
    if b == [] {
      assert a + b == a;
    } else {
      assert (a + b)[..|a + b| - 1] == a + b[..|b| - 1];
      ItemsTotalAppend(a, b[..|b| - 1]);
    }
  }

  lemma {:induction false} ResolvedAppend(a: seq<CartLine>, b: seq<CartLine>, catalog: Catalog)
    ensures Resolved(a + b, catalog) == Resolved(a, catalog) + Resolved(b, catalog)
  {
    if b == [] {
      assert a + b == a;
    } else {
      assert (a + b)[..|a + b| - 1] == a + b[..|b| - 1];
      ResolvedAppend(a, b[..|b| - 1], catalog);
    }
  }

  lemma ResolvedSingle(line: CartLine, catalog: Catalog)
    ensures Resolved([line], catalog) == ResolveLine(line, catalog)
  {
    assert [line][..0] == [];
  }

  /** An item is listed iff its line is in the cart and its product resolves,
      and it carries exactly that product. */
  lemma {:induction false} ResolvedMembers(lines: seq<CartLine>, catalog: Catalog)
    ensures forall x :: x in Resolved(lines, catalog) <==>
      x.line in lines && x.line.productId in catalog && x.product == catalog[x.line.productId]
  {
    if lines != [] {
      var init, last := lines[..|lines| - 1], lines[|lines| - 1];
      ResolvedMembers(init, catalog);
      assert lines == init + [last];
    }
  }

  /** A member cart with every product present loses no row. */
  lemma {:induction false} ResolvedAllLength(rows: seq<CartLine>, catalog: Catalog)
    requires AllResolve(rows, catalog)
    ensures |Resolved(rows, catalog)| == |rows|
    ensures forall i :: 0 <= i < |rows| ==> Resolved(rows, catalog)[i] == CartItem(rows[i], catalog[rows[i].productId])
  {
    if rows != [] {
      ResolvedAllLength(rows[..|rows| - 1], catalog);
    }
  }

  /** A line whose product no longer exists is left out of the list and the
      total exactly as if it had been removed from the cart. */
  lemma {:induction false} MissingProductIgnored(lines: seq<CartLine>, p: ProductId, catalog: Catalog)
    requires p !in catalog
    ensures Resolved(Removed(lines, p), catalog) == Resolved(lines, catalog)
  {
    if lines != [] {
      var head, rest := lines[0], lines[1..];
      assert lines == [head] + rest;
      MissingProductIgnored(rest, p, catalog);
      ResolvedAppend([head], rest, catalog);
      ResolvedSingle(head, catalog);
      var kept := if head.productId == p then [] else [head];
      ResolvedAppend(kept, Removed(rest, p), catalog);
      if head.productId != p {
        ResolvedSingle(head, catalog);
      }
    }
  }

  /** Removing a resolvable product's line lowers the total by its subtotal. */
  lemma RemoveLowersTotal(lines: seq<CartLine>, p: ProductId, i: int, catalog: Catalog)
    requires UniqueLines(lines)
    requires 0 <= i < |lines| && lines[i].productId == p && p in catalog
    ensures ItemsTotal(Resolved(Removed(lines, p), catalog))
         == ItemsTotal(Resolved(lines, catalog)) - catalog[p].data.price * lines[i].quantity
  {
    RemovedUnique(lines, p, i);
    var before, after := lines[..i], lines[i + 1..];
    assert lines == before + [lines[i]] + after;
    ResolvedAppend(before + [lines[i]], after, catalog);
    ResolvedAppend(before, [lines[i]], catalog);
    ResolvedAppend(before, after, catalog);
    ResolvedSingle(lines[i], catalog);
    var rb, ra := Resolved(before, catalog), Resolved(after, catalog);
    var mid := [CartItem(lines[i], catalog[p])];
    ItemsTotalAppend(rb + mid, ra);
    ItemsTotalAppend(rb, mid);
    ItemsTotalAppend(rb, ra);
    assert mid[..0] == [];
  }

  /** Adding `a` twice, one unit each time, and then `b` once gives two
      lines, `a` with two units. */
  lemma ScenarioCart(a: ProductId, b: ProductId)
    requires a != b
    ensures Added(Added(Added([], a, 1), a, 1), b, 1) == [CartLine(a, 2), CartLine(b, 1)]
  {
    AddTwice([], a, 1, 1);
    AddToAbsent([], a, 2);
    assert !HasProduct([CartLine(a, 2)], b);
    AddToAbsent([CartLine(a, 2)], b, 1);
  }

  /** The scenario over any two distinct products that both resolve. */
  lemma ScenarioTotals(a: ProductId, b: ProductId, catalog: Catalog)
    requires a != b && a in catalog && b in catalog
    ensures var cart := [CartLine(a, 2), CartLine(b, 1)];
      && ItemsTotal(Resolved(cart, catalog)) == catalog[a].data.price * 2 + catalog[b].data.price
      && Removed(cart, a) == [CartLine(b, 1)]
      && ItemsTotal(Resolved(Removed(cart, a), catalog)) == catalog[b].data.price
  {
    var l1, l2 := CartLine(a, 2), CartLine(b, 1);
    var i1, i2 := CartItem(l1, catalog[a]), CartItem(l2, catalog[b]);
    assert [l1, l2] == [l1] + [l2];
    ResolvedAppend([l1], [l2], catalog);
    ResolvedSingle(l1, catalog);
    ResolvedSingle(l2, catalog);
    assert Resolved([l1, l2], catalog) == [i1] + [i2];
    ItemsTotalAppend([i1], [i2]);
    assert [i1][..0] == [] && [i2][..0] == [];
    assert Removed([l1, l2], a) == [l2] by {
      assert [l1, l2][1..] == [l2] && [l2][1..] == [];
    }
  }

  /** A guest adds P1 (price 100) twice, one unit each time, and P2 (price 50)
      once: the two adds of P1 share one line and the total is 250. Removing
      P1 (which is what setting its quantity to 0 does) leaves one line and a
      total of 50. */
  lemma GuestScenario(d1: ProductData, d2: ProductData)
    requires d1.price == 100 && d2.price == 50
    ensures var catalog := map["P1" := Product("P1", d1), "P2" := Product("P2", d2)];
      var cart := Added(Added(Added([], "P1", 1), "P1", 1), "P2", 1);
      && |cart| == 2
      && ItemsTotal(Resolved(cart, catalog)) == 250
      && |Removed(cart, "P1")| == 1
      && ItemsTotal(Resolved(Removed(cart, "P1"), catalog)) == 50
  {
    var catalog := map["P1" := Product("P1", d1), "P2" := Product("P2", d2)];
    assert "P1" != "P2" by {
      assert "P1"[1] != "P2"[1];
    }
    assert catalog["P1"].data.price == 100 && catalog["P2"].data.price == 50;
    ScenarioCart("P1", "P2");
    ScenarioTotals("P1", "P2", catalog);
  }
}
