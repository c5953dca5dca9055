/** Cart lines and the sequence operations both cart backends apply to them.
    The guest cart is the ordered array stored under the `guestCart` storage
    slot; a member's cart is that customer's rows of the `cart` table. */
module CartLines {
  import opened ShopTypes

  /** `{productId, quantity}` as stored in the guest slot, or one `cart` row. */
  datatype CartLine = CartLine(productId: ProductId, quantity: int)

  predicate HasProduct(lines: seq<CartLine>, p: ProductId)
  {
    exists i :: 0 <= i < |lines| && lines[i].productId == p
  }

  /** At most one line per product: the invariant find-or-increment keeps. */
  predicate UniqueLines(lines: seq<CartLine>)
  {
    forall i, j :: 0 <= i < j < |lines| ==> lines[i].productId != lines[j].productId
  }

  /** Every line holds at least one unit. */
  predicate PositiveQuantities(lines: seq<CartLine>)
  {
    forall i :: 0 <= i < |lines| ==> lines[i].quantity >= 1
  }

  /** `lines.find(item => item.productId === p)`: the index of the first line
      for `p`, or `|lines|` when there is none. */
  function FirstIndex(lines: seq<CartLine>, p: ProductId): (i: nat)
    ensures i <= |lines|
    ensures i < |lines| ==> lines[i].productId == p
    ensures forall j :: 0 <= j < i ==> lines[j].productId != p
  {
    if lines == [] then 0
    else if lines[0].productId == p then 0
    else 1 + FirstIndex(lines[1..], p)
  }

  /** How many lines are for `p` (what `.single()` looks at). */
  function MatchCount(lines: seq<CartLine>, p: ProductId): (n: nat)
    ensures n <= |lines|
  {
    if lines == [] then 0
    else (if lines[0].productId == p then 1 else 0) + MatchCount(lines[1..], p)
  }

  /** Guest add: increment the first line for `p` by `q`, or push a new line. */
  function Added(lines: seq<CartLine>, p: ProductId, q: int): (r: seq<CartLine>)
    ensures HasProduct(r, p)
    ensures |lines| <= |r| <= |lines| + 1
    ensures forall k | 0 <= k < |lines| :: r[k].productId == lines[k].productId
  {
    var i := FirstIndex(lines, p);
    if i < |lines| then
      var r := lines[i := lines[i].(quantity := lines[i].quantity + q)];
      assert r[i].productId == p;
      r
    else
      var r := lines + [CartLine(p, q)];
      assert r[|lines|].productId == p;
      r
  }

  /** Member add: `.single()` yields a row only when exactly one row matches;
      that row is incremented, otherwise a row is inserted. */
  function MemberAdded(rows: seq<CartLine>, p: ProductId, q: int): (r: seq<CartLine>)
    ensures HasProduct(r, p)
    ensures |rows| <= |r| <= |rows| + 1
    ensures forall k | 0 <= k < |rows| :: r[k].productId == rows[k].productId
  {
    if MatchCount(rows, p) == 1 then
      MatchCountZero(rows, p);
      FirstIndexAbsent(rows, p);
      var i := FirstIndex(rows, p);
      var r := rows[i := rows[i].(quantity := rows[i].quantity + q)];
      assert r[i].productId == p;
      r
    else
      var r := rows + [CartLine(p, q)];
      assert r[|rows|].productId == p;
      r
  }

  /** Guest update: set the quantity of the first line for `p`; no insert. */
  function SetFirst(lines: seq<CartLine>, p: ProductId, n: int): (r: seq<CartLine>)
    ensures |r| == |lines|
    ensures forall k | 0 <= k < |lines| :: r[k].productId == lines[k].productId
    ensures forall k | 0 <= k < |lines| && lines[k].productId != p :: r[k] == lines[k]
  {
    var i := FirstIndex(lines, p);
    if i < |lines| then lines[i := lines[i].(quantity := n)] else lines
  }

  /** Member update: `.update({quantity}).eq(product_id)` sets every matching row. */
  function SetAll(rows: seq<CartLine>, p: ProductId, n: int): (r: seq<CartLine>)
    ensures |r| == |rows|
  {
    seq(|rows|, k requires 0 <= k < |rows| =>
      if rows[k].productId == p then rows[k].(quantity := n) else rows[k])
  }

  /** `lines.filter(item => item.productId !== p)`. */
  function Removed(lines: seq<CartLine>, p: ProductId): (r: seq<CartLine>)
    ensures |r| <= |lines|
  {
    if lines == [] then []
    else (if lines[0].productId == p then [] else [lines[0]]) + Removed(lines[1..], p)
  }

  // ---------------------------------------------------------------------------
  // find

  lemma FirstIndexIsMatch(lines: seq<CartLine>, p: ProductId, i: int)
    requires 0 <= i < |lines| && lines[i].productId == p
    requires forall j :: 0 <= j < i ==> lines[j].productId != p
    ensures FirstIndex(lines, p) == i
  {
  }

  lemma FirstIndexAbsent(lines: seq<CartLine>, p: ProductId)
    ensures FirstIndex(lines, p) == |lines| <==> !HasProduct(lines, p)
  {
    var i := FirstIndex(lines, p);
    if i < |lines| {
      assert lines[i].productId == p;
    }
  }

  /** A cart has a line for `p` iff its head is one or its tail has one. */
  lemma HasProductCons(lines: seq<CartLine>, p: ProductId)
    requires lines != []
    ensures HasProduct(lines, p) <==> lines[0].productId == p || HasProduct(lines[1..], p)
  {
    if HasProduct(lines[1..], p) {
      var i :| 0 <= i < |lines[1..]| && lines[1..][i].productId == p;
      assert lines[i + 1].productId == p;
    }
    if HasProduct(lines, p) && lines[0].productId != p {
      var i :| 0 <= i < |lines| && lines[i].productId == p;
      assert lines[1..][i - 1].productId == p;
    }
  }

  lemma {:induction false} MatchCountZero(lines: seq<CartLine>, p: ProductId)
    ensures MatchCount(lines, p) == 0 <==> !HasProduct(lines, p)
  {
    if lines != [] {
      MatchCountZero(lines[1..], p);
      HasProductCons(lines, p);
    }
  }

  /** Under the unique key, `.single()` finds a row exactly when one exists. */
  lemma {:induction false} MatchCountUnique(lines: seq<CartLine>, p: ProductId)
    requires UniqueLines(lines)
    ensures MatchCount(lines, p) == 1 <==> HasProduct(lines, p)
  {
    MatchCountZero(lines, p);
    if lines != [] {
      MatchCountUnique(lines[1..], p);
      assert UniqueLines(lines[1..]);
      HasProductCons(lines, p);
      if lines[0].productId == p {
        assert !HasProduct(lines[1..], p);
        MatchCountZero(lines[1..], p);
      }
    }
  }

  // ---------------------------------------------------------------------------
  // add

  /** Adding a product already in the cart increments its first line by `q`;
      the number of lines and every other line stay as they were. */
  lemma AddToPresent(lines: seq<CartLine>, p: ProductId, q: int, i: int)
    requires 0 <= i < |lines| && lines[i].productId == p
    requires forall j :: 0 <= j < i ==> lines[j].productId != p
    ensures |Added(lines, p, q)| == |lines|
    ensures Added(lines, p, q)[i] == CartLine(p, lines[i].quantity + q)
    ensures forall j :: 0 <= j < |lines| && j != i ==> Added(lines, p, q)[j] == lines[j]
  {
    FirstIndexIsMatch(lines, p, i);
  }

  /** Adding an absent product appends `{p, q}` at the end. */
  lemma AddToAbsent(lines: seq<CartLine>, p: ProductId, q: int)
    requires !HasProduct(lines, p)
    ensures Added(lines, p, q) == lines + [CartLine(p, q)]
  {
    FirstIndexAbsent(lines, p);
  }

  /** The badge count after an add: one more line only for a new product. */
  lemma AddedLength(lines: seq<CartLine>, p: ProductId, q: int)
    ensures |Added(lines, p, q)| == if HasProduct(lines, p) then |lines| else |lines| + 1
  {
    FirstIndexAbsent(lines, p);
  }

  lemma AddKeepsUnique(lines: seq<CartLine>, p: ProductId, q: int)
    requires UniqueLines(lines)
    ensures UniqueLines(Added(lines, p, q))
  {
    FirstIndexAbsent(lines, p);
  }

  lemma AddKeepsPositive(lines: seq<CartLine>, p: ProductId, q: int)
    requires PositiveQuantities(lines) && q >= 1
    ensures PositiveQuantities(Added(lines, p, q))
  {
  }

  /** Two adds of the same product accumulate into one line. */
  lemma AddTwice(lines: seq<CartLine>, p: ProductId, q1: int, q2: int)
    ensures Added(Added(lines, p, q1), p, q2) == Added(lines, p, q1 + q2)
  {
    var i := FirstIndex(lines, p);
    var once := Added(lines, p, q1);
    if i < |lines| {
      FirstIndexIsMatch(once, p, i);
    } else {
      FirstIndexIsMatch(once, p, |lines|);
    }
  }

  /** Add touches only `p`'s line: with `p` filtered out, nothing changed. */
  lemma AddLeavesOthers(lines: seq<CartLine>, p: ProductId, q: int)
    ensures Removed(Added(lines, p, q), p) == Removed(lines, p)
  {
    var i := FirstIndex(lines, p);
    if i < |lines| {
      RemovedIgnoresMatch(lines, p, i, lines[i].(quantity := lines[i].quantity + q));
    } else {
      RemovedAppend(lines, [CartLine(p, q)], p);
    }
  }

  /** Under the unique key the member add does what the guest add does. */
  lemma MemberAddIsAdd(rows: seq<CartLine>, p: ProductId, q: int)
    requires UniqueLines(rows)
    ensures MemberAdded(rows, p, q) == Added(rows, p, q)
  {
    MatchCountUnique(rows, p);
    FirstIndexAbsent(rows, p);
  }

  // ---------------------------------------------------------------------------
  // update

  /** Updating a present product sets exactly its first line to `n`. */
  lemma SetPresent(lines: seq<CartLine>, p: ProductId, n: int, i: int)
    requires 0 <= i < |lines| && lines[i].productId == p
    requires forall j :: 0 <= j < i ==> lines[j].productId != p
    ensures |SetFirst(lines, p, n)| == |lines|
    ensures SetFirst(lines, p, n)[i] == CartLine(p, n)
    ensures forall j :: 0 <= j < |lines| && j != i ==> SetFirst(lines, p, n)[j] == lines[j]
  {
    FirstIndexIsMatch(lines, p, i);
  }

  /** Updating an absent product inserts nothing. */
  lemma SetAbsent(lines: seq<CartLine>, p: ProductId, n: int)
    requires !HasProduct(lines, p)
    ensures SetFirst(lines, p, n) == lines
  {
    FirstIndexAbsent(lines, p);
  }

  /** Under the unique key, updating the first match and updating every
      match coincide. */
  lemma SetFirstIsSetAll(lines: seq<CartLine>, p: ProductId, n: int)
    requires UniqueLines(lines)
    ensures SetFirst(lines, p, n) == SetAll(lines, p, n)
  {
    var i := FirstIndex(lines, p);
    var a, b := SetFirst(lines, p, n), SetAll(lines, p, n);
    assert |a| == |b|;
    forall k | 0 <= k < |a| ensures a[k] == b[k] {
      if i < |lines| {
        assert lines[i].productId == p;
        if k != i {
          assert lines[k].productId != p;
        }
      } else {
        assert lines[k].productId != p;
      }
    }
  }

  lemma SetKeepsUnique(lines: seq<CartLine>, p: ProductId, n: int)
    requires UniqueLines(lines)
    ensures UniqueLines(SetFirst(lines, p, n)) && UniqueLines(SetAll(lines, p, n))
  {
  }

  lemma SetKeepsPositive(lines: seq<CartLine>, p: ProductId, n: int)
    requires PositiveQuantities(lines) && n >= 1
    ensures PositiveQuantities(SetFirst(lines, p, n)) && PositiveQuantities(SetAll(lines, p, n))
  {
  }

  // ---------------------------------------------------------------------------
  // remove

  lemma {:induction false} RemovedAppend(a: seq<CartLine>, b: seq<CartLine>, p: ProductId)
    ensures Removed(a + b, p) == Removed(a, p) + Removed(b, p)
  {
    if a == [] {
      assert a + b == b;
    } else {
      assert (a + b)[0] == a[0] && (a + b)[1..] == a[1..] + b;
      RemovedAppend(a[1..], b, p);
    }
  }

  /** Changing a line for `p` into another line for `p` is invisible once `p`
      is filtered out. */
  lemma {:induction false} RemovedIgnoresMatch(lines: seq<CartLine>, p: ProductId, i: int, x: CartLine)
    requires 0 <= i < |lines| && lines[i].productId == p && x.productId == p
    ensures Removed(lines[i := x], p) == Removed(lines, p)
  {
    if i > 0 {
      assert lines[i := x][1..] == lines[1..][i - 1 := x];
      RemovedIgnoresMatch(lines[1..], p, i - 1, x);
    } else {
      assert lines[i := x][1..] == lines[1..];
    }
  }

  /** No line for `p` survives the filter. */
  lemma {:induction false} RemovedHasNone(lines: seq<CartLine>, p: ProductId)
    ensures !HasProduct(Removed(lines, p), p)
  {
    if lines != [] {
      RemovedHasNone(lines[1..], p);
      var head := if lines[0].productId == p then [] else [lines[0]];
      var r := Removed(lines, p);
      assert r == head + Removed(lines[1..], p);
      forall i | 0 <= i < |r| ensures r[i].productId != p {
        if i >= |head| {
          assert r[i] == Removed(lines[1..], p)[i - |head|];
        }
      }
    }
  }

  /** The surviving lines are exactly the cart's lines for other products. */
  lemma {:induction false} RemovedSubset(lines: seq<CartLine>, p: ProductId)
    ensures forall x :: x in Removed(lines, p) <==> x in lines && x.productId != p
  {
    if lines != [] {
      RemovedSubset(lines[1..], p);
      assert lines == [lines[0]] + lines[1..];
    }
  }

  /** Removing an absent product changes nothing. */
  lemma {:induction false} RemovedAbsent(lines: seq<CartLine>, p: ProductId)
    requires !HasProduct(lines, p)
    ensures Removed(lines, p) == lines
  {
    if lines != [] {
      HasProductCons(lines, p);
      RemovedAbsent(lines[1..], p);
      assert lines == [lines[0]] + lines[1..];
    }
  }

  /** In a cart with one line per product, removing `p` deletes exactly its
      line and keeps the others in order. */
  lemma {:induction false} RemovedUnique(lines: seq<CartLine>, p: ProductId, i: int)
    requires UniqueLines(lines)
    requires 0 <= i < |lines| && lines[i].productId == p
    ensures Removed(lines, p) == lines[..i] + lines[i + 1..]
  {
    if i == 0 {
      assert forall k :: 0 <= k < |lines[1..]| ==> lines[1..][k] == lines[k + 1];
      assert !HasProduct(lines[1..], p);
      RemovedAbsent(lines[1..], p);
    } else {
      assert lines[0].productId != p;
      RemovedUnique(lines[1..], p, i - 1);
      assert lines[1..][..i - 1] == lines[1..i];
      assert lines[1..][i..] == lines[i + 1..];
      assert lines[..i] == [lines[0]] + lines[1..i];
    }
  }

  /** The badge count after a remove. */
  lemma RemovedLength(lines: seq<CartLine>, p: ProductId)
    requires UniqueLines(lines)
    ensures |Removed(lines, p)| == if HasProduct(lines, p) then |lines| - 1 else |lines|
  {
    if HasProduct(lines, p) {
      var i :| 0 <= i < |lines| && lines[i].productId == p;
      RemovedUnique(lines, p, i);
    } else {
      RemovedAbsent(lines, p);
    }
  }

  lemma {:induction false} RemovedKeepsUnique(lines: seq<CartLine>, p: ProductId)
    requires UniqueLines(lines)
    ensures UniqueLines(Removed(lines, p))
  {
    if lines != [] {
      var tail := lines[1..];
      assert UniqueLines(tail) by {
        forall i, j | 0 <= i < j < |tail| ensures tail[i].productId != tail[j].productId {
          assert tail[i] == lines[i + 1] && tail[j] == lines[j + 1];
        }
      }
      RemovedKeepsUnique(tail, p);
      RemovedSubset(tail, p);
      if lines[0].productId != p {
        var rest := Removed(tail, p);
        var r := [lines[0]] + rest;
        forall j | 1 <= j < |r| ensures r[0].productId != r[j].productId {
          assert r[j] == rest[j - 1];
          assert rest[j - 1] in tail;
          var k :| 0 <= k < |tail| && tail[k] == rest[j - 1];
          assert tail[k] == lines[k + 1];
        }
      }
    }
  }

  lemma {:induction false} RemovedKeepsPositive(lines: seq<CartLine>, p: ProductId)
    requires PositiveQuantities(lines)
    ensures PositiveQuantities(Removed(lines, p))
  {
    RemovedSubset(lines, p);
    var r := Removed(lines, p);
    forall i | 0 <= i < |r| ensures r[i].quantity >= 1 {
      assert r[i] in lines;
    }
  }
}
