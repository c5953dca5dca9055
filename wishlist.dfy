/** The `wishlist` table as a set of (customer, product) pairs, and the
    membership toggle the heart button performs on it. */
module Wishlist {
  import opened ShopTypes

  /** One `wishlist` row; the pair is unique, so a set models the table. */
  datatype WishEntry = WishEntry(customerId: UserId, productId: ProductId)

  /** Delete the entry when it exists, insert it otherwise. */
  function Toggled(entries: set<WishEntry>, e: WishEntry): (r: set<WishEntry>)
    ensures e in r <==> e !in entries
    ensures forall x :: x != e ==> (x in r <==> x in entries)
  {
    if e in entries then entries - {e} else entries + {e}
  }

  /** Toggling the same entry twice restores the original set. */
  lemma ToggleTwice(entries: set<WishEntry>, e: WishEntry)
    ensures Toggled(Toggled(entries, e), e) == entries
  {
    var once := Toggled(entries, e);
    var twice := Toggled(once, e);
    forall x ensures x in twice <==> x in entries {
      if x == e {
        assert (x in twice) == (x !in once);
      }
    }
  }

  /** A toggle changes the set by exactly one entry. */
  lemma ToggleSize(entries: set<WishEntry>, e: WishEntry)
    ensures |Toggled(entries, e)| == if e in entries then |entries| - 1 else |entries| + 1
  {
  }
}
