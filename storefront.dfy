/** The storefront's client-side state (the globals of the config script and
    of the auth script) and the operations that change it. `currentUser`
    chooses the cart backend on every call: the guest cart in the device's
    `guestCart` storage slot when it is null, the customer's rows of the
    `cart` table otherwise. Store writes can fail; each such write takes its
    outcome as a `fails` parameter. */
module Storefront {
  import opened ShopTypes
  import opened CartLines
  import opened CartView
  import opened Wishlist

  /** The `.cart-count` badge: its text and whether it is displayed. */
  datatype Badge = Badge(count: int, shown: bool)

  /** The notifications and prompts the storefront shows. */
  datatype Notice =
    | AddedToCart | ErrorUpdatingCart | ErrorAddingToCart
    | ItemRemoved | ErrorRemovingFromCart
    | SignInForWishlist | AddedToWishlist | RemovedFromWishlist
    | ErrorAddingToWishlist | ErrorRemovingFromWishlist
    | SignInToCheckout | CheckoutComingSoon

  /** `updateCartCount(count)`: show the number, display it only above zero. */
  function CountBadge(count: int): (b: Badge)
    ensures b.count == count && (b.shown <==> count > 0)
  {
    Badge(count, count > 0)
  }

  /** Reading the guest slot: a missing slot reads as `[]`. */
  function GuestLines(slot: Option<seq<CartLine>>): (r: seq<CartLine>)
    ensures r == [] <==> slot == None || slot == Some([])
    ensures slot.Some? ==> r == slot.value
  {
    if slot.Some? then slot.value else []
  }

  /** The guest cart modal: resolved lines and their total. */
  function GuestView(lines: seq<CartLine>, catalog: Catalog): View
  {
    View(Resolved(lines, catalog), ItemsTotal(Resolved(lines, catalog)))
  }

  /** `.from('cart').select('*').eq('customer_id', u)`: the customer's rows. */
  function CustomerRows(carts: map<UserId, seq<CartLine>>, u: UserId): (r: seq<CartLine>)
    ensures r != [] ==> u in carts && r == carts[u]
    ensures u in carts ==> r == carts[u]
  {
    if u in carts then carts[u] else []
  }

  /** Writing the guest slot and reading it back gives the written lines. */
  lemma GuestSlotReadBack(lines: seq<CartLine>)
    ensures GuestLines(Some(lines)) == lines
  {
  }

  /** Writing one customer's rows is seen by that customer only: the other
      customers' carts read as before. */
  lemma CustomerRowsReadBack(carts: map<UserId, seq<CartLine>>, u: UserId, rows: seq<CartLine>, v: UserId)
    ensures CustomerRows(carts[u := rows], u) == rows
    ensures v != u ==> CustomerRows(carts[u := rows], v) == CustomerRows(carts, v)
  {
  }

  /** Every customer's rows hold at most one line per product. */
  predicate CartsUnique(carts: map<UserId, seq<CartLine>>)
  {
    forall u :: u in carts ==> UniqueLines(carts[u])
  }

  lemma CustomerRowsUnique(carts: map<UserId, seq<CartLine>>, u: UserId)
    requires CartsUnique(carts)
    ensures UniqueLines(CustomerRows(carts, u))
  {
  }

  /** A member update keeps every customer's rows at one per product. */
  lemma CartsUniqueSetAll(carts: map<UserId, seq<CartLine>>, u: UserId, p: ProductId, n: int)
    requires CartsUnique(carts)
    ensures CartsUnique(carts[u := SetAll(CustomerRows(carts, u), p, n)])
  {
    CustomerRowsUnique(carts, u);
    SetKeepsUnique(CustomerRows(carts, u), p, n);
    CartsUniqueUpdate(carts, u, SetAll(CustomerRows(carts, u), p, n));
  }

  lemma CartsUniqueUpdate(carts: map<UserId, seq<CartLine>>, u: UserId, rows: seq<CartLine>)
    requires CartsUnique(carts) && UniqueLines(rows)
    ensures CartsUnique(carts[u := rows])
  {
  }

  class Shop {
    var currentUser: Option<User>
    /** localStorage `guestCart`; `None` when the slot was never written. */
    var guestSlot: Option<seq<CartLine>>
    /** The `cart` table: each customer's rows. */
    var memberCarts: map<UserId, seq<CartLine>>
    /** The `wishlist` table. */
    var wishlist: set<WishEntry>
    /** The `products` table. */
    var catalog: Catalog
    var badge: Badge
    /** The cart modal's listing and total. */
    var view: View
    var notices: seq<Notice>
    var authModalOpen: bool
    var cartModalOpen: bool
    /** The state of each product's wishlist heart button. */
    var hearts: map<ProductId, bool>

    /** Both carts hold at most one line per product: (customer, product)
        is the `cart` table's key, and find-or-increment keeps the guest slot so. */
    ghost predicate Valid()
      reads this
    {
      && UniqueLines(GuestLines(guestSlot))
      && CartsUnique(memberCarts)
    }


    /** A page load: nobody signed in yet, the stored data as the device and
        the backend hold it. */
    constructor (slot: Option<seq<CartLine>>, carts: map<UserId, seq<CartLine>>,
                 entries: set<WishEntry>, products: Catalog)
      ensures currentUser == None && guestSlot == slot && memberCarts == carts
      ensures wishlist == entries && catalog == products
      ensures badge == CountBadge(0) && view == View([], 0) && notices == []
      ensures !authModalOpen && !cartModalOpen && hearts == map[]
      ensures Valid() <==> UniqueLines(GuestLines(slot)) && CartsUnique(carts)
    {
      currentUser := None;
      guestSlot := slot;
      memberCarts := carts;
      wishlist := entries;
      catalog := products;
      badge := CountBadge(0);
      view := View([], 0);
      notices := [];
      authModalOpen := false;
      cartModalOpen := false;
      hearts := map[];
    }

    method UpdateCartCount(count: int)
      modifies this`badge
      ensures badge == CountBadge(count)
    {
      badge := CountBadge(count);
    }

    /** `loadCartCount`: the badge shows the number of LINES of the active
        cart (not the sum of quantities); a failed member query leaves it. */
    method LoadCartCount(fails: bool)
      modifies this`badge
      ensures currentUser.None? ==> badge == CountBadge(|GuestLines(guestSlot)|)
      ensures currentUser.Some? && !fails ==> badge == CountBadge(|CustomerRows(memberCarts, currentUser.value.id)|)
      ensures currentUser.Some? && fails ==> badge == old(badge)
    {
      if currentUser.None? {
        var lines := GuestLines(guestSlot);
        UpdateCartCount(|lines|);
        return;
      }
      if fails {
        return;
      }
      var rows := CustomerRows(memberCarts, currentUser.value.id);
      UpdateCartCount(|rows|);
    }

    /** The `onAuthStateChange` listener: `currentUser` becomes the session's
        user or null. Signing in refreshes the badge from the member cart;
        signing out hides it. Neither cart is touched, so guest lines are not
        carried into the member cart. */
    method OnAuthStateChange(session: Option<User>, countFails: bool)
      modifies this`currentUser, this`badge
      ensures currentUser == session
      ensures session.None? ==> badge == CountBadge(0)
      ensures session.Some? && !countFails ==> badge == CountBadge(|CustomerRows(memberCarts, session.value.id)|)
      ensures session.Some? && countFails ==> badge == old(badge)
    {
      if session.Some? {
        currentUser := session;
        LoadCartCount(countFails);
      } else {
        currentUser := None;
        UpdateCartCount(0);
      }
    }

    /** `checkAuth`: without a client it returns null and changes nothing;
        otherwise it applies the listener's rule and returns `currentUser`.
        The template config has no client check: it is this method with
        `clientReady` true. */
    method CheckAuth(clientReady: bool, session: Option<User>, countFails: bool) returns (r: Option<User>)
      modifies this`currentUser, this`badge
      ensures !clientReady ==> r == None && currentUser == old(currentUser) && badge == old(badge)
      ensures clientReady ==> r == session && currentUser == session
      ensures clientReady && session.None? ==> badge == CountBadge(0)
      ensures clientReady && session.Some? && !countFails ==> badge == CountBadge(|CustomerRows(memberCarts, session.value.id)|)
      ensures clientReady && session.Some? && countFails ==> badge == old(badge)
    {
      if !clientReady {
        return None;
      }
      OnAuthStateChange(session, countFails);
      r := currentUser;
    }

    /** `addToCart(productId, quantity)`: find-or-increment on the active cart. */
    method AddToCart(p: ProductId, q: int, fails: bool)
      modifies this`guestSlot, this`memberCarts, this`badge, this`notices
      ensures old(Valid()) ==> Valid()
      // guest: the slot is always rewritten; the store is not touched
      ensures currentUser.None? ==>
        && guestSlot == Some(Added(GuestLines(old(guestSlot)), p, q))
        && memberCarts == old(memberCarts)
        && badge == CountBadge(|Added(GuestLines(old(guestSlot)), p, q)|)
        && notices == old(notices) + [AddedToCart]
      // member: the slot is not touched
      ensures currentUser.Some? ==> guestSlot == old(guestSlot)
      ensures currentUser.Some? && fails ==>
        && memberCarts == old(memberCarts) && badge == old(badge)
        && notices == old(notices) + [if MatchCount(CustomerRows(old(memberCarts), currentUser.value.id), p) == 1
                                      then ErrorUpdatingCart else ErrorAddingToCart]
      ensures currentUser.Some? && !fails ==>
        var u := currentUser.value.id;
        && memberCarts == old(memberCarts)[u := MemberAdded(CustomerRows(old(memberCarts), u), p, q)]
        && badge == CountBadge(|MemberAdded(CustomerRows(old(memberCarts), u), p, q)|)
        && notices == old(notices) + [AddedToCart]
    {
      if currentUser.None? {
        var cart := GuestLines(guestSlot);
        var i := FirstIndex(cart, p);
        if i < |cart| {
          cart := cart[i := cart[i].(quantity := cart[i].quantity + q)];
        } else {
          cart := cart + [CartLine(p, q)];
        }
        if UniqueLines(GuestLines(guestSlot)) {
          AddKeepsUnique(GuestLines(guestSlot), p, q);
        }
        guestSlot := Some(cart);
        UpdateCartCount(|cart|);
        notices := notices + [AddedToCart];
        return;
      }
      var u := currentUser.value.id;
      var rows := CustomerRows(memberCarts, u);
      if MatchCount(rows, p) == 1 {
        if fails {
          notices := notices + [ErrorUpdatingCart];
          return;
        }
      } else if fails {
        notices := notices + [ErrorAddingToCart];
        return;
      }
      if CartsUnique(memberCarts) {
        CustomerRowsUnique(memberCarts, u);
        MemberAddIsAdd(rows, p, q);
        AddKeepsUnique(rows, p, q);
        CartsUniqueUpdate(memberCarts, u, MemberAdded(rows, p, q));
      }
      memberCarts := memberCarts[u := MemberAdded(rows, p, q)];
      LoadCartCount(false);
      notices := notices + [AddedToCart];
    }

    /** `loadCartItems`: fill the cart modal from the active cart. A failed
        member query lists nothing. A member row whose product is missing makes
        the total's `reduce` throw: `ok` is false and the modal is left. */
    method LoadCartItems(fails: bool) returns (ok: bool)
      modifies this`view
      ensures currentUser.None? ==> ok && view == GuestView(GuestLines(guestSlot), catalog)
      ensures currentUser.Some? && fails ==> ok && view == View([], 0)
      ensures currentUser.Some? && !fails ==>
        var rows := CustomerRows(memberCarts, currentUser.value.id);
        && ok == AllResolve(rows, catalog)
        && view == if ok then MemberView(rows, catalog).value else old(view)
    {
      if currentUser.None? {
        var items, total := ResolveGuestCart(GuestLines(guestSlot), catalog);
        view := View(items, total);
        return true;
      }
      if fails {
        view := View([], 0);
        return true;
      }
      var shown := MemberView(CustomerRows(memberCarts, currentUser.value.id), catalog);
      if shown.None? {
        return false;
      }
      view := shown.value;
      ok := true;
    }

    /** `removeFromCart(productId)`: drop every line for the product. */
    method RemoveFromCart(p: ProductId, fails: bool)
      modifies this`guestSlot, this`memberCarts, this`badge, this`notices, this`view
      ensures old(Valid()) ==> Valid()
      ensures currentUser.None? ==>
        var rest := Removed(GuestLines(old(guestSlot)), p);
        && guestSlot == Some(rest) && memberCarts == old(memberCarts)
        && badge == CountBadge(|rest|)
        && view == GuestView(rest, catalog)
        && notices == old(notices) + [ItemRemoved]
      ensures currentUser.Some? ==> guestSlot == old(guestSlot)
      ensures currentUser.Some? && fails ==>
        && memberCarts == old(memberCarts) && badge == old(badge) && view == old(view)
        && notices == old(notices) + [ErrorRemovingFromCart]
      ensures currentUser.Some? && !fails ==>
        var u := currentUser.value.id;
        var rest := Removed(CustomerRows(old(memberCarts), u), p);
        && memberCarts == old(memberCarts)[u := rest]
        && badge == CountBadge(|rest|)
        && (if AllResolve(rest, catalog)
            then view == MemberView(rest, catalog).value && notices == old(notices) + [ItemRemoved]
            else view == old(view) && notices == old(notices))
    {
      if currentUser.None? {
        RemoveGuestLines(p);
      } else if fails {
        notices := notices + [ErrorRemovingFromCart];
      } else {
        RemoveMemberRows(p);
      }
    }

    /** The guest branch of `removeFromCart`. */
    method RemoveGuestLines(p: ProductId)
      requires currentUser.None?
      modifies this`guestSlot, this`badge, this`notices, this`view
      ensures UniqueLines(GuestLines(old(guestSlot))) ==> UniqueLines(GuestLines(guestSlot))
      ensures guestSlot == Some(Removed(GuestLines(old(guestSlot)), p))
      ensures badge == CountBadge(|Removed(GuestLines(old(guestSlot)), p)|)
      ensures view == GuestView(Removed(GuestLines(old(guestSlot)), p), catalog)
      ensures notices == old(notices) + [ItemRemoved]
    {
      var cart := Removed(GuestLines(guestSlot), p);
      if UniqueLines(GuestLines(guestSlot)) {
        RemovedKeepsUnique(GuestLines(guestSlot), p);
      }
      guestSlot := Some(cart);
      UpdateCartCount(|cart|);
      var _ := LoadCartItems(false);
      notices := notices + [ItemRemoved];
    }

    /** The member branch of `removeFromCart` once the delete succeeded. */
    method RemoveMemberRows(p: ProductId)
      requires currentUser.Some?
      modifies this`memberCarts, this`badge, this`notices, this`view
      ensures CartsUnique(old(memberCarts)) ==> CartsUnique(memberCarts)
      ensures memberCarts == old(memberCarts)[currentUser.value.id := Removed(CustomerRows(old(memberCarts), currentUser.value.id), p)]
      ensures badge == CountBadge(|Removed(CustomerRows(old(memberCarts), currentUser.value.id), p)|)
      ensures AllResolve(Removed(CustomerRows(old(memberCarts), currentUser.value.id), p), catalog) ==>
        && view == MemberView(Removed(CustomerRows(old(memberCarts), currentUser.value.id), p), catalog).value
        && notices == old(notices) + [ItemRemoved]
      ensures !AllResolve(Removed(CustomerRows(old(memberCarts), currentUser.value.id), p), catalog) ==>
        view == old(view) && notices == old(notices)
    {
      var u := currentUser.value.id;
      var rest := Removed(CustomerRows(memberCarts, u), p);
      if CartsUnique(memberCarts) {
        CustomerRowsUnique(memberCarts, u);
        RemovedKeepsUnique(CustomerRows(memberCarts, u), p);
        CartsUniqueUpdate(memberCarts, u, rest);
      }
      memberCarts := memberCarts[u := rest];
      assert CustomerRows(memberCarts, u) == rest;
      LoadCartCount(false);
      var ok := LoadCartItems(false);
      if ok {
        notices := notices + [ItemRemoved];
      }
    }

    /** `updateCartQuantity(productId, newQuantity)`: below 1 it is
        `removeFromCart`; otherwise it sets the quantity of an existing line
        and never inserts one. */
    method UpdateCartQuantity(p: ProductId, n: int, fails: bool)
      modifies this`guestSlot, this`memberCarts, this`badge, this`notices, this`view
      ensures old(Valid()) ==> Valid()
      // n < 1: exactly the state RemoveFromCart(p, fails) leaves
      ensures n < 1 && currentUser.None? ==>
        var rest := Removed(GuestLines(old(guestSlot)), p);
        && guestSlot == Some(rest) && memberCarts == old(memberCarts)
        && badge == CountBadge(|rest|)
        && view == GuestView(rest, catalog)
        && notices == old(notices) + [ItemRemoved]
      ensures n < 1 && currentUser.Some? && fails ==>
        && guestSlot == old(guestSlot) && memberCarts == old(memberCarts)
        && badge == old(badge) && view == old(view)
        && notices == old(notices) + [ErrorRemovingFromCart]
      ensures n < 1 && currentUser.Some? && !fails ==>
        var u := currentUser.value.id;
        var rest := Removed(CustomerRows(old(memberCarts), u), p);
        && guestSlot == old(guestSlot) && memberCarts == old(memberCarts)[u := rest]
        && badge == CountBadge(|rest|)
        && (if AllResolve(rest, catalog)
            then view == MemberView(rest, catalog).value && notices == old(notices) + [ItemRemoved]
            else view == old(view) && notices == old(notices))
      // n >= 1, guest: only a present line is rewritten, an absent one leaves storage as it was
      ensures n >= 1 && currentUser.None? ==>
        var lines := GuestLines(old(guestSlot));
        && guestSlot == (if HasProduct(lines, p) then Some(SetFirst(lines, p, n)) else old(guestSlot))
        && memberCarts == old(memberCarts)
        && view == GuestView(GuestLines(guestSlot), catalog)
        && badge == CountBadge(|lines|)
        && notices == old(notices)
      ensures n >= 1 && currentUser.Some? && fails ==>
        && guestSlot == old(guestSlot) && memberCarts == old(memberCarts)
        && badge == old(badge) && view == old(view)
        && notices == old(notices) + [ErrorUpdatingCart]
      ensures n >= 1 && currentUser.Some? && !fails ==>
        var u := currentUser.value.id;
        var rows := SetAll(CustomerRows(old(memberCarts), u), p, n);
        && guestSlot == old(guestSlot) && memberCarts == old(memberCarts)[u := rows]
        && notices == old(notices)
        && (if AllResolve(rows, catalog)
            then view == MemberView(rows, catalog).value && badge == CountBadge(|rows|)
            else view == old(view) && badge == old(badge))
    {
      if n < 1 {
        RemoveFromCart(p, fails);
      } else if currentUser.None? {
        SetGuestQuantity(p, n);
      } else if fails {
        notices := notices + [ErrorUpdatingCart];
      } else {
        SetMemberQuantity(p, n);
      }
    }

    /** The guest branch of `updateCartQuantity` for a quantity of at least 1. */
    method SetGuestQuantity(p: ProductId, n: int)
      requires currentUser.None?
      modifies this`guestSlot, this`badge, this`view
      ensures UniqueLines(GuestLines(old(guestSlot))) ==> UniqueLines(GuestLines(guestSlot))
      ensures var lines := GuestLines(old(guestSlot));
        && guestSlot == (if HasProduct(lines, p) then Some(SetFirst(lines, p, n)) else old(guestSlot))
        && view == GuestView(GuestLines(guestSlot), catalog)
        && badge == CountBadge(|lines|)
    {
      var cart := GuestLines(guestSlot);
      var i := FirstIndex(cart, p);
      if i < |cart| {
        cart := cart[i := cart[i].(quantity := n)];
        if UniqueLines(GuestLines(guestSlot)) {
          SetKeepsUnique(GuestLines(guestSlot), p, n);
        }
        guestSlot := Some(cart);
      }
      FirstIndexAbsent(GuestLines(old(guestSlot)), p);
      var _ := LoadCartItems(false);
      LoadCartCount(false);
    }

    /** The member branch of `updateCartQuantity` once the update succeeded. */
    method SetMemberQuantity(p: ProductId, n: int)
      requires currentUser.Some?
      modifies this`memberCarts, this`badge, this`view
      ensures CartsUnique(old(memberCarts)) ==> CartsUnique(memberCarts)
      ensures var rows := SetAll(CustomerRows(old(memberCarts), currentUser.value.id), p, n);
        && memberCarts == old(memberCarts)[currentUser.value.id := rows]
        && (if AllResolve(rows, catalog)
            then view == MemberView(rows, catalog).value && badge == CountBadge(|rows|)
            else view == old(view) && badge == old(badge))
    {
      var u := currentUser.value.id;
      var rows := SetAll(CustomerRows(memberCarts, u), p, n);
      if CartsUnique(memberCarts) {
        CartsUniqueSetAll(memberCarts, u, p, n);
      }
      memberCarts := memberCarts[u := rows];
      assert CustomerRows(memberCarts, u) == rows;
      RefreshMemberCart();
    }

    /** After a member write: the modal is reloaded and, when that succeeds,
        the badge too. */
    method RefreshMemberCart()
      requires currentUser.Some?
      modifies this`badge, this`view
      ensures var rows := CustomerRows(memberCarts, currentUser.value.id);
        if AllResolve(rows, catalog)
        then view == MemberView(rows, catalog).value && badge == CountBadge(|rows|)
        else view == old(view) && badge == old(badge)
    {
      var ok := LoadCartItems(false);
      if ok {
        LoadCartCount(false);
      }
    }

    /** `addToWishlist(productId)`: a toggle on the signed-in customer's
        entry; a guest is asked to sign in and nothing is stored. */
    method AddToWishlist(p: ProductId, fails: bool)
      modifies this`wishlist, this`notices, this`authModalOpen, this`hearts
      ensures currentUser.None? ==>
        && wishlist == old(wishlist) && hearts == old(hearts)
        && notices == old(notices) + [SignInForWishlist] && authModalOpen
      ensures currentUser.Some? ==> authModalOpen == old(authModalOpen)
      ensures currentUser.Some? && fails ==>
        var present := WishEntry(currentUser.value.id, p) in old(wishlist);
        && wishlist == old(wishlist) && hearts == old(hearts)
        && notices == old(notices) + [if present then ErrorRemovingFromWishlist else ErrorAddingToWishlist]
      ensures currentUser.Some? && !fails ==>
        var e := WishEntry(currentUser.value.id, p);
        && wishlist == Toggled(old(wishlist), e)
        && hearts == old(hearts)[p := e !in old(wishlist)]
        && notices == old(notices) + [if e in old(wishlist) then RemovedFromWishlist else AddedToWishlist]
    {
      if currentUser.None? {
        notices := notices + [SignInForWishlist];
        authModalOpen := true;
        return;
      }
      var e := WishEntry(currentUser.value.id, p);
      if e in wishlist {
        if fails {
          notices := notices + [ErrorRemovingFromWishlist];
          return;
        }
        wishlist := wishlist - {e};
        notices := notices + [RemovedFromWishlist];
        hearts := hearts[p := false];
      } else {
        if fails {
          notices := notices + [ErrorAddingToWishlist];
          return;
        }
        wishlist := wishlist + {e};
        notices := notices + [AddedToWishlist];
        hearts := hearts[p := true];
      }
    }

    /** `proceedToCheckout`: refused for a guest, who is asked to sign in. */
    method ProceedToCheckout()
      modifies this`cartModalOpen, this`notices, this`authModalOpen
      ensures currentUser.None? ==>
        !cartModalOpen && authModalOpen && notices == old(notices) + [SignInToCheckout]
      ensures currentUser.Some? ==>
        && cartModalOpen == old(cartModalOpen) && authModalOpen == old(authModalOpen)
        && notices == old(notices) + [CheckoutComingSoon]
    {
      if currentUser.None? {
        cartModalOpen := false;
        notices := notices + [SignInToCheckout];
        authModalOpen := true;
        return;
      }
      notices := notices + [CheckoutComingSoon];
    }
  }
}
