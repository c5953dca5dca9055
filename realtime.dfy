/** The live product grid: the in-stock catalog as the storefront lists it,
    the one subscription slot for change events on the `products` table, and
    the reload every change event triggers. */
module RealtimeProducts {
  import opened ShopTypes

  /** A realtime channel handed out by the backend. */
  type Channel = nat

  /** The info notifications a change event can raise. */
  datatype FeedNotice = NewProductAdded | ProductsUpdated | ProductRemoved

  /** The event type's notification: one per change kind, none for any other
      event type. */
  function Classify(eventType: string): (n: Option<FeedNotice>)
    ensures n == Some(NewProductAdded) <==> eventType == "INSERT"
    ensures n == Some(ProductsUpdated) <==> eventType == "UPDATE"
    ensures n == Some(ProductRemoved) <==> eventType == "DELETE"
  {
    if eventType == "INSERT" then Some(NewProductAdded)
    else if eventType == "UPDATE" then Some(ProductsUpdated)
    else if eventType == "DELETE" then Some(ProductRemoved)
    else None
  }

  /** The rows of the `products` table with `in_stock`, in table order. */
  function InStock(table: seq<Product>): (r: seq<Product>)
    ensures |r| <= |table|
    ensures forall k | 0 <= k < |r| :: r[k].data.inStock
  {
    if table == [] then []
    else (if table[0].data.inStock then [table[0]] else []) + InStock(table[1..])
  }

  /** The in-stock rows whose `featured` flag is `featured`, in table order. */
  function InStockWith(table: seq<Product>, featured: bool): (r: seq<Product>)
    ensures forall k | 0 <= k < |r| :: r[k].data.inStock && r[k].data.featured == featured
  {
    if table == [] then []
    else
      var head := if table[0].data.inStock && table[0].data.featured == featured then [table[0]] else [];
      head + InStockWith(table[1..], featured)
  }

  /** `.eq('in_stock', true).order('featured', { ascending: false })`: the
      featured in-stock rows, then the others. The backend does not fix the
      order among rows with the same flag; this takes table order. */
  function Displayed(table: seq<Product>): (r: seq<Product>)
    ensures |r| == |InStock(table)|
  {
    var d := InStockWith(table, true) + InStockWith(table, false);
    SplitByFeatured(table);
    assert |multiset(d)| == |multiset(InStock(table))|;
    d
  }

  lemma {:induction false} SplitByFeatured(table: seq<Product>)
    ensures multiset(InStockWith(table, true)) + multiset(InStockWith(table, false)) == multiset(InStock(table))
  {
    if table != [] {
      SplitByFeatured(table[1..]);
    }
  }

  lemma {:induction false} InStockMembers(table: seq<Product>)
    ensures forall x :: x in InStock(table) <==> x in table && x.data.inStock
  {
    if table != [] {
      InStockMembers(table[1..]);
      assert table == [table[0]] + table[1..];
    }
  }

  /** The grid holds only in-stock rows, featured ones before the others. */
  lemma DisplayedOrder(table: seq<Product>)
    ensures forall k | 0 <= k < |Displayed(table)| :: Displayed(table)[k].data.inStock
    ensures forall i, j | 0 <= i < j < |Displayed(table)| ::
      Displayed(table)[j].data.featured ==> Displayed(table)[i].data.featured
  {
    var front, back := InStockWith(table, true), InStockWith(table, false);
    var d := Displayed(table);
    assert forall k | 0 <= k < |front| :: d[k] == front[k];
    assert forall k | |front| <= k < |d| :: d[k] == back[k - |front|];
  }

  /** The grid lists exactly the in-stock rows, each as often as the table
      holds it. */
  lemma DisplayedContents(table: seq<Product>)
    ensures multiset(Displayed(table)) == multiset(InStock(table))
    ensures forall x :: x in Displayed(table) <==> x in table && x.data.inStock
  {
    SplitByFeatured(table);
    InStockMembers(table);
    var d := Displayed(table);
    forall x ensures x in d <==> x in InStock(table) {
      assert x in d <==> x in multiset(d);
    }
  }

  /** The storefront's realtime state. */
  class ProductFeed {
    /** `productsSubscription`: the last channel stored, or null. */
    var subscription: Option<Channel>
    /** The channels the backend currently delivers events on. */
    var active: set<Channel>
    /** Subscribe attempts postponed because the client was not ready. */
    var retries: nat
    var notices: seq<FeedNotice>
    /** The product cards in `productsContainer`. */
    var shown: seq<Product>
    /** Catalog loads started. */
    var reloads: nat

    /** At most one channel is live, and it is the one in the slot. */
    ghost predicate Valid()
      reads this
    {
      active <= if subscription.Some? then {subscription.value} else {}
    }

    constructor ()
      ensures subscription == None && active == {} && retries == 0
      ensures notices == [] && shown == [] && reloads == 0
      ensures Valid()
    {
      subscription := None;
      active := {};
      retries := 0;
      notices := [];
      shown := [];
      reloads := 0;
    }

    /** `loadProductsFromDatabase`: without a client, or when the query
        fails, the grid keeps its cards. */
    method LoadProductsFromDatabase(clientReady: bool, table: seq<Product>, fails: bool)
      modifies this`shown, this`reloads
      ensures reloads == old(reloads) + 1
      ensures clientReady && !fails ==> shown == Displayed(table)
      ensures !clientReady || fails ==> shown == old(shown)
    {
      reloads := reloads + 1;
      if !clientReady {
        return;
      }
      if fails {
        return;
      }
      shown := Displayed(table);
    }

    /** `subscribeToProducts`: with no client, schedule a retry and leave the
        slot alone; otherwise unsubscribe the stored channel and store
        `ch`, the channel the backend opens. */
    method Subscribe(clientReady: bool, ch: Channel)
      modifies this`subscription, this`active, this`retries
      ensures !clientReady ==> retries == old(retries) + 1
      ensures !clientReady ==> subscription == old(subscription) && active == old(active)
      ensures clientReady ==> retries == old(retries) && subscription == Some(ch)
      ensures clientReady ==> active == (if old(subscription).Some? then old(active) - {old(subscription).value} else old(active)) + {ch}
      ensures clientReady && old(Valid()) ==> active == {ch}
      ensures old(Valid()) ==> Valid()
    {
      if !clientReady {
        retries := retries + 1;
        return;
      }
      if subscription.Some? {
        active := active - {subscription.value};
      }
      subscription := Some(ch);
      active := active + {ch};
    }

    /** The change handler: notify for the three change kinds, then reload
        the catalog whatever the event type. */
    method HandleEvent(eventType: string, table: seq<Product>, fails: bool)
      modifies this`notices, this`shown, this`reloads
      ensures Classify(eventType).Some? ==> notices == old(notices) + [Classify(eventType).value]
      ensures Classify(eventType).None? ==> notices == old(notices)
      ensures reloads == old(reloads) + 1
      ensures !fails ==> shown == Displayed(table)
      ensures fails ==> shown == old(shown)
    {
      var message := Classify(eventType);
      if message.Some? {
        notices := notices + [message.value];
      }
      LoadProductsFromDatabase(true, table, fails);
    }

    /** The first load and subscription once the page is ready. */
    method PageReady(clientReady: bool, table: seq<Product>, fails: bool, ch: Channel)
      modifies this`shown, this`reloads, this`subscription, this`active, this`retries
      ensures reloads == old(reloads) + 1
      ensures clientReady && !fails ==> shown == Displayed(table)
      ensures !clientReady || fails ==> shown == old(shown)
      ensures clientReady ==> retries == old(retries) && subscription == Some(ch)
      ensures clientReady ==> active == (if old(subscription).Some? then old(active) - {old(subscription).value} else old(active)) + {ch}
      ensures clientReady && old(Valid()) ==> active == {ch}
      ensures !clientReady ==> retries == old(retries) + 1 && subscription == old(subscription)
      ensures !clientReady ==> active == old(active)
      ensures old(Valid()) ==> Valid()
    {
      LoadProductsFromDatabase(clientReady, table, fails);
      Subscribe(clientReady, ch);
    }

    /** `beforeunload`: the stored channel is unsubscribed; the slot itself
        is not cleared. */
    method Unload()
      modifies this`active
      ensures subscription.Some? ==> active == old(active) - {subscription.value}
      ensures subscription.None? ==> active == old(active)
      ensures old(Valid()) ==> active == {}
    {
      if subscription.Some? {
        active := active - {subscription.value};
      }
    }
  }
}
