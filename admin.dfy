/** The admin page: who is let in, the dashboard's product counts, and how
    the product form becomes a `products` row (inserted or updated). */
module AdminPanel {
  import opened ShopTypes
  import opened RealtimeProducts

  /** Which of the two page sections is displayed. */
  datatype Section = LoginSection | DashboardSection

  /** The `customers` lookup for the session's user (`.single()`): a query
      error, no record, or the record's `is_admin` flag. */
  datatype Lookup = LookupError | NoRecord | Record(isAdmin: bool)

  /** The `alert` dialogs the admin page raises. */
  datatype AdminAlert = AccessDenied | NoAdminAccess | LoginFailed | SaveFailed | SaveSucceeded

  /** The four dashboard statistics. */
  datatype Stats = Stats(totalProducts: nat, activeProducts: nat, totalOrders: nat, totalCustomers: nat)

  /** The product form's fields as the page reads them: text inputs are
      strings, the two checkboxes booleans. */
  datatype ProductForm = ProductForm(
    name: string, description: string, price: string, originalPrice: string,
    weight: string, imageUrl: string, category: string, badge: string,
    inStock: bool, featured: bool)

  /** `x?.length || 0` for a table whose query may fail. */
  function RowCount(rows: Option<nat>): (n: nat)
    ensures rows.Some? ==> n == rows.value
    ensures rows.None? ==> n == 0
  {
    if rows.Some? then rows.value else 0
  }

  /** `loadDashboardData`'s counts. The active count is the number of
      in-stock rows, which is the number of cards the storefront lists, and
      never exceeds the total. */
  function DashboardCounts(products: Option<seq<Product>>, orders: Option<nat>, customers: Option<nat>): (s: Stats)
    ensures products.None? ==> s.totalProducts == 0 && s.activeProducts == 0
    ensures products.Some? ==> s.totalProducts == |products.value|
    ensures products.Some? ==> s.activeProducts == |Displayed(products.value)|
    ensures s.activeProducts <= s.totalProducts
    ensures s.totalOrders == RowCount(orders) && s.totalCustomers == RowCount(customers)
  {
    if products.None? then Stats(0, 0, RowCount(orders), RowCount(customers))
    else
      var ps := products.value;
      DisplayedContents(ps);
      assert |Displayed(ps)| == |multiset(Displayed(ps))|;
      Stats(|ps|, |InStock(ps)|, RowCount(orders), RowCount(customers))
  }

  /** The save handler's `productData`: an empty original price or badge is
      stored as null; every other text field is stored as typed, never as
      null (an empty weight stays the empty string). `parse` stands for
      `parseFloat`. */
  function ProductPayload(form: ProductForm, parse: string -> int): (d: ProductData)
    ensures d.originalPrice.None? <==> form.originalPrice == ""
    ensures d.originalPrice.Some? ==> d.originalPrice.value == parse(form.originalPrice)
    ensures d.badge.None? <==> form.badge == ""
    ensures d.badge.Some? ==> d.badge.value == form.badge
    ensures d.price == parse(form.price) && d.weight == Some(form.weight) && d.category == Some(form.category)
    ensures d.name == form.name && d.description == Some(form.description) && d.imageUrl == form.imageUrl
    ensures d.inStock == form.inStock && d.featured == form.featured
  {
    ProductData(
      form.name, Some(form.description), parse(form.price),
      if form.originalPrice != "" then Some(parse(form.originalPrice)) else None,
      Some(form.weight), form.imageUrl, Some(form.category),
      if form.badge != "" then Some(form.badge) else None,
      form.inStock, form.featured)
  }

  /** The text a nullable column shows in an input: `x || ''`. */
  function OrEmpty(x: Option<string>): string
  {
    if x.Some? then x.value else ""
  }

  /** `editProduct`'s form fill: a null or zero original price, a null weight,
      badge or description show as an empty field, a null or empty category
      as 'powder'. `show` stands for the number-to-text conversion of the
      input. */
  function EditForm(d: ProductData, show: int -> string): (f: ProductForm)
    ensures d.originalPrice.None? || d.originalPrice == Some(0) ==> f.originalPrice == ""
    ensures d.originalPrice.Some? && d.originalPrice.value != 0 ==> f.originalPrice == show(d.originalPrice.value)
    ensures f.weight == "" <==> d.weight.None? || d.weight == Some("")
    ensures f.badge == "" <==> d.badge.None? || d.badge == Some("")
    ensures f.description == "" <==> d.description.None? || d.description == Some("")
    ensures d.weight.Some? ==> f.weight == d.weight.value
    ensures d.badge.Some? ==> f.badge == d.badge.value
    ensures d.description.Some? ==> f.description == d.description.value
    ensures f.category != ""
    ensures d.category.Some? && d.category.value != "" ==> f.category == d.category.value
    ensures d.category.None? || d.category == Some("") ==> f.category == "powder"
    ensures f.name == d.name && f.imageUrl == d.imageUrl && f.price == show(d.price)
    ensures f.inStock == d.inStock && f.featured == d.featured
  {
    ProductForm(
      d.name, OrEmpty(d.description), show(d.price),
      if d.originalPrice.Some? && d.originalPrice.value != 0 then show(d.originalPrice.value) else "",
      OrEmpty(d.weight), d.imageUrl,
      if d.category.Some? && d.category.value != "" then d.category.value else "powder",
      OrEmpty(d.badge),
      d.inStock, d.featured)
  }

  /** Opening a product for edit and saving it unchanged writes back the same
      row, except that a zero original price and an empty badge become null,
      a null weight or description becomes the empty string, and a null or
      empty category becomes 'powder'. */
  lemma EditThenSave(d: ProductData, show: int -> string, parse: string -> int)
    requires forall x :: show(x) != "" && parse(show(x)) == x
    ensures var r := ProductPayload(EditForm(d, show), parse);
      && r.originalPrice == (if d.originalPrice == Some(0) then None else d.originalPrice)
      && r.badge == (if d.badge == Some("") then None else d.badge)
      && r.category == (if d.category.None? || d.category == Some("") then Some("powder") else d.category)
      && r.weight == (if d.weight.None? then Some("") else d.weight)
      && r.description == (if d.description.None? then Some("") else d.description)
      && r.price == d.price
      && r.name == d.name
      && r.imageUrl == d.imageUrl && r.inStock == d.inStock && r.featured == d.featured
  {
  }

  /** Product ids are unique: `id` is the table's primary key. */
  predicate DistinctIds(rows: seq<Product>)
  {
    forall i, j | 0 <= i < j < |rows| :: rows[i].id != rows[j].id
  }

  predicate HasId(rows: seq<Product>, id: ProductId)
  {
    exists k | 0 <= k < |rows| :: rows[k].id == id
  }

  /** `.update(productData).eq('id', productId)`: every row with that id
      takes the new data and keeps its id. */
  function UpdatedRows(rows: seq<Product>, id: ProductId, data: ProductData): (r: seq<Product>)
    ensures |r| == |rows|
  {
    seq(|rows|, k requires 0 <= k < |rows| => if rows[k].id == id then Product(id, data) else rows[k])
  }

  /** An update leaves the ids, and so their uniqueness, as they were; the
      row with the id holds the new data and no other row changes. */
  lemma UpdateKeepsRows(rows: seq<Product>, id: ProductId, data: ProductData)
    ensures forall k | 0 <= k < |rows| :: UpdatedRows(rows, id, data)[k].id == rows[k].id
    ensures forall k | 0 <= k < |rows| && rows[k].id == id :: UpdatedRows(rows, id, data)[k].data == data
    ensures forall k | 0 <= k < |rows| && rows[k].id != id :: UpdatedRows(rows, id, data)[k] == rows[k]
    ensures DistinctIds(rows) ==> DistinctIds(UpdatedRows(rows, id, data))
  {
  }

  /** Updating an id no row has changes nothing, and the page still reports
      success. */
  lemma UpdateMissingId(rows: seq<Product>, id: ProductId, data: ProductData)
    requires !HasId(rows, id)
    ensures UpdatedRows(rows, id, data) == rows
  {
  }

  /** Saving the same form twice is the same as saving it once. */
  lemma UpdateTwice(rows: seq<Product>, id: ProductId, data: ProductData)
    ensures UpdatedRows(UpdatedRows(rows, id, data), id, data) == UpdatedRows(rows, id, data)
  {
  }

  lemma {:induction false} InStockAppend(rows: seq<Product>, p: Product)
    ensures |InStock(rows + [p])| == |InStock(rows)| + (if p.data.inStock then 1 else 0)
  {
    if rows == [] {
      assert [p][1..] == [];
    } else {
      assert (rows + [p])[1..] == rows[1..] + [p];
      InStockAppend(rows[1..], p);
    }
  }

  /** An insert raises the total by one and the active count by one exactly
      when the new product is in stock. */
  lemma InsertCounts(rows: seq<Product>, p: Product, orders: Option<nat>, customers: Option<nat>)
    ensures var before := DashboardCounts(Some(rows), orders, customers);
      var after := DashboardCounts(Some(rows + [p]), orders, customers);
      && after.totalProducts == before.totalProducts + 1
      && after.activeProducts == before.activeProducts + (if p.data.inStock then 1 else 0)
  {
    InStockAppend(rows, p);
  }

  /** The admin page's state: the auth session, `adminUser`, the displayed
      section, the alerts raised, the `products` table, the statistics and
      the product modal. */
  class AdminPage {
    var session: Option<User>
    var adminUser: Option<User>
    var section: Section
    var alerts: seq<AdminAlert>
    var products: seq<Product>
    var stats: Stats
    var modalOpen: bool

    ghost predicate Valid()
      reads this
    {
      DistinctIds(products)
    }

    constructor (existing: Option<User>, table: seq<Product>)
      ensures session == existing && adminUser == None && section == LoginSection
      ensures alerts == [] && products == table && stats == Stats(0, 0, 0, 0) && !modalOpen
    {
      session := existing;
      adminUser := None;
      section := LoginSection;
      alerts := [];
      products := table;
      stats := Stats(0, 0, 0, 0);
      modalOpen := false;
    }

    /** `loadDashboardData`: the product query reads the table; `orders` and
        `customers` are the other two tables' row counts, `None` when their
        query fails. */
    method LoadDashboardData(orders: Option<nat>, customers: Option<nat>)
      modifies this`stats
      ensures stats == DashboardCounts(Some(products), orders, customers)
    {
      stats := DashboardCounts(Some(products), orders, customers);
    }

    /** `checkAdminAuth`: access is granted exactly when a client and a
        session exist and the session's customer record has `is_admin`.
        Without a client nothing happens; without a session the login
        section is shown; a denial alerts, signs out and shows the login
        section, leaving `adminUser` as it was. */
    method CheckAdminAuth(clientReady: bool, lookup: Lookup, orders: Option<nat>, customers: Option<nat>)
      returns (granted: bool)
      modifies this`session, this`adminUser, this`section, this`alerts, this`stats
      ensures granted <==> clientReady && old(session).Some? && lookup == Record(true)
      ensures !clientReady ==>
        && session == old(session) && adminUser == old(adminUser)
        && section == old(section) && alerts == old(alerts) && stats == old(stats)
      ensures clientReady && old(session).None? ==>
        && session == None && adminUser == old(adminUser)
        && section == LoginSection && alerts == old(alerts) && stats == old(stats)
      ensures clientReady && old(session).Some? && !granted ==>
        && session == None
        && adminUser == old(adminUser) && section == LoginSection
        && alerts == old(alerts) + [AccessDenied] && stats == old(stats)
      ensures granted ==>
        && session == old(session) && adminUser == old(session)
        && section == DashboardSection && alerts == old(alerts)
        && stats == DashboardCounts(Some(products), orders, customers)
    {
      if !clientReady {
        return false;
      }
      if session.None? {
        section := LoginSection;
        return false;
      }
      if lookup != Record(true) {
        alerts := alerts + [AccessDenied];
        session := None;
        section := LoginSection;
        return false;
      }
      adminUser := session;
      section := DashboardSection;
      LoadDashboardData(orders, customers);
      return true;
    }

    /** The login form: a failed sign-in alerts and stops; otherwise the new
        session goes through the admin check, and a refusal adds a second
        alert. `signIn` is the session the credentials open, if any. */
    method AdminLogin(signIn: Option<User>, lookup: Lookup, orders: Option<nat>, customers: Option<nat>)
      modifies this`session, this`adminUser, this`section, this`alerts, this`stats
      ensures signIn.None? ==>
        && session == old(session) && adminUser == old(adminUser)
        && section == old(section) && alerts == old(alerts) + [LoginFailed] && stats == old(stats)
      ensures signIn.Some? && lookup == Record(true) ==>
        && session == signIn && adminUser == signIn
        && section == DashboardSection && alerts == old(alerts)
        && stats == DashboardCounts(Some(products), orders, customers)
      ensures signIn.Some? && lookup != Record(true) ==>
        && session == None && adminUser == old(adminUser)
        && section == LoginSection && alerts == old(alerts) + [AccessDenied, NoAdminAccess]
        && stats == old(stats)
    {
      if signIn.None? {
        alerts := alerts + [LoginFailed];
        return;
      }
      session := signIn;
      var isAdmin := CheckAdminAuth(true, lookup, orders, customers);
      if !isAdmin {
        alerts := alerts + [NoAdminAccess];
      }
    }

    /** `adminLogout`: signed out, `adminUser` cleared, login section shown. */
    method AdminLogout()
      modifies this`session, this`adminUser, this`section
      ensures session == None && adminUser == None && section == LoginSection
    {
      session := None;
      adminUser := None;
      section := LoginSection;
    }

    /** The product form's submit: a non-empty `productId` updates that
        row, an empty one inserts a new row under `newId`, the id the
        backend assigns. A failed write alerts and leaves everything else;
        a successful one alerts, closes the modal and refreshes the counts. */
    method SaveProduct(productId: string, form: ProductForm, parse: string -> int, newId: ProductId,
                       fails: bool, orders: Option<nat>, customers: Option<nat>)
      modifies this`products, this`alerts, this`modalOpen, this`stats
      ensures fails ==>
        && products == old(products) && alerts == old(alerts) + [SaveFailed]
        && modalOpen == old(modalOpen) && stats == old(stats)
      ensures !fails && productId != "" ==> products == UpdatedRows(old(products), productId, ProductPayload(form, parse))
      ensures !fails && productId == "" ==> products == old(products) + [Product(newId, ProductPayload(form, parse))]
      ensures !fails ==>
        && alerts == old(alerts) + [SaveSucceeded] && !modalOpen
        && stats == DashboardCounts(Some(products), orders, customers)
      ensures old(Valid()) && (productId != "" || !HasId(old(products), newId)) ==> Valid()
    {
      var productData := ProductPayload(form, parse);
      if fails {
        alerts := alerts + [SaveFailed];
        return;
      }
      if productId != "" {
        UpdateKeepsRows(products, productId, productData);
        products := UpdatedRows(products, productId, productData);
      } else {
        products := products + [Product(newId, productData)];
      }
      alerts := alerts + [SaveSucceeded];
      modalOpen := false;
      LoadDashboardData(orders, customers);
    }
  }
}
