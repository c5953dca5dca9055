/** Entities shared by the storefront, the realtime catalog listener and the
    admin dashboard: identities, products and an Option wrapper. */
module ShopTypes {

  datatype Option<T> = None | Some(value: T)

  /** Product and customer ids are UUID strings compared with `===`. */
  type ProductId = string
  type UserId = string

  /** The signed-in identity the auth service hands out (`session.user`). */
  datatype User = User(id: UserId, email: string)

  /** The editable columns of a `products` row, exactly the payload the admin
      form writes. Prices are integers (paise) rather than JS numbers. The
      nullable text columns are `Option`s: a row inserted by other means may
      hold null there, while the admin form always writes a string. */
  datatype ProductData = ProductData(
    name: string,
    description: Option<string>,
    price: int,
    originalPrice: Option<int>,
    weight: Option<string>,
    imageUrl: string,
    category: Option<string>,
    badge: Option<string>,
    inStock: bool,
    featured: bool)

  /** A `products` row: its server-assigned id and its columns. */
  datatype Product = Product(id: ProductId, data: ProductData)
}
