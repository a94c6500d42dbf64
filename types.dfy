/**
 * The storefront's records. Prices are whole taka (`nat`); every `?`-field is
 * an `Option`. A cart line's chosen options are an insertion-ordered list of
 * (option name, value) pairs, so two option maps serialise to the same JSON
 * text exactly when the lists are equal, and an absent map (`None`) differs
 * from an empty one (`Some([])`).
 */
module Types {
  import opened Wrappers

  datatype Review = Review(
    id: string,
    userId: string,
    userName: string,
    userAvatar: Option<string>,
    rating: int,
    comment: string,
    date: string)

  datatype ProductOption = ProductOption(name: string, values: seq<string>)

  datatype ImageFit = Cover | Contain

  datatype Product = Product(
    id: string,
    name: string,
    description: string,
    price: nat,
    discountPrice: Option<nat>,
    category: string,
    image: string,
    mockupImage: Option<string>,
    imageFit: Option<ImageFit>,
    rating: real,
    reviewsCount: Option<nat>,
    reviews: Option<seq<Review>>,
    features: Option<seq<string>>,
    options: Option<seq<ProductOption>>,
    isFeatured: Option<bool>)

  /** Chosen option values: insertion-ordered (name, value) pairs, as a JavaScript object keeps them. */
  type Selection = seq<(string, string)>

  /** A cart line: a snapshot of the product, its quantity and its optional chosen options. */
  datatype CartItem = CartItem(product: Product, quantity: nat, selectedOptions: Option<Selection>)

  datatype User = User(
    id: string,
    email: string,
    name: string,
    avatar: Option<string>,
    isAdmin: Option<bool>,
    password: Option<string>)

  datatype OrderStatus = Pending | Confirmed | Shipped | Delivered

  datatype Order = Order(
    id: string,
    userName: string,
    userEmail: string,
    items: seq<CartItem>,
    total: nat,
    date: string,
    status: OrderStatus)

  datatype ShopSettings = ShopSettings(
    whatsapp: string,
    telegram: string,
    instagram: string,
    facebook: string,
    email: string,
    location: string,
    adminPassword: Option<string>)
}
