/**
 * The storefront's record shapes. Prices and ratings are exact `real`s,
 * ids, stock and quantities are `int`s, and a `Date` is its millisecond
 * timestamp.
 */
module Types {
  import opened Wrappers

  /** A catalogue entry; an absent `isFeatured` reads as `false`. */
  datatype Product = Product(
    id: int,
    name: string,
    price: real,
    salePrice: Option<real>,
    isFeatured: bool,
    rating: real,
    imageUrl: string,
    description: string,
    stock: int)

  /** A cart line: a snapshot of the product and how many of it. */
  datatype CartItem = CartItem(product: Product, quantity: int)

  datatype BlogPost = BlogPost(
    id: int,
    title: string,
    date: string,
    imageUrl: string,
    excerpt: string,
    content: string,
    author: string,
    authorImageUrl: string)

  /** A blog post as the admin form submits it, before it has an id and a date. */
  datatype NewBlogPost = NewBlogPost(
    title: string,
    imageUrl: string,
    excerpt: string,
    content: string,
    author: string,
    authorImageUrl: string)

  datatype CustomerDetails = CustomerDetails(
    fullName: string,
    address: string,
    city: string,
    state: string,
    zip: string)

  datatype OrderStatus = Pending | Shipped | Delivered | Cancelled

  /** The order's `'Credit Card' | 'UPI'` payment label. */
  datatype PaymentMethodName = CreditCard | Upi

  datatype Order = Order(
    id: int,
    customer: CustomerDetails,
    items: seq<CartItem>,
    total: real,
    shippingCost: real,
    shippingMethod: string,
    date: int,
    status: OrderStatus,
    paymentMethod: PaymentMethodName,
    isComplete: bool,
    userId: Option<int>)

  datatype Feedback = Feedback(id: int, productId: int, productName: string, rating: int, date: int)

  datatype User = User(id: int, name: string, email: string, passwordHash: string)

  datatype PaymentSettings = PaymentSettings(
    gatewayApiKey: string,
    bankAccountName: string,
    bankAccountNumber: string,
    bankIfscCode: string)

  datatype ToastKind = SuccessToast | ErrorToast | InfoToast

  datatype ToastMessage = ToastMessage(id: int, message: string, kind: ToastKind)

  /** The product data the admin "add product" form submits (a product without `id` and `rating`). */
  datatype NewProduct = NewProduct(
    name: string,
    price: real,
    salePrice: Option<real>,
    isFeatured: bool,
    imageUrl: string,
    description: string,
    stock: int)

  /** No two products share an id. */
  ghost predicate UniqueIds(products: seq<Product>) {
    forall i, j :: 0 <= i < j < |products| ==> products[i].id != products[j].id
  }

  /** `products.map(p => p.id)`. */
  function Ids(products: seq<Product>): seq<int> {
    seq(|products|, i requires 0 <= i < |products| => products[i].id)
  }

  /** A listed product's id is among the listed ids. */
  lemma MemberIdListed(p: Product, products: seq<Product>)
    requires p in products
    ensures p.id in Ids(products)
  {
    var k :| 0 <= k < |products| && products[k] == p;
    assert Ids(products)[k] == p.id;
  }

  /** A product whose id is not yet listed can be put in front without clashing. */
  lemma PrependFreshKeepsUnique(np: Product, products: seq<Product>)
    requires UniqueIds(products) && np.id !in Ids(products)
    ensures UniqueIds([np] + products)
  {
    forall j | 0 <= j < |products| ensures products[j].id != np.id {
      assert Ids(products)[j] == products[j].id;
    }
  }
}
