/**
 * The application controller (App.tsx): the storefront's state cells and the
 * handlers that overwrite them, with the product catalogue and the user
 * store of db.ts as the objects it writes through to.
 */
module Storefront {
  import opened Wrappers
  import opened Types
  import Seqs
  import Db
  import CartRules
  import AdminEdits
  import Sections

  datatype View = ProductsView | CheckoutView | BlogView | AdminView | AccountView

  /** Every state cell of the controller, for "nothing else changes". */
  datatype AppState = AppState(
    products: seq<Product>,
    blogPosts: seq<BlogPost>,
    cart: seq<CartItem>,
    orders: seq<Order>,
    feedbacks: seq<Feedback>,
    isCartOpen: bool,
    view: View,
    paymentSettings: PaymentSettings,
    searchTerm: string,
    toasts: seq<ToastMessage>,
    isAdmin: bool,
    isLoginModalOpen: bool,
    currentUser: Option<User>)

  const NotEnoughStockMessage := "Sorry, there is not enough stock to add this quantity."
  const QuantityUnavailableMessage := "Sorry, the requested quantity is not available."

  function AddedMessage(name: string): string {
    name + " added to cart!"
  }

  /** `toasts.filter(t => t.id !== id)`. */
  function WithoutToast(toasts: seq<ToastMessage>, id: int): (r: seq<ToastMessage>)
    ensures forall t :: t in r <==> t in toasts && t.id != id
    ensures forall t :: multiset(r)[t] == if t.id == id then 0 else multiset(toasts)[t]
  {
    Seqs.Filter(toasts, (t: ToastMessage) => t.id != id)
  }

  /** The order `handlePlaceOrder` records. */
  function PlacedOrder(customer: CustomerDetails, cart: seq<CartItem>, shippingCost: real, shippingMethod: string,
                       total: real, paymentMethod: PaymentMethodName, now: int, user: Option<User>): (o: Order)
    ensures o.status == Pending && !o.isComplete && o.items == cart && o.id == now && o.date == now
    ensures o.customer == customer && o.total == total && o.shippingCost == shippingCost
    ensures o.shippingMethod == shippingMethod && o.paymentMethod == paymentMethod
    ensures o.userId.Some? <==> user.Some?
    ensures user.Some? ==> o.userId == Some(user.value.id)
  {
    Order(now, customer, cart, total, shippingCost, shippingMethod, now, Pending, paymentMethod, false,
          if user.Some? then Some(user.value.id) else None)
  }

  /** One more product of the list written through: the step `WriteStockBack` takes. */
  lemma WriteThroughStep(store: seq<Product>, ps: seq<Product>, i: int, cart: seq<CartItem>)
    requires 0 <= i < |ps|
    ensures WriteThrough(store, ps[..i + 1], cart) ==
              if CartRules.FindLine(cart, ps[i].id).Some?
              then Db.ReplaceFirstById(WriteThrough(store, ps[..i], cart), CartRules.DecrementOne(ps[i], cart))
              else WriteThrough(store, ps[..i], cart)
  {
    var q := ps[..i + 1];
    assert |q| == i + 1 && q[|q| - 1] == ps[i] && q[..|q| - 1] == ps[..i];
  }

  /**
   * The catalogue store after the order's write-through: going through `ps`
   * in order, every product with a cart line is passed to `updateProduct`
   * with its lowered stock.
   */
  function WriteThrough(store: seq<Product>, ps: seq<Product>, cart: seq<CartItem>): (r: seq<Product>)
    ensures |r| == |store|
    ensures Ids(r) == Ids(store)
    ensures (forall i :: 0 <= i < |ps| ==> CartRules.FindLine(cart, ps[i].id).None?) ==> r == store
    decreases |ps|
  {
    if |ps| == 0 then store
    else
      var s := WriteThrough(store, ps[..|ps| - 1], cart);
      var p := ps[|ps| - 1];
      if CartRules.FindLine(cart, p.id).Some? then Db.ReplaceFirstById(s, CartRules.DecrementOne(p, cart)) else s
  }

  /** Writing back the product at position `k` of the mixed list extends its decremented prefix by one. */
  lemma DecrementStep(ps: seq<Product>, cart: seq<CartItem>, k: int)
    requires 0 < k <= |ps|
    ensures var s := CartRules.DecrementStock(ps[..k - 1], cart) + ps[k - 1..];
            s[k - 1 := CartRules.DecrementOne(ps[k - 1], cart)] == CartRules.DecrementStock(ps[..k], cart) + ps[k..]
  {
    var s := CartRules.DecrementStock(ps[..k - 1], cart) + ps[k - 1..];
    var lhs := s[k - 1 := CartRules.DecrementOne(ps[k - 1], cart)];
    var rhs := CartRules.DecrementStock(ps[..k], cart) + ps[k..];
    assert |lhs| == |rhs|;
    forall j | 0 <= j < |lhs| ensures lhs[j] == rhs[j] {
      if j < k - 1 {
        assert lhs[j] == CartRules.DecrementOne(ps[j], cart);
        assert rhs[j] == CartRules.DecrementOne(ps[j], cart);
      } else if j == k - 1 {
        assert rhs[j] == CartRules.DecrementOne(ps[j], cart);
      } else {
        assert lhs[j] == ps[j];
      }
    }
  }

  lemma {:induction false} WriteThroughPrefix(ps: seq<Product>, cart: seq<CartItem>, k: int)
    requires UniqueIds(ps) && 0 <= k <= |ps|
    ensures WriteThrough(ps, ps[..k], cart) == CartRules.DecrementStock(ps[..k], cart) + ps[k..]
  {
    if k == 0 {
      assert ps[..0] == [];
      assert ps[0..] == ps;
    } else {
      WriteThroughPrefix(ps, cart, k - 1);
      assert ps[..k][..k - 1] == ps[..k - 1];
      var s := CartRules.DecrementStock(ps[..k - 1], cart) + ps[k - 1..];
      var p := ps[k - 1];
      var d := CartRules.DecrementOne(p, cart);
      assert s[k - 1] == p;
      DecrementStep(ps, cart, k);
      if CartRules.FindLine(cart, p.id).Some? {
        forall j | 0 <= j < k - 1 ensures s[j].id != d.id {
          assert s[j] == CartRules.DecrementOne(ps[j], cart);
        }
        assert Db.ReplaceFirstById(s, d) == s[k - 1 := d];
      } else {
        assert s[k - 1 := d] == s;
      }
    }
  }

  /**
   * With distinct ids, the store's write-through ends with exactly the
   * controller's new catalogue, which keeps its ids distinct.
   */
  lemma WriteThroughIsDecrement(ps: seq<Product>, cart: seq<CartItem>)
    requires UniqueIds(ps)
    ensures WriteThrough(ps, ps, cart) == CartRules.DecrementStock(ps, cart)
    ensures UniqueIds(CartRules.DecrementStock(ps, cart))
  {
    WriteThroughPrefix(ps, cart, |ps|);
    assert ps[..|ps|] == ps;
  }

  /** The facts `handlePlaceOrder` keeps: the store ends in sync, and no stock goes below zero. */
  lemma OrderEffects(store: seq<Product>, ps: seq<Product>, cart: seq<CartItem>)
    ensures store == ps && UniqueIds(ps) ==>
              WriteThrough(store, ps, cart) == CartRules.DecrementStock(ps, cart) && UniqueIds(CartRules.DecrementStock(ps, cart))
    ensures CartRules.CartConsistent(cart, ps) && UniqueIds(ps) && CartRules.NonNegativeStock(ps) ==>
              CartRules.NonNegativeStock(CartRules.DecrementStock(ps, cart))
  {
    if store == ps && UniqueIds(ps) {
      WriteThroughIsDecrement(ps, cart);
    }
    if CartRules.CartConsistent(cart, ps) && UniqueIds(ps) && CartRules.NonNegativeStock(ps) {
      CartRules.OrderKeepsStockNonNegative(ps, cart);
    }
  }

  /** What `renderContent` shows. */
  datatype Page =
    | CheckoutPage(cart: seq<CartItem>, cartTotal: real)
    | BlogPage(posts: seq<BlogPost>)
    | AdminDashboardPage
    | AccessDenied
    | AccountPage(user: User, orders: seq<Order>)
    | PleaseLogIn
    | ProductsPage(sections: Sections.ProductSections)

  /** `userOrders`: the current user's orders, none when nobody is logged in. */
  function UserOrders(currentUser: Option<User>, orders: seq<Order>): (r: seq<Order>)
    ensures currentUser.None? ==> r == []
    ensures currentUser.Some? ==> forall o :: o in r <==> o in orders && o.userId == Some(currentUser.value.id)
    ensures currentUser.Some? ==>
              forall o :: multiset(r)[o] == if o.userId == Some(currentUser.value.id) then multiset(orders)[o] else 0
    ensures forall i, j :: 0 <= i < j < |r| ==> r[i].date >= r[j].date
  {
    if currentUser.Some? then Db.GetOrdersByUserId(currentUser.value.id, orders) else []
  }

  /**
   * `renderContent`: the admin dashboard only to an admin, the account page
   * only to a logged-in user and with that user's orders only.
   */
  function RenderContent(view: View, isAdmin: bool, currentUser: Option<User>, products: seq<Product>,
                         posts: seq<BlogPost>, cart: seq<CartItem>, orders: seq<Order>, searchTerm: string): (r: Page)
    ensures r.AdminDashboardPage? <==> view == AdminView && isAdmin
    ensures r.AccessDenied? <==> view == AdminView && !isAdmin
    ensures r.AccountPage? <==> view == AccountView && currentUser.Some?
    ensures r.AccountPage? ==> Some(r.user) == currentUser
                               && forall o :: o in r.orders <==> o in orders && o.userId == Some(r.user.id)
    ensures r.AccountPage? ==> r.orders == UserOrders(currentUser, orders)
    ensures r.PleaseLogIn? <==> view == AccountView && currentUser.None?
    ensures r.CheckoutPage? <==> view == CheckoutView
    ensures r.CheckoutPage? ==> r.cart == cart && r.cartTotal == CartRules.CartTotal(cart)
    ensures view == BlogView ==> r == BlogPage(posts)
    ensures view == ProductsView ==> r == ProductsPage(Sections.Partition(products, searchTerm))
  {
    match view
    case CheckoutView => CheckoutPage(cart, CartRules.CartTotal(cart))
    case BlogView => BlogPage(posts)
    case AdminView => if isAdmin then AdminDashboardPage else AccessDenied
    case AccountView =>
      if currentUser.Some? then AccountPage(currentUser.value, UserOrders(currentUser, orders)) else PleaseLogIn
    case ProductsView => ProductsPage(Sections.Partition(products, searchTerm))
  }

  /** The view after logout: the pages that need a session fall back to the products page. */
  function ViewAfterLogout(v: View): (r: View)
    ensures r != AccountView && r != CheckoutView && r != AdminView
    ensures v != AccountView && v != CheckoutView && v != AdminView ==> r == v
  {
    if v == AccountView || v == CheckoutView || v == AdminView then ProductsView else v
  }

  class App {
    var products: seq<Product>
    var blogPosts: seq<BlogPost>
    var cart: seq<CartItem>
    var orders: seq<Order>
    var feedbacks: seq<Feedback>
    var isCartOpen: bool
    var view: View
    var paymentSettings: PaymentSettings
    var searchTerm: string
    var toasts: seq<ToastMessage>
    var isAdmin: bool
    var isLoginModalOpen: bool
    var currentUser: Option<User>

    /** The `userDB` singleton. */
    const userDB: Db.UserDatabase
    /** The module-level product catalogue. */
    const catalog: Db.ProductStore

    ghost function State(): AppState
      reads this
    {
      AppState(products, blogPosts, cart, orders, feedbacks, isCartOpen, view, paymentSettings,
               searchTerm, toasts, isAdmin, isLoginModalOpen, currentUser)
    }

    /** The cart invariant: one line per product, each within its product's stock. */
    ghost predicate CartOk()
      reads this
    {
      CartRules.CartConsistent(cart, products)
    }

    /** The controller's catalogue is the store's, and its ids are distinct. */
    ghost predicate Synced()
      reads this, catalog
    {
      catalog.products == products && UniqueIds(products)
    }

    /** The initial state: the store's products, an empty cart, the loaded orders, settings and user. */
    constructor (userDB: Db.UserDatabase, catalog: Db.ProductStore, loadedOrders: seq<Order>,
                 initialPosts: seq<BlogPost>, loadedSettings: PaymentSettings, loadedUser: Option<User>)
      ensures this.userDB == userDB && this.catalog == catalog
      ensures State() == AppState(catalog.products, initialPosts, [], loadedOrders, [], false, ProductsView,
                                  loadedSettings, "", [], false, false, loadedUser)
      ensures CartOk()
    {
      this.userDB := userDB;
      this.catalog := catalog;
      products := catalog.products;
      blogPosts := initialPosts;
      cart := [];
      orders := loadedOrders;
      feedbacks := [];
      isCartOpen := false;
      view := ProductsView;
      paymentSettings := loadedSettings;
      searchTerm := "";
      toasts := [];
      isAdmin := false;
      isLoginModalOpen := false;
      currentUser := loadedUser;
    }

    /** `cartCount`. */
    function CartCount(): int
      reads this
    {
      CartRules.CartCount(cart)
    }

    /** `cartTotal`. */
    function CartTotal(): real
      reads this
    {
      CartRules.CartTotal(cart)
    }

    function Content(): Page
      reads this
    {
      RenderContent(view, isAdmin, currentUser, products, blogPosts, cart, orders, searchTerm)
    }

    method AddToast(message: string, kind: ToastKind, now: int)
      modifies this
      ensures State() == old(State()).(toasts := old(toasts) + [ToastMessage(now, message, kind)])
    {
      toasts := toasts + [ToastMessage(now, message, kind)];
    }

    method RemoveToast(id: int)
      modifies this
      ensures State() == old(State()).(toasts := WithoutToast(old(toasts), id))
    {
      toasts := WithoutToast(toasts, id);
    }

    method HandleAdminLoginSuccess()
      modifies this
      ensures State() == old(State()).(isAdmin := true, view := AdminView, isLoginModalOpen := false)
      ensures Content() == AdminDashboardPage
    {
      isAdmin := true;
      view := AdminView;
      isLoginModalOpen := false;
    }

    method HandleLoginSuccess(user: User)
      modifies this
      ensures State() == old(State()).(currentUser := Some(user), isLoginModalOpen := false)
    {
      currentUser := Some(user);
      isLoginModalOpen := false;
    }

    /** Logout ends both sessions and leaves every page that needs one. */
    method HandleLogout()
      modifies this
      ensures State() == old(State()).(currentUser := None, isAdmin := false, view := ViewAfterLogout(old(view)))
      ensures !Content().AdminDashboardPage? && !Content().AccountPage?
    {
      currentUser := None;
      isAdmin := false;
      if view == AccountView || view == CheckoutView || view == AdminView {
        view := ProductsView;
      }
    }

    /** A new account logs its owner in; a rejected one changes nothing. */
    method HandleSignUp(name: string, email: string, password: string, now: int) returns (r: Option<User>)
      modifies this, userDB
      ensures r.None? <==> old(userDB.GetUserByEmail(email)).Some?
      ensures r.Some? ==> r.value == User(now, name, email, Db.HashPassword(password))
      ensures r.None? ==> State() == old(State()) && userDB.users == old(userDB.users)
      ensures r.Some? ==> && State() == old(State()).(currentUser := r, isLoginModalOpen := false)
                          && userDB.users == old(userDB.users) + [r.value]
                          && Db.VerifyPassword(r.value, password)
                          && userDB.GetUserByEmail(email) == r
    {
      r := userDB.AddUser(name, email, password, now);
      if r.Some? {
        HandleLoginSuccess(r.value);
      }
    }

    method HandleAddToCart(product: Product, quantity: int, now: int)
      modifies this
      ensures var o := CartRules.AddToCart(old(products), old(cart), product, quantity);
              && (o.NotListed? ==> State() == old(State()))
              && (o.NotEnoughStock? ==>
                    State() == old(State()).(toasts := old(toasts) + [ToastMessage(now, NotEnoughStockMessage, ErrorToast)]))
              && (o.Added? ==>
                    State() == old(State()).(cart := o.cart,
                                             toasts := old(toasts) + [ToastMessage(now, AddedMessage(product.name), SuccessToast)]))
      ensures old(CartOk()) ==> CartOk()
    {
      var o := CartRules.AddToCart(products, cart, product, quantity);
      match o
      case NotListed =>
      case NotEnoughStock =>
        AddToast(NotEnoughStockMessage, ErrorToast, now);
      case Added(c, amount) =>
        if CartOk() {
          CartRules.AddToCartKeepsConsistent(products, cart, product, quantity);
        }
        AddToast(AddedMessage(product.name), SuccessToast, now);
        cart := c;
    }

    method HandleUpdateCartQuantity(productId: int, newQuantity: int, now: int)
      modifies this
      ensures var o := CartRules.UpdateQuantity(old(products), old(cart), productId, newQuantity);
              && (o.OverStock? ==>
                    State() == old(State()).(toasts := old(toasts) + [ToastMessage(now, QuantityUnavailableMessage, ErrorToast)]))
              && (o.Updated? ==> State() == old(State()).(cart := o.cart))
      ensures old(CartOk()) ==> CartOk()
    {
      var o := CartRules.UpdateQuantity(products, cart, productId, newQuantity);
      match o
      case OverStock =>
        AddToast(QuantityUnavailableMessage, ErrorToast, now);
      case Updated(c) =>
        if CartOk() {
          CartRules.UpdateQuantityKeepsConsistent(products, cart, productId, newQuantity);
        }
        cart := c;
    }

    method HandleRemoveFromCart(productId: int)
      modifies this
      ensures State() == old(State()).(cart := CartRules.RemoveFromCart(old(cart), productId))
      ensures old(CartOk()) ==> CartOk()
    {
      if CartOk() {
        CartRules.RemoveKeepsConsistent(products, cart, productId);
      }
      cart := CartRules.RemoveFromCart(cart, productId);
    }

    method HandleProceedToCheckout()
      modifies this
      ensures State() == old(State()).(isCartOpen := false, view := CheckoutView)
    {
      isCartOpen := false;
      view := CheckoutView;
    }

    /** Checkout's `onBackToStore`: back to the products page; the cart is only reset when it is already empty. */
    method BackToStore()
      modifies this
      ensures State() == old(State()).(view := ProductsView)
    {
      view := ProductsView;
      if |cart| == 0 {
        cart := [];
      }
    }

    /** The `dbUpdateProduct` calls inside the stock update, one per product with a cart line, in catalogue order. */
    method WriteStockBack(ps: seq<Product>, c: seq<CartItem>)
      modifies catalog
      ensures catalog.products == WriteThrough(old(catalog.products), ps, c)
    {
      var i := 0;
      while i < |ps|
        invariant 0 <= i <= |ps|
        invariant catalog.products == WriteThrough(old(catalog.products), ps[..i], c)
      {
        var p := ps[i];
        WriteThroughStep(old(catalog.products), ps, i, c);
        var line := CartRules.FindLine(c, p.id);
        if line.Some? {
          assert p.(stock := p.stock - line.value.quantity) == CartRules.DecrementOne(p, c);
          catalog.UpdateProduct(p.(stock := p.stock - line.value.quantity));
        }
        i := i + 1;
      }
      assert ps[..|ps|] == ps;
    }

    /**
     * Records the order, writes every ordered product's lowered stock to the
     * store one by one, and empties the cart.
     */
    method HandlePlaceOrder(customer: CustomerDetails, shippingCost: real, shippingMethod: string, total: real,
                            paymentMethod: PaymentMethodName, now: int)
      modifies this, catalog
      ensures State() == old(State()).(
                orders := [PlacedOrder(customer, old(cart), shippingCost, shippingMethod, total, paymentMethod, now, old(currentUser))]
                          + old(orders),
                products := CartRules.DecrementStock(old(products), old(cart)),
                cart := [])
      ensures catalog.products == WriteThrough(old(catalog.products), old(products), old(cart))
      ensures old(Synced()) ==> Synced()
      ensures old(CartOk() && UniqueIds(products) && CartRules.NonNegativeStock(products)) ==> CartRules.NonNegativeStock(products)
    {
      var ps := products;
      var c := cart;
      OrderEffects(catalog.products, ps, c);
      WriteStockBack(ps, c);
      orders := [PlacedOrder(customer, c, shippingCost, shippingMethod, total, paymentMethod, now, currentUser)] + orders;
      products := CartRules.DecrementStock(ps, c);
      cart := [];
    }

    /** A rating for a listed product is recorded first in the feedback list; any other id is ignored. */
    method HandleAddFeedback(productId: int, rating: int, now: int)
      modifies this
      ensures CartRules.FindProduct(old(products), productId).None? ==> State() == old(State())
      ensures CartRules.FindProduct(old(products), productId).Some? ==>
                State() == old(State()).(feedbacks := [Feedback(now, productId, CartRules.FindProduct(old(products), productId).value.name,
                                                                rating, now)] + old(feedbacks))
    {
      match CartRules.FindProduct(products, productId)
      case None =>
      case Some(p) =>
        feedbacks := [Feedback(now, productId, p.name, rating, now)] + feedbacks;
    }

    method HandleUpdateProduct(updated: Product)
      modifies this, catalog
      ensures State() == old(State()).(products := AdminEdits.ReplaceProduct(old(products), updated))
      ensures catalog.products == Db.ReplaceFirstById(old(catalog.products), updated)
      ensures old(Synced()) ==> Synced()
    {
      catalog.UpdateProduct(updated);
      if Synced() {
        AdminEdits.ReplaceProductAgreesWithStore(products, updated);
      }
      products := AdminEdits.ReplaceProduct(products, updated);
    }

    /** A fresh id keeps the ids distinct; `Date.now()` is the `now` parameter. */
    method HandleAddProduct(data: NewProduct, now: int)
      modifies this, catalog
      ensures State() == old(State()).(products := [Db.FromNewProduct(data, now)] + old(products))
      ensures catalog.products == [Db.FromNewProduct(data, now)] + old(catalog.products)
      ensures old(Synced()) && now !in Ids(old(products)) ==> Synced()
    {
      var np := catalog.AddProduct(data, now);
      assert np == Db.FromNewProduct(data, now);
      if products == old(catalog.products) && UniqueIds(products) && now !in Ids(products) {
        PrependFreshKeepsUnique(np, products);
      }
      products := [np] + products;
    }

    method HandleUpdateOrderStatus(orderId: int, status: OrderStatus)
      modifies this
      ensures State() == old(State()).(orders := AdminEdits.SetOrderStatus(old(orders), orderId, status))
    {
      orders := AdminEdits.SetOrderStatus(orders, orderId, status);
    }

    method HandleToggleOrderComplete(orderId: int)
      modifies this
      ensures State() == old(State()).(orders := AdminEdits.ToggleOrderComplete(old(orders), orderId))
    {
      orders := AdminEdits.ToggleOrderComplete(orders, orderId);
    }

    /** `today` is the `toLocaleDateString` text of the current date. */
    method HandleAddBlogPost(data: NewBlogPost, now: int, today: string)
      modifies this
      ensures State() == old(State()).(blogPosts := [AdminEdits.NewPost(data, now, today)] + old(blogPosts))
    {
      blogPosts := [AdminEdits.NewPost(data, now, today)] + blogPosts;
    }

    method HandleUpdateBlogPost(updated: BlogPost)
      modifies this
      ensures State() == old(State()).(blogPosts := AdminEdits.ReplacePost(old(blogPosts), updated))
    {
      blogPosts := AdminEdits.ReplacePost(blogPosts, updated);
    }

    method HandleDeleteBlogPost(postId: int)
      modifies this
      ensures State() == old(State()).(blogPosts := AdminEdits.DeletePost(old(blogPosts), postId))
    {
      blogPosts := AdminEdits.DeletePost(blogPosts, postId);
    }

    method HandleUpdatePaymentSettings(settings: PaymentSettings)
      modifies this
      ensures State() == old(State()).(paymentSettings := settings)
    {
      paymentSettings := settings;
    }

    /** The header's `onNavigate`. */
    method Navigate(v: View)
      modifies this
      ensures State() == old(State()).(view := v)
    {
      view := v;
    }

    method SetSearchTerm(term: string)
      modifies this
      ensures State() == old(State()).(searchTerm := term)
    {
      searchTerm := term;
    }

    method SetCartOpen(open: bool)
      modifies this
      ensures State() == old(State()).(isCartOpen := open)
    {
      isCartOpen := open;
    }

    method SetLoginModalOpen(open: bool)
      modifies this
      ensures State() == old(State()).(isLoginModalOpen := open)
    {
      isLoginModalOpen := open;
    }
  }
}
