/**
 * The cart rules of the application controller (App.tsx): adding with the
 * stock clamp, setting and removing quantities, the stock decrement of an
 * order, and the derived item count and subtotal.
 */
module CartRules {
  import opened Wrappers
  import opened Types
  import Seqs

  /** `products.find(p => p.id === id)`. */
  function FindProduct(products: seq<Product>, id: int): (r: Option<Product>)
    ensures r.Some? ==> r.value in products && r.value.id == id
    ensures r.Some? ==> exists k :: 0 <= k < |products| && products[k] == r.value
                                    && forall j :: 0 <= j < k ==> products[j].id != id
    ensures r.None? <==> forall j :: 0 <= j < |products| ==> products[j].id != id
  {
    Seqs.Find(products, (p: Product) => p.id == id)
  }

  /** `cart.find(item => item.product.id === id)`. */
  function FindLine(cart: seq<CartItem>, id: int): (r: Option<CartItem>)
    ensures r.Some? ==> r.value in cart && r.value.product.id == id
    ensures r.Some? ==> exists k :: 0 <= k < |cart| && cart[k] == r.value
                                    && forall j :: 0 <= j < k ==> cart[j].product.id != id
    ensures r.None? <==> forall j :: 0 <= j < |cart| ==> cart[j].product.id != id
  {
    Seqs.Find(cart, (l: CartItem) => l.product.id == id)
  }

  /** The quantity of `id` already in the cart (0 when it has no line). */
  function QtyInCart(cart: seq<CartItem>, id: int): int {
    match FindLine(cart, id)
    case Some(l) => l.quantity
    case None => 0
  }

  /** `Math.min`. */
  function Min(a: int, b: int): int {
    if a <= b then a else b
  }

  /** The effective unit price: a truthy `salePrice` below `price`, otherwise `price`. */
  function EffectivePrice(p: Product): (r: real)
    ensures r <= p.price
    ensures r == p.price || (p.salePrice == Some(r) && r != 0.0 && r < p.price)
    ensures p.salePrice.Some? && p.salePrice.value != 0.0 && p.salePrice.value < p.price ==> r == p.salePrice.value
  {
    if p.salePrice.Some? && p.salePrice.value != 0.0 && p.salePrice.value < p.price
    then p.salePrice.value
    else p.price
  }

  function LineTotal(l: CartItem): real {
    EffectivePrice(l.product) * (l.quantity as real)
  }

  /** `cartCount`: the sum of the line quantities. */
  function CartCount(cart: seq<CartItem>): (r: int)
    ensures (forall i :: 0 <= i < |cart| ==> cart[i].quantity > 0) ==> r >= |cart|
  {
    if |cart| == 0 then 0 else cart[0].quantity + CartCount(cart[1..])
  }

  /** `cartTotal`: the sum of effective price times quantity over the lines. */
  function CartTotal(cart: seq<CartItem>): (r: real)
    ensures (forall i :: 0 <= i < |cart| ==> cart[i].quantity >= 0 && EffectivePrice(cart[i].product) >= 0.0) ==> r >= 0.0
  {
    if |cart| == 0 then 0.0 else LineTotal(cart[0]) + CartTotal(cart[1..])
  }

  lemma {:induction false} CartCountAppend(a: seq<CartItem>, b: seq<CartItem>)
    ensures CartCount(a + b) == CartCount(a) + CartCount(b)
  {
    if |a| == 0 {
      assert a + b == b;
    } else {
      assert (a + b)[1..] == a[1..] + b;
      CartCountAppend(a[1..], b);
    }
  }

  lemma {:induction false} CartTotalAppend(a: seq<CartItem>, b: seq<CartItem>)
    ensures CartTotal(a + b) == CartTotal(a) + CartTotal(b)
  {
    if |a| == 0 {
      assert a + b == b;
    } else {
      assert (a + b)[1..] == a[1..] + b;
      CartTotalAppend(a[1..], b);
    }
  }

  /** The worked subtotal example: lines of 2 at price 10 on sale for 8, and 1 at price 5, cost 21. */
  lemma SubtotalExample(p1: Product, p2: Product)
    requires p1.price == 10.0 && p1.salePrice == Some(8.0)
    requires p2.price == 5.0 && p2.salePrice == None
    ensures CartTotal([CartItem(p1, 2), CartItem(p2, 1)]) == 21.0
  {
    var c := [CartItem(p1, 2), CartItem(p2, 1)];
    assert LineTotal(c[0]) == 16.0 && LineTotal(c[1]) == 5.0;
    assert CartTotal(c[1..]) == LineTotal(c[1]) + CartTotal(c[1..][1..]);
    assert c[1..][1..] == [];
  }

  // ----- invariants of the cart -----

  /** At most one line per product id. */
  ghost predicate LinesUnique(cart: seq<CartItem>) {
    forall i, j :: 0 <= i < j < |cart| ==> cart[i].product.id != cart[j].product.id
  }

  /** The line's product is still listed, and its quantity is positive and within that product's stock. */
  ghost predicate LineInStock(l: CartItem, products: seq<Product>) {
    var f := FindProduct(products, l.product.id);
    f.Some? && 0 < l.quantity <= f.value.stock
  }

  ghost predicate WithinStock(cart: seq<CartItem>, products: seq<Product>) {
    forall l :: l in cart ==> LineInStock(l, products)
  }

  /** The invariant the cart handlers keep. */
  ghost predicate CartConsistent(cart: seq<CartItem>, products: seq<Product>) {
    LinesUnique(cart) && WithinStock(cart, products)
  }

  /** In a cart with one line per product, a line's quantity is what `QtyInCart` reports. */
  lemma LineQuantity(cart: seq<CartItem>, i: int)
    requires LinesUnique(cart) && 0 <= i < |cart|
    ensures FindLine(cart, cart[i].product.id) == Some(cart[i])
    ensures QtyInCart(cart, cart[i].product.id) == cart[i].quantity
  {
  }

  // ----- the handlers' new cart values -----

  /** `cart.map(...)` adding `k` to the line(s) of `id`. */
  function IncreaseLine(cart: seq<CartItem>, id: int, k: int): (r: seq<CartItem>)
    ensures |r| == |cart|
    ensures forall i :: 0 <= i < |cart| ==>
              r[i].product == cart[i].product
              && r[i].quantity == cart[i].quantity + (if cart[i].product.id == id then k else 0)
  {
    seq(|cart|, i requires 0 <= i < |cart| =>
      if cart[i].product.id == id then cart[i].(quantity := cart[i].quantity + k) else cart[i])
  }

  /** `cart.map(...)` setting the line(s) of `id` to quantity `n`. */
  function SetLineQuantity(cart: seq<CartItem>, id: int, n: int): (r: seq<CartItem>)
    ensures |r| == |cart|
    ensures forall i :: 0 <= i < |cart| ==>
              r[i].product == cart[i].product
              && r[i].quantity == (if cart[i].product.id == id then n else cart[i].quantity)
  {
    seq(|cart|, i requires 0 <= i < |cart| =>
      if cart[i].product.id == id then cart[i].(quantity := n) else cart[i])
  }

  /** `cart.filter(item => item.product.id !== id)`: every line of `id` goes, every other line stays. */
  function RemoveFromCart(cart: seq<CartItem>, id: int): (r: seq<CartItem>)
    ensures forall l :: multiset(r)[l] == if l.product.id == id then 0 else multiset(cart)[l]
    ensures forall l :: l in r <==> l in cart && l.product.id != id
    ensures forall j :: 0 <= j < |r| ==> r[j].product.id != id
  {
    var r := Seqs.Filter(cart, (l: CartItem) => l.product.id != id);
    assert forall j :: 0 <= j < |r| ==> r[j] in r;
    r
  }

  /** Removing twice removes no more than removing once. */
  lemma RemoveFromCartIdempotent(cart: seq<CartItem>, id: int)
    ensures RemoveFromCart(RemoveFromCart(cart, id), id) == RemoveFromCart(cart, id)
  {
    Seqs.FilterKeepsAll(RemoveFromCart(cart, id), (l: CartItem) => l.product.id != id);
  }

  datatype AddOutcome =
    | NotListed                                     // the product is not in the catalogue: nothing happens
    | NotEnoughStock                                // error toast, cart unchanged
    | Added(cart: seq<CartItem>, amount: int)       // success toast

  /** `handleAddToCart`: add `quantity`, clamped to the stock not yet in the cart. */
  function AddToCart(products: seq<Product>, cart: seq<CartItem>, product: Product, quantity: int): (r: AddOutcome)
    ensures r.NotListed? <==> FindProduct(products, product.id).None?
    ensures r.NotEnoughStock? <==>
              FindProduct(products, product.id).Some?
              && Min(quantity, FindProduct(products, product.id).value.stock - QtyInCart(cart, product.id)) <= 0
    ensures r.Added? ==>
              && 0 < r.amount <= quantity
              && QtyInCart(cart, product.id) + r.amount <= FindProduct(products, product.id).value.stock
              && (r.amount == quantity
                  || QtyInCart(cart, product.id) + r.amount == FindProduct(products, product.id).value.stock)
    ensures r.Added? && FindLine(cart, product.id).Some? ==> r.cart == IncreaseLine(cart, product.id, r.amount)
    ensures r.Added? && FindLine(cart, product.id).None? ==> r.cart == cart + [CartItem(product, r.amount)]
  {
    match FindProduct(products, product.id)
    case None => NotListed
    case Some(inState) =>
      var existing := FindLine(cart, product.id);
      var available := inState.stock - QtyInCart(cart, product.id);
      var toAdd := Min(quantity, available);
      if toAdd <= 0 then NotEnoughStock
      else if existing.Some? then Added(IncreaseLine(cart, product.id, toAdd), toAdd)
      else Added(cart + [CartItem(product, toAdd)], toAdd)
  }

  lemma {:induction false} IncreaseLineCount(cart: seq<CartItem>, id: int, k: int)
    requires LinesUnique(cart)
    ensures CartCount(IncreaseLine(cart, id, k)) == CartCount(cart) + (if FindLine(cart, id).Some? then k else 0)
  {
    if |cart| > 0 {
      var r := IncreaseLine(cart, id, k);
      assert r[1..] == IncreaseLine(cart[1..], id, k);
      IncreaseLineCount(cart[1..], id, k);
      if cart[0].product.id == id {
        assert FindLine(cart[1..], id).None?;
      } else {
        assert FindLine(cart, id).Some? <==> FindLine(cart[1..], id).Some?;
      }
    }
  }

  /** Lines keep their product ids when quantities change. */
  lemma SameIdsKeepUnique(cart: seq<CartItem>, c: seq<CartItem>)
    requires LinesUnique(cart) && |c| == |cart|
    requires forall i :: 0 <= i < |c| ==> c[i].product.id == cart[i].product.id
    ensures LinesUnique(c)
  {
  }

  /** With one line per product, `QtyInCart` is the quantity of the line of that id, if any. */
  lemma QtyOfUnique(cart: seq<CartItem>, id: int)
    requires LinesUnique(cart)
    ensures FindLine(cart, id).None? ==> QtyInCart(cart, id) == 0
    ensures FindLine(cart, id).Some? ==>
              exists i :: 0 <= i < |cart| && cart[i].product.id == id && QtyInCart(cart, id) == cart[i].quantity
  {
    if FindLine(cart, id).Some? {
      var i :| 0 <= i < |cart| && cart[i] == FindLine(cart, id).value;
      LineQuantity(cart, i);
    }
  }

  lemma QtyAfterIncrease(cart: seq<CartItem>, id: int, k: int, other: int)
    requires LinesUnique(cart)
    ensures QtyInCart(IncreaseLine(cart, id, k), other)
            == QtyInCart(cart, other) + (if other == id && FindLine(cart, id).Some? then k else 0)
  {
    var c := IncreaseLine(cart, id, k);
    SameIdsKeepUnique(cart, c);
    if FindLine(cart, other).Some? {
      var m :| 0 <= m < |cart| && cart[m] == FindLine(cart, other).value;
      LineQuantity(cart, m);
      LineQuantity(c, m);
    } else {
      assert FindLine(c, other).None?;
    }
  }

  lemma QtyAfterAppend(cart: seq<CartItem>, l: CartItem, other: int)
    requires LinesUnique(cart) && FindLine(cart, l.product.id).None?
    ensures LinesUnique(cart + [l])
    ensures QtyInCart(cart + [l], other) == if other == l.product.id then l.quantity else QtyInCart(cart, other)
  {
    var c := cart + [l];
    assert LinesUnique(c);
    if other == l.product.id {
      LineQuantity(c, |cart|);
    } else if FindLine(cart, other).Some? {
      var m :| 0 <= m < |cart| && cart[m] == FindLine(cart, other).value;
      LineQuantity(cart, m);
      LineQuantity(c, m);
    } else {
      assert FindLine(c, other).None?;
    }
  }

  lemma IncreaseKeepsWithinStock(products: seq<Product>, cart: seq<CartItem>, id: int, k: int)
    requires CartConsistent(cart, products) && k > 0
    requires FindProduct(products, id).Some? && QtyInCart(cart, id) + k <= FindProduct(products, id).value.stock
    ensures WithinStock(IncreaseLine(cart, id, k), products)
  {
    var c := IncreaseLine(cart, id, k);
    forall l | l in c ensures LineInStock(l, products) {
      var i :| 0 <= i < |c| && c[i] == l;
      assert cart[i] in cart;
      if cart[i].product.id == id {
        LineQuantity(cart, i);
      }
    }
  }

  /**
   * A successful add keeps one line per product and every line within stock,
   * raises the product's quantity by exactly the amount added, leaves every
   * other product's quantity alone, and adds that amount to the item count.
   */
  lemma AddToCartKeepsConsistent(products: seq<Product>, cart: seq<CartItem>, product: Product, quantity: int)
    requires CartConsistent(cart, products)
    requires AddToCart(products, cart, product, quantity).Added?
    ensures var r := AddToCart(products, cart, product, quantity);
            && CartConsistent(r.cart, products)
            && QtyInCart(r.cart, product.id) == QtyInCart(cart, product.id) + r.amount
            && (forall id :: id != product.id ==> QtyInCart(r.cart, id) == QtyInCart(cart, id))
            && CartCount(r.cart) == CartCount(cart) + r.amount
  {
    var r := AddToCart(products, cart, product, quantity);
    var id := product.id;
    if FindLine(cart, id).Some? {
      SameIdsKeepUnique(cart, r.cart);
      IncreaseKeepsWithinStock(products, cart, id, r.amount);
      forall other ensures QtyInCart(r.cart, other) == QtyInCart(cart, other) + (if other == id then r.amount else 0) {
        QtyAfterIncrease(cart, id, r.amount, other);
      }
      IncreaseLineCount(cart, id, r.amount);
    } else {
      var l := CartItem(product, r.amount);
      forall other ensures QtyInCart(r.cart, other) == if other == id then r.amount else QtyInCart(cart, other) {
        QtyAfterAppend(cart, l, other);
      }
      QtyOfUnique(cart, id);
      forall m | m in r.cart ensures LineInStock(m, products) {
        if m !in cart {
          assert m == l;
        }
      }
      CartCountAppend(cart, [l]);
      assert [l][1..] == [];
    }
  }

  datatype UpdateOutcome =
    | OverStock                       // error toast, cart unchanged
    | Updated(cart: seq<CartItem>)

  /** `handleUpdateCartQuantity`: a quantity of 0 or less removes the line, more than the stock is refused. */
  function UpdateQuantity(products: seq<Product>, cart: seq<CartItem>, id: int, n: int): (r: UpdateOutcome)
    ensures n <= 0 ==> r == Updated(RemoveFromCart(cart, id))
    ensures r.OverStock? <==> n > 0 && FindProduct(products, id).Some? && n > FindProduct(products, id).value.stock
    ensures r.Updated? && n > 0 ==> r.cart == SetLineQuantity(cart, id, n)
  {
    if n <= 0 then Updated(RemoveFromCart(cart, id))
    else
      var inState := FindProduct(products, id);
      if inState.Some? && n > inState.value.stock then OverStock
      else Updated(SetLineQuantity(cart, id, n))
  }

  /** Removal, one line at a time from the front. */
  lemma RemoveFromCartCons(cart: seq<CartItem>, id: int)
    requires |cart| > 0
    ensures RemoveFromCart(cart, id) == (if cart[0].product.id != id then [cart[0]] else []) + RemoveFromCart(cart[1..], id)
  {
    assert cart == [cart[0]] + cart[1..];
  }

  lemma {:induction false} RemoveKeepsUnique(cart: seq<CartItem>, id: int)
    requires LinesUnique(cart)
    ensures LinesUnique(RemoveFromCart(cart, id))
  {
    if |cart| > 0 {
      RemoveKeepsUnique(cart[1..], id);
      RemoveFromCartCons(cart, id);
      HeadIdNotInTail(cart);
      PrependKeepsUnique(if cart[0].product.id != id then [cart[0]] else [], RemoveFromCart(cart[1..], id));
    }
  }

  lemma HeadIdNotInTail(cart: seq<CartItem>)
    requires |cart| > 0 && LinesUnique(cart)
    ensures forall l :: l in cart[1..] ==> l.product.id != cart[0].product.id
  {
    forall l | l in cart[1..] ensures l.product.id != cart[0].product.id {
      var m :| 0 <= m < |cart| - 1 && cart[1..][m] == l;
      assert cart[m + 1] == l;
    }
  }

  lemma PrependKeepsUnique(h: seq<CartItem>, t: seq<CartItem>)
    requires |h| <= 1 && LinesUnique(t)
    requires forall i, l :: 0 <= i < |h| && l in t ==> h[i].product.id != l.product.id
    ensures LinesUnique(h + t)
  {
    var r := h + t;
    forall a, b | 0 <= a < b < |r| ensures r[a].product.id != r[b].product.id {
      if |h| == 1 && a == 0 {
        assert r[b] == t[b - 1];
        assert r[b] in t;
      } else {
        assert r[a] == t[a - |h|] && r[b] == t[b - |h|];
      }
    }
  }

  lemma RemoveKeepsConsistent(products: seq<Product>, cart: seq<CartItem>, id: int)
    requires CartConsistent(cart, products)
    ensures var r := RemoveFromCart(cart, id);
            && CartConsistent(r, products)
            && QtyInCart(r, id) == 0
            && forall other :: other != id ==> QtyInCart(r, other) == QtyInCart(cart, other)
  {
    var r := RemoveFromCart(cart, id);
    RemoveKeepsUnique(cart, id);
    assert FindLine(r, id).None?;
    forall other | other != id ensures QtyInCart(r, other) == QtyInCart(cart, other) {
      if FindLine(cart, other).Some? {
        var m :| 0 <= m < |cart| && cart[m] == FindLine(cart, other).value;
        LineQuantity(cart, m);
        assert multiset(r)[cart[m]] > 0;
        var k :| 0 <= k < |r| && r[k] == cart[m];
        LineQuantity(r, k);
      } else {
        assert FindLine(r, other).None?;
      }
    }
  }

  /**
   * A quantity update that is not refused keeps the cart consistent and
   * leaves the product with exactly the requested quantity (none when it is
   * 0 or less, none either when the product had no line); every other
   * product's quantity is unchanged.
   */
  lemma UpdateQuantityKeepsConsistent(products: seq<Product>, cart: seq<CartItem>, id: int, n: int)
    requires CartConsistent(cart, products)
    requires UpdateQuantity(products, cart, id, n).Updated?
    ensures var r := UpdateQuantity(products, cart, id, n).cart;
            && CartConsistent(r, products)
            && QtyInCart(r, id) == (if n > 0 && FindLine(cart, id).Some? then n else 0)
            && forall other :: other != id ==> QtyInCart(r, other) == QtyInCart(cart, other)
  {
    if n <= 0 {
      RemoveKeepsConsistent(products, cart, id);
    } else {
      var r := SetLineQuantity(cart, id, n);
      SameIdsKeepUnique(cart, r);
      forall l | l in r ensures LineInStock(l, products) {
        var i :| 0 <= i < |r| && r[i] == l;
        assert cart[i] in cart;
      }
      forall other ensures QtyInCart(r, other) == if other == id && FindLine(cart, id).Some? then n else QtyInCart(cart, other) {
        if FindLine(cart, other).Some? {
          var m :| 0 <= m < |cart| && cart[m] == FindLine(cart, other).value;
          LineQuantity(cart, m);
          LineQuantity(r, m);
        } else {
          assert FindLine(r, other).None?;
        }
      }
      QtyOfUnique(cart, id);
    }
  }

  // ----- placing an order -----

  /** One product after an order: it loses the quantity of its cart line, if it has one. */
  function DecrementOne(p: Product, cart: seq<CartItem>): (r: Product)
    ensures r == p.(stock := p.stock - QtyInCart(cart, p.id))
  {
    match FindLine(cart, p.id)
    case Some(l) => p.(stock := p.stock - l.quantity)
    case None => p
  }

  /** The catalogue after an order: each product's stock drops by exactly its quantity in the cart. */
  function DecrementStock(products: seq<Product>, cart: seq<CartItem>): (r: seq<Product>)
    ensures |r| == |products|
    ensures forall i :: 0 <= i < |products| ==>
              r[i] == products[i].(stock := products[i].stock - QtyInCart(cart, products[i].id))
  {
    seq(|products|, i requires 0 <= i < |products| => DecrementOne(products[i], cart))
  }

  ghost predicate NonNegativeStock(products: seq<Product>) {
    forall i :: 0 <= i < |products| ==> products[i].stock >= 0
  }

  /**
   * Ordering a consistent cart from a catalogue with distinct ids never takes
   * a stock below zero, and never raises one.
   */
  lemma OrderKeepsStockNonNegative(products: seq<Product>, cart: seq<CartItem>)
    requires CartConsistent(cart, products) && UniqueIds(products) && NonNegativeStock(products)
    ensures NonNegativeStock(DecrementStock(products, cart))
    ensures forall i :: 0 <= i < |products| ==> DecrementStock(products, cart)[i].stock <= products[i].stock
  {
    var r := DecrementStock(products, cart);
    forall i | 0 <= i < |products| ensures 0 <= r[i].stock <= products[i].stock {
      var id := products[i].id;
      if FindLine(cart, id).Some? {
        var l := FindLine(cart, id).value;
        assert LineInStock(l, products);
        var f := FindProduct(products, id).value;
        var k :| 0 <= k < |products| && products[k] == f;
        assert k == i;
      }
    }
  }
}
