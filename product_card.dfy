/**
 * The product card (components/ProductCard.tsx): the stock and sale badges,
 * the displayed price, the add-to-cart button and the one-time star rating.
 */
module ProductCards {
  import opened Wrappers
  import opened Types
  import CartRules
  import Storefront

  /** `stock === 0`. */
  predicate IsOutOfStock(p: Product) {
    p.stock == 0
  }

  /** A truthy sale price above zero and below the list price. */
  predicate IsOnSale(p: Product) {
    p.salePrice.Some? && p.salePrice.value > 0.0 && p.salePrice.value < p.price
  }

  /** The sale price while on sale, else the list price. */
  function DisplayPrice(p: Product): (r: real)
    ensures IsOnSale(p) ==> Some(r) == p.salePrice && 0.0 < r < p.price
    ensures !IsOnSale(p) ==> r == p.price
  {
    if IsOnSale(p) then p.salePrice.value else p.price
  }

  /**
   * With no negative sale price, the card shows the unit price the cart
   * charges.
   */
  lemma DisplayPriceIsChargedPrice(p: Product)
    requires p.salePrice.None? || p.salePrice.value >= 0.0
    ensures DisplayPrice(p) == CartRules.EffectivePrice(p)
  {
  }

  /**
   * A negative sale price below the list price is charged by the cart but not
   * shown by the card.
   */
  lemma NegativeSalePriceDiverges()
    ensures var p := Product(1, "Pine Cone", 10.0, Some(-1.0), false, 0.0, "", "", 3);
            DisplayPrice(p) == 10.0 && CartRules.EffectivePrice(p) == -1.0
  {
  }

  /** `hoverRating || submittedRating || Math.floor(product.rating)`. */
  function RatingToDisplay(hoverRating: int, submittedRating: int, rating: real): (r: int)
    ensures hoverRating != 0 ==> r == hoverRating
    ensures hoverRating == 0 && submittedRating != 0 ==> r == submittedRating
    ensures hoverRating == 0 && submittedRating == 0 ==> r as real <= rating < r as real + 1.0
  {
    if hoverRating != 0 then hoverRating
    else if submittedRating != 0 then submittedRating
    else rating.Floor
  }

  /**
   * The ratings a run of star clicks sends to `onAddRating`, starting from an
   * already submitted rating: the first click of an unrated card only.
   */
  function RatingsSent(submittedRating: int, clicks: seq<int>): seq<int>
    decreases |clicks|
  {
    if |clicks| == 0 then []
    else if submittedRating > 0 then RatingsSent(submittedRating, clicks[1..])
    else [clicks[0]] + RatingsSent(clicks[0], clicks[1..])
  }

  /** With stars from 1 to 5, a card sends at most one rating, and none once rated. */
  lemma {:induction false} AtMostOneRating(submittedRating: int, clicks: seq<int>)
    requires forall i :: 0 <= i < |clicks| ==> 1 <= clicks[i] <= 5
    ensures submittedRating > 0 ==> RatingsSent(submittedRating, clicks) == []
    ensures |RatingsSent(submittedRating, clicks)| <= 1
    ensures submittedRating <= 0 && |clicks| > 0 ==> RatingsSent(submittedRating, clicks) == [clicks[0]]
    decreases |clicks|
  {
    if |clicks| > 0 {
      if submittedRating > 0 {
        AtMostOneRating(submittedRating, clicks[1..]);
      } else {
        AtMostOneRating(clicks[0], clicks[1..]);
      }
    }
  }

  /** One card's state cells. */
  class ProductCard {
    const product: Product
    var added: bool
    var hoverRating: int
    var submittedRating: int

    constructor (product: Product)
      ensures this.product == product && !added && hoverRating == 0 && submittedRating == 0
    {
      this.product := product;
      added := false;
      hoverRating := 0;
      submittedRating := 0;
    }

    predicate HasRated()
      reads this
    {
      submittedRating > 0
    }

    /**
     * Nothing for an out-of-stock product; the login dialog when nobody is
     * logged in; otherwise exactly one unit goes to the controller's add.
     */
    method HandleAddToCartClick(app: Storefront.App, now: int)
      modifies this, app
      ensures hoverRating == old(hoverRating) && submittedRating == old(submittedRating)
      ensures IsOutOfStock(product) ==> app.State() == old(app.State()) && added == old(added)
      ensures !IsOutOfStock(product) && old(app.currentUser).None? ==>
                app.State() == old(app.State()).(isLoginModalOpen := true) && added == old(added)
      ensures !IsOutOfStock(product) && old(app.currentUser).Some? ==>
                var o := CartRules.AddToCart(old(app.products), old(app.cart), product, 1);
                && added
                && (o.NotListed? ==> app.State() == old(app.State()))
                && (o.NotEnoughStock? ==>
                      app.State() == old(app.State()).(toasts := old(app.toasts)
                                                         + [ToastMessage(now, Storefront.NotEnoughStockMessage, ErrorToast)]))
                && (o.Added? ==>
                      && o.amount == 1
                      && app.State() == old(app.State()).(cart := o.cart,
                           toasts := old(app.toasts) + [ToastMessage(now, Storefront.AddedMessage(product.name), SuccessToast)])
                      && (old(app.CartOk()) ==> app.CartOk() && app.CartCount() == old(app.CartCount()) + 1))
    {
      if IsOutOfStock(product) {
        return;
      }
      if app.currentUser.None? {
        app.SetLoginModalOpen(true);
        return;
      }
      ghost var o := CartRules.AddToCart(app.products, app.cart, product, 1);
      assert o.Added? ==> o.amount == 1;
      if app.CartOk() && o.Added? {
        CartRules.AddToCartKeepsConsistent(app.products, app.cart, product, 1);
      }
      app.HandleAddToCart(product, 1, now);
      added := true;
    }

    method MouseEnterStar(star: int)
      modifies this
      ensures hoverRating == (if old(HasRated()) then old(hoverRating) else star)
      ensures added == old(added) && submittedRating == old(submittedRating)
    {
      if !HasRated() {
        hoverRating := star;
      }
    }

    method MouseLeaveStar()
      modifies this
      ensures hoverRating == (if old(HasRated()) then old(hoverRating) else 0)
      ensures added == old(added) && submittedRating == old(submittedRating)
    {
      if !HasRated() {
        hoverRating := 0;
      }
    }

    /** The first click on a star submits that rating; a rated card ignores clicks. */
    method ClickStar(star: int, app: Storefront.App, now: int)
      requires 1 <= star <= 5
      modifies this, app
      ensures HasRated()
      ensures added == old(added) && hoverRating == old(hoverRating)
      ensures old(HasRated()) ==> submittedRating == old(submittedRating) && app.State() == old(app.State())
      ensures !old(HasRated()) ==>
                && submittedRating == star
                && (CartRules.FindProduct(old(app.products), product.id).None? ==> app.State() == old(app.State()))
                && (CartRules.FindProduct(old(app.products), product.id).Some? ==>
                      app.State() == old(app.State()).(feedbacks :=
                        [Feedback(now, product.id, CartRules.FindProduct(old(app.products), product.id).value.name, star, now)]
                        + old(app.feedbacks)))
    {
      if !HasRated() {
        submittedRating := star;
        app.HandleAddFeedback(product.id, star, now);
      }
    }
  }
}
