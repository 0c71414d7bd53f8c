/**
 * The admin handlers' new collection values (App.tsx): replace or patch the
 * record with a given id, prepend new records, delete blog posts.
 */
module AdminEdits {
  import opened Types
  import Seqs
  import Db

  /**
   * `records.map(x => x.id === updated.id ? updated : x)`, for any record
   * type with an id: every record sharing the edit's id becomes the edit,
   * every other record stays where it was.
   */
  function ReplaceById<T>(records: seq<T>, idOf: T -> int, updated: T): (r: seq<T>)
    ensures |r| == |records|
    ensures forall i :: 0 <= i < |records| ==> r[i] == if idOf(records[i]) == idOf(updated) then updated else records[i]
  {
    seq(|records|, i requires 0 <= i < |records| => if idOf(records[i]) == idOf(updated) then updated else records[i])
  }

  /** The controller's product edit. */
  function ReplaceProduct(products: seq<Product>, updated: Product): seq<Product> {
    ReplaceById(products, (p: Product) => p.id, updated)
  }

  /**
   * With distinct ids, the controller's replace-every-match and the store's
   * replace-the-first-match agree, and the ids stay distinct.
   */
  lemma ReplaceProductAgreesWithStore(products: seq<Product>, updated: Product)
    requires UniqueIds(products)
    ensures ReplaceProduct(products, updated) == Db.ReplaceFirstById(products, updated)
    ensures UniqueIds(ReplaceProduct(products, updated))
  {
    var k := Db.IndexOfProduct(products, updated.id);
    if k != -1 {
      assert ReplaceProduct(products, updated) == products[k := updated];
    } else {
      assert ReplaceProduct(products, updated) == products;
    }
  }

  /** `orders.map(o => o.id === id ? { ...o, status } : o)`. */
  function SetOrderStatus(orders: seq<Order>, id: int, status: OrderStatus): (r: seq<Order>)
    ensures |r| == |orders|
    ensures forall i :: 0 <= i < |orders| ==> r[i] == if orders[i].id == id then orders[i].(status := status) else orders[i]
  {
    seq(|orders|, i requires 0 <= i < |orders| => if orders[i].id == id then orders[i].(status := status) else orders[i])
  }

  /** `orders.map(o => o.id === id ? { ...o, isComplete: !o.isComplete } : o)`. */
  function ToggleOrderComplete(orders: seq<Order>, id: int): (r: seq<Order>)
    ensures |r| == |orders|
    ensures forall i :: 0 <= i < |orders| ==>
              r[i] == if orders[i].id == id then orders[i].(isComplete := !orders[i].isComplete) else orders[i]
  {
    seq(|orders|, i requires 0 <= i < |orders| =>
      if orders[i].id == id then orders[i].(isComplete := !orders[i].isComplete) else orders[i])
  }

  /** Toggling the same order twice restores the order list. */
  lemma ToggleTwiceRestores(orders: seq<Order>, id: int)
    ensures ToggleOrderComplete(ToggleOrderComplete(orders, id), id) == orders
  {
    var r := ToggleOrderComplete(ToggleOrderComplete(orders, id), id);
    assert forall i :: 0 <= i < |orders| ==> r[i] == orders[i];
  }

  /** Setting a status twice is setting it once; only the status of the matching orders changes. */
  lemma SetOrderStatusIdempotent(orders: seq<Order>, id: int, status: OrderStatus)
    ensures SetOrderStatus(SetOrderStatus(orders, id, status), id, status) == SetOrderStatus(orders, id, status)
    ensures forall i :: 0 <= i < |orders| ==>
              SetOrderStatus(orders, id, status)[i].(status := orders[i].status) == orders[i]
  {
    var once := SetOrderStatus(orders, id, status);
    assert forall i :: 0 <= i < |orders| ==> SetOrderStatus(once, id, status)[i] == once[i];
  }

  /** The blog-post edit. */
  function ReplacePost(posts: seq<BlogPost>, updated: BlogPost): seq<BlogPost> {
    ReplaceById(posts, (p: BlogPost) => p.id, updated)
  }

  /**
   * Editing a post keeps every id in place, puts the edit in the list exactly
   * when a post with its id was there, and repeating the edit changes nothing.
   */
  lemma ReplacePostKeepsIds(posts: seq<BlogPost>, updated: BlogPost)
    ensures forall i :: 0 <= i < |posts| ==> ReplacePost(posts, updated)[i].id == posts[i].id
    ensures updated in ReplacePost(posts, updated) <==> exists i :: 0 <= i < |posts| && posts[i].id == updated.id
    ensures ReplacePost(ReplacePost(posts, updated), updated) == ReplacePost(posts, updated)
  {
    var r := ReplacePost(posts, updated);
    if updated in r {
      var i :| 0 <= i < |r| && r[i] == updated;
      assert posts[i].id == updated.id;
    }
  }

  /** `posts.filter(p => p.id !== id)`: exactly the posts with that id go, the others stay. */
  function DeletePost(posts: seq<BlogPost>, id: int): (r: seq<BlogPost>)
    ensures forall p :: multiset(r)[p] == if p.id == id then 0 else multiset(posts)[p]
    ensures forall p :: p in r <==> p in posts && p.id != id
  {
    Seqs.Filter(posts, (p: BlogPost) => p.id != id)
  }

  /** The admin form's fields of a post. */
  function PostData(p: BlogPost): NewBlogPost {
    NewBlogPost(p.title, p.imageUrl, p.excerpt, p.content, p.author, p.authorImageUrl)
  }

  /** The spread `{ ...data, id, date }` of a new blog post: the form data with the clock's id and date. */
  function NewPost(data: NewBlogPost, id: int, date: string): (p: BlogPost)
    ensures PostData(p) == data && p.id == id && p.date == date
  {
    BlogPost(id, data.title, date, data.imageUrl, data.excerpt, data.content, data.author, data.authorImageUrl)
  }
}
