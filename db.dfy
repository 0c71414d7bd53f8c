/**
 * The simulated local store: the user database, the order history query and
 * the product catalogue (db.ts). Loading from and saving to browser storage
 * are outside the model: constructors take the loaded lists.
 */
module Db {
  import opened Wrappers
  import opened Types
  import opened Text
  import Seqs
  import Sorting

  const HashPrefix: string := "hashed_"

  /** The demo password transform: the plaintext behind a fixed prefix. */
  function HashPassword(password: string): (h: string)
    ensures |h| == |HashPrefix| + |password|
    ensures h[..|HashPrefix|] == HashPrefix && h[|HashPrefix|..] == password
  {
    HashPrefix + password
  }

  predicate VerifyPassword(user: User, password: string) {
    user.passwordHash == HashPassword(password)
  }

  /** A stored hash verifies exactly one plaintext. */
  lemma VerifyPasswordUnique(user: User, p: string, q: string)
    requires VerifyPassword(user, p) && VerifyPassword(user, q)
    ensures p == q
  {
    assert p == HashPassword(p)[|HashPrefix|..];
  }

  /** `users.find(u => u.email.toLowerCase() === email.toLowerCase())`. */
  function FindUserByEmail(users: seq<User>, email: string): (r: Option<User>)
    ensures r.Some? ==> exists k :: 0 <= k < |users| && users[k] == r.value
                                    && SameIgnoringCase(users[k].email, email)
                                    && forall j :: 0 <= j < k ==> !SameIgnoringCase(users[j].email, email)
    ensures r.None? <==> forall j :: 0 <= j < |users| ==> !SameIgnoringCase(users[j].email, email)
  {
    Seqs.Find(users, (u: User) => SameIgnoringCase(u.email, email))
  }

  /** `users.find(u => u.id === id)`. */
  function FindUserById(users: seq<User>, id: int): (r: Option<User>)
    ensures r.Some? ==> r.value in users && r.value.id == id
    ensures r.Some? ==> exists k :: 0 <= k < |users| && users[k] == r.value
                                    && forall j :: 0 <= j < k ==> users[j].id != id
    ensures r.None? <==> forall j :: 0 <= j < |users| ==> users[j].id != id
  {
    Seqs.Find(users, (u: User) => u.id == id)
  }

  /** No two stored users have emails that differ only in case. */
  ghost predicate UniqueEmails(users: seq<User>) {
    forall i, j :: 0 <= i < j < |users| ==> !SameIgnoringCase(users[i].email, users[j].email)
  }

  class UserDatabase {
    var users: seq<User>

    /** The user list as loaded from storage, or the seed users when there is none. */
    constructor (loaded: seq<User>)
      ensures users == loaded
    {
      users := loaded;
    }

    /** `getUserByEmail`: the first stored user whose email matches ignoring case. */
    function GetUserByEmail(email: string): (r: Option<User>)
      reads this
      ensures r == FindUserByEmail(users, email)
    {
      FindUserByEmail(users, email)
    }

    /** `getUserById`: the first stored user with the id. */
    function GetUserById(id: int): (r: Option<User>)
      reads this
      ensures r == FindUserById(users, id)
    {
      FindUserById(users, id)
    }

    ghost predicate EmailsUnique()
      reads this
    {
      UniqueEmails(users)
    }

    /**
     * Registers a user unless the email is taken (ignoring case); the new
     * user's id is the clock value `now`.
     */
    method AddUser(name: string, email: string, password: string, now: int) returns (r: Option<User>)
      modifies this
      ensures old(GetUserByEmail(email)).Some? ==> r.None? && users == old(users)
      ensures old(GetUserByEmail(email)).None? ==>
                r == Some(User(now, name, email, HashPassword(password))) && users == old(users) + [r.value]
      ensures r.Some? ==> VerifyPassword(r.value, password) && GetUserByEmail(email) == r
      ensures old(EmailsUnique()) ==> EmailsUnique()
    {
      if GetUserByEmail(email).Some? {
        return None;
      }
      var u := User(now, name, email, HashPassword(password));
      users := users + [u];
      r := Some(u);
      assert users[|users| - 1] == u;
    }
  }

  /** `o.userId === userId`, with an absent user id matching nobody. */
  predicate BelongsTo(o: Order, userId: int) {
    o.userId == Some(userId)
  }

  /** A user's order history: their orders only, newest first. */
  function GetOrdersByUserId(userId: int, allOrders: seq<Order>): (r: seq<Order>)
    ensures forall o :: multiset(r)[o] == if BelongsTo(o, userId) then multiset(allOrders)[o] else 0
    ensures forall o :: o in r <==> o in allOrders && BelongsTo(o, userId)
    ensures forall i, j :: 0 <= i < j < |r| ==> r[i].date >= r[j].date
  {
    var mine := Seqs.Filter(allOrders, (o: Order) => BelongsTo(o, userId));
    var r := Sorting.SortDesc(mine, (o: Order) => o.date as real);
    Seqs.SameMembers(r, mine);
    r
  }

  /** `products.findIndex(p => p.id === id)`. */
  function IndexOfProduct(products: seq<Product>, id: int): int {
    Seqs.FindIndex(products, (p: Product) => p.id == id)
  }

  /** What `updateProduct` does to the catalogue: the first entry with `p`'s id becomes `p`. */
  function ReplaceFirstById(products: seq<Product>, p: Product): (r: seq<Product>)
    ensures |r| == |products|
    ensures Ids(r) == Ids(products)
    ensures (forall i :: 0 <= i < |products| ==> products[i].id != p.id) ==> r == products
    ensures forall i ::
              (0 <= i < |products| && products[i].id == p.id && forall j :: 0 <= j < i ==> products[j].id != p.id)
              ==> r == products[i := p]
  {
    var k := IndexOfProduct(products, p.id);
    if k == -1 then products else products[k := p]
  }

  /** The spread `{ ...data, id, rating: 0 }`. */
  function FromNewProduct(data: NewProduct, id: int): (p: Product)
    ensures DataOf(p) == data && p.id == id && p.rating == 0.0
  {
    Product(id, data.name, data.price, data.salePrice, data.isFeatured, 0.0,
            data.imageUrl, data.description, data.stock)
  }

  /** The product data without `id` and `rating`. */
  function DataOf(p: Product): NewProduct {
    NewProduct(p.name, p.price, p.salePrice, p.isFeatured, p.imageUrl, p.description, p.stock)
  }

  /** A product is determined by its form data, its id and its rating: an unrated one is rebuilt exactly. */
  lemma FromDataOfUnrated(p: Product)
    requires p.rating == 0.0
    ensures FromNewProduct(DataOf(p), p.id) == p
  {
  }

  class ProductStore {
    var products: seq<Product>

    /** The catalogue as loaded from storage, or the seed products when there is none. */
    constructor (loaded: seq<Product>)
      ensures products == loaded
    {
      products := loaded;
    }

    /** `getAllProducts`: the catalogue as it now stands. */
    function GetAllProducts(): (r: seq<Product>)
      reads this
      ensures r == products
    {
      products
    }

    method UpdateProduct(p: Product)
      modifies this
      ensures products == ReplaceFirstById(old(products), p)
    {
      var k := IndexOfProduct(products, p.id);
      if k != -1 {
        products := products[k := p];
      }
    }

    method AddProduct(data: NewProduct, now: int) returns (np: Product)
      modifies this
      ensures DataOf(np) == data && np.id == now && np.rating == 0.0
      ensures products == [np] + old(products)
    {
      np := FromNewProduct(data, now);
      products := [np] + products;
    }
  }
}
