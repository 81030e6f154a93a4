/**
  The Convex deployment: the document shapes of convex/schema.ts (with the fields the functions
  write but the schema omits), the database that holds one table per document kind, the file
  storage the functions read URLs from, and the scheduler's queue of delayed jobs.
 */
module Store {
  import opened Wrappers

  /** A document id. Each table numbers its documents from its own counter, so within a table
      a larger id is a newer document and ordering by id is ordering by creation time. */
  type Id = nat

  /** The role of a user: `"user"` or `"admin"`. */
  datatype Role = Member | Admin

  /** A post's category and a vote's type: `"win"` or `"sin"`. */
  datatype Verdict = Win | Sin

  /** The signed-in identity the auth provider hands to every function, or none. */
  datatype Identity = Identity(subject: string, name: Option<string>, email: Option<string>,
                               pictureUrl: Option<string>)

  datatype User = User(workosId: string, name: string, email: string, avatarUrl: Option<string>,
                       role: Role)

  /** `imageUrl` is not in the schema; posts whose image was generated carry it. */
  datatype Post = Post(userId: Id, imageStorageId: Option<Id>, imageUrl: Option<string>,
                       title: string, description: Option<string>, category: Verdict,
                       winCount: int, sinCount: int)

  datatype Vote = Vote(userId: Id, postId: Id, voteType: Verdict)

  /** `imageUrl`, `postId` and `designId` are not in the schema; the functions write them. */
  datatype Product = Product(title: string, description: string, imageStorageId: Option<Id>,
                             imageUrl: Option<string>, postId: Option<Id>, designId: Option<Id>,
                             price: int, sizes: seq<string>, active: bool)

  datatype CartItem = CartItem(userId: Id, productId: Id, size: string, quantity: int)

  datatype OrderStatus = Pending | Paid | Fulfilling | Shipped | Delivered | Failed | Refunded

  /** One order line: a snapshot of the product's title and price at checkout. */
  datatype OrderItem = OrderItem(productId: Id, title: string, size: string, quantity: int,
                                 price: int)

  datatype Address = Address(name: string, address1: string, address2: Option<string>,
                             city: string, stateCode: string, countryCode: string, zip: string)

  datatype Order = Order(userId: Id, stripeSessionId: string, printfulOrderId: Option<string>,
                         status: OrderStatus, items: seq<OrderItem>, totalAmount: int,
                         shippingAddress: Option<Address>)

  datatype DesignStatus = Generating | Complete | GenerationFailed

  /** `model` is not in the schema; startGeneration writes it. */
  datatype Design = Design(userId: Id, prompt: string, model: Option<string>,
                           imageUrl: Option<string>, imageStorageId: Option<Id>,
                           status: DesignStatus)

  /** A delayed call of the confirmation step, as the scheduler holds it. */
  datatype Job = ConfirmOrderJob(delayMs: int, orderId: Id, printfulOrderId: string)

  /** The errors the functions throw. */
  datatype Error =
    | NotAuthenticated                    // no signed-in identity
    | UserNotFound                        // no user document for the identity
    | NotAuthorized                       // the caller is not an admin
    | PostNotFound
    | PostHasNoImage
    | DesignNotReady                      // design missing, not complete, or without image
    | CartIsEmpty
    | MissingProduct                      // a cart line's product was read through `product!`
    | DocumentNotFound(id: Id)            // `db.patch` or `db.delete` of an id with no document
    | NotUnique                           // `.unique()` matched more than one document
    | OrderOrAddressNotFound
    | ProductNotFound(productId: Id)
    | UnknownSize(size: string)
    | PrintfulApiError(status: int, body: string)
    | NetworkFailure                      // `fetch` itself rejected
    | SchedulerFailure                    // `scheduler.runAfter` rejected
    | StripeFailure                       // Stripe refused to create a session
    | InvalidSignature                    // Stripe's `constructEvent` rejected the payload
    | MalformedJson                       // a body that is not JSON
    | MissingStorageId                    // `storage.getUrl` called without a storage id
    | NullEvent                           // a JSON `null` event, whose `data` cannot be read

  /** Every key of `t` is below `n`. */
  ghost predicate Below<T>(t: map<Id, T>, n: nat) {
    forall id | id in t :: id < n
  }

  /** The `by_workosId` index names at most one user. */
  ghost predicate OneUserPerSubject(users: map<Id, User>) {
    forall a, b | a in users && b in users && users[a].workosId == users[b].workosId :: a == b
  }

  /** The `by_userId_postId` index names at most one vote. */
  ghost predicate OneVotePerUserAndPost(votes: map<Id, Vote>) {
    forall a, b | a in votes && b in votes && votes[a].userId == votes[b].userId
                  && votes[a].postId == votes[b].postId :: a == b
  }

  /** The `by_userId_productId_size` index names at most one cart line. */
  ghost predicate OneLinePerUserProductSize(cartItems: map<Id, CartItem>) {
    forall a, b | a in cartItems && b in cartItems && cartItems[a].userId == cartItems[b].userId
                  && cartItems[a].productId == cartItems[b].productId
                  && cartItems[a].size == cartItems[b].size :: a == b
  }

  /** The `by_postId` index names at most one product per post. */
  ghost predicate OneProductPerPost(products: map<Id, Product>) {
    forall a, b | a in products && b in products && products[a].postId.Some?
                  && products[a].postId == products[b].postId :: a == b
  }

  /** Every vote is on a post that exists (posts are never deleted). */
  ghost predicate VotesOnKnownPosts(votes: map<Id, Vote>, posts: map<Id, Post>) {
    forall id | id in votes :: votes[id].postId in posts
  }

  /** No vote counter is negative. */
  ghost predicate CountersNonNegative(posts: map<Id, Post>) {
    forall id | id in posts :: posts[id].winCount >= 0 && posts[id].sinCount >= 0
  }

  class Database {
    var users: map<Id, User>
    var posts: map<Id, Post>
    var votes: map<Id, Vote>
    var products: map<Id, Product>
    var cartItems: map<Id, CartItem>
    var orders: map<Id, Order>
    var designs: map<Id, Design>
    /** File storage: the URL `storage.getUrl` serves for each stored file. */
    var files: map<Id, string>
    /** The scheduler's pending jobs, oldest first. */
    var scheduled: seq<Job>
    /** The id the next document inserted into each table receives. */
    var nextUserId: nat
    var nextPostId: nat
    var nextVoteId: nat
    var nextProductId: nat
    var nextCartItemId: nat
    var nextOrderId: nat
    var nextDesignId: nat

    /** A deployment with empty tables over the given stored files. */
    constructor (files: map<Id, string>)
      ensures Valid()
      ensures users == map[] && posts == map[] && votes == map[] && products == map[]
      ensures cartItems == map[] && orders == map[] && designs == map[]
      ensures this.files == files && scheduled == []
    {
      users, posts, votes, products := map[], map[], map[], map[];
      cartItems, orders, designs := map[], map[], map[];
      this.files, scheduled := files, [];
      nextUserId, nextPostId, nextVoteId, nextProductId := 0, 0, 0, 0;
      nextCartItemId, nextOrderId, nextDesignId := 0, 0, 0;
    }

    /** The users table: ids from its counter, and `by_workosId` names at most one user. */
    ghost predicate UsersIndexed()
      reads this`users, this`nextUserId
    {
      Below(users, nextUserId) && OneUserPerSubject(users)
    }

    /** The votes table: ids from its counter, and `by_userId_postId` names at most one vote. */
    ghost predicate VotesIndexed()
      reads this`votes, this`nextVoteId
    {
      Below(votes, nextVoteId) && OneVotePerUserAndPost(votes)
    }

    /** The cart: ids from its counter, and `by_userId_productId_size` names at most one line. */
    ghost predicate CartIndexed()
      reads this`cartItems, this`nextCartItemId
    {
      Below(cartItems, nextCartItemId) && OneLinePerUserProductSize(cartItems)
    }

    /** The products table: ids from its counter, and `by_postId` names at most one product. */
    ghost predicate ProductsIndexed()
      reads this`products, this`nextProductId
    {
      Below(products, nextProductId) && OneProductPerPost(products)
    }

    /** The invariant every function keeps: ids come from the table's counter, the unique
        indexes are unique, votes refer to posts, and counters are not negative. */
    ghost predicate Valid()
      reads this
    {
      && UsersIndexed() && VotesIndexed() && CartIndexed() && ProductsIndexed()
      && Below(posts, nextPostId) && Below(orders, nextOrderId) && Below(designs, nextDesignId)
      && VotesOnKnownPosts(votes, posts)
      && CountersNonNegative(posts)
    }
  }

  /** The ids below `below` of the documents of `t` that satisfy `keep`, newest first: an index
      range read with `.order("desc")`. */
  function NewestFirst<T>(t: map<Id, T>, keep: T -> bool, below: nat): (r: seq<Id>)
    ensures forall i | 0 <= i < |r| :: r[i] in t && r[i] < below && keep(t[r[i]])
    ensures forall id | id in t && id < below && keep(t[id]) :: id in r
    ensures forall i, j | 0 <= i < j < |r| :: r[i] > r[j]
    decreases below
  {
    if below == 0 then []
    else
      var rest := NewestFirst(t, keep, below - 1);
      if below - 1 in t && keep(t[below - 1]) then [below - 1] + rest else rest
  }

  /** The same ids oldest first: an index range read in the default ascending order. */
  function OldestFirst<T>(t: map<Id, T>, keep: T -> bool, below: nat): (r: seq<Id>)
    ensures forall i | 0 <= i < |r| :: r[i] in t && r[i] < below && keep(t[r[i]])
    ensures forall id | id in t && id < below && keep(t[id]) :: id in r
    ensures forall i, j | 0 <= i < j < |r| :: r[i] < r[j]
    decreases below
  {
    if below == 0 then []
    else
      var rest := OldestFirst(t, keep, below - 1);
      if below - 1 in t && keep(t[below - 1]) then rest + [below - 1] else rest
  }

  /** The newest document satisfying `keep`, if any: `.unique()` on an index that the
      invariant keeps unique. */
  function FirstMatch<T>(t: map<Id, T>, keep: T -> bool, below: nat): (r: Option<Id>)
    ensures r.Some? ==> r.value in t && keep(t[r.value])
    ensures r.None? ==> forall id | id in t && id < below :: !keep(t[id])
  {
    var ids := NewestFirst(t, keep, below);
    if ids == [] then None else Some(ids[0])
  }

  /** The first `n` elements of `s`, or all of them: `.take(n)` and `.slice(0, n)`. */
  function Take<X>(s: seq<X>, n: nat): (r: seq<X>)
    ensures |r| <= n && r <= s
    ensures |s| <= n ==> r == s
    ensures |s| > n ==> |r| == n
  {
    if |s| <= n then s else s[..n]
  }

  /** A matching document left out of the first `n` newest is older than every one kept, and
      it was left out because the window is full. */
  lemma {:induction false} NewestWindowIsNewest<T>(t: map<Id, T>, keep: T -> bool, below: nat, n: nat, id: Id)
    requires id in t && id < below && keep(t[id])
    requires id !in Take(NewestFirst(t, keep, below), n)
    ensures |Take(NewestFirst(t, keep, below), n)| == n
    ensures forall x | x in Take(NewestFirst(t, keep, below), n) :: x > id
  {
    var ids := NewestFirst(t, keep, below);
    var j :| 0 <= j < |ids| && ids[j] == id;
    assert j >= n;
  }

  /** The URL file storage serves for a stored file: null when the file is gone, and null when
      there is no storage id at all. */
  function GetUrl(files: map<Id, string>, storageId: Option<Id>): (r: Option<string>)
    ensures r.Some? <==> storageId.Some? && storageId.value in files
    ensures r.Some? ==> r.value == files[storageId.value]
  {
    if storageId.Some? && storageId.value in files then Some(files[storageId.value]) else None
  }

  /** `storage.getUrl(storageId)` as the Convex client runs it: called with no storage id it
      raises, since its argument check refuses `undefined`; otherwise it gives the served URL,
      or null when the file is gone. */
  function StorageGetUrl(files: map<Id, string>, storageId: Option<Id>): (r: Result<Option<string>, Error>)
    ensures r.Err? <==> storageId.None?
    ensures r.Err? ==> r.error == MissingStorageId
    ensures r.Ok? ==> r.value == GetUrl(files, storageId)
  {
    if storageId.None? then Err(MissingStorageId) else Ok(GetUrl(files, storageId))
  }

  /** A product's image as products.ts resolves it: the stored file's URL when the product has a
      storage id (null when that file is gone), otherwise its own `imageUrl`. */
  function ProductImage(files: map<Id, string>, p: Product): (r: Option<string>)
    ensures p.imageStorageId.None? ==> r == p.imageUrl
    ensures p.imageStorageId.Some? ==> r == StorageGetUrl(files, p.imageStorageId).value
  {
    if p.imageStorageId.Some? then GetUrl(files, p.imageStorageId) else p.imageUrl
  }

  /** The keys of the unique indexes, as filters on documents. */
  function HasSubject(subject: string): User -> bool {
    (u: User) => u.workosId == subject
  }

  function VoteKey(userId: Id, postId: Id): Vote -> bool {
    (v: Vote) => v.userId == userId && v.postId == postId
  }

  function LineKey(userId: Id, productId: Id, size: string): CartItem -> bool {
    (c: CartItem) => c.userId == userId && c.productId == productId && c.size == size
  }

  function MadeFrom(postId: Id): Product -> bool {
    (p: Product) => p.postId == Some(postId)
  }

  /** The user whose `workosId` is `subject` (`by_workosId`). */
  function UserBySubject(db: Database, subject: string): (r: Option<Id>)
    reads db`users, db`nextUserId
    requires db.UsersIndexed()
    ensures r.Some? ==> r.value in db.users && db.users[r.value].workosId == subject
    ensures r.Some? ==> forall id | id in db.users && db.users[id].workosId == subject :: id == r.value
    ensures r.None? <==> forall id | id in db.users :: db.users[id].workosId != subject
  {
    FirstMatch(db.users, HasSubject(subject), db.nextUserId)
  }

  /** The vote of `userId` on `postId` (`by_userId_postId`). */
  function VoteOf(db: Database, userId: Id, postId: Id): (r: Option<Id>)
    reads db`votes, db`nextVoteId
    requires db.VotesIndexed()
    ensures r.Some? ==> r.value in db.votes && db.votes[r.value].userId == userId
                        && db.votes[r.value].postId == postId
    ensures r.None? <==> forall id | id in db.votes ::
                           !(db.votes[id].userId == userId && db.votes[id].postId == postId)
  {
    FirstMatch(db.votes, VoteKey(userId, postId), db.nextVoteId)
  }

  /** The cart line of `userId` for `productId` in `size` (`by_userId_productId_size`). */
  function CartLineOf(db: Database, userId: Id, productId: Id, size: string): (r: Option<Id>)
    reads db`cartItems, db`nextCartItemId
    requires db.CartIndexed()
    ensures r.Some? ==> r.value in db.cartItems && db.cartItems[r.value].userId == userId
                        && db.cartItems[r.value].productId == productId
                        && db.cartItems[r.value].size == size
    ensures r.None? <==> forall id | id in db.cartItems ::
                           !(db.cartItems[id].userId == userId
                             && db.cartItems[id].productId == productId
                             && db.cartItems[id].size == size)
  {
    FirstMatch(db.cartItems, LineKey(userId, productId, size), db.nextCartItemId)
  }

  /** The product made from `postId` (`by_postId`). */
  function ProductOfPost(db: Database, postId: Id): (r: Option<Id>)
    reads db`products, db`nextProductId
    requires db.ProductsIndexed()
    ensures r.Some? ==> r.value in db.products && db.products[r.value].postId == Some(postId)
    ensures r.None? <==> forall id | id in db.products :: db.products[id].postId != Some(postId)
  {
    FirstMatch(db.products, MadeFrom(postId), db.nextProductId)
  }
}
