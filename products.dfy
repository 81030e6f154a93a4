/** The product catalogue (convex/products.ts): listing, admin creation, and the get-or-create of a
    shirt from a design or a post. */
module Products {
  import opened Wrappers
  import opened Store
  import Users
  import CartItems

  /** The sizes and price a product made from a post is given. */
  const POST_SHIRT_SIZES: seq<string> := ["XS", "S", "M", "L", "XL", "2XL", "3XL"]
  const POST_SHIRT_PRICE: int := 2999

  /** A product as the queries return it, with its image URL resolved. */
  datatype ProductView = ProductView(id: Id, product: Product, imageUrl: Option<string>)

  /** getById and getByIdInternal: the product with its image URL, or none. */
  function GetById(db: Database, productId: Id): (r: Option<ProductView>)
    reads db
    ensures r.Some? <==> productId in db.products
    ensures r.Some? ==> r.value == ProductView(productId, db.products[productId],
                                               ProductImage(db.files, db.products[productId]))
  {
    if productId in db.products then
      Some(ProductView(productId, db.products[productId], ProductImage(db.files, db.products[productId])))
    else None
  }

  /** The active products, oldest first (the `by_active` index in its default order). */
  function ListActive(db: Database): (r: seq<ProductView>)
    reads db
    requires db.Valid()
    ensures forall i | 0 <= i < |r| :: r[i].id in db.products && r[i].product == db.products[r[i].id]
                                       && r[i].product.active
                                       && r[i].imageUrl == ProductImage(db.files, r[i].product)
    ensures forall id | id in db.products && db.products[id].active :: exists i | 0 <= i < |r| :: r[i].id == id
    ensures forall i, j | 0 <= i < j < |r| :: r[i].id < r[j].id
  {
    var ids := OldestFirst(db.products, (p: Product) => p.active, db.nextProductId);
    var views := seq(|ids|, i requires 0 <= i < |ids| && ids[i] in db.products reads db =>
                       ProductView(ids[i], db.products[ids[i]], ProductImage(db.files, db.products[ids[i]])));
    assert forall i | 0 <= i < |ids| :: views[i].id == ids[i];
    views
  }

  /** Admin only: inserts an active product with the given fields. */
  method Create(db: Database, identity: Option<Identity>, title: string, description: string,
                imageStorageId: Option<Id>, imageUrl: Option<string>, price: int,
                sizes: seq<string>) returns (r: Result<Id, Error>)
    requires db.Valid()
    modifies db`products, db`nextProductId
    ensures db.Valid()
    ensures identity.None? ==> r == Err(NotAuthenticated)
    ensures identity.Some? ==>
              (r.Ok? <==> var u := old(Users.CurrentUser(db, identity));
                          u.Some? && old(db.users)[u.value].role == Admin)
    ensures identity.Some? && r.Err? ==> r == Err(NotAuthorized)
    ensures r.Err? ==> db.products == old(db.products) && db.nextProductId == old(db.nextProductId)
    ensures r.Ok? ==>
              r.value == old(db.nextProductId)
              && db.products == old(db.products)[r.value := Product(title, description, imageStorageId,
                                                                    imageUrl, None, None, price, sizes, true)]
  {
    if identity.None? {
      return Err(NotAuthenticated);
    }
    var user := UserBySubject(db, identity.value.subject);
    if user.None? || db.users[user.value].role != Admin {
      return Err(NotAuthorized);
    }
    var id := db.nextProductId;
    db.nextProductId := db.nextProductId + 1;
    db.products := db.products[id := Product(title, description, imageStorageId, imageUrl, None,
                                             None, price, sizes, true)];
    r := Ok(id);
  }

  /** Inserts an active product showing a complete design's image. */
  method CreateFromDesign(db: Database, identity: Option<Identity>, designId: Id, title: string,
                          description: string, price: int, sizes: seq<string>)
    returns (r: Result<Id, Error>)
    requires db.Valid()
    modifies db`products, db`nextProductId
    ensures db.Valid()
    ensures identity.None? ==> r == Err(NotAuthenticated)
    ensures identity.Some? && old(Users.CurrentUser(db, identity)).None? ==> r == Err(UserNotFound)
    ensures old(Users.CurrentUser(db, identity)).Some? ==>
              (r.Ok? <==> && designId in old(db.designs)
                          && old(db.designs)[designId].status == Complete
                          && old(db.designs)[designId].imageUrl.Some?
                          && old(db.designs)[designId].imageUrl.value != "")
    ensures old(Users.CurrentUser(db, identity)).Some? && r.Err? ==> r == Err(DesignNotReady)
    ensures r.Err? ==> db.products == old(db.products) && db.nextProductId == old(db.nextProductId)
    ensures r.Ok? ==>
              r.value == old(db.nextProductId)
              && db.products == old(db.products)[r.value := Product(title, description, None,
                                                                    old(db.designs)[designId].imageUrl,
                                                                    None, Some(designId), price, sizes, true)]
  {
    if identity.None? {
      return Err(NotAuthenticated);
    }
    var user := UserBySubject(db, identity.value.subject);
    if user.None? {
      return Err(UserNotFound);
    }
    if designId !in db.designs || db.designs[designId].status != Complete
       || db.designs[designId].imageUrl.None? || db.designs[designId].imageUrl.value == "" {
      return Err(DesignNotReady);
    }
    var id := db.nextProductId;
    db.nextProductId := db.nextProductId + 1;
    db.products := db.products[id := Product(title, description, None, db.designs[designId].imageUrl,
                                             None, Some(designId), price, sizes, true)];
    r := Ok(id);
  }

  /** The image a post's shirt shows: the stored file's URL when the post has a storage id (none
      when that file is gone), otherwise the post's own `imageUrl`. */
  function PostImage(files: map<Id, string>, post: Post): (r: Option<string>)
    ensures post.imageStorageId.Some? ==>
              (r.Some? <==> post.imageStorageId.value in files)
              && (r.Some? ==> r.value == files[post.imageStorageId.value])
    ensures post.imageStorageId.None? ==> r == post.imageUrl
  {
    if post.imageStorageId.Some? then GetUrl(files, post.imageStorageId) else post.imageUrl
  }

  /** The product a post becomes: its title, a stock description, the post's image, the fixed
      sizes and price, active. */
  function PostShirt(postId: Id, post: Post, imageUrl: string): (p: Product)
    ensures p.title == post.title && p.postId == Some(postId) && p.designId.None?
    // the image is kept as a URL, with no storage id
    ensures p.imageStorageId.None? && p.imageUrl == Some(imageUrl)
    ensures forall files :: ProductImage(files, p) == Some(imageUrl)
    ensures p.price == 2999 && p.sizes == ["XS", "S", "M", "L", "XL", "2XL", "3XL"] && p.active
  {
    Product(post.title,
            "\"" + post.title + "\" — AI Win or Sin, printed on a Bella+Canvas 3001 Unisex Jersey. 100% cotton.",
            None, Some(imageUrl), Some(postId), None, POST_SHIRT_PRICE, POST_SHIRT_SIZES, true)
  }

  /** The post's product: the existing one found by post id, or a new one inserted. */
  method ProductForPost(db: Database, postId: Id, post: Post, imageUrl: string) returns (productId: Id)
    requires db.Valid()
    modifies db`products, db`nextProductId
    ensures db.Valid()
    ensures old(ProductOfPost(db, postId)).Some? ==>
              productId == old(ProductOfPost(db, postId)).value
              && db.products == old(db.products) && db.nextProductId == old(db.nextProductId)
    ensures old(ProductOfPost(db, postId)).None? ==>
              productId == old(db.nextProductId) && db.nextProductId == old(db.nextProductId) + 1
              && db.products == old(db.products)[productId := PostShirt(postId, post, imageUrl)]
    ensures ProductOfPost(db, postId) == Some(productId)
  {
    var existing := ProductOfPost(db, postId);
    if existing.Some? {
      return existing.value;
    }
    productId := db.nextProductId;
    db.nextProductId := db.nextProductId + 1;
    db.products := db.products[productId := PostShirt(postId, post, imageUrl)];
  }

  /** Gets or creates the post's product and adds one of it in `size` to the user's cart. */
  method AddPostShirt(db: Database, userId: Id, postId: Id, post: Post, imageUrl: string, size: string)
    returns (productId: Id)
    requires db.Valid()
    modifies db`products, db`cartItems, db`nextProductId, db`nextCartItemId
    ensures db.Valid()
    ensures old(ProductOfPost(db, postId)).Some? ==>
              productId == old(ProductOfPost(db, postId)).value && db.products == old(db.products)
    ensures old(ProductOfPost(db, postId)).None? ==>
              productId == old(db.nextProductId) && db.products == old(db.products)[productId := PostShirt(postId, post, imageUrl)]
    ensures ProductOfPost(db, postId) == Some(productId)
    ensures var lineId := old(db.nextCartItemId);
            db.cartItems == CartItems.Merged(old(db.cartItems), old(CartLineOf(db, userId, productId, size)),
                                             lineId, userId, productId, size, 1)
  {
    productId := ProductForPost(db, postId, post, imageUrl);
    var lineId := CartItems.MergeIntoCart(db, userId, productId, size, 1);
  }

  /** Gets or creates the post's product, then adds one of it in `size` to the caller's cart;
      returns the product id. */
  method CreateFromPost(db: Database, identity: Option<Identity>, postId: Id, size: string)
    returns (r: Result<Id, Error>)
    requires db.Valid()
    modifies db`products, db`cartItems, db`nextProductId, db`nextCartItemId
    ensures db.Valid()
    ensures identity.None? ==> r == Err(NotAuthenticated)
    ensures identity.Some? && old(Users.CurrentUser(db, identity)).None? ==> r == Err(UserNotFound)
    ensures old(Users.CurrentUser(db, identity)).Some? && postId !in old(db.posts) ==> r == Err(PostNotFound)
    ensures old(Users.CurrentUser(db, identity)).Some? && postId in old(db.posts) ==>
              (r.Ok? <==> var image := PostImage(old(db.files), old(db.posts)[postId]);
                          image.Some? && image.value != "")
    ensures old(Users.CurrentUser(db, identity)).Some? && postId in old(db.posts) && r.Err? ==>
              r == Err(PostHasNoImage)
    ensures r.Err? ==> db.products == old(db.products) && db.cartItems == old(db.cartItems)
                       && db.nextProductId == old(db.nextProductId) && db.nextCartItemId == old(db.nextCartItemId)
    // an existing product of the post is reused, otherwise exactly one is created
    ensures r.Ok? && old(ProductOfPost(db, postId)).Some? ==>
              r.value == old(ProductOfPost(db, postId)).value && db.products == old(db.products)
    ensures r.Ok? && old(ProductOfPost(db, postId)).None? ==>
              r.value == old(db.nextProductId)
              && db.products == old(db.products)[r.value := PostShirt(postId, old(db.posts)[postId],
                                                                      PostImage(old(db.files), old(db.posts)[postId]).value)]
    ensures r.Ok? ==> ProductOfPost(db, postId) == Some(r.value)
    // the caller's line for the product in that size gains one, or is created with quantity one
    ensures r.Ok? ==>
              var userId := old(Users.CurrentUser(db, identity)).value;
              var lineId := old(db.nextCartItemId);
              db.cartItems == CartItems.Merged(old(db.cartItems), old(CartLineOf(db, userId, r.value, size)),
                                               lineId, userId, r.value, size, 1)
  {
    if identity.None? {
      return Err(NotAuthenticated);
    }
    var user := UserBySubject(db, identity.value.subject);
    if user.None? {
      return Err(UserNotFound);
    }
    if postId !in db.posts {
      return Err(PostNotFound);
    }
    var imageUrl := PostImage(db.files, db.posts[postId]);
    if imageUrl.None? || imageUrl.value == "" {
      return Err(PostHasNoImage);
    }
    var productId := AddPostShirt(db, user.value, postId, db.posts[postId], imageUrl.value, size);
    r := Ok(productId);
  }

  /** getMyCart as written cannot show a line of a post's shirt: the product keeps its image as
      a URL with no storage id, `storage.getUrl` raises on it, and so the whole query raises;
      the corrected line shows the post's image. */
  lemma PostShirtBreaksCartAsWritten(db: Database, lineId: Id, postId: Id, post: Post, imageUrl: string)
    requires lineId in db.cartItems && db.cartItems[lineId].productId in db.products
    requires db.products[db.cartItems[lineId].productId] == PostShirt(postId, post, imageUrl)
    ensures CartItems.LineViewAsWritten(db, lineId) == Err(MissingStorageId)
    ensures CartItems.LineView(db, lineId).imageUrl == Some(imageUrl)
  {
  }
}
