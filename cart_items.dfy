/** The shopping cart (convex/cartItems.ts): one line per user, product and size. */
module CartItems {
  import opened Wrappers
  import opened Store
  import Users

  /** A cart line as getMyCart returns it: the line, and its product with the product's image
      URL, or no product when the product document is gone. */
  datatype CartLine = CartLine(id: Id, item: CartItem, product: Option<Product>,
                               imageUrl: Option<string>)

  /** The line `id` with its product looked up, its image resolved as the product queries do
      it: the stored file's URL when the product has a storage id, its own `imageUrl`
      otherwise. */
  function LineView(db: Database, id: Id): (r: CartLine)
    reads db
    requires id in db.cartItems
    ensures r.id == id && r.item == db.cartItems[id]
    ensures r.product.Some? <==> r.item.productId in db.products
    ensures r.product.Some? ==> r.product.value == db.products[r.item.productId]
                                && r.imageUrl == ProductImage(db.files, r.product.value)
  {
    var item := db.cartItems[id];
    if item.productId in db.products then
      CartLine(id, item, Some(db.products[item.productId]), ProductImage(db.files, db.products[item.productId]))
    else CartLine(id, item, None, None)
  }

  /** The line `id` as getMyCart builds it: the product's image comes from
      `storage.getUrl(product.imageStorageId)` with no fallback, which raises for a product that
      has no storage id (every product made from a post or a design). Otherwise it is the line
      LineView gives. */
  function LineViewAsWritten(db: Database, id: Id): (r: Result<CartLine, Error>)
    reads db
    requires id in db.cartItems
    ensures r.Err? <==> db.cartItems[id].productId in db.products
                        && db.products[db.cartItems[id].productId].imageStorageId.None?
    ensures r.Err? ==> r.error == MissingStorageId
    ensures r.Ok? ==> r.value == LineView(db, id)
  {
    var item := db.cartItems[id];
    if item.productId !in db.products then Ok(CartLine(id, item, None, None))
    else
      var product := db.products[item.productId];
      match StorageGetUrl(db.files, product.imageStorageId)
      case Err(e) => Err(e)
      case Ok(url) => Ok(CartLine(id, item, Some(product), url))
  }

  /** The views of the lines `ids`, in the same order. */
  function LineViews(db: Database, ids: seq<Id>): (r: seq<CartLine>)
    reads db
    requires forall i | 0 <= i < |ids| :: ids[i] in db.cartItems
    ensures |r| == |ids| && forall i | 0 <= i < |ids| :: r[i] == LineView(db, ids[i]) && r[i].id == ids[i]
  {
    var lines := seq(|ids|, i requires 0 <= i < |ids| && ids[i] in db.cartItems reads db => LineView(db, ids[i]));
    assert forall i | 0 <= i < |ids| :: lines[i] == LineView(db, ids[i]);
    lines
  }

  /** The lines of `userId`, oldest first (the `by_userId` index in its default order), each with
      its product looked up as LineView does. */
  function CartOf(db: Database, userId: Id): (r: seq<CartLine>)
    reads db
    requires db.Valid()
    ensures forall i | 0 <= i < |r| ::
              r[i].id in db.cartItems && r[i] == LineView(db, r[i].id) && r[i].item.userId == userId
    ensures forall id | id in db.cartItems && db.cartItems[id].userId == userId ::
              exists i | 0 <= i < |r| :: r[i].id == id
    ensures forall i, j | 0 <= i < j < |r| :: r[i].id < r[j].id
  {
    var ids := OldestFirst(db.cartItems, (c: CartItem) => c.userId == userId, db.nextCartItemId);
    var lines := LineViews(db, ids);
    assert forall id | id in db.cartItems && db.cartItems[id].userId == userId ::
             exists i | 0 <= i < |lines| :: lines[i].id == id by {
      forall id | id in db.cartItems && db.cartItems[id].userId == userId
        ensures exists i | 0 <= i < |lines| :: lines[i].id == id
      {
        var i :| 0 <= i < |ids| && ids[i] == id;
        assert lines[i].id == id;
      }
    }
    lines
  }

  /** The caller's cart lines, oldest first; none when not signed in or not a known user. */
  function GetMyCart(db: Database, identity: Option<Identity>): (r: seq<CartLine>)
    reads db
    requires db.Valid()
    ensures Users.CurrentUser(db, identity).None? ==> r == []
    ensures Users.CurrentUser(db, identity).Some? ==> r == CartOf(db, Users.CurrentUser(db, identity).value)
  {
    match Users.CurrentUser(db, identity)
    case None => []
    case Some(userId) => CartOf(db, userId)
  }

  /** getMyCart as written: the caller's lines as Promise.all builds them, which raises as soon
      as one line's image lookup raises, that is, when one of the caller's lines is for an
      existing product with no storage id. Otherwise the cart CartOf gives. */
  function GetMyCartAsWritten(db: Database, identity: Option<Identity>): (r: Result<seq<CartLine>, Error>)
    reads db
    requires db.Valid()
    ensures Users.CurrentUser(db, identity).None? ==> r == Ok([])
    ensures Users.CurrentUser(db, identity).Some? ==>
              var userId := Users.CurrentUser(db, identity).value;
              && (r.Err? <==> exists id | id in db.cartItems ::
                                && db.cartItems[id].userId == userId
                                && db.cartItems[id].productId in db.products
                                && db.products[db.cartItems[id].productId].imageStorageId.None?)
              && (r.Err? ==> r.error == MissingStorageId)
              && (r.Ok? ==> r.value == CartOf(db, userId))
  {
    match Users.CurrentUser(db, identity)
    case None => Ok([])
    case Some(userId) =>
      var ids := OldestFirst(db.cartItems, (c: CartItem) => c.userId == userId, db.nextCartItemId);
      if exists i | 0 <= i < |ids| :: LineViewAsWritten(db, ids[i]).Err? then Err(MissingStorageId)
      else Ok(CartOf(db, userId))
  }

  /** The cart after adding `quantity` to the line `line` when there is one, or after inserting a
      new line under `freshId` otherwise: that one line holds the old quantity plus `quantity`
      and every other line is as it was. */
  function Merged(cartItems: map<Id, CartItem>, line: Option<Id>, freshId: Id, userId: Id,
                  productId: Id, size: string, quantity: int): (m: map<Id, CartItem>)
    requires line.Some? ==> line.value in cartItems
    ensures var id := if line.Some? then line.value else freshId;
            && m.Keys == cartItems.Keys + {id}
            && m[id].quantity == (if line.Some? then cartItems[line.value].quantity else 0) + quantity
            && (line.Some? ==> m[id].(quantity := cartItems[id].quantity) == cartItems[id])
            && (line.None? ==> m[id] == CartItem(userId, productId, size, quantity))
            && forall other | other in cartItems && other != id :: m[other] == cartItems[other]
  {
    if line.Some? then
      cartItems[line.value := cartItems[line.value].(quantity := cartItems[line.value].quantity + quantity)]
    else cartItems[freshId := CartItem(userId, productId, size, quantity)]
  }

  /** Merging keeps one line per user, product and size when the line found is the one for that
      key (or there is none) and the fresh id is unused; the merged line is then the one line for
      the key. */
  lemma MergedKeepsOneLine(cartItems: map<Id, CartItem>, line: Option<Id>, freshId: Id,
                           userId: Id, productId: Id, size: string, quantity: int)
    requires OneLinePerUserProductSize(cartItems)
    requires freshId !in cartItems
    requires line.Some? ==> line.value in cartItems && cartItems[line.value].userId == userId
                            && cartItems[line.value].productId == productId
                            && cartItems[line.value].size == size
    requires line.None? ==> forall id | id in cartItems :: !(cartItems[id].userId == userId
                              && cartItems[id].productId == productId && cartItems[id].size == size)
    ensures var m := Merged(cartItems, line, freshId, userId, productId, size, quantity);
            var id := if line.Some? then line.value else freshId;
            && OneLinePerUserProductSize(m)
            && m[id].userId == userId && m[id].productId == productId && m[id].size == size
  {
    var m := Merged(cartItems, line, freshId, userId, productId, size, quantity);
    var id := if line.Some? then line.value else freshId;
    forall a, b | a in m && b in m && m[a].userId == m[b].userId && m[a].productId == m[b].productId
                  && m[a].size == m[b].size
      ensures a == b
    {
      if a != id && b != id {
        assert m[a] == cartItems[a] && m[b] == cartItems[b];
      }
    }
  }

  /** Adds `quantity` of the product in `size` to the user's line for them, creating the line
      when there is none; returns the line's id. */
  method MergeIntoCart(db: Database, userId: Id, productId: Id, size: string, quantity: int)
    returns (lineId: Id)
    requires db.Valid()
    modifies db`cartItems, db`nextCartItemId
    ensures db.Valid()
    ensures var line := old(CartLineOf(db, userId, productId, size));
            && lineId == (if line.Some? then line.value else old(db.nextCartItemId))
            && db.cartItems == Merged(old(db.cartItems), line, old(db.nextCartItemId), userId, productId, size, quantity)
            && db.nextCartItemId == old(db.nextCartItemId) + (if line.Some? then 0 else 1)
    ensures CartLineOf(db, userId, productId, size) == Some(lineId)
  {
    var line := CartLineOf(db, userId, productId, size);
    MergedKeepsOneLine(db.cartItems, line, db.nextCartItemId, userId, productId, size, quantity);
    lineId := if line.Some? then line.value else db.nextCartItemId;
    // a patch of the line found, or an insert under the next id
    db.cartItems := Merged(db.cartItems, line, db.nextCartItemId, userId, productId, size, quantity);
    if line.None? {
      db.nextCartItemId := db.nextCartItemId + 1;
    }
  }

  /** Adds `quantity` of a product in a size to the caller's cart, merging into the existing line
      for that product and size; returns the line's id. */
  method AddItem(db: Database, identity: Option<Identity>, productId: Id, size: string, quantity: int)
    returns (r: Result<Id, Error>)
    requires db.Valid()
    modifies db`cartItems, db`nextCartItemId
    ensures db.Valid()
    ensures identity.None? ==> r == Err(NotAuthenticated)
    ensures identity.Some? && old(Users.CurrentUser(db, identity)).None? ==> r == Err(UserNotFound)
    ensures r.Err? ==> db.cartItems == old(db.cartItems) && db.nextCartItemId == old(db.nextCartItemId)
    ensures old(Users.CurrentUser(db, identity)).Some? ==>
              var userId := old(Users.CurrentUser(db, identity)).value;
              var line := old(CartLineOf(db, userId, productId, size));
              && r == Ok(if line.Some? then line.value else old(db.nextCartItemId))
              && db.cartItems == Merged(old(db.cartItems), line, old(db.nextCartItemId), userId, productId, size, quantity)
              && CartLineOf(db, userId, productId, size) == Some(r.value)
  {
    if identity.None? {
      return Err(NotAuthenticated);
    }
    var user := UserBySubject(db, identity.value.subject);
    if user.None? {
      return Err(UserNotFound);
    }
    var lineId := MergeIntoCart(db, user.value, productId, size, quantity);
    r := Ok(lineId);
  }

  /** Sets a line's quantity, or deletes the line when the quantity is not positive; the line
      must exist. Nothing checks whose line it is. */
  method UpdateQuantity(db: Database, itemId: Id, quantity: int) returns (r: Outcome<Error>)
    requires db.Valid()
    modifies db`cartItems
    ensures db.Valid()
    ensures itemId !in old(db.cartItems) ==> r == Fail(DocumentNotFound(itemId)) && db.cartItems == old(db.cartItems)
    ensures itemId in old(db.cartItems) && quantity <= 0 ==> r == Pass && db.cartItems == old(db.cartItems) - {itemId}
    ensures itemId in old(db.cartItems) && quantity > 0 ==>
              r == Pass && db.cartItems == old(db.cartItems)[itemId := old(db.cartItems)[itemId].(quantity := quantity)]
  {
    if itemId !in db.cartItems {
      return Fail(DocumentNotFound(itemId));
    }
    if quantity <= 0 {
      db.cartItems := db.cartItems - {itemId};
    } else {
      db.cartItems := db.cartItems[itemId := db.cartItems[itemId].(quantity := quantity)];
    }
    r := Pass;
  }

  /** Deletes exactly that line; the line must exist. Nothing checks whose line it is. */
  method RemoveItem(db: Database, itemId: Id) returns (r: Outcome<Error>)
    requires db.Valid()
    modifies db`cartItems
    ensures db.Valid()
    ensures itemId !in old(db.cartItems) ==> r == Fail(DocumentNotFound(itemId)) && db.cartItems == old(db.cartItems)
    ensures itemId in old(db.cartItems) ==> r == Pass && db.cartItems == old(db.cartItems) - {itemId}
  {
    if itemId !in db.cartItems {
      return Fail(DocumentNotFound(itemId));
    }
    db.cartItems := db.cartItems - {itemId};
    r := Pass;
  }

  /** Deletes every line of the caller and no one else's; does nothing when not signed in or
      not a known user. */
  method ClearCart(db: Database, identity: Option<Identity>)
    requires db.Valid()
    modifies db`cartItems
    ensures db.Valid()
    ensures old(Users.CurrentUser(db, identity)).None? ==> db.cartItems == old(db.cartItems)
    ensures old(Users.CurrentUser(db, identity)).Some? ==>
              forall id :: id in db.cartItems <==>
                id in old(db.cartItems) && Some(old(db.cartItems)[id].userId) != old(Users.CurrentUser(db, identity))
    ensures forall id | id in db.cartItems :: db.cartItems[id] == old(db.cartItems)[id]
  {
    var user := Users.CurrentUser(db, identity);
    if user.None? {
      return;
    }
    var ids := OldestFirst(db.cartItems, (c: CartItem) => c.userId == user.value, db.nextCartItemId);
    DeleteLines(db, ids);
    forall id | id in old(db.cartItems)
      ensures id in ids <==> old(db.cartItems)[id].userId == user.value
    {
      if id in ids {
        var k :| 0 <= k < |ids| && ids[k] == id;
      }
    }
  }

  /** Deletes the lines `ids` one after another; each must still be there when its turn comes,
      since deleting a missing document throws. */
  method DeleteLines(db: Database, ids: seq<Id>)
    requires db.Valid()
    requires forall i | 0 <= i < |ids| :: ids[i] in db.cartItems
    requires forall i, j | 0 <= i < j < |ids| :: ids[i] != ids[j]
    modifies db`cartItems
    ensures db.Valid()
    ensures forall id :: id in db.cartItems <==> id in old(db.cartItems) && id !in ids
    ensures forall id | id in db.cartItems :: db.cartItems[id] == old(db.cartItems)[id]
  {
    var i := 0;
    while i < |ids|
      invariant 0 <= i <= |ids|
      invariant db.Valid()
      invariant forall id :: id in db.cartItems <==> id in old(db.cartItems) && id !in ids[..i]
      invariant forall id | id in db.cartItems :: db.cartItems[id] == old(db.cartItems)[id]
      invariant forall k | i <= k < |ids| :: ids[k] in db.cartItems
    {
      var deleted := RemoveItem(db, ids[i]);
      assert ids[..i + 1] == ids[..i] + [ids[i]];
      i := i + 1;
    }
    assert ids[..i] == ids;
  }
}
