# Dafny model of the shirt shop's Convex backend

The application lets users do three things:
- post AI "wins" and "sins" and vote on them;
- turn a post or a generated design into a shirt;
- buy shirts.

Payment goes through Stripe Checkout. Printing goes through Printful. The backend is a set of Convex functions over a document database.

This project models the following:

- **The order pipeline.** Checkout turns the cart into a `pending` order and a Checkout Session. The Stripe webhook marks the order `paid` and creates a Printful draft. That sets the order `fulfilling` and schedules a confirmation 24 hours later. The confirmation cancels the draft of a `refunded` or `failed` order and confirms any other. The two HTTP webhook routes decide what to run and which status to answer.
- **The table updates that feed it:**
  - vote casting, with its create, remove and switch cases and counters floored at 0;
  - the cart;
  - the product catalogue, including get-or-create of a shirt from a post;
  - posts and their newest, trending and featured lists;
  - user provisioning;
  - design records;
  - the size and variant constant tables.

## How the model is built

- `Store.Database` is the deployment.
  - It holds one `map` field per table, from document id to document.
  - `files` holds the URLs file storage serves.
  - `scheduled` is the scheduler's queue of delayed confirmations.
  - Each table has its own id counter (`nextUserId`, `nextPostId` and so on). Within a table, ids therefore grow with creation time: an index read with `.order("desc")` lists decreasing ids.
- `Database.Valid()` is the invariant every mutation keeps:
  - each table's ids come from its counter;
  - the unique indexes (`by_workosId`, `by_userId_postId`, `by_userId_productId_size`, `by_postId`) name at most one document;
  - votes refer to posts;
  - vote counters are not negative.
- Mutations and actions are methods. Each `modifies` only the tables it writes. On every branch it states the error raised and the new table contents. The Printful and Stripe actions state them through a function or predicate of the tables they found (`Printful.AfterDraft`, `Printful.ConfirmedAs`, `Stripe.FulfilledAs`), so that an action that runs another one can promise exactly what the other does.
- Queries are functions that read the database. The unique-index lookups read only their own table and its counter, so a write to one table leaves the lookups on every other table unchanged.
- Anything that runs outside the database is a parameter standing for its answer:
  - the signed-in identity;
  - Stripe's signature check and session creation;
  - Printful's HTTP answer and the id in it;
  - whether the scheduler accepted a job.

  The requests sent to Stripe and Printful are returned as values (`Stripe.SessionRequest`, `Printful.GatewayCall`).
- A thrown error is an `Err` or `Fail` value. The model writes nothing after the point where the code throws.

Where the schema and the function code disagree, the model follows the code:
- Products carry `imageUrl`, `postId` and `designId`, and are looked up by post.
- Designs carry `model`.

The model also keeps these behaviours of the code as written:
- `markPaid` overwrites the status whatever it was. A redelivered completed-checkout event therefore marks the order paid again and requests a second draft (`Stripe.RedeliveredCheckout`).
- An unknown size or a missing product throws before `createOrder`'s `try`. The order then stays `paid`, not `failed`.
- `handleWebhook` only logs.
- No function ever sets `refunded`, `shipped` or `delivered`.

## Model

| member | source | states |
|---|---|---|
| Store.NewestFirst | convex/orders.ts:102-106 | an index read in descending order: exactly the matching documents, each once, with strictly decreasing (newest first) ids |
| Store.OldestFirst | convex/cartItems.ts:16-19 | an index read in default order: exactly the matching documents, with strictly increasing ids |
| Store.FirstMatch | convex/users.ts:11-14 | `.unique()` on a unique index: a matching document, or none exactly when no document matches |
| Store.Take | convex/designs.ts:61 | `.take(n)` / `.slice(0, n)`: a prefix of at most n elements, the whole sequence when it is short, exactly n otherwise |
| Store.NewestWindowIsNewest | convex/designs.ts:57-61 | a matching document that a "newest n" read leaves out is older than every document shown, and the window is full |
| Store.UserBySubject | convex/users.ts:11-14 | the one user whose workosId is the subject, none exactly when there is no such user |
| Store.VoteOf | convex/votes.ts:19-24 | the user's vote on the post, none exactly when the user has not voted on it |
| Store.CartLineOf | convex/cartItems.ts:54-62 | the cart line for (user, product, size), none exactly when there is no such line |
| Store.ProductOfPost | convex/products.ts:134-137 | the product made from the post, none exactly when no product has that postId |
| Store.GetUrl | convex/posts.ts:22 | the URL file storage serves for the id, null exactly when there is no id or its file is gone |
| Store.StorageGetUrl | convex/cartItems.ts:29 | `storage.getUrl` as the Convex client runs it: it raises exactly when called without a storage id, and otherwise gives GetUrl |
| Store.ProductImage | convex/products.ts:44-46 | the product's own imageUrl when it has no storage id; otherwise what `storage.getUrl` gives for that id |
| Users.CurrentUser | convex/users.ts:28-38 | null when not signed in; otherwise the user with the identity's subject, null exactly when there is none |
| Users.NewUser | convex/users.ts:18-24 | the first sign-in's document: the subject as workosId, name "Anonymous" and email "" when the identity has none, the identity's picture, role "user" |
| Users.GetOrCreateUser | convex/users.ts:4-26 | not signed in raises; an existing user is returned with nothing inserted; otherwise one user is inserted with name "Anonymous" and email "" by default and role "user", and becomes the current user |
| Users.GetOrCreateUserTwice | convex/users.ts:10-24 | two calls return the same id and leave exactly one user with the identity's subject |
| Orders.CreatePending | convex/orders.ts:18-24 | inserts one new order: the given items and total verbatim, status pending, empty session id, no Printful id, no address |
| Orders.AttachStripeSession | convex/orders.ts:29-33 | changes only the session id of the order; a missing order raises and writes nothing |
| Orders.AttachStripeSessionTwice | convex/orders.ts:29-33 | attaching the same session id twice leaves the order exactly as one attachment does |
| Orders.PaidOrder | convex/orders.ts:50-53 | the paid record: status paid and the given address, and every other field as it was |
| Orders.MarkPaid | convex/orders.ts:49-54 | sets status paid and the address whatever the prior status, and nothing else; a missing order raises |
| Orders.PaidOrderIdempotent | convex/orders.ts:49-54 | marking an order paid twice with one address equals marking it once |
| Orders.StatusUpdated | convex/orders.ts:60-72 | the status becomes the new one, never pending or paid; the Printful id is replaced only by a non-empty id; no other field changes |
| Orders.UpdateStatus | convex/orders.ts:57-74 | writes StatusUpdated to the order and nothing else; a missing order raises |
| Orders.GetById | convex/orders.ts:76-88 | the order document, none exactly when the id has none |
| Orders.GetMyOrders | convex/orders.ts:93-106 | empty when not signed in or unknown; otherwise all the caller's orders and only theirs, newest first |
| Orders.FindByStripeSession | convex/orders.ts:113-119 | none exactly when no order has the session id; the one such order when it is unique; an error exactly when two orders share it |
| CartItems.LineView | convex/cartItems.ts:21-33 | corrected: the line with its product, or no product when the product is gone; the image resolved as the product queries resolve it |
| CartItems.LineViewAsWritten | convex/cartItems.ts:21-33 | as written: raises exactly when the line's product exists and has no storage id; otherwise the line LineView gives |
| CartItems.LineViews | convex/cartItems.ts:21-34 | one view per cart line id, in the same order, each carrying that id |
| CartItems.CartOf | convex/cartItems.ts:16-34 | corrected: exactly the user's lines, oldest first, each as LineView shows it |
| CartItems.GetMyCart | convex/cartItems.ts:7-35 | corrected: empty when not signed in or unknown, otherwise the caller's lines as CartOf gives them |
| CartItems.GetMyCartAsWritten | convex/cartItems.ts:7-35 | as written: empty when not signed in or unknown; otherwise it raises exactly when one of the caller's lines is for an existing product with no storage id, and gives CartOf when none is |
| CartItems.Merged | convex/cartItems.ts:64-74 | the merge adds the quantity to the key's line, or creates it under the fresh id with that quantity; every other line is unchanged |
| CartItems.MergedKeepsOneLine | convex/cartItems.ts:54-74 | when the line found is the key's line, or there is none, the merge keeps one line per (user, product, size), and the merged line is the key's |
| CartItems.MergeIntoCart | convex/cartItems.ts:54-74 | adds the quantity to the existing line and returns its id, or inserts one new line and returns the new id; that line is then the key's line |
| CartItems.AddItem | convex/cartItems.ts:44-75 | not signed in or unknown raises with nothing written; otherwise the merge of MergeIntoCart |
| CartItems.UpdateQuantity | convex/cartItems.ts:81-86 | a quantity of 0 or less deletes the line; otherwise the line's quantity is set exactly; a missing line raises |
| CartItems.RemoveItem | convex/cartItems.ts:91-93 | deletes exactly that line; a missing line raises |
| CartItems.DeleteLines | convex/cartItems.ts:107-113 | deletes exactly the given lines, each of which must still exist, and changes no line kept |
| CartItems.ClearCart | convex/cartItems.ts:99-113 | deletes every line of the caller and no one else's, and changes no line kept; does nothing when not signed in or unknown |
| Products.GetById | convex/products.ts:23-49 | the product with its image resolved, none exactly when missing |
| Products.ListActive | convex/products.ts:7-19 | exactly the active products, oldest first, each with its image resolved |
| Products.Create | convex/products.ts:51-73 | only an admin inserts, and the new product is active with the given fields; otherwise it raises and writes nothing |
| Products.CreateFromDesign | convex/products.ts:75-108 | succeeds exactly for a complete design with a non-empty imageUrl, copying the imageUrl and designId into an active product; otherwise it raises with nothing written |
| Products.PostImage | convex/products.ts:128-130 | the stored file's URL when the post has a storage id, null when that file is gone; the post's own imageUrl otherwise |
| Products.PostShirt | convex/products.ts:139-147 | the post's shirt: its title, the post's id and no design, the image as a URL with no storage id, price 2999, sizes XS to 3XL, active |
| Products.ProductForPost | convex/products.ts:134-150 | reuses the post's product, or inserts the post's shirt (post title, stock description, price 2999, sizes XS to 3XL, active); the post then has exactly that product |
| Products.AddPostShirt | convex/products.ts:134-169 | after the get-or-create, the caller's line for the product and size gains one, or is created with quantity 1 |
| Products.CreateFromPost | convex/products.ts:110-173 | an error is raised before any write for no identity, an unknown user, a missing post, or a post without an image; otherwise at most one product per post, the cart increment by one, and the product id is returned |
| Products.PostShirtBreaksCartAsWritten | convex/cartItems.ts:21-33 | a cart line of a post's shirt makes getMyCart as written raise, while the corrected line shows the post's image |
| Printful.PrintfulFetch | convex/printful.ts:26-41 | a 2xx answer whose body is JSON yields that body; a 2xx body that is not JSON raises; any other status raises with that status and body; a failed fetch raises |
| Printful.LineItems | convex/printful.ts:54-76 | one draft line per order line, in order, with VARIANT_IDS[size], the same quantity and the product's image; an error exactly when some line is unprintable, namely the first such line's error |
| Printful.AfterDraft | convex/printful.ts:96-120 | only the order changes, in status and Printful id only; it ends fulfilling with exactly one confirmation queued after 86,400,000 ms when the draft is accepted with an id and the scheduler takes the job, and failed with the queue unchanged otherwise; a non-empty returned id is recorded even when the scheduler refuses |
| Printful.CreateOrder | convex/printful.ts:44-122 | a missing order or address and an unprintable line raise before any request, with no write; the draft request carries the address and the line items; once it is sent, the tables are AfterDraft of the ones found |
| Printful.RecordDraft | convex/printful.ts:96-120 | writes exactly AfterDraft of the tables it found |
| Printful.ConfirmOrder | convex/printful.ts:125-161 | a missing order does nothing; refunded or failed cancels the draft, swallows the answer and writes nothing; otherwise it confirms, and sets failed exactly when printfulFetch raises, including for a 2xx body that is not JSON |
| Printful.RunNextJob | convex/printful.ts:105-109 | the oldest queued confirmation leaves the queue, and the orders and the request sent are what ConfirmOrder does with its order and Printful ids |
| Printful.HandleWebhook | convex/printful.ts:163-180 | reads and writes no table; an empty id is ignored, an absent one is logged as "undefined"; package_shipped and order_failed are logged as such |
| Constants.EverySizeHasVariant | src/lib/constants.ts:4-16 | every size on sale has a Printful variant, and the table has no other size |
| Constants.VariantTablesAgree | src/lib/constants.ts:8-16 | the client's variant table equals the fulfilment code's entry for entry |
| Constants.VariantIdsDistinct | src/lib/constants.ts:9-15 | no two sizes share a variant, and no variant id is 0 |
| Constants.PostShirtUsesConstants | src/lib/constants.ts:4-5 | the sizes and price a post's shirt gets are SHIRT_SIZES and DEFAULT_SHIRT_PRICE |
| Constants.StandardSizesArePrintable | src/lib/constants.ts:4-16 | an order whose lines are in sizes on sale, with existing products, always gets its draft lines built |
| Stripe.LineItems | convex/stripe.ts:34-45 | one Checkout line per cart line, in order: "title (size)", the image only when it is non-empty, the product price and the line quantity |
| Stripe.OrderItems | convex/stripe.ts:54-60 | one order line per cart line, in order, copying productId, title, size, quantity and price |
| Stripe.Total | convex/stripe.ts:47-50 | 0 for an empty cart, and never negative when no price or quantity is |
| Stripe.TotalIsAmountDue | convex/stripe.ts:34-50 | the recorded total equals the sum of unit amount times quantity over the session's line items |
| Stripe.TotalIsOrderTotal | convex/stripe.ts:47-61 | the recorded total equals the sum of price times quantity over the order's own lines |
| Stripe.OpenSession | convex/stripe.ts:52-84 | creates the pending order first, requests a session carrying the new order id, then attaches the session id and returns the session URL; a refused session leaves the order without a session id |
| Stripe.CreateCheckoutSession | convex/stripe.ts:20-86 | on the corrected cart (CartOf): raises for no identity, an unknown user, an empty cart or a vanished product, before any write or request; otherwise OpenSession on the caller's cart |
| Stripe.ShippingAddress | convex/stripe.ts:104-115 | the address markPaid gets: each shipping field, or "" when it is missing, with address2 left absent; all fields "" but the name when there is no postal address |
| Stripe.FulfillOrder | convex/stripe.ts:88-128 | a bad signature raises before any write; other event types or no order id succeed with nothing done; otherwise markPaid then createOrder, leaving exactly the tables, outcome and request FulfilledAs describes |
| Stripe.FulfillCheckout | convex/stripe.ts:103-123 | a missing order raises with nothing written; otherwise the order is paid with the address, an unprintable line leaves it paid with no draft, and else the tables are AfterDraft of the paid ones |
| Stripe.RedeliveredCheckout | convex/stripe.ts:99-122 | delivering the same completed checkout twice requests the same draft twice and queues two confirmations |
| Http.StripeWebhook | convex/http.ts:11-29 | a missing or empty signature header answers 400 and runs nothing; otherwise the header and payload go to fulfillOrder unchanged, the tables and request are fulfillOrder's, and it answers 200 exactly when fulfillOrder completes and 400 when it raises |
| Http.PrintfulWebhook | convex/http.ts:36-40 | a parsed event answers 200 after handleWebhook; a body that is not JSON, or is null, makes the route raise |
| Votes.WithCount | convex/votes.ts:33-35 | sets one counter of the post and leaves the other counter and every other field unchanged |
| Votes.TallyAfterInsert | convex/votes.ts:51-55 | an inserted vote adds one to its own post and type, and nothing elsewhere |
| Votes.TallyAfterDelete | convex/votes.ts:32 | a deleted vote takes one from its own post and type, and nothing elsewhere |
| Votes.TallyAfterRetype | convex/votes.ts:40 | a retyped vote moves one count from its old type to its new one on its post |
| Votes.TallyPositive | convex/votes.ts:29-30 | an existing vote is counted on its post, so decrementing its counter never reaches the floor |
| Votes.TalliesAfterCreate | convex/votes.ts:49-61 | the created case keeps every post's counters equal to its vote counts |
| Votes.TalliesAfterRemove | convex/votes.ts:30-37 | the removed case, floored at 0, keeps every post's counters equal to its vote counts |
| Votes.TalliesAfterSwitch | convex/votes.ts:38-48 | the switched case, floored at 0, keeps every post's counters equal to its vote counts |
| Votes.EmptyTalliesExact | convex/posts.ts:132-133 | with no posts and no votes, the counters are exact |
| Votes.CastVote | convex/votes.ts:4-63 | no identity, unknown user, missing post raise with no write; no vote: insert, counter +1, "created"; same vote: delete, counter -1 floored at 0, "removed"; other vote: retype, one counter +1, the other -1 floored, "switched"; exact counters stay exact |
| Votes.ApplyVote | convex/votes.ts:19-62 | for an existing post: the created, removed and switched cases of castVote, decided by the caller's vote on the post, with exact counters staying exact |
| Votes.InsertVote | convex/votes.ts:49-61 | inserts the one vote and raises its counter by one |
| Votes.DeleteVote | convex/votes.ts:30-37 | deletes the vote and lowers its counter by one, floored at 0 |
| Votes.RetypeVote | convex/votes.ts:38-48 | retypes the vote and moves its count, floored at 0 |
| Votes.GetUserVoteForPost | convex/votes.ts:65-84 | the caller's vote on the post, null exactly when not signed in, unknown, or not voted |
| Votes.InsertKeepsIndexes | convex/votes.ts:19-24 | inserting a vote for a user and post that have none keeps one vote per user and post, votes on known posts and counters non-negative |
| Votes.DeleteKeepsIndexes | convex/votes.ts:30-37 | deleting a vote keeps one vote per user and post, votes on known posts and counters non-negative |
| Votes.RetypeKeepsIndexes | convex/votes.ts:38-48 | retyping a vote keeps one vote per user and post, votes on known posts and counters non-negative |
| Votes.VotesByPost | convex/votes.ts:103-106 | the loop over the user's votes maps each vote's post to its type, and maps no other post |
| Votes.UserVotesMapExact | convex/votes.ts:98-107 | the map built from the caller's votes holds a post exactly when the caller voted on it, with that vote's type |
| Votes.GetUserVotesMap | convex/votes.ts:86-109 | maps exactly the posts the caller voted on to that vote's type; empty when not signed in or unknown |
| Posts.View | convex/posts.ts:20-30 | the post with its image URL and author; "Unknown" and no avatar when the author is gone |
| Posts.Views | convex/posts.ts:44-50 | the views of the given posts, in the same order |
| Posts.List | convex/posts.ts:4-33 | at most 50 posts, only of the category when one is given, newest first, in the order of ListIds |
| Posts.ListIds | convex/posts.ts:10-18 | the ids list shows: at most 50, all posts of the category when one is given, newest first |
| Posts.ListHoldsNewest | convex/posts.ts:10-18 | a post of the category whose id the list leaves out is older than every one of the 50 ids shown |
| Posts.Insert | convex/posts.ts:39-41 | inserting a post into a ranking keeps the same posts plus the new one |
| Posts.InsertKeepsRank | convex/posts.ts:39-41 | inserting into a ranking non-increasing by total votes keeps it non-increasing |
| Posts.SortByScore | convex/posts.ts:39-41 | a permutation of the posts, non-increasing by winCount + sinCount |
| Posts.Window | convex/posts.ts:37 | at most window posts, each the view of an existing post, newest first; a post left out is older than every post shown, and only when the window is full |
| Posts.NewestViews | convex/posts.ts:37 | views that follow the newest-first ids of a `.take(n)` read are newest first, and any post they leave out is older than all of them, with n shown |
| Posts.Ranked | convex/posts.ts:38-41 | the min of count and the pool's size in posts, ranked by total votes, a sub-multiset of the pool |
| Posts.Top | convex/posts.ts:37-41 | Ranked of the window newest posts: the min of count and the window's size in posts, ranked by total votes, each drawn from the window no more often than it is there |
| Posts.RankedOutscoresTheRest | convex/posts.ts:38-41 | when a post of the pool is left out, the slice is a full count, and the post has no more votes than any post kept |
| Posts.Trending | convex/posts.ts:35-53 | Ranked of the 100 newest posts cut to 20: the min of 20 and the window's size in posts, ranked by total votes, drawn from the 100 newest |
| Posts.Featured | convex/posts.ts:55-73 | Ranked of the 50 newest posts cut to 6: the min of 6 and the window's size in posts, ranked by total votes, drawn from the 50 newest |
| Posts.GetById | convex/posts.ts:75-89 | the post's view, null exactly when missing |
| Posts.NewPostTalliesExact | convex/posts.ts:132-133 | a new post with both counters at 0 keeps every counter exact |
| Posts.Create | convex/posts.ts:109-136 | no identity or an unknown user raises; otherwise one post by the caller with both counters 0, and exact counters stay exact |
| Designs.StartGeneration | convex/designs.ts:4-23 | no identity or an unknown user raises; otherwise one design by the caller with the prompt and model, status generating |
| Designs.CompleteGeneration | convex/designs.ts:25-36 | sets the imageUrl and status complete, and nothing else, whatever the prior status; a missing design raises |
| Designs.FailGeneration | convex/designs.ts:38-43 | sets only status failed, whatever the prior status; a missing design raises |
| Designs.GetUserDesigns | convex/designs.ts:45-63 | empty when not signed in or unknown; otherwise at most 50 of the caller's designs, newest first, with any left out older than all shown |
| Designs.RecentPublicDesigns | convex/designs.ts:65-74 | at most 20 designs, all complete, newest first, with any complete design left out older than all shown |

## Left out

- I/O, console logging, environment variables and URLs (success and cancel URLs, the Printful store id and API base) are not modelled. The routes' response bodies are not modelled either.
- Stripe's signature cryptography is not modelled. It is the parameter `constructEvent`, which answers none when it rejects.
- Stripe session creation is not modelled. It is the `SessionReply` parameter. Currency, mode and allowed countries are not modelled.
- Printful's HTTP exchange is not modelled. It is the `HttpReply` parameter, which says whether the body parses as JSON. The JSON parsing of a draft's `result.id` is the `createdId` parameter, which is none when the answer has no `result`. An answer whose `result` lacks an id reads as `Some("undefined")`.
- Scheduler failure is the `schedulerOk` parameter. Scheduled jobs run one at a time, oldest first (`Printful.RunNextJob`). Concurrent interleaving of jobs, webhooks and mutations is not modelled: every execution is a sequence of steps over one store.
- Printful.LineItems: `Promise.all` runs the lookups concurrently and rejects with whichever failure comes first. The model reports the first failing line in list order.
- Printful.HandleWebhook: `String(...)` of a non-string id (a number, say) is not modelled. The id is given as text or as absent.
- `VARIANT_IDS` is a plain object in the code, so a size such as "toString" would find an inherited member. The model treats it as a map with exactly the seven sizes.
- CartItems.GetMyCart: the corrected cart is modelled, with each product's image resolved as the product queries do. As written the query raises when the caller has a line for a shirt made from a post or a design; that behaviour is CartItems.GetMyCartAsWritten (see Findings).
- Stripe.CreateCheckoutSession: it reads the cart through getMyCart (convex/stripe.ts:29), and the model checks out the corrected cart. As written, checkout of a cart holding a shirt made from a post or a design raises before any write or request, because that query raises (CartItems.GetMyCartAsWritten).
- Posts.View: the post queries (convex/posts.ts:22, 47, 67, 80 and 103) call `storage.getUrl` on the post's storage id with no guard. The schema requires a storage id on every post, and the model reads a missing one as null. Posts without a storage id come only from the seed script, which is not part of this model.
- Stripe.FulfillOrder: Convex's conversion of the metadata text `convexOrderId` into a document id is not modelled. The event carries the id, or none when it is absent or empty.
- Posts.SortByScore: the stability of `Array.prototype.sort` is not stated. Posts with equal totals may come out in any order as far as the contract goes.
- Constants.EverySizeHasVariant, Constants.VariantTablesAgree, Constants.VariantIdsDistinct and Constants.PostShirtUsesConstants: these are checks over constant tables, true by evaluation.
- Orders.PaidOrderIdempotent: the same holds; it follows from the record update.
- The integers are unbounded. Prices, quantities and totals are JavaScript numbers in the code. Floating-point rounding of very large totals is not modelled, and neither is the dollar formatting of the client.
- `votes.getUserVotes`, `posts.getByUserId`, `users.getUserById`, `posts.generateUploadUrl` and `products.generateUploadUrl` are not modelled. They are reads that join tables for display, or storage upload URLs.
- Image generation, rate limits, seeding, authentication configuration and the user interface are not part of this model.

## Findings

| source | as written | input that shows it | evidently intended | confidence | as-written member | corrected member |
|---|---|---|---|---|---|---|
| convex/cartItems.ts:25-31 | getMyCart resolves each product's image with `storage.getUrl(product.imageStorageId)` and no fallback | a cart line for a shirt made by createFromPost or createFromDesign, whose product has an imageUrl and no storage id: the query raises, so the cart cannot be shown | resolve the image as the product queries do (convex/products.ts:44-46): the stored file's URL when there is a storage id, the product's own imageUrl otherwise | medium: rests on the Convex client refusing a call without a storage id; not executed | CartItems.LineViewAsWritten, CartItems.GetMyCartAsWritten, Products.PostShirtBreaksCartAsWritten | CartItems.LineView, CartItems.CartOf, CartItems.GetMyCart |
