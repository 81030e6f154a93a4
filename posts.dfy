/** The feed (convex/posts.ts): posting, the newest-first list, and the trending and featured
    selections ranked by total votes. */
module Posts {
  import opened Wrappers
  import opened Store
  import Users
  import Votes

  /** A post as the feed shows it: the document, its stored image's URL, and its author's name
      ("Unknown" when the author is gone) and avatar. */
  datatype PostView = PostView(id: Id, post: Post, imageUrl: Option<string>, authorName: string,
                               authorAvatar: Option<string>)

  /** The view of post `id`. */
  function View(db: Database, id: Id): (r: PostView)
    reads db
    requires id in db.posts
    ensures r.id == id && r.post == db.posts[id]
    ensures r.imageUrl == GetUrl(db.files, r.post.imageStorageId)
    ensures r.post.userId !in db.users ==> r.authorName == "Unknown" && r.authorAvatar.None?
    ensures r.post.userId in db.users ==> r.authorName == db.users[r.post.userId].name
                                          && r.authorAvatar == db.users[r.post.userId].avatarUrl
  {
    var post := db.posts[id];
    var imageUrl := GetUrl(db.files, post.imageStorageId);
    if post.userId in db.users then
      PostView(id, post, imageUrl, db.users[post.userId].name, db.users[post.userId].avatarUrl)
    else PostView(id, post, imageUrl, "Unknown", None)
  }

  /** The views of the posts `ids`, in the same order. */
  function Views(db: Database, ids: seq<Id>): (r: seq<PostView>)
    reads db
    requires forall i | 0 <= i < |ids| :: ids[i] in db.posts
    ensures |r| == |ids| && forall i | 0 <= i < |ids| :: r[i] == View(db, ids[i])
  {
    var views := seq(|ids|, i requires 0 <= i < |ids| && ids[i] in db.posts reads db => View(db, ids[i]));
    assert forall i | 0 <= i < |ids| :: views[i] == View(db, ids[i]);
    views
  }

  /** Whether a post is in the category asked for; every post is when none is asked for. */
  function InCategory(category: Option<Verdict>): Post -> bool {
    (p: Post) => category.None? || p.category == category.value
  }

  /** The ids list shows: the 50 newest posts of the category, or of all posts when none is
      given. */
  function ListIds(db: Database, category: Option<Verdict>): (r: seq<Id>)
    reads db
    requires db.Valid()
    ensures |r| <= 50
    ensures forall i | 0 <= i < |r| ::
              r[i] in db.posts && (category.Some? ==> db.posts[r[i]].category == category.value)
    ensures forall i, j | 0 <= i < j < |r| :: r[i] > r[j]
  {
    Take(NewestFirst(db.posts, InCategory(category), db.nextPostId), 50)
  }

  /** list: the 50 newest posts, of the category when one is given, newest first. */
  function List(db: Database, category: Option<Verdict>): (r: seq<PostView>)
    reads db
    requires db.Valid()
    ensures |r| <= 50
    ensures forall i | 0 <= i < |r| ::
              r[i].id in db.posts && r[i] == View(db, r[i].id)
              && (category.Some? ==> r[i].post.category == category.value)
    ensures forall i, j | 0 <= i < j < |r| :: r[i].id > r[j].id
    ensures |r| == |ListIds(db, category)| && forall i | 0 <= i < |r| :: r[i].id == ListIds(db, category)[i]
  {
    Views(db, ListIds(db, category))
  }

  /** A post of the category whose id list leaves out is older than every post it shows, and
      is left out only because 50 are shown. */
  lemma {:induction false} ListHoldsNewest(db: Database, category: Option<Verdict>, id: Id)
    requires db.Valid()
    requires id in db.posts && (category.None? || db.posts[id].category == category.value)
    requires id !in ListIds(db, category)
    ensures |ListIds(db, category)| == 50
    ensures forall x | x in ListIds(db, category) :: x > id
  {
    NewestWindowIsNewest(db.posts, InCategory(category), db.nextPostId, 50, id);
  }

  /** The ranking score: total votes. */
  function Score(p: Post): int {
    p.winCount + p.sinCount
  }

  /** Non-increasing by total votes. */
  predicate ByScore(s: seq<PostView>) {
    forall i, j | 0 <= i < j < |s| :: Score(s[i].post) >= Score(s[j].post)
  }

  /** Inserts `x` before the first element that does not outscore it. */
  function Insert(x: PostView, s: seq<PostView>): (r: seq<PostView>)
    ensures multiset(r) == multiset(s) + multiset{x}
  {
    if s == [] || Score(x.post) >= Score(s[0].post) then [x] + s
    else
      assert s == [s[0]] + s[1..];
      [s[0]] + Insert(x, s[1..])
  }

  /** Inserting into a ranked sequence keeps it ranked. */
  lemma {:induction false} InsertKeepsRank(x: PostView, s: seq<PostView>)
    requires ByScore(s)
    ensures ByScore(Insert(x, s))
  {
    if s != [] && Score(x.post) < Score(s[0].post) {
      var rest := Insert(x, s[1..]);
      InsertKeepsRank(x, s[1..]);
      forall y | y in rest
        ensures Score(y.post) <= Score(s[0].post)
      {
        assert y in multiset(rest);
        if y != x {
          assert y in multiset(s[1..]);
        }
      }
      assert Insert(x, s) == [s[0]] + rest;
    }
  }

  /** `posts.sort((a, b) => score(b) - score(a))`: the same posts, by total votes, highest
      first (an insertion sort). */
  function SortByScore(s: seq<PostView>): (r: seq<PostView>)
    ensures multiset(r) == multiset(s)
    ensures ByScore(r)
  {
    if s == [] then []
    else
      assert s == [s[0]] + s[1..];
      InsertKeepsRank(s[0], SortByScore(s[1..]));
      Insert(s[0], SortByScore(s[1..]))
  }

  /** Every post. */
  function AnyPost(): Post -> bool {
    (p: Post) => true
  }

  /** The views of the `window` newest posts, newest first: a post left out is older than every
      post shown, and is left out only when the window is full. */
  function Window(db: Database, window: nat): (r: seq<PostView>)
    reads db
    requires db.Valid()
    ensures |r| <= window
    ensures forall v | v in r :: v.id in db.posts && v == View(db, v.id)
    ensures forall i, j | 0 <= i < j < |r| :: r[i].id > r[j].id
    ensures forall id | id in db.posts && (forall v | v in r :: v.id != id) ::
              |r| == window && forall v | v in r :: v.id > id
  {
    var ids := Take(NewestFirst(db.posts, AnyPost(), db.nextPostId), window);
    var r := Views(db, ids);
    NewestViews(db.posts, db.nextPostId, window, r);
    r
  }

  /** Views that follow the `window` newest post ids, one for one, are newest first, and a
      post they leave out is older than all of them, with the window full. */
  lemma {:induction false} NewestViews(posts: map<Id, Post>, below: nat, window: nat, r: seq<PostView>)
    requires Below(posts, below)
    requires |r| == |Take(NewestFirst(posts, AnyPost(), below), window)|
    requires forall i | 0 <= i < |r| :: r[i].id == Take(NewestFirst(posts, AnyPost(), below), window)[i]
    ensures forall i, j | 0 <= i < j < |r| :: r[i].id > r[j].id
    ensures forall id | id in posts && (forall v | v in r :: v.id != id) ::
              |r| == window && forall v | v in r :: v.id > id
  {
    var ids := Take(NewestFirst(posts, AnyPost(), below), window);
    forall id | id in posts && (forall v | v in r :: v.id != id)
      ensures |r| == window && forall v | v in r :: v.id > id
    {
      NewestWindowIsNewest(posts, AnyPost(), below, window, id);
      forall v | v in r
        ensures v.id > id
      {
        var i :| 0 <= i < |r| && r[i] == v;
        assert ids[i] in ids;
      }
    }
  }

  /** The `count` highest-voted of `pool`: as many as the pool holds up to `count`, each taken
      from the pool no more often than it is there, highest-voted first. */
  function Ranked(pool: seq<PostView>, count: nat): (r: seq<PostView>)
    ensures |r| == if |pool| < count then |pool| else count
    ensures multiset(r) <= multiset(pool)
    ensures ByScore(r)
  {
    var sorted := SortByScore(pool);
    assert |sorted| == |multiset(sorted)| == |multiset(pool)| == |pool|;
    var r := Take(sorted, count);
    assert sorted == r + sorted[|r|..];
    r
  }

  /** The `window` newest posts, ranked by total votes, cut to the first `count`. */
  function Top(db: Database, window: nat, count: nat): (r: seq<PostView>)
    reads db
    requires db.Valid()
    ensures r == Ranked(Window(db, window), count)
    ensures |r| == if |Window(db, window)| < count then |Window(db, window)| else count
    ensures multiset(r) <= multiset(Window(db, window))
    ensures ByScore(r)
  {
    Ranked(Window(db, window), count)
  }

  /** What the ranking leaves out of the pool scores no higher than anything it keeps, and it
      keeps a full `count`. */
  lemma {:induction false} RankedOutscoresTheRest(pool: seq<PostView>, count: nat, v: PostView)
    requires v in pool && v !in Ranked(pool, count)
    ensures |Ranked(pool, count)| == count
    ensures forall w | w in Ranked(pool, count) :: Score(w.post) >= Score(v.post)
  {
    var sorted := SortByScore(pool);
    var top := Ranked(pool, count);
    assert top == Take(sorted, count);
    assert v in multiset(pool);
    assert v in multiset(sorted);
    var k :| 0 <= k < |sorted| && sorted[k] == v;
    forall w | w in top
      ensures Score(w.post) >= Score(v.post)
    {
      var i :| 0 <= i < |top| && top[i] == w;
      assert sorted[i] == w;
    }
  }

  /** trending: the 20 highest-voted of the 100 newest posts. */
  function Trending(db: Database): (r: seq<PostView>)
    reads db
    requires db.Valid()
    ensures r == Ranked(Window(db, 100), 20)
    ensures |r| == if |Window(db, 100)| < 20 then |Window(db, 100)| else 20
    ensures multiset(r) <= multiset(Window(db, 100)) && ByScore(r)
  {
    Top(db, 100, 20)
  }

  /** featured: the 6 highest-voted of the 50 newest posts. */
  function Featured(db: Database): (r: seq<PostView>)
    reads db
    requires db.Valid()
    ensures r == Ranked(Window(db, 50), 6)
    ensures |r| == if |Window(db, 50)| < 6 then |Window(db, 50)| else 6
    ensures multiset(r) <= multiset(Window(db, 50)) && ByScore(r)
  {
    Top(db, 50, 6)
  }

  /** getById: the post's view, or none. */
  function GetById(db: Database, postId: Id): (r: Option<PostView>)
    reads db
    ensures r.Some? <==> postId in db.posts
    ensures r.Some? ==> r.value == View(db, postId)
  {
    if postId in db.posts then Some(View(db, postId)) else None
  }

  /** A new post has no votes yet, so counters at zero keep every post's counters exact. */
  lemma NewPostTalliesExact(posts: map<Id, Post>, votes: map<Id, Vote>, id: Id, p: Post)
    requires id !in posts && VotesOnKnownPosts(votes, posts)
    requires p.winCount == 0 && p.sinCount == 0
    requires Votes.TalliesExact(posts, votes)
    ensures Votes.TalliesExact(posts[id := p], votes)
  {
    assert Votes.VotesFor(votes, id, Win) == {};
    assert Votes.VotesFor(votes, id, Sin) == {};
  }

  /** create: the caller's post, with both counters at zero. */
  method Create(db: Database, identity: Option<Identity>, imageStorageId: Id, title: string,
                description: Option<string>, category: Verdict) returns (r: Result<Id, Error>)
    requires db.Valid()
    modifies db`posts, db`nextPostId
    ensures db.Valid()
    ensures identity.None? ==> r == Err(NotAuthenticated)
    ensures identity.Some? && old(Users.CurrentUser(db, identity)).None? ==> r == Err(UserNotFound)
    ensures old(Users.CurrentUser(db, identity)).Some? ==>
              && r == Ok(old(db.nextPostId))
              && db.posts == old(db.posts)[r.value := Post(old(Users.CurrentUser(db, identity)).value,
                                                           Some(imageStorageId), None, title, description,
                                                           category, 0, 0)]
    ensures r.Err? ==> db.posts == old(db.posts) && db.nextPostId == old(db.nextPostId)
    ensures old(Votes.TalliesExact(db.posts, db.votes)) ==> Votes.TalliesExact(db.posts, db.votes)
  {
    if identity.None? {
      return Err(NotAuthenticated);
    }
    var user := UserBySubject(db, identity.value.subject);
    if user.None? {
      return Err(UserNotFound);
    }
    ghost var posts0 := db.posts;
    var id := db.nextPostId;
    db.nextPostId := db.nextPostId + 1;
    var post := Post(user.value, Some(imageStorageId), None, title, description, category, 0, 0);
    db.posts := db.posts[id := post];
    if Votes.TalliesExact(posts0, db.votes) {
      NewPostTalliesExact(posts0, db.votes, id, post);
    }
    r := Ok(id);
  }
}
