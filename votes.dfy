/** Voting (convex/votes.ts): one win-or-sin vote per user and post, mirrored in the post's
    `winCount` and `sinCount`. */
module Votes {
  import opened Wrappers
  import opened Store
  import Users

  /** What castVote did. */
  datatype VoteAction = Created | Removed | Switched

  /** The other verdict. */
  function Opposite(t: Verdict): Verdict {
    if t == Win then Sin else Win
  }

  /** The post's counter for `t`. */
  function Count(p: Post, t: Verdict): int {
    if t == Win then p.winCount else p.sinCount
  }

  /** The post with its counter for `t` set to `n`. */
  function WithCount(p: Post, t: Verdict, n: int): (q: Post)
    ensures Count(q, t) == n && Count(q, Opposite(t)) == Count(p, Opposite(t))
    ensures q.(winCount := p.winCount, sinCount := p.sinCount) == p
  {
    if t == Win then p.(winCount := n) else p.(sinCount := n)
  }

  /** `Math.max(0, n)`. */
  function Floor0(n: int): int {
    if n < 0 then 0 else n
  }

  /** The ids of the votes of type `t` on `postId`. */
  ghost function VotesFor(votes: map<Id, Vote>, postId: Id, t: Verdict): set<Id> {
    set id | id in votes && votes[id].postId == postId && votes[id].voteType == t
  }

  /** How many votes of type `t` the post has. */
  ghost function Tally(votes: map<Id, Vote>, postId: Id, t: Verdict): nat {
    |VotesFor(votes, postId, t)|
  }

  /** Every post's counters equal the number of its votes of each type. */
  ghost predicate TalliesExact(posts: map<Id, Post>, votes: map<Id, Vote>) {
    forall postId | postId in posts ::
      Count(posts[postId], Win) == Tally(votes, postId, Win)
      && Count(posts[postId], Sin) == Tally(votes, postId, Sin)
  }

  /** Inserting a vote under a fresh id adds one to its own post and type, nothing elsewhere. */
  lemma TallyAfterInsert(votes: map<Id, Vote>, id: Id, v: Vote, postId: Id, t: Verdict)
    requires id !in votes
    ensures Tally(votes[id := v], postId, t)
            == Tally(votes, postId, t) + (if v.postId == postId && v.voteType == t then 1 else 0)
  {
    if v.postId == postId && v.voteType == t {
      assert VotesFor(votes[id := v], postId, t) == VotesFor(votes, postId, t) + {id};
    } else {
      assert VotesFor(votes[id := v], postId, t) == VotesFor(votes, postId, t);
    }
  }

  /** Deleting a vote takes one from its own post and type, nothing elsewhere. */
  lemma TallyAfterDelete(votes: map<Id, Vote>, id: Id, postId: Id, t: Verdict)
    requires id in votes
    ensures Tally(votes - {id}, postId, t)
            == Tally(votes, postId, t) - (if votes[id].postId == postId && votes[id].voteType == t then 1 else 0)
  {
    if votes[id].postId == postId && votes[id].voteType == t {
      assert VotesFor(votes - {id}, postId, t) == VotesFor(votes, postId, t) - {id};
    } else {
      assert VotesFor(votes - {id}, postId, t) == VotesFor(votes, postId, t);
    }
  }

  /** Retyping a vote moves one from its old type to its new type on its post. */
  lemma TallyAfterRetype(votes: map<Id, Vote>, id: Id, t': Verdict, postId: Id, t: Verdict)
    requires id in votes
    ensures var v := votes[id];
            Tally(votes[id := v.(voteType := t')], postId, t)
            == Tally(votes, postId, t) - (if v.postId == postId && v.voteType == t then 1 else 0)
                                       + (if v.postId == postId && t' == t then 1 else 0)
  {
    var v := votes[id];
    assert votes[id := v.(voteType := t')] == (votes - {id})[id := v.(voteType := t')];
    TallyAfterDelete(votes, id, postId, t);
    TallyAfterInsert(votes - {id}, id, v.(voteType := t'), postId, t);
  }

  /** A vote counts towards its own post and type. */
  lemma TallyPositive(votes: map<Id, Vote>, id: Id)
    requires id in votes
    ensures Tally(votes, votes[id].postId, votes[id].voteType) >= 1
  {
    assert id in VotesFor(votes, votes[id].postId, votes[id].voteType);
  }

  /**
    castVote: a first vote is inserted and counted; casting the same vote again deletes it and
    uncounts it; casting the other vote retypes it and moves the count. Decrements are floored
    at 0. Not signed in, an unknown user and a missing post raise with nothing written.
   */
  method CastVote(db: Database, identity: Option<Identity>, postId: Id, voteType: Verdict)
    returns (r: Result<VoteAction, Error>)
    requires db.Valid()
    modifies db`votes, db`posts, db`nextVoteId
    ensures db.Valid()
    ensures identity.None? ==> r == Err(NotAuthenticated)
    ensures identity.Some? && old(Users.CurrentUser(db, identity)).None? ==> r == Err(UserNotFound)
    ensures old(Users.CurrentUser(db, identity)).Some? && postId !in old(db.posts) ==> r == Err(PostNotFound)
    ensures old(Users.CurrentUser(db, identity)).Some? && postId in old(db.posts) ==> r.Ok?
    ensures r.Err? ==> db.votes == old(db.votes) && db.posts == old(db.posts) && db.nextVoteId == old(db.nextVoteId)
    ensures r.Ok? ==>
              var userId := old(Users.CurrentUser(db, identity)).value;
              var existing := old(VoteOf(db, userId, postId));
              var post := old(db.posts)[postId];
              && (existing.None? ==>
                    && r.value == Created
                    && db.votes == old(db.votes)[old(db.nextVoteId) := Vote(userId, postId, voteType)]
                    && db.posts == old(db.posts)[postId := WithCount(post, voteType, Count(post, voteType) + 1)])
              && (existing.Some? && old(db.votes)[existing.value].voteType == voteType ==>
                    && r.value == Removed
                    && db.votes == old(db.votes) - {existing.value}
                    && db.posts == old(db.posts)[postId := WithCount(post, voteType, Floor0(Count(post, voteType) - 1))])
              && (existing.Some? && old(db.votes)[existing.value].voteType != voteType ==>
                    && r.value == Switched
                    && db.votes == old(db.votes)[existing.value := old(db.votes)[existing.value].(voteType := voteType)]
                    && db.posts == old(db.posts)[postId := WithCount(WithCount(post, voteType, Count(post, voteType) + 1),
                                                                     Opposite(voteType),
                                                                     Floor0(Count(post, Opposite(voteType)) - 1))])
    // the counters keep counting the votes
    ensures old(TalliesExact(db.posts, db.votes)) ==> TalliesExact(db.posts, db.votes)
  {
    if identity.None? {
      return Err(NotAuthenticated);
    }
    var user := UserBySubject(db, identity.value.subject);
    if user.None? {
      return Err(UserNotFound);
    }
    if postId !in db.posts {
      return Err(PostNotFound);
    }
    var action := ApplyVote(db, user.value, postId, voteType);
    r := Ok(action);
  }

  /** The signed-in user's vote on an existing post: inserted, deleted or retyped as castVote
      decides, with the counters following and kept exact. */
  method ApplyVote(db: Database, userId: Id, postId: Id, voteType: Verdict) returns (action: VoteAction)
    requires db.Valid() && postId in db.posts
    modifies db`votes, db`posts, db`nextVoteId
    ensures db.Valid()
    ensures var existing := old(VoteOf(db, userId, postId));
            var post := old(db.posts)[postId];
            && (existing.None? ==>
                  && action == Created
                  && db.votes == old(db.votes)[old(db.nextVoteId) := Vote(userId, postId, voteType)]
                  && db.posts == old(db.posts)[postId := WithCount(post, voteType, Count(post, voteType) + 1)])
            && (existing.Some? && old(db.votes)[existing.value].voteType == voteType ==>
                  && action == Removed
                  && db.votes == old(db.votes) - {existing.value}
                  && db.posts == old(db.posts)[postId := WithCount(post, voteType, Floor0(Count(post, voteType) - 1))])
            && (existing.Some? && old(db.votes)[existing.value].voteType != voteType ==>
                  && action == Switched
                  && db.votes == old(db.votes)[existing.value := old(db.votes)[existing.value].(voteType := voteType)]
                  && db.posts == old(db.posts)[postId := WithCount(WithCount(post, voteType, Count(post, voteType) + 1),
                                                                   Opposite(voteType),
                                                                   Floor0(Count(post, Opposite(voteType)) - 1))])
    ensures old(TalliesExact(db.posts, db.votes)) ==> TalliesExact(db.posts, db.votes)
  {
    var existing := VoteOf(db, userId, postId);
    ghost var votes0, posts0 := db.votes, db.posts;
    ghost var exact := TalliesExact(posts0, votes0);
    if existing.None? {
      ghost var id := db.nextVoteId;
      InsertVote(db, userId, postId, voteType);
      if exact {
        TalliesAfterCreate(posts0, votes0, id, Vote(userId, postId, voteType), posts0[postId]);
      }
      return Created;
    }
    if db.votes[existing.value].voteType == voteType {
      DeleteVote(db, existing.value, postId, voteType);
      if exact {
        TalliesAfterRemove(posts0, votes0, existing.value, posts0[postId]);
      }
      return Removed;
    }
    RetypeVote(db, existing.value, postId, voteType);
    if exact {
      TalliesAfterSwitch(posts0, votes0, existing.value, voteType, posts0[postId]);
    }
    action := Switched;
  }

  /** A first vote on the post: the vote is inserted and its counter goes up by one. */
  method InsertVote(db: Database, userId: Id, postId: Id, voteType: Verdict)
    requires db.Valid()
    requires postId in db.posts && VoteOf(db, userId, postId).None?
    modifies db`votes, db`posts, db`nextVoteId
    ensures db.Valid()
    ensures db.nextVoteId == old(db.nextVoteId) + 1
    ensures db.votes == old(db.votes)[old(db.nextVoteId) := Vote(userId, postId, voteType)]
    ensures var post := old(db.posts)[postId];
            db.posts == old(db.posts)[postId := WithCount(post, voteType, Count(post, voteType) + 1)]
  {
    var post := db.posts[postId];
    ghost var votes0, posts0 := db.votes, db.posts;
    var post' := WithCount(post, voteType, Count(post, voteType) + 1);
    assert Count(post', Win) >= 0 && Count(post', Sin) >= 0;
    var id := db.nextVoteId;
    db.nextVoteId := db.nextVoteId + 1;
    InsertKeepsIndexes(votes0, posts0, id, Vote(userId, postId, voteType), post');
    db.votes := db.votes[id := Vote(userId, postId, voteType)];
    db.posts := db.posts[postId := post'];
  }

  /** The same vote again: the vote is deleted and its counter goes down by one, floored at 0. */
  method DeleteVote(db: Database, voteId: Id, postId: Id, voteType: Verdict)
    requires db.Valid()
    requires voteId in db.votes && db.votes[voteId].postId == postId && db.votes[voteId].voteType == voteType
    modifies db`votes, db`posts
    ensures db.Valid()
    ensures db.votes == old(db.votes) - {voteId}
    ensures var post := old(db.posts)[postId];
            db.posts == old(db.posts)[postId := WithCount(post, voteType, Floor0(Count(post, voteType) - 1))]
  {
    var post := db.posts[postId];
    var post' := WithCount(post, voteType, Floor0(Count(post, voteType) - 1));
    assert Count(post', Win) >= 0 && Count(post', Sin) >= 0;
    DeleteKeepsIndexes(db.votes, db.posts, voteId, post');
    db.votes := db.votes - {voteId};
    db.posts := db.posts[postId := post'];
  }

  /** The other vote: the vote is retyped, the new counter goes up by one and the old one down
      by one, floored at 0. */
  method RetypeVote(db: Database, voteId: Id, postId: Id, voteType: Verdict)
    requires db.Valid()
    requires voteId in db.votes && db.votes[voteId].postId == postId && db.votes[voteId].voteType != voteType
    modifies db`votes, db`posts
    ensures db.Valid()
    ensures db.votes == old(db.votes)[voteId := old(db.votes)[voteId].(voteType := voteType)]
    ensures var post := old(db.posts)[postId];
            db.posts == old(db.posts)[postId := WithCount(WithCount(post, voteType, Count(post, voteType) + 1),
                                                          Opposite(voteType), Floor0(Count(post, Opposite(voteType)) - 1))]
  {
    var v := db.votes[voteId];
    var post := db.posts[postId];
    ghost var votes0, posts0 := db.votes, db.posts;
    var post' := WithCount(WithCount(post, voteType, Count(post, voteType) + 1),
                           Opposite(voteType), Floor0(Count(post, Opposite(voteType)) - 1));
    assert Count(post', Win) >= 0 && Count(post', Sin) >= 0 by {
      assert Opposite(Opposite(voteType)) == voteType;
    }
    RetypeKeepsIndexes(votes0, posts0, voteId, voteType, post');
    db.votes := db.votes[voteId := v.(voteType := voteType)];
    db.posts := db.posts[postId := post'];
  }

  /** Inserting a vote under an unused id, for a user and post that have none, keeps one vote
      per user and post and every vote on a known post; a post rewritten with non-negative
      counters keeps the counters non-negative. */
  lemma InsertKeepsIndexes(votes: map<Id, Vote>, posts: map<Id, Post>, id: Id, v: Vote, post: Post)
    requires id !in votes && v.postId in posts
    requires OneVotePerUserAndPost(votes) && VotesOnKnownPosts(votes, posts)
    requires forall other | other in votes :: !(votes[other].userId == v.userId && votes[other].postId == v.postId)
    requires CountersNonNegative(posts) && Count(post, Win) >= 0 && Count(post, Sin) >= 0
    ensures OneVotePerUserAndPost(votes[id := v])
    ensures VotesOnKnownPosts(votes[id := v], posts[v.postId := post])
    ensures CountersNonNegative(posts[v.postId := post])
  {
  }

  /** Deleting a vote keeps one vote per user and post and every vote on a known post; a post
      rewritten with non-negative counters keeps the counters non-negative. */
  lemma DeleteKeepsIndexes(votes: map<Id, Vote>, posts: map<Id, Post>, id: Id, post: Post)
    requires id in votes && OneVotePerUserAndPost(votes) && VotesOnKnownPosts(votes, posts)
    requires CountersNonNegative(posts) && Count(post, Win) >= 0 && Count(post, Sin) >= 0
    ensures OneVotePerUserAndPost(votes - {id})
    ensures VotesOnKnownPosts(votes - {id}, posts[votes[id].postId := post])
    ensures CountersNonNegative(posts[votes[id].postId := post])
  {
  }

  /** Retyping a vote keeps one vote per user and post and every vote on a known post, and a
      post rewritten with non-negative counters keeps the counters non-negative. */
  lemma RetypeKeepsIndexes(votes: map<Id, Vote>, posts: map<Id, Post>, id: Id, t: Verdict, post: Post)
    requires id in votes && OneVotePerUserAndPost(votes) && VotesOnKnownPosts(votes, posts)
    requires CountersNonNegative(posts) && Count(post, Win) >= 0 && Count(post, Sin) >= 0
    ensures OneVotePerUserAndPost(votes[id := votes[id].(voteType := t)])
    ensures VotesOnKnownPosts(votes[id := votes[id].(voteType := t)], posts[votes[id].postId := post])
    ensures CountersNonNegative(posts[votes[id].postId := post])
  {
    var votes' := votes[id := votes[id].(voteType := t)];
    forall a, b | a in votes' && b in votes' && votes'[a].userId == votes'[b].userId
                  && votes'[a].postId == votes'[b].postId
      ensures a == b
    {
      assert votes'[a].userId == votes[a].userId && votes'[a].postId == votes[a].postId;
      assert votes'[b].userId == votes[b].userId && votes'[b].postId == votes[b].postId;
    }
  }

  /** Counting a new vote keeps the counters exact. */
  lemma TalliesAfterCreate(posts: map<Id, Post>, votes: map<Id, Vote>, id: Id, v: Vote, post: Post)
    requires id !in votes && v.postId in posts && post == posts[v.postId]
    requires TalliesExact(posts, votes)
    ensures TalliesExact(posts[v.postId := WithCount(post, v.voteType, Count(post, v.voteType) + 1)],
                         votes[id := v])
  {
    var posts' := posts[v.postId := WithCount(post, v.voteType, Count(post, v.voteType) + 1)];
    forall postId | postId in posts'
      ensures Count(posts'[postId], Win) == Tally(votes[id := v], postId, Win)
      ensures Count(posts'[postId], Sin) == Tally(votes[id := v], postId, Sin)
    {
      TallyAfterInsert(votes, id, v, postId, Win);
      TallyAfterInsert(votes, id, v, postId, Sin);
    }
  }

  /** Uncounting a deleted vote, floored at 0, keeps the counters exact: the floor never bites,
      since the vote was counted. */
  lemma TalliesAfterRemove(posts: map<Id, Post>, votes: map<Id, Vote>, id: Id, post: Post)
    requires id in votes && votes[id].postId in posts && post == posts[votes[id].postId]
    requires TalliesExact(posts, votes)
    ensures var t := votes[id].voteType;
            TalliesExact(posts[votes[id].postId := WithCount(post, t, Floor0(Count(post, t) - 1))],
                         votes - {id})
  {
    var t := votes[id].voteType;
    var posts' := posts[votes[id].postId := WithCount(post, t, Floor0(Count(post, t) - 1))];
    TallyPositive(votes, id);
    forall postId | postId in posts'
      ensures Count(posts'[postId], Win) == Tally(votes - {id}, postId, Win)
      ensures Count(posts'[postId], Sin) == Tally(votes - {id}, postId, Sin)
    {
      TallyAfterDelete(votes, id, postId, Win);
      TallyAfterDelete(votes, id, postId, Sin);
    }
  }

  /** Moving a retyped vote's count, floored at 0, keeps the counters exact. */
  lemma TalliesAfterSwitch(posts: map<Id, Post>, votes: map<Id, Vote>, id: Id, t: Verdict, post: Post)
    requires id in votes && votes[id].postId in posts && post == posts[votes[id].postId]
    requires votes[id].voteType != t
    requires TalliesExact(posts, votes)
    ensures TalliesExact(posts[votes[id].postId := WithCount(WithCount(post, t, Count(post, t) + 1),
                                                            Opposite(t), Floor0(Count(post, Opposite(t)) - 1))],
                         votes[id := votes[id].(voteType := t)])
  {
    var posts' := posts[votes[id].postId := WithCount(WithCount(post, t, Count(post, t) + 1),
                                                     Opposite(t), Floor0(Count(post, Opposite(t)) - 1))];
    TallyPositive(votes, id);
    assert votes[id].voteType == Opposite(t);
    forall postId | postId in posts'
      ensures Count(posts'[postId], Win) == Tally(votes[id := votes[id].(voteType := t)], postId, Win)
      ensures Count(posts'[postId], Sin) == Tally(votes[id := votes[id].(voteType := t)], postId, Sin)
    {
      TallyAfterRetype(votes, id, t, postId, Win);
      TallyAfterRetype(votes, id, t, postId, Sin);
    }
  }

  /** An empty deployment's counters are exact. */
  lemma EmptyTalliesExact()
    ensures TalliesExact(map[], map[])
  {
  }

  /** getUserVoteForPost: the caller's vote on the post, none when not signed in, unknown, or
      not voted. */
  function GetUserVoteForPost(db: Database, identity: Option<Identity>, postId: Id): (r: Option<Vote>)
    reads db
    requires db.Valid()
    ensures r.Some? <==> Users.CurrentUser(db, identity).Some?
                         && exists id | id in db.votes :: db.votes[id].userId == Users.CurrentUser(db, identity).value
                                                           && db.votes[id].postId == postId
    ensures r.Some? ==> r.value.userId == Users.CurrentUser(db, identity).value && r.value.postId == postId
                        && r.value in db.votes.Values
  {
    var user := Users.CurrentUser(db, identity);
    if user.None? then None
    else
      var id := VoteOf(db, user.value, postId);
      if id.None? then None else Some(db.votes[id.value])
  }

  /** The loop of getUserVotesMap: maps each listed vote's post to the vote's type. The listed
      votes are on distinct posts, so no entry overwrites another. */
  method VotesByPost(votes: map<Id, Vote>, ids: seq<Id>) returns (m: map<Id, Verdict>)
    requires forall k | 0 <= k < |ids| :: ids[k] in votes
    requires forall j, k | 0 <= j < k < |ids| :: votes[ids[j]].postId != votes[ids[k]].postId
    ensures forall k | 0 <= k < |ids| :: votes[ids[k]].postId in m
                                         && m[votes[ids[k]].postId] == votes[ids[k]].voteType
    ensures forall postId | postId in m :: exists k | 0 <= k < |ids| :: votes[ids[k]].postId == postId
  {
    m := map[];
    var i := 0;
    while i < |ids|
      invariant 0 <= i <= |ids|
      invariant forall k | 0 <= k < i :: votes[ids[k]].postId in m
                                         && m[votes[ids[k]].postId] == votes[ids[k]].voteType
      invariant forall postId | postId in m :: exists k | 0 <= k < i :: votes[ids[k]].postId == postId
    {
      var vote := votes[ids[i]];
      m := m[vote.postId := vote.voteType];
      i := i + 1;
    }
  }

  /** A map holding, for every vote of the user, its post mapped to its type, and no other post,
      maps exactly the posts the user voted on to that vote's type: the user has one vote per
      post. */
  lemma UserVotesMapExact(db: Database, userId: Id, ids: seq<Id>, m: map<Id, Verdict>)
    requires db.Valid()
    requires forall k | 0 <= k < |ids| :: ids[k] in db.votes && db.votes[ids[k]].userId == userId
    requires forall id | id in db.votes && db.votes[id].userId == userId :: id in ids
    requires forall k | 0 <= k < |ids| :: db.votes[ids[k]].postId in m
                                          && m[db.votes[ids[k]].postId] == db.votes[ids[k]].voteType
    requires forall postId | postId in m :: exists k | 0 <= k < |ids| :: db.votes[ids[k]].postId == postId
    ensures forall postId | postId in m ::
              VoteOf(db, userId, postId).Some? && m[postId] == db.votes[VoteOf(db, userId, postId).value].voteType
    ensures forall postId | VoteOf(db, userId, postId).Some? :: postId in m
  {
    forall postId | postId in m
      ensures VoteOf(db, userId, postId).Some? && m[postId] == db.votes[VoteOf(db, userId, postId).value].voteType
    {
      var k :| 0 <= k < |ids| && db.votes[ids[k]].postId == postId;
      assert VoteOf(db, userId, postId).value == ids[k];
    }
    forall postId | VoteOf(db, userId, postId).Some?
      ensures postId in m
    {
      var id := VoteOf(db, userId, postId).value;
      var k :| 0 <= k < |ids| && ids[k] == id;
    }
  }

  /** getUserVotesMap: each post the caller voted on, mapped to that vote's type; empty when not
      signed in or unknown. */
  method GetUserVotesMap(db: Database, identity: Option<Identity>) returns (m: map<Id, Verdict>)
    requires db.Valid()
    ensures Users.CurrentUser(db, identity).None? ==> m == map[]
    ensures forall postId | postId in m ::
              GetUserVoteForPost(db, identity, postId).Some?
              && m[postId] == GetUserVoteForPost(db, identity, postId).value.voteType
    ensures forall postId | GetUserVoteForPost(db, identity, postId).Some? :: postId in m
  {
    var user := Users.CurrentUser(db, identity);
    m := map[];
    if user.None? {
      return;
    }
    var ids := OldestFirst(db.votes, (v: Vote) => v.userId == user.value, db.nextVoteId);
    forall j, k | 0 <= j < k < |ids|
      ensures db.votes[ids[j]].postId != db.votes[ids[k]].postId
    {
      assert ids[j] != ids[k];
    }
    m := VotesByPost(db.votes, ids);
    UserVotesMapExact(db, user.value, ids, m);
  }
}
