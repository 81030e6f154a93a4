/** Generated shirt designs (convex/designs.ts): a design is recorded as generating, then
    completed with its image or marked failed. */
module Designs {
  import opened Wrappers
  import opened Store
  import Users

  /** startGeneration: records the caller's prompt and model as a design being generated. */
  method StartGeneration(db: Database, identity: Option<Identity>, prompt: string, model: Option<string>)
    returns (r: Result<Id, Error>)
    requires db.Valid()
    modifies db`designs, db`nextDesignId
    ensures db.Valid()
    ensures identity.None? ==> r == Err(NotAuthenticated)
    ensures identity.Some? && old(Users.CurrentUser(db, identity)).None? ==> r == Err(UserNotFound)
    ensures r.Err? ==> db.designs == old(db.designs) && db.nextDesignId == old(db.nextDesignId)
    ensures old(Users.CurrentUser(db, identity)).Some? ==>
              && r == Ok(old(db.nextDesignId))
              && db.designs == old(db.designs)[r.value := Design(old(Users.CurrentUser(db, identity)).value,
                                                                 prompt, model, None, None, Generating)]
  {
    if identity.None? {
      return Err(NotAuthenticated);
    }
    var user := UserBySubject(db, identity.value.subject);
    if user.None? {
      return Err(UserNotFound);
    }
    var id := db.nextDesignId;
    db.nextDesignId := db.nextDesignId + 1;
    db.designs := db.designs[id := Design(user.value, prompt, model, None, None, Generating)];
    r := Ok(id);
  }

  /** completeGeneration: sets the image URL and "complete", whatever the status was; patching a
      missing design throws. */
  method CompleteGeneration(db: Database, designId: Id, imageUrl: string) returns (r: Outcome<Error>)
    requires db.Valid()
    modifies db`designs
    ensures db.Valid()
    ensures designId !in old(db.designs) ==> r == Fail(DocumentNotFound(designId)) && db.designs == old(db.designs)
    ensures designId in old(db.designs) ==>
              r == Pass
              && db.designs == old(db.designs)[designId := old(db.designs)[designId].(imageUrl := Some(imageUrl),
                                                                                       status := Complete)]
  {
    if designId !in db.designs {
      return Fail(DocumentNotFound(designId));
    }
    db.designs := db.designs[designId := db.designs[designId].(imageUrl := Some(imageUrl), status := Complete)];
    r := Pass;
  }

  /** failGeneration: sets "failed" and nothing else, whatever the status was. */
  method FailGeneration(db: Database, designId: Id) returns (r: Outcome<Error>)
    requires db.Valid()
    modifies db`designs
    ensures db.Valid()
    ensures designId !in old(db.designs) ==> r == Fail(DocumentNotFound(designId)) && db.designs == old(db.designs)
    ensures designId in old(db.designs) ==>
              r == Pass
              && db.designs == old(db.designs)[designId := old(db.designs)[designId].(status := GenerationFailed)]
  {
    if designId !in db.designs {
      return Fail(DocumentNotFound(designId));
    }
    db.designs := db.designs[designId := db.designs[designId].(status := GenerationFailed)];
    r := Pass;
  }

  /** getUserDesigns: the caller's 50 newest designs, newest first; none when not signed in or
      unknown. */
  function GetUserDesigns(db: Database, identity: Option<Identity>): (r: seq<Id>)
    reads db
    requires db.Valid()
    ensures Users.CurrentUser(db, identity).None? ==> r == []
    ensures |r| <= 50
    ensures forall i | 0 <= i < |r| ::
              r[i] in db.designs && Users.CurrentUser(db, identity) == Some(db.designs[r[i]].userId)
    ensures forall i, j | 0 <= i < j < |r| :: r[i] > r[j]
    // a design of the caller's left out is older than all 50 shown
    ensures forall id | id in db.designs && Users.CurrentUser(db, identity) == Some(db.designs[id].userId)
                        && id !in r :: |r| == 50 && forall x | x in r :: x > id
  {
    match Users.CurrentUser(db, identity)
    case None => []
    case Some(userId) =>
      var keep := (d: Design) => d.userId == userId;
      var r := Take(NewestFirst(db.designs, keep, db.nextDesignId), 50);
      assert forall id | id in db.designs && keep(db.designs[id]) && id !in r :: |r| == 50 && forall x | x in r :: x > id by {
        forall id | id in db.designs && keep(db.designs[id]) && id !in r
          ensures |r| == 50 && forall x | x in r :: x > id
        {
          NewestWindowIsNewest(db.designs, keep, db.nextDesignId, 50, id);
        }
      }
      r
  }

  /** recentPublicDesigns: the 20 newest complete designs, newest first. */
  function RecentPublicDesigns(db: Database): (r: seq<Id>)
    reads db
    requires db.Valid()
    ensures |r| <= 20
    ensures forall i | 0 <= i < |r| :: r[i] in db.designs && db.designs[r[i]].status == Complete
    ensures forall i, j | 0 <= i < j < |r| :: r[i] > r[j]
    ensures forall id | id in db.designs && db.designs[id].status == Complete && id !in r ::
              |r| == 20 && forall x | x in r :: x > id
  {
    var keep := (d: Design) => d.status == Complete;
    var r := Take(NewestFirst(db.designs, keep, db.nextDesignId), 20);
    assert forall id | id in db.designs && keep(db.designs[id]) && id !in r :: |r| == 20 && forall x | x in r :: x > id by {
      forall id | id in db.designs && keep(db.designs[id]) && id !in r
        ensures |r| == 20 && forall x | x in r :: x > id
      {
        NewestWindowIsNewest(db.designs, keep, db.nextDesignId, 20, id);
      }
    }
    r
  }
}
