/** User provisioning (convex/users.ts): one user document per signed-in identity. */
module Users {
  import opened Wrappers
  import opened Store

  /** The caller's user id: none when not signed in or when no user has the identity's
      subject as `workosId`. */
  function CurrentUser(db: Database, identity: Option<Identity>): (r: Option<Id>)
    reads db`users, db`nextUserId
    requires db.UsersIndexed()
    ensures r.Some? ==> identity.Some? && r.value in db.users
                        && db.users[r.value].workosId == identity.value.subject
    ensures r.None? <==> identity.None?
                         || forall id | id in db.users :: db.users[id].workosId != identity.value.subject
  {
    match identity
    case None => None
    case Some(who) => UserBySubject(db, who.subject)
  }

  /** The document a first sign-in creates: name "Anonymous" and email "" when the identity has
      none, role "user". */
  function NewUser(who: Identity): (u: User)
    ensures u.workosId == who.subject && u.avatarUrl == who.pictureUrl && u.role == Member
    ensures u.name == if who.name.Some? then who.name.value else "Anonymous"
    ensures u.email == if who.email.Some? then who.email.value else ""
  {
    User(who.subject, who.name.GetOr("Anonymous"), who.email.GetOr(""), who.pictureUrl, Member)
  }

  /** Returns the caller's user id, inserting the user on the first call. */
  method GetOrCreateUser(db: Database, identity: Option<Identity>) returns (r: Result<Id, Error>)
    requires db.Valid()
    modifies db`users, db`nextUserId
    ensures db.Valid()
    ensures identity.None? ==> r == Err(NotAuthenticated)
    ensures identity.Some? ==> r.Ok?
    ensures r.Ok? ==> CurrentUser(db, identity) == Some(r.value)
    ensures old(CurrentUser(db, identity)).Some? || identity.None? ==>
              db.users == old(db.users) && db.nextUserId == old(db.nextUserId)
    ensures old(CurrentUser(db, identity)).Some? ==> r == Ok(old(CurrentUser(db, identity)).value)
    ensures identity.Some? && old(CurrentUser(db, identity)).None? ==>
              r == Ok(old(db.nextUserId))
              && db.users == old(db.users)[old(db.nextUserId) := NewUser(identity.value)]
  {
    if identity.None? {
      return Err(NotAuthenticated);
    }
    var existing := UserBySubject(db, identity.value.subject);
    if existing.Some? {
      return Ok(existing.value);
    }
    var id := db.nextUserId;
    db.nextUserId := db.nextUserId + 1;
    db.users := db.users[id := NewUser(identity.value)];
    r := Ok(id);
  }

  /** Two sign-ins of the same identity: the second inserts nothing and returns the same id, and
      exactly one user carries the identity's subject. */
  method GetOrCreateUserTwice(db: Database, who: Identity) returns (first: Result<Id, Error>,
                                                                    second: Result<Id, Error>)
    requires db.Valid()
    modifies db`users, db`nextUserId
    ensures db.Valid()
    ensures first.Ok? && first == second
    ensures forall id | id in db.users :: db.users[id].workosId == who.subject <==> id == first.value
  {
    first := GetOrCreateUser(db, Some(who));
    ghost var afterFirst := db.users;
    second := GetOrCreateUser(db, Some(who));
    assert db.users == afterFirst;
  }
}
