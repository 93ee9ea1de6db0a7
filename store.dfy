/** The in-memory user store: records keyed by identifier, an upsert that
    assigns identifiers, and lookups that report absence as a value. */
module Store {
  import opened Common
  import opened UserDomain

  /** Some stored record has this email and this status. */
  ghost predicate HasMatch(users: map<int, User>, email: string, status: UserStatus) {
    exists k :: k in users && users[k].email == email && users[k].status == status
  }

  /** Supplies the witness for picking a key out of the keys not yet scanned. */
  lemma NonEmptyHasKey(s: set<int>)
    requires s != {}
    ensures exists k :: k in s
  {
    if forall k :: k !in s {
      assert false;
    }
  }

  class UserRepository {
    var users: map<int, User>
    /** The next identifier the store hands out; above every stored key. */
    var nextId: int

    /** Each record sits under its own identifier, and no key reaches nextId. */
    ghost predicate Valid()
      reads this
    {
      forall k :: k in users ==> users[k].id == Some(k) && k < nextId
    }

    constructor ()
      ensures Valid() && users == map[] && nextId == 1
    {
      users := map[];
      nextId := 1;
    }

    /** Upsert. A record without an identifier is inserted under a fresh one;
        a record with one replaces whatever is stored under it. */
    method Save(u: User) returns (saved: User)
      requires Valid()
      modifies this
      ensures Valid()
      ensures u.id.None? ==> saved == u.(id := Some(old(nextId))) && old(nextId) !in old(users)
      ensures u.id.Some? ==> saved == u
      ensures saved.id.Some? && users == old(users)[saved.id.value := saved]
      ensures u.id.None? ==> nextId == old(nextId) + 1
      ensures u.id.Some? ==> nextId == if old(nextId) <= u.id.value then u.id.value + 1 else old(nextId)
    {
      if u.id.None? {
        saved := u.(id := Some(nextId));
        nextId := nextId + 1;
      } else {
        saved := u;
        if nextId <= u.id.value {
          nextId := u.id.value + 1;
        }
      }
      users := users[saved.id.value := saved];
    }

    /** The record stored under `id`, if any. */
    method FindById(id: int) returns (r: Option<User>)
      ensures r.Some? <==> id in users
      ensures r.Some? ==> r.value == users[id]
    {
      if id in users {
        r := Some(users[id]);
      } else {
        r := None;
      }
    }

    /** Like FindById, but absence is the ResourceNotFound failure. */
    method GetById(id: int) returns (r: Result<User>)
      ensures r.Success? <==> id in users
      ensures r.Success? ==> r.value == users[id]
      ensures r.Failure? ==> r.error == ResourceNotFound
    {
      if id in users {
        r := Success(users[id]);
      } else {
        r := Failure(ResourceNotFound);
      }
    }

    /** Any one stored record with this email and this status. Emails are not
        unique, so which of several matches is returned is left open. */
    method FindByEmailAndStatus(email: string, status: UserStatus) returns (r: Option<User>)
      requires Valid()
      ensures r.Some? <==> HasMatch(users, email, status)
      ensures r.Some? ==> r.value.id.Some? && r.value.id.value in users && users[r.value.id.value] == r.value
      ensures r.Some? ==> r.value.email == email && r.value.status == status
    {
      var unseen := users.Keys;
      while unseen != {}
        invariant unseen <= users.Keys
        invariant forall k :: k in users && k !in unseen ==> users[k].email != email || users[k].status != status
        decreases unseen
      {
        NonEmptyHasKey(unseen);
        var k :| k in unseen;
        if users[k].email == email && users[k].status == status {
          return Some(users[k]);
        }
        unseen := unseen - {k};
      }
      r := None;
    }
  }
}
