/** The user service of the api module
    (api/src/main/kotlin/com/itsz/app/auth/service/UserService.kt): the user
    table, password encoding on the way in, and a domain event for every
    change. */
module ApiUserService {

  import opened Wrappers
  import opened Text
  import opened Events

  /** The role of a user account (`com.itsz.app.auth.model.Role`). */
  datatype Role = Role(id: Option<int>, name: string)

  /** `com.itsz.app.auth.model.User`: a `null` id until saved; the password
      is optional. */
  datatype User = User(id: Option<int>, username: string, email: string, password: Option<string>, roles: seq<Role>)

  /** The password stored by an update: the old one when the request carries
      none (null or blank), the encoding of the new one otherwise. */
  function StoredPassword(existing: Option<string>, requested: Option<string>, encode: string -> string): (r: Option<string>)
    ensures IsNullOrBlank(requested) ==> r == existing
    ensures !IsNullOrBlank(requested) ==> r == Some(encode(requested.value))
  {
    if IsNullOrBlank(requested) then existing else Some(encode(requested.value))
  }

  class UserService {
    /** The user table, keyed by id. */
    var users: map<int, User>
    /** `PasswordEncoder.encode`. */
    const passwordEncoder: string -> string
    const eventPublisher: DomainEventPublisher

    /** Every stored user carries the key it is stored under. */
    ghost predicate Valid()
      reads this
    {
      forall id :: id in users ==> users[id].id == Some(id)
    }

    constructor (encoder: string -> string, publisher: DomainEventPublisher)
      ensures Valid()
      ensures users == map[] && passwordEncoder == encoder && eventPublisher == publisher
    {
      users := map[];
      passwordEncoder := encoder;
      eventPublisher := publisher;
    }

    /** `getAllUsers`: every stored user, in no particular order. */
    method GetAllUsers() returns (r: set<User>)
      ensures forall id :: id in users ==> users[id] in r
      ensures forall u :: u in r ==> exists id :: id in users && users[id] == u
    {
      r := set id | id in users :: users[id];
    }

    /** `getUserById`: the user stored under `id`, if any. */
    method GetUserById(id: int) returns (r: Option<User>)
      requires Valid()
      ensures r.Some? <==> id in users
      ensures r.Some? ==> r.value == users[id] && r.value.id == Some(id)
    {
      r := if id in users then Some(users[id]) else None;
    }

    /** `getUserByUsername`: some user with that name, or `null`. */
    method GetUserByUsername(username: string) returns (r: Option<User>)
      ensures r.None? <==> forall id :: id in users ==> users[id].username != username
      ensures r.Some? ==> r.value in users.Values && r.value.username == username
    {
      if id :| id in users && users[id].username == username {
        r := Some(users[id]);
      } else {
        r := None;
      }
    }

    /** `createUser`: a present password is stored encoded, a missing one
        stays missing; `generatedId` is the id the database assigns to a user
        without one. */
    method CreateUser(user: User, generatedId: int, principal: Option<string>, now: int)
      returns (saved: User)
      requires Valid()
      modifies this, eventPublisher
      ensures Valid()
      ensures saved.username == user.username && saved.email == user.email && saved.roles == user.roles
      ensures saved.id == Some(if user.id.Some? then user.id.value else generatedId)
      ensures user.password.None? ==> saved.password.None?
      ensures user.password.Some? ==> saved.password == Some(passwordEncoder(user.password.value))
      ensures users == old(users)[saved.id.value := saved]
      ensures eventPublisher.published == old(eventPublisher.published)
                + [OperationEvent(USER, CREATED, Some(IntToString(saved.id.value)), Some(saved.username), principal, now)]
    {
      var encoded := if user.password.Some? then Some(passwordEncoder(user.password.value)) else None;
      var key := if user.id.Some? then user.id.value else generatedId;
      saved := user.(id := Some(key), password := encoded);
      users := users[key := saved];
      eventPublisher.Publish(OperationEvent(USER, CREATED, Some(IntToString(key)), Some(saved.username), principal, now));
    }

    /** `updateUser`: replaces an existing user under the path id, keeping
        the stored password when the request has none; a missing id is an
        error that changes nothing. */
    method UpdateUser(id: int, user: User, principal: Option<string>, now: int)
      returns (r: Result<User>)
      requires Valid()
      modifies this, eventPublisher
      ensures Valid()
      ensures id in old(users) ==>
        && r == Success(user.(id := Some(id), password := StoredPassword(old(users)[id].password, user.password, passwordEncoder)))
        && users == old(users)[id := r.value]
        && eventPublisher.published == old(eventPublisher.published)
             + [OperationEvent(USER, UPDATED, Some(IntToString(id)), Some(user.username), principal, now)]
      ensures id !in old(users) ==>
        && r == Failure("User not found with id: " + IntToString(id))
        && users == old(users)
        && eventPublisher.published == old(eventPublisher.published)
    {
      if id in users {
        var existing := users[id];
        var updated := if IsNullOrBlank(user.password)
          then user.(id := Some(id), password := existing.password)
          else user.(id := Some(id), password := Some(passwordEncoder(user.password.value)));
        users := users[id := updated];
        eventPublisher.Publish(OperationEvent(USER, UPDATED, Some(IntToString(id)), Some(updated.username), principal, now));
        r := Success(updated);
      } else {
        r := Failure("User not found with id: " + IntToString(id));
      }
    }

    /** `deleteUser`: the event names the user as it was before removal. */
    method DeleteUser(id: int, principal: Option<string>, now: int) returns (r: Outcome)
      requires Valid()
      modifies this, eventPublisher
      ensures Valid()
      ensures id in old(users) ==>
        && r == Pass
        && users == old(users) - {id}
        && eventPublisher.published == old(eventPublisher.published)
             + [OperationEvent(USER, DELETED, Some(IntToString(id)), Some(old(users)[id].username), principal, now)]
      ensures id !in old(users) ==>
        && r == Fail("User not found with id: " + IntToString(id))
        && users == old(users)
        && eventPublisher.published == old(eventPublisher.published)
    {
      if id in users {
        var user := users[id];
        users := users - {id};
        eventPublisher.Publish(OperationEvent(USER, DELETED, Some(IntToString(id)), Some(user.username), principal, now));
        r := Pass;
      } else {
        r := Fail("User not found with id: " + IntToString(id));
      }
    }
  }
}
