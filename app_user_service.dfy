/** The user service of the `com.itsz.app` application
    (src/main/kotlin/com/itsz/app/service/UserService.kt): the user table with
    existence-checked updates and deletes and no events. */
module AppUserService {

  import opened Wrappers
  import opened Text
  import opened AppDomain

  class UserService {
    /** The user table, keyed by id. */
    var users: map<int, User>

    /** Every stored user carries the key it is stored under. */
    ghost predicate Valid()
      reads this
    {
      forall id :: id in users ==> users[id].id == id
    }

    constructor ()
      ensures Valid() && users == map[]
    {
      users := map[];
    }

    /** `getAllUsers`: every stored user, in no particular order. */
    method GetAllUsers() returns (r: set<User>)
      ensures forall id :: id in users ==> users[id] in r
      ensures forall u :: u in r ==> exists id :: id in users && users[id] == u
    {
      r := set id | id in users :: users[id];
    }

    /** `getUserById`: the user stored under `id`, if any. */
    method GetUserById(id: int) returns (r: Option<User>)
      requires Valid()
      ensures r.Some? <==> id in users
      ensures r.Some? ==> r.value == users[id] && r.value.id == id
    {
      r := if id in users then Some(users[id]) else None;
    }

    /** `getUserByUsername`: some user with that name, or `null`. */
    method GetUserByUsername(username: string) returns (r: Option<User>)
      ensures r.None? <==> forall id :: id in users ==> users[id].username != username
      ensures r.Some? ==> r.value in users.Values && r.value.username == username
    {
      r := FindByUsername(users, username);
    }

    /** `createUser`: stored as given, password included, under its id or
        under `generatedId` when it has none yet. */
    method CreateUser(user: User, generatedId: int) returns (saved: User)
      requires Valid()
      modifies this
      ensures Valid()
      ensures saved == user.(id := SaveKey(user.id, generatedId))
      ensures users == old(users)[saved.id := saved]
    {
      saved := user.(id := SaveKey(user.id, generatedId));
      users := users[saved.id := saved];
    }

    /** `updateUser`: replaces an existing user under the path id; a missing
        id is an error that changes nothing. */
    method UpdateUser(id: int, user: User) returns (r: Result<User>)
      requires Valid()
      modifies this
      ensures Valid()
      ensures id in old(users) ==> r == Success(user.(id := id)) && users == old(users)[id := r.value]
      ensures id !in old(users) ==> r == Failure("User not found with id: " + IntToString(id)) && users == old(users)
    {
      if id in users {
        var saved := user.(id := id);
        users := users[id := saved];
        r := Success(saved);
      } else {
        r := Failure("User not found with id: " + IntToString(id));
      }
    }

    /** `deleteUser`: removes only the given id. */
    method DeleteUser(id: int) returns (r: Outcome)
      requires Valid()
      modifies this
      ensures Valid()
      ensures id in old(users) ==> r == Pass && users == old(users) - {id}
      ensures id !in old(users) ==> r == Fail("User not found with id: " + IntToString(id)) && users == old(users)
    {
      if id in users {
        users := users - {id};
        r := Pass;
      } else {
        r := Fail("User not found with id: " + IntToString(id));
      }
    }
  }
}
