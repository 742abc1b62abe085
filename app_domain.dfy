/** The JPA entities of the `com.itsz.app` application under src/main/kotlin,
    as values, and the one derived query of its user repository. Collections
    the entities hold as sets are sequences here, in the order the
    persistence layer iterates them. */
module AppDomain {

  import opened Wrappers

  datatype Permission = Permission(id: int, name: string)

  /** Role.kt: `id` defaults to 0, which marks a role not yet saved. */
  datatype Role = Role(id: int, name: string, permissions: seq<Permission>)

  datatype User = User(id: int, username: string, email: string, password: string, roles: seq<Role>)

  datatype Author = Author(id: string, name: string)

  datatype Course = Course(
    id: string,
    title: string,
    description: string,
    creationDate: string,
    duration: int,
    authors: seq<User>)

  /** The key `save` stores an entity with a generated `Long` id under: its
      own id, or the generated one when the id is the unsaved default 0. */
  function SaveKey(id: int, generatedId: int): (k: int)
    ensures id != 0 ==> k == id
    ensures id == 0 ==> k == generatedId
  {
    if id == 0 then generatedId else id
  }

  /** `UserRepository.findByUsername` over the user table keyed by id:
      some user with that name, or none. */
  method FindByUsername(users: map<int, User>, username: string) returns (r: Option<User>)
    ensures r.None? <==> forall k :: k in users ==> users[k].username != username
    ensures r.Some? ==> r.value in users.Values && r.value.username == username
    ensures r.Some? ==> exists k :: k in users && users[k] == r.value
  {
    if k :| k in users && users[k].username == username {
      r := Some(users[k]);
    } else {
      r := None;
    }
  }
}
