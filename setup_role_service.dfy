/** The role service of the `com.itsz.setup` application
    (src/main/kotlin/com/itsz/setup/service/RoleService.kt): the role table
    with existence-checked updates and deletes and no events. */
module SetupRoleService {

  import opened Wrappers
  import opened Text
  import opened AppDomain

  class RoleService {
    /** The role table, keyed by id. */
    var roles: map<int, Role>

    /** Every stored role carries the key it is stored under. */
    ghost predicate Valid()
      reads this
    {
      forall id :: id in roles ==> roles[id].id == id
    }

    constructor ()
      ensures Valid() && roles == map[]
    {
      roles := map[];
    }

    /** `getAllRoles`: every stored role, in no particular order. */
    method GetAllRoles() returns (r: set<Role>)
      ensures forall id :: id in roles ==> roles[id] in r
      ensures forall x :: x in r ==> exists id :: id in roles && roles[id] == x
    {
      r := set id | id in roles :: roles[id];
    }

    /** `getRoleById`: the role stored under `id`, if any. */
    method GetRoleById(id: int) returns (r: Option<Role>)
      requires Valid()
      ensures r.Some? <==> id in roles
      ensures r.Some? ==> r.value == roles[id] && r.value.id == id
    {
      r := if id in roles then Some(roles[id]) else None;
    }

    /** `createRole`: stored as given, under its id or under `generatedId`
        when it has none yet. */
    method CreateRole(role: Role, generatedId: int) returns (saved: Role)
      requires Valid()
      modifies this
      ensures Valid()
      ensures saved == role.(id := SaveKey(role.id, generatedId))
      ensures roles == old(roles)[saved.id := saved]
    {
      saved := role.(id := SaveKey(role.id, generatedId));
      roles := roles[saved.id := saved];
    }

    /** `updateRole`: replaces an existing role under the path id; a missing
        id is an error that changes nothing. */
    method UpdateRole(id: int, role: Role) returns (r: Result<Role>)
      requires Valid()
      modifies this
      ensures Valid()
      ensures id in old(roles) ==> r == Success(role.(id := id)) && roles == old(roles)[id := r.value]
      ensures id !in old(roles) ==> r == Failure("Role not found with id: " + IntToString(id)) && roles == old(roles)
    {
      if id in roles {
        var saved := role.(id := id);
        roles := roles[id := saved];
        r := Success(saved);
      } else {
        r := Failure("Role not found with id: " + IntToString(id));
      }
    }

    /** `deleteRole`: removes only the given id. */
    method DeleteRole(id: int) returns (r: Outcome)
      requires Valid()
      modifies this
      ensures Valid()
      ensures id in old(roles) ==> r == Pass && roles == old(roles) - {id}
      ensures id !in old(roles) ==> r == Fail("Role not found with id: " + IntToString(id)) && roles == old(roles)
    {
      if id in roles {
        roles := roles - {id};
        r := Pass;
      } else {
        r := Fail("Role not found with id: " + IntToString(id));
      }
    }
  }
}
