/** `loadUserByUsername` of src/main/kotlin/com/itsz/app/service/UserDetailsServiceImpl.kt:
    the principal Spring Security authenticates, with the role names and the
    permission names of those roles as its authorities. */
module UserDetailsService {

  import opened Wrappers
  import opened AppDomain
  import opened Text

  /** Spring's `User(username, password, authorities)`. An authority is
      identified by its string, and `User` keeps its authorities in a set
      sorted by that string, so their order follows from the set itself. */
  datatype UserDetails = UserDetails(username: string, password: string, authorities: set<string>)

  /** What `User`'s constructor throws (`IllegalArgumentException`) for an
      empty username. */
  const EmptyValuesMessage := "Cannot pass null or empty values to constructor"

  /** What `SimpleGrantedAuthority`'s constructor throws
      (`IllegalArgumentException`) for an empty or blank name. */
  const AuthorityTextMessage := "A granted authority textual representation is required"

  predicate NoDuplicates(s: seq<string>) {
    forall i, j :: 0 <= i < j < |s| ==> s[i] != s[j]
  }

  /** `LinkedHashSet.add`: append unless already present. */
  function AddToSet(acc: seq<string>, x: string): seq<string> {
    if x in acc then acc else acc + [x]
  }

  /** The insertion-ordered set built by adding `xs` one by one. */
  function Distinct(xs: seq<string>): (r: seq<string>)
    ensures NoDuplicates(r)
    ensures forall x :: x in r <==> x in xs
    ensures |r| <= |xs|
  {
    if xs == [] then [] else AddToSet(Distinct(xs[..|xs| - 1]), xs[|xs| - 1])
  }

  function RoleNames(roles: seq<Role>): (r: seq<string>)
    ensures |r| == |roles|
    ensures forall i :: 0 <= i < |roles| ==> r[i] == roles[i].name
  {
    if roles == [] then [] else [roles[0].name] + RoleNames(roles[1..])
  }

  /** `roles.flatMap { it.permissions }`. */
  function FlatPermissions(roles: seq<Role>): seq<Permission> {
    if roles == [] then [] else roles[0].permissions + FlatPermissions(roles[1..])
  }

  function PermissionNames(permissions: seq<Permission>): (r: seq<string>)
    ensures |r| == |permissions|
    ensures forall i :: 0 <= i < |permissions| ==> r[i] == permissions[i].name
  {
    if permissions == [] then [] else [permissions[0].name] + PermissionNames(permissions[1..])
  }

  /** The authorities of a user with these roles, in the order the source
      adds them: role names first, then permission names, each once. */
  function Authorities(roles: seq<Role>): (r: seq<string>)
    ensures NoDuplicates(r)
    ensures forall a :: a in r <==> a in RoleNames(roles) || a in PermissionNames(FlatPermissions(roles))
    ensures |r| <= |roles| + |FlatPermissions(roles)|
  {
    Distinct(RoleNames(roles) + PermissionNames(FlatPermissions(roles)))
  }

  predicate IsRoleName(roles: seq<Role>, a: string) {
    exists i :: 0 <= i < |roles| && roles[i].name == a
  }

  predicate IsPermissionName(roles: seq<Role>, a: string) {
    exists p :: p in FlatPermissions(roles) && p.name == a
  }

  /** The flattened list holds exactly the permissions of the roles. */
  lemma {:induction false} FlatPermissionsContain(roles: seq<Role>, p: Permission)
    ensures p in FlatPermissions(roles) <==> exists i :: 0 <= i < |roles| && p in roles[i].permissions
  {
    if roles != [] {
      FlatPermissionsContain(roles[1..], p);
      if p in FlatPermissions(roles) && p !in roles[0].permissions {
        var i :| 0 <= i < |roles[1..]| && p in roles[1..][i].permissions;
        assert p in roles[i + 1].permissions;
      }
      if exists i :: 0 <= i < |roles| && p in roles[i].permissions {
        var i :| 0 <= i < |roles| && p in roles[i].permissions;
        if i > 0 {
          assert p in roles[1..][i - 1].permissions;
        }
      }
    }
  }

  /** The authorities are exactly the role names and the names of the
      permissions of those roles, each once. */
  lemma AuthoritiesExactly(roles: seq<Role>, a: string)
    ensures NoDuplicates(Authorities(roles))
    ensures a in Authorities(roles) <==> IsRoleName(roles, a) || IsPermissionName(roles, a)
  {
    var ps := FlatPermissions(roles);
    if IsRoleName(roles, a) {
      var i :| 0 <= i < |roles| && roles[i].name == a;
      assert RoleNames(roles)[i] == a;
    }
    if a in PermissionNames(ps) {
      var j :| 0 <= j < |ps| && PermissionNames(ps)[j] == a;
      assert ps[j] in ps && ps[j].name == a;
    }
    if IsPermissionName(roles, a) {
      var p :| p in ps && p.name == a;
      var j :| 0 <= j < |ps| && ps[j] == p;
      assert PermissionNames(ps)[j] == a;
    }
  }

  /** Every role name and every permission of every role is an authority. */
  lemma AuthoritiesCover(roles: seq<Role>, i: int, p: Permission)
    requires 0 <= i < |roles| && p in roles[i].permissions
    ensures roles[i].name in Authorities(roles)
    ensures p.name in Authorities(roles)
  {
    FlatPermissionsContain(roles, p);
    AuthoritiesExactly(roles, roles[i].name);
    AuthoritiesExactly(roles, p.name);
  }

  /** Adding one more element to the input adds it to the set. */
  lemma DistinctSnoc(xs: seq<string>, x: string)
    ensures Distinct(xs + [x]) == AddToSet(Distinct(xs), x)
  {
    assert (xs + [x])[..|xs|] == xs;
  }

  /** Every name that becomes a `SimpleGrantedAuthority` has text. */
  predicate NamesHaveText(roles: seq<Role>) {
    && (forall i :: 0 <= i < |roles| ==> HasText(roles[i].name))
    && (forall p :: p in FlatPermissions(roles) ==> HasText(p.name))
  }

  /** `names.forEach { add(SimpleGrantedAuthority(it)) }` on a set that so
      far holds the names `before`. Wrapping a blank name throws. */
  method AddAuthorities(authorities: seq<string>, ghost before: seq<string>, names: seq<string>)
    returns (r: Result<seq<string>>)
    requires authorities == Distinct(before)
    ensures r.Success? <==> forall k :: 0 <= k < |names| ==> HasText(names[k])
    ensures r.Failure? ==> r.message == AuthorityTextMessage
    ensures r.Success? ==> r.value == Distinct(before + names)
  {
    var acc := authorities;
    assert before + names[..0] == before;
    for i := 0 to |names|
      invariant acc == Distinct(before + names[..i])
      invariant forall k :: 0 <= k < i ==> HasText(names[k])
    {
      if !HasText(names[i]) {
        return Failure(AuthorityTextMessage);
      }
      assert before + names[..i + 1] == (before + names[..i]) + [names[i]];
      DistinctSnoc(before + names[..i], names[i]);
      if names[i] !in acc {
        acc := acc + [names[i]];
      }
    }
    assert names[..|names|] == names;
    r := Success(acc);
  }

  /** The `buildSet` block: the role names, then the permission names. */
  method BuildAuthorities(roles: seq<Role>) returns (r: Result<seq<string>>)
    ensures r.Success? <==> NamesHaveText(roles)
    ensures r.Failure? ==> r.message == AuthorityTextMessage
    ensures r.Success? ==> r.value == Authorities(roles) && NoDuplicates(r.value)
  {
    var roleNames := RoleNames(roles);
    var permissions := FlatPermissions(roles);
    var permissionNames := PermissionNames(permissions);
    assert [] + roleNames == roleNames;
    var withRoles := AddAuthorities([], [], roleNames);
    if withRoles.Failure? {
      return withRoles;
    }
    r := AddAuthorities(withRoles.value, roleNames, permissionNames);
    if r.Failure? {
      var k :| 0 <= k < |permissionNames| && !HasText(permissionNames[k]);
      assert permissions[k] in permissions;
    }
  }

  /** `loadUserByUsername`: throws `UsernameNotFoundException` for an unknown
      name; building the authorities throws for a blank role or permission
      name; `User`'s constructor then throws for an empty name; otherwise the
      stored name and password with the set of authorities. */
  method LoadUserByUsername(users: map<int, User>, username: string) returns (r: Result<UserDetails>)
    ensures (forall k :: k in users ==> users[k].username != username) ==>
      r == Failure("User not found with username: " + username)
    ensures r.Failure? ==>
      || (r.message == "User not found with username: " + username
          && forall k :: k in users ==> users[k].username != username)
      || (r.message == AuthorityTextMessage
          && exists u :: u in users.Values && u.username == username && !NamesHaveText(u.roles))
      || (r.message == EmptyValuesMessage && username == ""
          && exists u :: u in users.Values && u.username == username && NamesHaveText(u.roles))
    ensures (exists k :: k in users && users[k].username == username)
            && (forall k :: k in users && users[k].username == username ==> !NamesHaveText(users[k].roles))
            ==> r == Failure(AuthorityTextMessage)
    ensures username == "" && (exists k :: k in users && users[k].username == username)
            && (forall k :: k in users && users[k].username == username ==> NamesHaveText(users[k].roles))
            ==> r == Failure(EmptyValuesMessage)
    ensures username != "" && (exists k :: k in users && users[k].username == username)
            && (forall k :: k in users && users[k].username == username ==> NamesHaveText(users[k].roles))
            ==> r.Success?
    ensures r.Success? ==>
      username != "" &&
      exists u :: u in users.Values && u.username == username && NamesHaveText(u.roles)
                  && r.value == UserDetails(u.username, u.password, set a | a in Authorities(u.roles))
                  && (forall a :: a in r.value.authorities <==> IsRoleName(u.roles, a) || IsPermissionName(u.roles, a))
  {
    var found := FindByUsername(users, username);
    if found.None? {
      return Failure("User not found with username: " + username);
    }
    var user := found.value;
    var built := BuildAuthorities(user.roles);
    if built.Failure? {
      ghost var k :| k in users && users[k] == user;
      return Failure(AuthorityTextMessage);
    }
    if user.username == "" {
      return Failure(EmptyValuesMessage);
    }
    forall a {
      AuthoritiesExactly(user.roles, a);
    }
    r := Success(UserDetails(user.username, user.password, set a | a in built.value));
  }
}
