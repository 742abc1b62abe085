/** The cached user list of the admin screen and the optimistic updates the
    mutation hooks of ui/src/hooks/useUsers.ts apply to it. */
module UsersCache {

  import opened Wrappers

  /** ui/src/types/managed-user.d.ts */
  datatype Role = Role(id: int, name: string)

  datatype ManagedUser = ManagedUser(id: int, username: string, email: string, roles: seq<Role>)

  datatype UpdateUserRequest = UpdateUserRequest(
    id: int,
    username: string,
    email: string,
    password: Option<string>,
    roles: seq<Role>)

  /** The list after a successful create: `old ? [...old, newUser] : [newUser]`. */
  function WithCreated(cached: Option<seq<ManagedUser>>, newUser: ManagedUser): (r: seq<ManagedUser>)
    ensures |r| >= 1 && r[|r| - 1] == newUser
    ensures r[..|r| - 1] == if cached.Some? then cached.value else []
  {
    if cached.None? then [newUser] else cached.value + [newUser]
  }

  /** `{ ...user, ...updatedUser }`, restricted to the fields of a `ManagedUser`. */
  function Merged(user: ManagedUser, request: UpdateUserRequest): ManagedUser {
    ManagedUser(request.id, request.username, request.email, request.roles)
  }

  /** `users.map((user) => user.id === request.id ? { ...user, ...request } : user)`. */
  function WithUpdated(users: seq<ManagedUser>, request: UpdateUserRequest): (r: seq<ManagedUser>)
    ensures |r| == |users|
    ensures forall i :: 0 <= i < |users| && users[i].id != request.id ==> r[i] == users[i]
    ensures forall i :: 0 <= i < |users| && users[i].id == request.id ==> r[i] == Merged(users[i], request)
  {
    if users == [] then []
    else [if users[0].id == request.id then Merged(users[0], request) else users[0]]
         + WithUpdated(users[1..], request)
  }

  /** `users.filter((user) => user.id !== userId)`. */
  function WithoutUser(users: seq<ManagedUser>, userId: int): (r: seq<ManagedUser>)
    ensures |r| <= |users|
    ensures forall u :: u in r <==> u in users && u.id != userId
  {
    if users == [] then []
    else if users[0].id == userId then WithoutUser(users[1..], userId)
    else [users[0]] + WithoutUser(users[1..], userId)
  }

  /** The number of cached entries with the given id. */
  function CountWithId(users: seq<ManagedUser>, userId: int): nat {
    if users == [] then 0 else (if users[0].id == userId then 1 else 0) + CountWithId(users[1..], userId)
  }

  /** The filter drops exactly the entries with that id. */
  lemma {:induction false} WithoutUserLength(users: seq<ManagedUser>, userId: int)
    ensures |WithoutUser(users, userId)| == |users| - CountWithId(users, userId)
  {
    if users != [] {
      WithoutUserLength(users[1..], userId);
    }
  }

  /** When no entry has the id, the list is unchanged, order included. */
  lemma {:induction false} WithoutAbsentUser(users: seq<ManagedUser>, userId: int)
    requires forall i :: 0 <= i < |users| ==> users[i].id != userId
    ensures WithoutUser(users, userId) == users
  {
    if users != [] {
      WithoutAbsentUser(users[1..], userId);
    }
  }

  /** Deletion keeps the survivors in their order: it distributes over
      concatenation. */
  lemma {:induction false} WithoutUserAppend(a: seq<ManagedUser>, b: seq<ManagedUser>, userId: int)
    ensures WithoutUser(a + b, userId) == WithoutUser(a, userId) + WithoutUser(b, userId)
  {
    if a == [] {
      assert a + b == b;
    } else {
      assert (a + b)[1..] == a[1..] + b;
      WithoutUserAppend(a[1..], b, userId);
    }
  }

  /** When no entry has the id, the update changes nothing. */
  lemma WithUpdatedAbsent(users: seq<ManagedUser>, request: UpdateUserRequest)
    requires forall i :: 0 <= i < |users| ==> users[i].id != request.id
    ensures WithUpdated(users, request) == users
  {
  }

  /** The cache entry after `onMutate` of `useUpdateUser`: untouched when no
      list is cached; otherwise the same entries in the same order, the ones
      with the request's id carrying the request's fields. */
  function OptimisticUpdate(cached: Option<seq<ManagedUser>>, request: UpdateUserRequest): (r: Option<seq<ManagedUser>>)
    ensures r.None? <==> cached.None?
    ensures cached.Some? ==> |r.value| == |cached.value|
    ensures cached.Some? ==> forall i :: 0 <= i < |cached.value| ==> r.value[i].id == cached.value[i].id
    ensures cached.Some? ==> forall i :: 0 <= i < |cached.value| && cached.value[i].id == request.id ==>
      r.value[i].username == request.username && r.value[i].email == request.email && r.value[i].roles == request.roles
    ensures cached.Some? ==> forall i :: 0 <= i < |cached.value| && cached.value[i].id != request.id ==>
      r.value[i] == cached.value[i]
  {
    if cached.Some? then Some(WithUpdated(cached.value, request)) else None
  }

  /** The cache entry after `onMutate` of `useDeleteUser`: untouched when no
      list is cached; otherwise no entry with the id is left and every other
      entry stays. */
  function OptimisticDelete(cached: Option<seq<ManagedUser>>, userId: int): (r: Option<seq<ManagedUser>>)
    ensures r.None? <==> cached.None?
    ensures cached.Some? ==> forall i :: 0 <= i < |r.value| ==> r.value[i].id != userId
    ensures cached.Some? ==> forall u :: u in cached.value && u.id != userId ==> u in r.value
    ensures cached.Some? ==> forall u :: u in r.value ==> u in cached.value
  {
    if cached.Some? then Some(WithoutUser(cached.value, userId)) else None
  }

  /** The cache entry after `onError`: the snapshot when `onMutate` took one,
      otherwise the cache as it stands. */
  function Rollback(cached: Option<seq<ManagedUser>>, previousUsers: Option<seq<ManagedUser>>): (r: Option<seq<ManagedUser>>)
    ensures previousUsers.Some? ==> r == previousUsers
    ensures previousUsers.None? ==> r == cached
  {
    if previousUsers.Some? then previousUsers else cached
  }

  /** Rolling back with the snapshot taken by `onMutate` restores the cache
      exactly, whether or not a list was cached. */
  lemma RollbackRestores(cached: Option<seq<ManagedUser>>, request: UpdateUserRequest, userId: int)
    ensures Rollback(OptimisticUpdate(cached, request), cached) == cached
    ensures Rollback(OptimisticDelete(cached, userId), cached) == cached
  {
  }

  /** Mutations that overlap undo each other: an update starts and takes
      its snapshot, a delete of another user starts, then the update fails.
      The rollback writes back the update's snapshot, so the deleted user is
      in the cache again although its delete has not failed. */
  lemma OverlappingRollbackRestoresDeleted(cached: seq<ManagedUser>, request: UpdateUserRequest, userId: int)
    requires exists i :: 0 <= i < |cached| && cached[i].id == userId
    ensures var afterUpdate := OptimisticUpdate(Some(cached), request);
            var afterDelete := OptimisticDelete(afterUpdate, userId);
            && (forall i :: 0 <= i < |afterDelete.value| ==> afterDelete.value[i].id != userId)
            && Rollback(afterDelete, Some(cached)) == Some(cached)
            && exists i :: 0 <= i < |cached| && Rollback(afterDelete, Some(cached)).value[i].id == userId
  {
  }

  /** The react-query cache entry under `USERS_QUERY_KEY`. `users` is `None`
      when nothing is cached; `stale` records an invalidation, after which
      react-query refetches. */
  class QueryCache {
    var users: Option<seq<ManagedUser>>
    var stale: bool

    constructor ()
      ensures users == None && !stale
    {
      users := None;
      stale := false;
    }

    /** `useCreateUser.onSuccess`. */
    method OnCreateSuccess(newUser: ManagedUser)
      modifies this
      ensures users == Some(WithCreated(old(users), newUser)) && stale == old(stale)
    {
      users := Some(WithCreated(users, newUser));
    }

    /** `useCreateUser.onError`: the list is left alone, only invalidated. */
    method OnCreateError()
      modifies this
      ensures users == old(users) && stale
    {
      stale := true;
    }

    /** `useUpdateUser.onMutate`: returns the snapshot and applies the update. */
    method OnUpdateMutate(request: UpdateUserRequest) returns (previousUsers: Option<seq<ManagedUser>>)
      modifies this
      ensures previousUsers == old(users)
      ensures users == OptimisticUpdate(old(users), request) && stale == old(stale)
    {
      previousUsers := users;
      if previousUsers.Some? {
        users := Some(WithUpdated(previousUsers.value, request));
      }
    }

    /** `useDeleteUser.onMutate`. */
    method OnDeleteMutate(userId: int) returns (previousUsers: Option<seq<ManagedUser>>)
      modifies this
      ensures previousUsers == old(users)
      ensures users == OptimisticDelete(old(users), userId) && stale == old(stale)
    {
      previousUsers := users;
      if previousUsers.Some? {
        users := Some(WithoutUser(previousUsers.value, userId));
      }
    }

    /** `onError` of both `useUpdateUser` and `useDeleteUser`. */
    method OnMutationError(previousUsers: Option<seq<ManagedUser>>)
      modifies this
      ensures users == Rollback(old(users), previousUsers) && stale == old(stale)
    {
      if previousUsers.Some? {
        users := previousUsers;
      }
    }

    /** `onSettled` of both hooks. */
    method OnSettled()
      modifies this
      ensures users == old(users) && stale
    {
      stale := true;
    }
  }

  /** A failed update: `onMutate` then `onError` with its snapshot leaves the
      cache as it was. */
  method FailedUpdate(cache: QueryCache, request: UpdateUserRequest)
    modifies cache
    ensures cache.users == old(cache.users)
  {
    var previousUsers := cache.OnUpdateMutate(request);
    cache.OnMutationError(previousUsers);
  }

  /** A failed delete leaves the cache as it was. */
  method FailedDelete(cache: QueryCache, userId: int)
    modifies cache
    ensures cache.users == old(cache.users)
  {
    var previousUsers := cache.OnDeleteMutate(userId);
    cache.OnMutationError(previousUsers);
  }
}
