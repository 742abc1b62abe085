# course-app, modelled in Dafny

This project models the core of the course-app repository. It has three
parts:

- a Kotlin/Spring API that stores courses, authors and users and raises a
  domain event for every change;
- an older Kotlin application (`com.itsz.app` and `com.itsz.setup` under
  `src/main/kotlin`) with plain CRUD services and the Spring Security user
  lookup;
- a React user interface with a Redux store for authentication and
  notifications, a react-query cache of the user list, and the add/edit user
  form.

The model covers these pieces:

- **Domain events** (`Events`): the event value, Kotlin's enum names and
  their inverse, and the publisher as an append-only log.
- **Relay** (`Relay`): the relay that turns a committed event into the wire
  message and sends it on the configured Redis channel. Serialization and
  the send are fallible steps, passed in as flags.
- **Notification store** (`NotificationSlice`): the UI's notification store,
  with the message text, the newest-first list capped at 50 entries,
  mark-all-read and clear. It also holds the two display rules built on that
  store: the unread badge capped at "9+" and the newest five unread toasts.
- **Authentication slice** (`AuthSlice`): login, logout and rehydration from
  stored credentials.
- **User list cache** (`UsersCache`): the cached user list with the
  optimistic update and delete, and rollback on error.
- **User form** (`UserForm`): the user form's validation schema, its reset
  values and the role selector mapping.
- **Static resources** (`WebConfig`): the single-page-app fallback of the
  static resource resolver.
- **User lookup** (`UserDetailsService`): the Spring Security user lookup,
  with its authorities built as an insertion-ordered set of role and
  permission names.
- **Entity services**: each is a class over its table. The table is a map
  from id to entity.
  - The api services (`ApiCourseService`, `ApiAuthorService`,
    `ApiUserService`) also append to the event log.
  - The older services (`AppUserService`, `AppCourseService`,
    `SetupCourseService`, `SetupRoleService`) do not.

Everything course-app obtains from its environment is a parameter:

| value | source in course-app |
|---|---|
| `generatedId` | the database-generated id |
| `principal` | the authenticated name from the security context |
| `now` | the clock |
| `suffix` | the random part of a notification id |
| `stored` | the token in browser storage |
| `passwordEncoder` | the password encoder, a function fixed when the service is built |
| `isEmail` | the email-format check of the validation library |
| `readable` | whether a static file exists and is readable |

Shared helpers live in `Wrappers` (`Option`, `Result`, `Outcome`) and `Text`.
`Text` covers prefixes and suffixes, JavaScript truthiness of a string,
trimming, blankness and the decimal rendering of integers, with its parse
round trip. Trimming uses the whitespace of JavaScript's
`String.prototype.trim` (`IsJsWhitespace`); blankness uses Kotlin's
`Char.isWhitespace` (`IsKotlinWhitespace`). The two sets differ: U+001C to
U+001F count only for Kotlin, and U+FEFF counts only for JavaScript.

The model assumes these entity shapes, with only the fields the services
read or write:

- the api `Author`: an optional string id and a name;
- the api `auth.model` `User`: an optional numeric id, username, email,
  optional password and roles; its `Role`: an optional numeric id and a
  name;
- the `com.itsz.app` `User`: a numeric id, username, email, password and
  roles; its `Role`: a numeric id, a name and permissions;
- the `com.itsz.setup` `Course` and `Role`: the same shapes as the
  `com.itsz.app` ones.

The `com.itsz.setup` services reuse the `com.itsz.app` entity shapes. An entity
with a generated id is saved under that id when it has none yet. "None" means
a `null` id for the api entities and the default `0` for `Long` ids. An
entity that already has an id is saved under it.

## Model

| member | source | states |
|---|---|---|
| Events.EntityTypeOf | api/src/main/kotlin/com/itsz/app/event/OperationEvent.kt:3 | a recognised entity-type name is the name of the type returned |
| Events.OperationOf | api/src/main/kotlin/com/itsz/app/event/OperationEvent.kt:4 | a recognised operation name is the name of the operation returned |
| Events.NamesRoundTrip | api/src/main/kotlin/com/itsz/app/event/OperationEvent.kt:3-4 | reading back the enum name of every entity type and operation gives that constant |
| Events.DomainEventPublisher.constructor | api/src/main/kotlin/com/itsz/app/event/DomainEventPublisher.kt:6-7 | a new publisher has published nothing |
| Events.DomainEventPublisher.Publish | api/src/main/kotlin/com/itsz/app/event/DomainEventPublisher.kt:9-11 | publishing appends exactly that event to the log |
| Relay.ToMessage | api/src/main/kotlin/com/itsz/app/notification/TransactionalNotificationListener.kt:23-32 | reading the wire message back gives the event, so the relay loses no field |
| Relay.FromMessage | api/src/main/kotlin/com/itsz/app/notification/NotificationMessage.kt:3-10 | a message is read back only when both its type and its operation are enum names, and then to those constants |
| Relay.ToMessageInjective | api/src/main/kotlin/com/itsz/app/notification/TransactionalNotificationListener.kt:23-32 | two different events never produce the same message |
| Relay.TransactionalNotificationListener.constructor | api/src/main/kotlin/com/itsz/app/notification/TransactionalNotificationListener.kt:13-17 | the listener is bound to the configured channel and has sent nothing |
| Relay.TransactionalNotificationListener.OnOperationEvent | api/src/main/kotlin/com/itsz/app/notification/TransactionalNotificationListener.kt:20-38 | on success, exactly the event's message is sent on the configured channel; a failure sends nothing, is recorded and does not propagate |
| NotificationSlice.BuildMessage | ui/src/store/notification/notification.slice.ts:24-30 | the text starts with the entity label, the name clause and " was ", ends with " was ", the operation label, the by clause and the full stop, and is exactly as long as those parts, so nothing lies between them |
| NotificationSlice.BuildMessageOfEvent | ui/src/store/notification/notification.slice.ts:24-30 | a message from a real event uses the display labels for its type and operation |
| NotificationSlice.BuildMessageFallback | ui/src/store/notification/notification.slice.ts:25-29 | an unknown entity type is shown verbatim at the start of the text, and an unknown operation code verbatim right after " was ", before the by clause; both only for codes that are not inherited object members |
| NotificationSlice.NewNotification | ui/src/store/notification/notification.slice.ts:38-46 | a new notification is unread, copies the message fields and the built text, and its id starts with the timestamp and a dash and ends with the random suffix |
| NotificationSlice.Prepend | ui/src/store/notification/notification.slice.ts:48 | the new notification comes first, followed by the old list in order, and at most 50 are kept |
| NotificationSlice.PrependEviction | ui/src/store/notification/notification.slice.ts:47-48 | below the cap nothing is lost; at the cap exactly the oldest entry is dropped |
| NotificationSlice.AllRead | ui/src/store/notification/notification.slice.ts:51 | every entry is marked read and nothing else about it changes; the length is kept |
| NotificationSlice.UnreadCountZero | ui/src/components/Notifications/NotificationBell.tsx:21-33 | the unread count is zero iff every notification is read |
| NotificationSlice.UnreadCountBound | ui/src/components/Notifications/NotificationBell.tsx:21-38 | the unread count never exceeds the number of notifications |
| NotificationSlice.AllReadUnreadCount | ui/src/store/notification/notification.slice.ts:50-52 | after mark-all-read nothing is unread |
| NotificationSlice.UnreadCountAfterAdd | ui/src/store/notification/notification.slice.ts:36-49 | below the cap, adding a notification raises the unread count by one |
| NotificationSlice.Unread | ui/src/components/Notifications/ToastContainer.tsx:34 | the unread filter keeps exactly the unread notifications, as many as the unread count |
| NotificationSlice.UnreadAppend | ui/src/components/Notifications/ToastContainer.tsx:34 | the filter keeps list order: filtering a concatenation concatenates the filtered parts |
| NotificationSlice.UnreadSingle | ui/src/components/Notifications/ToastContainer.tsx:34 | one notification passes the filter exactly when it is unread |
| NotificationSlice.Toasts | ui/src/components/Notifications/ToastContainer.tsx:34 | the toasts are a prefix of the unread filter, of length the unread count capped at five: the newest five unread, newest first |
| NotificationSlice.ToastsAfterMarkAllRead | ui/src/components/Notifications/ToastContainer.tsx:34-36 | dismissing the toasts by mark-all-read leaves none to show |
| NotificationSlice.Badge | ui/src/components/Notifications/NotificationBell.tsx:33-38 | the badge is absent iff all are read, reads "9+" iff more than nine are unread, and otherwise shows the decimal unread count, which parses back to that count |
| NotificationSlice.NotificationSliceState.constructor | ui/src/store/notification/notification.slice.ts:8-10 | the store starts empty |
| NotificationSlice.NotificationSliceState.AddNotification | ui/src/store/notification/notification.slice.ts:36-49 | the list becomes the new notification prepended to the old list and capped at 50; the cap invariant is kept |
| NotificationSlice.NotificationSliceState.MarkAllRead | ui/src/store/notification/notification.slice.ts:50-52 | the loop marks every entry read in place and changes nothing else |
| NotificationSlice.NotificationSliceState.ClearNotifications | ui/src/store/notification/notification.slice.ts:53-55 | the list becomes empty |
| AuthSlice.SelectIsAuthed | ui/src/store/auth/auth.slice.ts:32 | signed in exactly when the token is present and non-empty |
| AuthSlice.Login | ui/src/store/auth/auth.slice.ts:14-16 | every field is the payload's; signed in exactly when the payload's token is non-empty |
| AuthSlice.Logout | ui/src/store/auth/auth.slice.ts:17-19 | every field is absent and the state is signed out |
| AuthSlice.RehydrateFromStorage | ui/src/store/auth/auth.slice.ts:20-27 | the name and email are kept; the state is authenticated afterwards iff it was before or a non-empty token is stored; without one the state is unchanged |
| AuthSlice.InitialStateIsEmpty | ui/src/store/auth/auth.slice.ts:12 | the initial state has no fields and is not authenticated |
| AuthSlice.LoginForgetsState | ui/src/store/auth/auth.slice.ts:14-16 | login yields the payload whatever the prior state; authenticated iff the payload's token is non-empty |
| AuthSlice.LogoutIsInitial | ui/src/store/auth/auth.slice.ts:17-19 | logout yields the initial, unauthenticated state |
| AuthSlice.RehydrateWithToken | ui/src/store/auth/auth.slice.ts:20-27 | a stored token replaces the state's token, and rehydrating twice equals rehydrating once |
| UsersCache.WithCreated | ui/src/hooks/useUsers.ts:31-34 | the new user is appended after the cached list, or becomes the whole list when nothing is cached |
| UsersCache.WithUpdated | ui/src/hooks/useUsers.ts:56-62 | entries with the request's id are replaced by the merged user; all others stay in place; the length is kept |
| UsersCache.WithoutUser | ui/src/hooks/useUsers.ts:94-99 | a user survives the optimistic delete iff its id differs from the deleted one |
| UsersCache.WithoutUserLength | ui/src/hooks/useUsers.ts:97 | the list shrinks by exactly the number of entries with that id |
| UsersCache.WithoutAbsentUser | ui/src/hooks/useUsers.ts:97 | deleting an id not in the list leaves it unchanged |
| UsersCache.WithoutUserAppend | ui/src/hooks/useUsers.ts:97 | the filter distributes over concatenation, so order is kept |
| UsersCache.WithUpdatedAbsent | ui/src/hooks/useUsers.ts:59-61 | updating an id not in the list leaves it unchanged |
| UsersCache.OptimisticUpdate | ui/src/hooks/useUsers.ts:56-62 | no cached list stays none; otherwise same length and ids in the same order, entries with the request's id take its username, email and roles, all others unchanged |
| UsersCache.OptimisticDelete | ui/src/hooks/useUsers.ts:94-99 | no cached list stays none; otherwise no entry has the id, every other entry stays, and nothing new appears |
| UsersCache.Rollback | ui/src/hooks/useUsers.ts:67-71 | a snapshot, when taken, is written back; without one the cache stands |
| UsersCache.OverlappingRollbackRestoresDeleted | ui/src/hooks/useUsers.ts:67-71 | when an update's rollback follows another user's optimistic delete, the deleted user is back in the cache |
| UsersCache.RollbackRestores | ui/src/hooks/useUsers.ts:67-72 | rolling back with the snapshot restores the cache exactly, after an optimistic update or delete |
| UsersCache.QueryCache.constructor | ui/src/hooks/useUsers.ts:8-14 | nothing is cached and nothing is invalidated |
| UsersCache.QueryCache.OnCreateSuccess | ui/src/hooks/useUsers.ts:29-34 | the cache becomes the list with the created user appended |
| UsersCache.QueryCache.OnCreateError | ui/src/hooks/useUsers.ts:36-39 | the list is invalidated and otherwise unchanged |
| UsersCache.QueryCache.OnUpdateMutate | ui/src/hooks/useUsers.ts:48-66 | the snapshot returned is the prior cache, and the cache becomes its optimistic update |
| UsersCache.QueryCache.OnDeleteMutate | ui/src/hooks/useUsers.ts:86-103 | the snapshot returned is the prior cache, and the cache becomes its optimistic delete |
| UsersCache.QueryCache.OnMutationError | ui/src/hooks/useUsers.ts:105-109 | a present snapshot is written back; an absent one leaves the cache alone |
| UsersCache.QueryCache.OnSettled | ui/src/hooks/useUsers.ts:111-113 | the list is invalidated and otherwise unchanged |
| UsersCache.FailedUpdate | ui/src/hooks/useUsers.ts:46-72 | a failed update leaves the cached list as it was |
| UsersCache.FailedDelete | ui/src/hooks/useUsers.ts:83-109 | a failed delete leaves the cached list as it was |
| UserForm.Validate | ui/src/components/Users/AddUser.tsx:10-29 | the form is accepted iff every field rule holds; then name and email are trimmed; otherwise each field has an error iff its rule fails |
| UserForm.ResetValues | ui/src/components/Users/AddUser.tsx:57-62 | each field comes from the initial values or is empty, and the password is always empty |
| UserForm.BlankFormRejected | ui/src/components/Users/AddUser.tsx:66-71 | a form reset without initial values cannot be submitted |
| UserForm.RoleOptions | ui/src/components/Users/AddUser.tsx:89-92 | one option per available role, in order, with the role's id as value and its name as label |
| UserForm.SelectedOptions | ui/src/components/Users/AddUser.tsx:161-163 | an option is shown selected iff the field holds a role with that id |
| UserForm.SelectionToRoles | ui/src/components/Users/AddUser.tsx:164-169 | each selected option becomes the role with that id and name, in order |
| UserForm.RoleOptionsRoundTrip | ui/src/components/Users/AddUser.tsx:164-169 | selecting the options of a role list gives back that role list |
| UserForm.SelectedRolesShown | ui/src/components/Users/AddUser.tsx:161-163 | an available role is displayed as selected iff the field holds its id |
| WebConfig.ReservedPrefixTests | api/src/main/kotlin/com/itsz/app/config/WebConfig.kt:29-32 | the reserved-prefix set is exactly the four prefix tests |
| WebConfig.GetResource | api/src/main/kotlin/com/itsz/app/config/WebConfig.kt:19-38 | a readable file is served; otherwise a client route gets index.html and anything else is not found |
| WebConfig.ExistingFileWins | api/src/main/kotlin/com/itsz/app/config/WebConfig.kt:22-25 | an existing file is served even under a reserved prefix or with a dot |
| WebConfig.MissingReservedIsNull | api/src/main/kotlin/com/itsz/app/config/WebConfig.kt:29-37 | a missing file under a reserved prefix is not found |
| WebConfig.MissingDottedIsNull | api/src/main/kotlin/com/itsz/app/config/WebConfig.kt:33-37 | a missing file whose path has a dot is not found |
| WebConfig.Examples | api/src/main/kotlin/com/itsz/app/config/WebConfig.kt:19-38 | a route such as courses/42 falls back to index.html; api paths, dotted paths and an empty path behave as the rules say |
| UserDetailsService.Distinct | src/main/kotlin/com/itsz/app/service/UserDetailsServiceImpl.kt:18-23 | the insertion-ordered set has no duplicates and exactly the members of its input |
| UserDetailsService.RoleNames | src/main/kotlin/com/itsz/app/service/UserDetailsServiceImpl.kt:20 | one name per role, in order |
| UserDetailsService.PermissionNames | src/main/kotlin/com/itsz/app/service/UserDetailsServiceImpl.kt:22 | one name per permission, in order |
| UserDetailsService.FlatPermissionsContain | src/main/kotlin/com/itsz/app/service/UserDetailsServiceImpl.kt:22 | the flattened list holds a permission iff some role has it |
| UserDetailsService.Authorities | src/main/kotlin/com/itsz/app/service/UserDetailsServiceImpl.kt:18-23 | the authorities have no duplicates, are exactly the role names and the permission names, and are no more than the roles plus their permissions |
| UserDetailsService.AuthoritiesExactly | src/main/kotlin/com/itsz/app/service/UserDetailsServiceImpl.kt:18-23 | the authorities have no duplicates, and a string is one iff it is a role name or a permission name of the user's roles |
| UserDetailsService.AuthoritiesCover | src/main/kotlin/com/itsz/app/service/UserDetailsServiceImpl.kt:20-22 | every role name and every permission name of every role is an authority |
| UserDetailsService.AddAuthorities | src/main/kotlin/com/itsz/app/service/UserDetailsServiceImpl.kt:20-22 | one `forEach` adds the names in order, each once, and fails with the authority-text message exactly when some name is blank |
| UserDetailsService.BuildAuthorities | src/main/kotlin/com/itsz/app/service/UserDetailsServiceImpl.kt:18-23 | the two loops fail with the authority-text message exactly when a role or permission name is blank, and otherwise build exactly the authority list, duplicate-free |
| UserDetailsService.LoadUserByUsername | src/main/kotlin/com/itsz/app/service/UserDetailsServiceImpl.kt:14-30 | an unknown name fails with the not-found message; a user with a blank role or permission name fails as `SimpleGrantedAuthority` does, before the name check; otherwise an empty name fails as `User`'s constructor does; otherwise the principal has the stored user's name and password and, as a set, exactly its role and permission names |
| AppDomain.SaveKey | src/main/kotlin/com/itsz/app/domain/Role.kt:7-8 | an entity with the default id 0 is stored under the generated id, any other under its own |
| AppDomain.FindByUsername | src/main/kotlin/com/itsz/app/repository/UserRepository.kt:8 | no result iff no stored user has the name; a result is a stored user with that name |
| ApiDomain.SaveKey | api/src/main/kotlin/com/itsz/app/domain/Course.kt:7-8 | an entity with a null id is stored under the generated id, any other under its own |
| ApiCourseService.CourseService.constructor | api/src/main/kotlin/com/itsz/app/service/CourseService.kt:15-18 | the table is empty and the service publishes to the given publisher |
| ApiCourseService.CourseService.GetAllCourses | api/src/main/kotlin/com/itsz/app/service/CourseService.kt:20 | exactly the stored courses, and no change to the table or the log |
| ApiCourseService.CourseService.GetCourseById | api/src/main/kotlin/com/itsz/app/service/CourseService.kt:22 | present iff the id is stored, then the stored course carrying that id |
| ApiCourseService.CourseService.CreateCourse | api/src/main/kotlin/com/itsz/app/service/CourseService.kt:24-37 | the course is stored under its saved id and exactly one COURSE CREATED event with that id, title, principal and time is appended |
| ApiCourseService.CourseService.UpdateCourse | api/src/main/kotlin/com/itsz/app/service/CourseService.kt:39-56 | an existing id is overwritten with the path id and one COURSE UPDATED event is appended; a missing id fails with the not-found message, changing neither table nor log |
| ApiCourseService.CourseService.DeleteCourse | api/src/main/kotlin/com/itsz/app/service/CourseService.kt:58-75 | only that id is removed and one COURSE DELETED event with the pre-deletion title is appended; a missing id fails and changes nothing |
| ApiAuthorService.AuthorService.constructor | api/src/main/kotlin/com/itsz/app/service/AuthorService.kt:15-18 | the table is empty and the service publishes to the given publisher |
| ApiAuthorService.AuthorService.GetAllAuthors | api/src/main/kotlin/com/itsz/app/service/AuthorService.kt:20 | exactly the stored authors, and no change to the table or the log |
| ApiAuthorService.AuthorService.GetAuthorById | api/src/main/kotlin/com/itsz/app/service/AuthorService.kt:22 | present iff the id is stored, then the stored author carrying that id |
| ApiAuthorService.AuthorService.CreateAuthor | api/src/main/kotlin/com/itsz/app/service/AuthorService.kt:24-37 | the author is stored under its saved id and exactly one AUTHOR CREATED event with that id and name is appended |
| ApiAuthorService.AuthorService.UpdateAuthor | api/src/main/kotlin/com/itsz/app/service/AuthorService.kt:39-56 | an existing id is overwritten with the path id and one AUTHOR UPDATED event is appended; a missing id fails, changing neither table nor log |
| ApiAuthorService.AuthorService.DeleteAuthor | api/src/main/kotlin/com/itsz/app/service/AuthorService.kt:58-75 | only that id is removed and one AUTHOR DELETED event with the pre-deletion name is appended; a missing id fails and changes nothing |
| ApiUserService.StoredPassword | api/src/main/kotlin/com/itsz/app/auth/service/UserService.kt:48-52 | a null or blank requested password keeps the stored one; any other is stored encoded |
| ApiUserService.UserService.constructor | api/src/main/kotlin/com/itsz/app/auth/service/UserService.kt:16-20 | the table is empty, with the given encoder and publisher |
| ApiUserService.UserService.GetAllUsers | api/src/main/kotlin/com/itsz/app/auth/service/UserService.kt:22 | exactly the stored users, and no change to the table or the log |
| ApiUserService.UserService.GetUserById | api/src/main/kotlin/com/itsz/app/auth/service/UserService.kt:24 | present iff the id is stored, then the stored user carrying that id |
| ApiUserService.UserService.GetUserByUsername | api/src/main/kotlin/com/itsz/app/auth/service/UserService.kt:26 | null iff no stored user has the name; otherwise a stored user with that name |
| ApiUserService.UserService.CreateUser | api/src/main/kotlin/com/itsz/app/auth/service/UserService.kt:28-42 | a present password is stored encoded and a null one stays null; one USER CREATED event with the decimal id and the username is appended |
| ApiUserService.UserService.UpdateUser | api/src/main/kotlin/com/itsz/app/auth/service/UserService.kt:44-67 | an existing id is overwritten under the path id with the retained-or-encoded password and one USER UPDATED event is appended; a missing id fails, changing nothing |
| ApiUserService.UserService.DeleteUser | api/src/main/kotlin/com/itsz/app/auth/service/UserService.kt:69-86 | only that id is removed and one USER DELETED event with the deleted user's name is appended; a missing id fails and changes nothing |
| AppUserService.UserService.constructor | src/main/kotlin/com/itsz/app/service/UserService.kt:9 | the table is empty |
| AppUserService.UserService.GetAllUsers | src/main/kotlin/com/itsz/app/service/UserService.kt:11 | exactly the stored users, table unchanged |
| AppUserService.UserService.GetUserById | src/main/kotlin/com/itsz/app/service/UserService.kt:13 | present iff the id is stored, then the stored user carrying that id |
| AppUserService.UserService.GetUserByUsername | src/main/kotlin/com/itsz/app/service/UserService.kt:15 | null iff no stored user has the name; otherwise a stored user with that name |
| AppUserService.UserService.CreateUser | src/main/kotlin/com/itsz/app/service/UserService.kt:17 | the user is stored as given, password untouched, under its saved id |
| AppUserService.UserService.UpdateUser | src/main/kotlin/com/itsz/app/service/UserService.kt:19-25 | an existing id is overwritten with the path id; a missing id fails with the not-found message and changes nothing |
| AppUserService.UserService.DeleteUser | src/main/kotlin/com/itsz/app/service/UserService.kt:27-33 | only that id is removed; a missing id fails and changes nothing |
| AppCourseService.CourseService.constructor | src/main/kotlin/com/itsz/app/service/CourseService.kt:9 | the table is empty |
| AppCourseService.CourseService.GetAllCourses | src/main/kotlin/com/itsz/app/service/CourseService.kt:11 | exactly the stored courses, table unchanged |
| AppCourseService.CourseService.GetCourseById | src/main/kotlin/com/itsz/app/service/CourseService.kt:13 | present iff the id is stored, then the stored course carrying that id |
| AppCourseService.CourseService.CreateCourse | src/main/kotlin/com/itsz/app/service/CourseService.kt:15 | the course is stored as given under its own id |
| AppCourseService.CourseService.UpdateCourse | src/main/kotlin/com/itsz/app/service/CourseService.kt:17-23 | an existing id is overwritten with the path id; a missing id fails and changes nothing |
| AppCourseService.CourseService.DeleteCourse | src/main/kotlin/com/itsz/app/service/CourseService.kt:25-31 | only that id is removed; a missing id fails and changes nothing |
| SetupCourseService.CourseService.constructor | src/main/kotlin/com/itsz/setup/service/CourseService.kt:9 | the table is empty |
| SetupCourseService.CourseService.GetAllCourses | src/main/kotlin/com/itsz/setup/service/CourseService.kt:11 | exactly the stored courses, table unchanged |
| SetupCourseService.CourseService.GetCourseById | src/main/kotlin/com/itsz/setup/service/CourseService.kt:13 | present iff the id is stored, then the stored course carrying that id |
| SetupCourseService.CourseService.CreateCourse | src/main/kotlin/com/itsz/setup/service/CourseService.kt:15 | the course is stored as given under its own id |
| SetupCourseService.CourseService.UpdateCourse | src/main/kotlin/com/itsz/setup/service/CourseService.kt:17-23 | an existing id is overwritten with the path id; a missing id fails and changes nothing |
| SetupCourseService.CourseService.DeleteCourse | src/main/kotlin/com/itsz/setup/service/CourseService.kt:25-31 | only that id is removed; a missing id fails and changes nothing |
| SetupRoleService.RoleService.constructor | src/main/kotlin/com/itsz/setup/service/RoleService.kt:9 | the table is empty |
| SetupRoleService.RoleService.GetAllRoles | src/main/kotlin/com/itsz/setup/service/RoleService.kt:11 | exactly the stored roles, table unchanged |
| SetupRoleService.RoleService.GetRoleById | src/main/kotlin/com/itsz/setup/service/RoleService.kt:13 | present iff the id is stored, then the stored role carrying that id |
| SetupRoleService.RoleService.CreateRole | src/main/kotlin/com/itsz/setup/service/RoleService.kt:15 | the role is stored as given under its saved id |
| SetupRoleService.RoleService.UpdateRole | src/main/kotlin/com/itsz/setup/service/RoleService.kt:17-23 | an existing id is overwritten with the path id; a missing id fails and changes nothing |
| SetupRoleService.RoleService.DeleteRole | src/main/kotlin/com/itsz/setup/service/RoleService.kt:25-31 | only that id is removed; a missing id fails and changes nothing |
| Text.Trim | ui/src/components/Users/AddUser.tsx:11-20 | the result is a slice of the input with only whitespace cut off either side, and neither starts nor ends with whitespace |
| Text.TrimIdempotent | ui/src/components/Users/AddUser.tsx:11-20 | trimming twice is trimming once |
| Text.IsNullOrBlank | api/src/main/kotlin/com/itsz/app/auth/service/UserService.kt:48 | null and the empty string are blank; a string is not blank exactly when it has a non-whitespace character |
| Text.ParseNatToString | api/src/main/kotlin/com/itsz/app/auth/service/UserService.kt:58 | the decimal rendering of an id parses back to that id |
| Text.NatToStringInjective | api/src/main/kotlin/com/itsz/app/auth/service/UserService.kt:58 | distinct non-negative ids have distinct decimal renderings |
| Text.IntToStringInjective | api/src/main/kotlin/com/itsz/app/auth/service/UserService.kt:58 | distinct ids render as distinct strings, so an event's entityId names one user |

## Left out

- Redis and WebSocket transport: the Redis configuration, the subscriber
  that forwards each payload unchanged, and the browser's socket hook are
  network I/O. The relay's send is a flag, and the browser side starts from
  the message value.
- JSON serialization and parsing: the wire message is a datatype, not
  bytes. A failure to serialize is a flag of `OnOperationEvent`.
- Transaction machinery: `@Transactional`, the after-commit dispatch of
  events, and Spring's application event bus. The publisher is an
  append-only log, and the relay is called per event. A rolled-back
  transaction's events are not modelled.
- Logging in the relay is left out. A failed event is recorded in
  `failures` in its place.
- Password hashing: BCrypt is a fixed function `passwordEncoder`. Its
  salting and non-determinism are not modelled.
- Controllers, security configuration, token issuance and React rendering
  are framework wiring. The two display rules that decide what is shown
  (badge and toasts) are modelled.
- Query order: `findAll` returns a list in database order. The model
  returns the set of stored entities.
- AppDomain.FindByUsername: with several users of one name, Spring Data's
  single-result `findByUsername` throws
  `IncorrectResultSizeDataAccessException`; the model returns some one of
  them, which is the source's behaviour only when usernames are unique.
- ApiUserService.UserService.GetUserByUsername: the same; the duplicate-name
  exception is not modelled.
- AppUserService.UserService.GetUserByUsername: the same; the duplicate-name
  exception is not modelled.
- `save` of an entity whose id is given but not stored: the model inserts
  it under that id. That is what the source does for the `com.itsz.app`
  and `com.itsz.setup` `Course`, whose String id is not generated. For an
  entity with a generated id, Spring Data merges such an entity. Hibernate
  7, which the api module's Spring Boot 4.0.1 brings, then throws an
  optimistic-locking exception because no row exists. The members below
  store the entity instead:
- ApiCourseService.CourseService.CreateCourse: saves a course with an
  unstored id under that id and publishes CREATED; the source throws.
- ApiAuthorService.AuthorService.CreateAuthor: the same for an author.
- ApiUserService.UserService.CreateUser: the same for a user.
- AppUserService.UserService.CreateUser: saves a user with an unstored
  non-zero id under that id, where the source throws under the same
  Hibernate.
- SetupRoleService.RoleService.CreateRole: the same for a role.
- UsersCache.Merged: the spread `{ ...user, ...updatedUser }` also copies
  the request's optional password into the cached object. The model keeps
  only the fields of a managed user.
- String lengths: zod measures UTF-16 code units. The model counts
  characters, so the two differ only for characters outside the Basic
  Multilingual Plane.
- The email format is the abstract predicate `isEmail`. The validation
  library's regular expression is not modelled.
- UserForm.Validate: reports one message per field, the first failing
  rule's. The library can list several issues for one field, and the form
  shows only the first. For a short non-empty password, the message is
  that of the optional string branch of the union.
- Entity mapping: JPA tables, joins and lazy loading are not modelled. The
  entities are the value shapes listed above.
- The random notification suffix, the clock, the security context and
  browser storage are parameters. Their values are not modelled.
- Role and permission queries (`useRoles`, the role repository) and the
  user API client are I/O without logic of their own.
- NotificationSlice.BuildMessageFallback: the label lookup `labels[code] ?? code`
  finds a member inherited from `Object.prototype` for codes such as
  `toString` or `__proto__`, and the browser then shows that member's text.
  `LabelOf` falls back to the raw code for them. The lemma therefore
  excludes these names, both as an entity type and as an operation, and the
  model does not capture what is shown for them.
- UsersCache.FailedUpdate: proved for one mutation at a time. When mutations
  overlap, an earlier snapshot can undo a later optimistic change, as
  `OverlappingRollbackRestoresDeleted` shows.
- UsersCache.FailedDelete: the same; proved for one mutation at a time.
- UserDetailsService.LoadUserByUsername: `User` also throws for a `null`
  password, which a stored `com.itsz.app` user cannot have. The sorted
  iteration order of the authority set is not modelled; the set is. When
  several users share the name and only some have blank role or
  permission names, which failure or success results depends on the user
  `FindByUsername` picks.
