/** The add/edit user form of ui/src/components/Users/AddUser.tsx: the zod
    schema `userSchema`, the values the form is reset to, and the mapping
    between roles and the options of the role selector. */
module UserForm {

  import opened Wrappers
  import opened Text
  import opened UsersCache

  /** `AddUserFormValues`: the password is optional, the rest required. */
  datatype FormValues = FormValues(username: string, email: string, password: Option<string>, roles: seq<Role>)

  /** The first message reported for each field, `None` where the field passes. */
  datatype FieldErrors = FieldErrors(
    username: Option<string>,
    email: Option<string>,
    password: Option<string>,
    roles: Option<string>)

  /** The schema's verdict: the parsed (trimmed) values, or the field errors. */
  datatype Validation = Accepted(values: FormValues) | Rejected(errors: FieldErrors)

  const UsernameTooShort := "Username must contain at least 3 characters"
  const UsernameTooLong := "Username must not exceed 50 characters"
  const InvalidEmail := "Invalid email address"
  const EmailTooShort := "Email must contain at least 5 characters"
  const PasswordTooShort := "Password must contain at least 6 characters"
  const NoRole := "At least one role must be selected"

  /** `z.string().trim().min(3).max(50)`. */
  function UsernameError(raw: string): Option<string> {
    var s := Trim(raw);
    if |s| < 3 then Some(UsernameTooShort)
    else if |s| > 50 then Some(UsernameTooLong)
    else None
  }

  /** `z.string().trim().email().min(5)`; `isEmail` is zod's format check.
      When both checks fail the format message comes first. */
  function EmailError(raw: string, isEmail: string -> bool): Option<string> {
    var s := Trim(raw);
    if !isEmail(s) then Some(InvalidEmail)
    else if |s| < 5 then Some(EmailTooShort)
    else None
  }

  /** `z.string().min(6).optional().or(z.literal(""))`: no trimming here. */
  function PasswordError(password: Option<string>): Option<string> {
    if password.None? || password.value == "" || |password.value| >= 6 then None
    else Some(PasswordTooShort)
  }

  /** `z.array(...).min(1)`. */
  function RolesError(roles: seq<Role>): Option<string> {
    if |roles| < 1 then Some(NoRole) else None
  }

  /** The schema applied to the form values. */
  function Validate(values: FormValues, isEmail: string -> bool): (r: Validation)
    ensures r.Accepted? <==>
      && 3 <= |Trim(values.username)| <= 50
      && isEmail(Trim(values.email)) && |Trim(values.email)| >= 5
      && (values.password.None? || values.password.value == "" || |values.password.value| >= 6)
      && |values.roles| >= 1
    ensures r.Accepted? ==>
      r.values == values.(username := Trim(values.username), email := Trim(values.email))
    ensures r.Rejected? ==>
      && (r.errors.username.Some? <==> !(3 <= |Trim(values.username)| <= 50))
      && (r.errors.email.Some? <==> !(isEmail(Trim(values.email)) && |Trim(values.email)| >= 5))
      && (r.errors.password == Some(PasswordTooShort) <==> values.password.Some? && 0 < |values.password.value| < 6)
      && (r.errors.roles.Some? <==> values.roles == [])
  {
    var errors := FieldErrors(
      UsernameError(values.username),
      EmailError(values.email, isEmail),
      PasswordError(values.password),
      RolesError(values.roles));
    if errors == FieldErrors(None, None, None, None) then
      Accepted(values.(username := Trim(values.username), email := Trim(values.email)))
    else
      Rejected(errors)
  }

  /** `initialValues`: a partial set of form values. */
  datatype InitialValues = InitialValues(username: Option<string>, email: Option<string>, roles: Option<seq<Role>>)

  /** The default values and every reset: each field from `initialValues`,
      or empty; the password always empty. */
  function ResetValues(initial: Option<InitialValues>): (r: FormValues)
    ensures r.password == Some("")
    ensures r.username == if initial.Some? && initial.value.username.Some? then initial.value.username.value else ""
    ensures r.email == if initial.Some? && initial.value.email.Some? then initial.value.email.value else ""
    ensures r.roles == if initial.Some? && initial.value.roles.Some? then initial.value.roles.value else []
  {
    match initial
    case None => FormValues("", "", Some(""), [])
    case Some(iv) =>
      FormValues(
        if iv.username.Some? then iv.username.value else "",
        if iv.email.Some? then iv.email.value else "",
        Some(""),
        if iv.roles.Some? then iv.roles.value else [])
  }

  /** A blank add form cannot be submitted as it is: it has no username and
      no role. */
  lemma BlankFormRejected(isEmail: string -> bool)
    ensures Validate(ResetValues(None), isEmail).Rejected?
  {
    assert |Trim("")| == 0;
  }

  /** An option of the role selector. */
  datatype RoleOption = RoleOption(value: int, optionLabel: string)

  /** `availableRoles.map((role) => ({ value: role.id, label: role.name }))`. */
  function RoleOptions(available: seq<Role>): (r: seq<RoleOption>)
    ensures |r| == |available|
    ensures forall i :: 0 <= i < |available| ==> r[i] == RoleOption(available[i].id, available[i].name)
  {
    if available == [] then [] else [RoleOption(available[0].id, available[0].name)] + RoleOptions(available[1..])
  }

  predicate HasRoleId(roles: seq<Role>, id: int) {
    exists i :: 0 <= i < |roles| && roles[i].id == id
  }

  /** The options shown as selected:
      `roleOptions.filter((opt) => field.value?.some((role) => role.id === opt.value))`. */
  function SelectedOptions(options: seq<RoleOption>, fieldValue: Option<seq<Role>>): (r: seq<RoleOption>)
    ensures forall o :: o in r <==> o in options && fieldValue.Some? && HasRoleId(fieldValue.value, o.value)
  {
    if options == [] then []
    else if fieldValue.Some? && HasRoleId(fieldValue.value, options[0].value) then
      [options[0]] + SelectedOptions(options[1..], fieldValue)
    else SelectedOptions(options[1..], fieldValue)
  }

  /** The field value after a change: `selected.map((opt) => ({ id: opt.value, name: opt.label }))`. */
  function SelectionToRoles(selected: seq<RoleOption>): (r: seq<Role>)
    ensures |r| == |selected|
    ensures forall i :: 0 <= i < |selected| ==> r[i] == Role(selected[i].value, selected[i].optionLabel)
  {
    if selected == [] then [] else [Role(selected[0].value, selected[0].optionLabel)] + SelectionToRoles(selected[1..])
  }

  /** Selecting options and reading them back as roles loses nothing. */
  lemma {:induction false} RoleOptionsRoundTrip(roles: seq<Role>)
    ensures SelectionToRoles(RoleOptions(roles)) == roles
  {
    if roles != [] {
      RoleOptionsRoundTrip(roles[1..]);
      assert RoleOptions(roles)[1..] == RoleOptions(roles[1..]);
    }
  }

  /** Each available role whose id the field holds is displayed as selected,
      and nothing else is. */
  lemma SelectedRolesShown(available: seq<Role>, fieldRoles: seq<Role>, i: int)
    requires 0 <= i < |available|
    ensures RoleOption(available[i].id, available[i].name) in SelectedOptions(RoleOptions(available), Some(fieldRoles))
            <==> HasRoleId(fieldRoles, available[i].id)
  {
    assert RoleOptions(available)[i] == RoleOption(available[i].id, available[i].name);
  }
}
