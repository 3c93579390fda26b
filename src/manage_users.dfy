/** The user table: name, country code, phone number, role, the disabled flag and
    the department list are editable. Loading defaults the department snapshot to
    `[]` when a user has none, while the edit handler compares the JSON text of the
    record's own (possibly missing) department list with that snapshot. */
module ManageUsers {
  import opened Js
  import opened SnapshotTable

  /** `departments` is None when the server sends no list (undefined or null). */
  datatype User = User(
    userName: Val, name: Val, countryCode: Val, phoneNumber: Val, roleId: Val,
    disabled: Val, departments: Option<seq<Val>>)

  datatype Initial = Initial(
    name: Val, countryCode: Val, phoneNumber: Val, roleId: Val, disabled: Val,
    departments: seq<Val>)

  datatype Field = Name | CountryCode | PhoneNumber | RoleId | Disabled

  /** `user.departments || []`: any array, even an empty one, is truthy. */
  function DepartmentsOrEmpty(u: User): (d: seq<Val>)
    ensures u.departments.Some? ==> d == u.departments.value
    ensures u.departments.None? ==> d == []
  {
    if u.departments.Some? then u.departments.value else []
  }

  /** The snapshot taken on load and on a successful apply. */
  function Snap(u: User): Initial {
    Initial(u.name, u.countryCode, u.phoneNumber, u.roleId, u.disabled, DepartmentsOrEmpty(u))
  }

  /** `JSON.stringify` of a department list: an array of primitives is rendered
      injectively, so its text is identified with the list itself; a missing list
      has no JSON text (`undefined`). */
  function Json(d: Option<seq<Val>>): Option<seq<Val>> {
    d
  }

  predicate ScalarsDiffer(u: User, s: Initial) {
    u.name != s.name || u.countryCode != s.countryCode || u.phoneNumber != s.phoneNumber
    || u.roleId != s.roleId || u.disabled != s.disabled
  }

  /** The edit handler's `hasChanges` as written: the departments are compared as
      `JSON.stringify(updated.departments) !== JSON.stringify(updated.initialDepartments)`. */
  predicate DiffersAsWritten(u: User, s: Initial) {
    ScalarsDiffer(u, s) || Json(u.departments) != Json(Some(s.departments))
  }

  /** The comparison the snapshot's default calls for: the record's departments
      with the same `|| []` default as the snapshot. */
  predicate Differs(u: User, s: Initial) {
    ScalarsDiffer(u, s) || DepartmentsOrEmpty(u) != s.departments
  }

  /** As written, a user without a department list differs from its own fresh
      snapshot, so after any edit (even one that puts the old value back) the row
      stays marked as changed, and the snapshot rule is not coherent. */
  lemma NoDepartmentsAlwaysDirty(u: User)
    requires u.departments.None?
    ensures DiffersAsWritten(u, Snap(u))
    ensures !Coherent(Snap, DiffersAsWritten)
  {
  }

  /** With the default applied on both sides a fresh snapshot is clean, and a row is
      dirty exactly when some tracked field or the department list (in order)
      differs. */
  lemma SnapshotNeverDiffers(u: User, s: Initial)
    ensures !Differs(u, Snap(u)) && Coherent(Snap, Differs)
    ensures Differs(u, s) <==> Snap(u) != s
    ensures u.departments.Some? ==> (DiffersAsWritten(u, s) <==> Differs(u, s))
  {
  }

  function Get(u: User, f: Field): Val {
    match f
    case Name => u.name
    case CountryCode => u.countryCode
    case PhoneNumber => u.phoneNumber
    case RoleId => u.roleId
    case Disabled => u.disabled
  }

  /** `{...user, [field]: value}` for a scalar field. */
  function SetField(u: User, f: Field, value: Val): (r: User)
    ensures Get(r, f) == value
    ensures forall g :: g != f ==> Get(r, g) == Get(u, g)
    ensures r.userName == u.userName && r.departments == u.departments
  {
    match f
    case Name => u.(name := value)
    case CountryCode => u.(countryCode := value)
    case PhoneNumber => u.(phoneNumber := value)
    case RoleId => u.(roleId := value)
    case Disabled => u.(disabled := value)
  }

  /** `handleDepartmentChange(id, selected)` is `handleChange(id, 'departments', selected)`. */
  function SetDepartments(u: User, selected: seq<Val>): (r: User)
    ensures r.departments == Some(selected)
    ensures forall g :: Get(r, g) == Get(u, g)
  {
    u.(departments := Some(selected))
  }

  /** The Active select: the option text `'true'` stands for `disabled = true`. */
  function DisabledFromSelect(option: string): (v: Val)
    ensures v == Bool(option == "true")
  {
    Bool(option == "true")
  }

  /** With the as-written comparison, putting the old name back after an edit does
      not clear the mark of a user without departments; with the corrected one it
      does. */
  lemma RevertedEditStaysDirty(u: User, value: Val)
    requires u.departments.None?
    ensures DiffersAsWritten(SetField(SetField(u, Name, value), Name, u.name), Snap(u))
    ensures !Differs(SetField(SetField(u, Name, value), Name, u.name), Snap(u))
  {
  }

  /** The apply request. */
  datatype Register = Register(
    userName: Val, name: Val, countryCode: Val, phoneNumber: Val, roleId: Val,
    disabled: Val, departments: seq<Val>)

  function ApplyPayload(u: User): (r: Register)
    ensures r.departments == Snap(u).departments
    ensures r.userName == u.userName
    ensures forall f :: Get(u, f) == match f
      case Name => r.name
      case CountryCode => r.countryCode
      case PhoneNumber => r.phoneNumber
      case RoleId => r.roleId
      case Disabled => r.disabled
  {
    Register(u.userName, u.name, u.countryCode, u.phoneNumber, u.roleId, u.disabled, DepartmentsOrEmpty(u))
  }

  /** Apply succeeds when the response carries a truthy `id`. */
  predicate Accepted(responseId: Val) {
    Truthy(responseId)
  }
}
