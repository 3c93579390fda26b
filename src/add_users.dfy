/** The add-users page: draft rows of login, password, name, phone and role,
    numbered by a millisecond clock reading; submit sends the complete rows
    trimmed, each with the outlet of the signed-in user. */
module AddUsers {
  import opened Js
  import opened DraftRows
  import Api

  datatype UserRow = UserRow(userName: string, password: string, name: string,
                             countryCode: string, phoneNumber: string, roleId: string)

  const Blank := UserRow("", "", "", "", "", "")

  datatype Field = UserName | Password | Name | CountryCode | PhoneNumber | RoleId

  /** `{ ...row, [field]: value }` */
  function SetField(r: UserRow, f: Field, value: string): (s: UserRow)
    ensures s.userName == (if f == UserName then value else r.userName)
    ensures s.password == (if f == Password then value else r.password)
    ensures s.name == (if f == Name then value else r.name)
    ensures s.countryCode == (if f == CountryCode then value else r.countryCode)
    ensures s.phoneNumber == (if f == PhoneNumber then value else r.phoneNumber)
    ensures s.roleId == (if f == RoleId then value else r.roleId)
  {
    match f
    case UserName => r.(userName := value)
    case Password => r.(password := value)
    case Name => r.(name := value)
    case CountryCode => r.(countryCode := value)
    case PhoneNumber => r.(phoneNumber := value)
    case RoleId => r.(roleId := value)
  }

  /** The row test shared by `isFormValid` and submit: login, password and name
      non-blank after trimming, and a role chosen. */
  predicate ValidRow(r: UserRow) {
    !IsBlank(r.userName) && !IsBlank(r.password) && !IsBlank(r.name) && r.roleId != ""
  }

  /** A submitted user. */
  datatype NewUser = NewUser(userName: string, password: string, name: string, countryCode: string,
                             phoneNumber: string, roleId: string, outletId: Val)

  function ToUser(outletId: Val, r: UserRow): NewUser {
    NewUser(Trim(r.userName), Trim(r.password), Trim(r.name), Trim(r.countryCode),
            Trim(r.phoneNumber), r.roleId, outletId)
  }

  function Users(outletId: Val, rows: seq<Draft<UserRow>>): seq<NewUser> {
    Select(rows, ValidRow, (r: UserRow) => ToUser(outletId, r))
  }

  /** `handleSubmit` up to the request. */
  function SubmitRequest(outletId: Val, rows: seq<Draft<UserRow>>): (o: Outcome<seq<NewUser>>)
    ensures o.Refused? <==> !AnyRow(rows, ValidRow)
    ensures o.Refused? ==> o.reason == "Please fill all required fields before submitting."
    ensures !o.Cancelled?
    ensures o.Sent? ==> o.request == Users(outletId, rows)
  {
    var data := Users(outletId, rows);
    if |data| == 0 then Refused("Please fill all required fields before submitting.")
    else Sent(data)
  }

  /** A user record ready to create: login, password and name non-empty with no
      surrounding white space, a role, and the outlet. */
  predicate Complete(u: NewUser, outletId: Val) {
    u.userName != "" && !IsSpace(u.userName[0]) && !IsSpace(u.userName[|u.userName| - 1])
    && u.password != "" && !IsSpace(u.password[0]) && !IsSpace(u.password[|u.password| - 1])
    && u.name != "" && !IsSpace(u.name[0]) && !IsSpace(u.name[|u.name| - 1])
    && u.roleId != "" && u.outletId == outletId
  }

  lemma ValidRowComplete(outletId: Val, r: UserRow)
    requires ValidRow(r)
    ensures Complete(ToUser(outletId, r), outletId)
  {
    TrimEnds(r.userName);
    TrimEnds(r.password);
    TrimEnds(r.name);
  }

  /** Every sent user is complete. */
  lemma SentUsersComplete(outletId: Val, rows: seq<Draft<UserRow>>)
    ensures forall k :: 0 <= k < |Users(outletId, rows)| ==> Complete(Users(outletId, rows)[k], outletId)
  {
    var us := Users(outletId, rows);
    forall k | 0 <= k < |us|
      ensures Complete(us[k], outletId)
    {
      var i :| 0 <= i < |rows| && ValidRow(rows[i].fields) && us[k] == ToUser(outletId, rows[i].fields);
      ValidRowComplete(outletId, rows[i].fields);
    }
  }

  /** `outletId` state: the stored record's outlet `|| 1`, and 1 without one. */
  function OutletOf(user: Option<Api.User>): (v: Val)
    ensures Truthy(v)
    ensures user.Some? && Truthy(user.value.outletId) ==> v == user.value.outletId
  {
    if user.Some? then Or(user.value.outletId, Number(1.0)) else Number(1.0)
  }

  class Page {
    const outletId: Val
    var rows: seq<Draft<UserRow>>

    constructor (user: Option<Api.User>, now: int)
      ensures outletId == OutletOf(user) && rows == [Draft(now, Blank)]
      ensures IdsUnique(rows)
    {
      outletId := OutletOf(user);
      rows := [Draft(now, Blank)];
    }

    /** `addRows`: three blank rows with ids `now .. now + 2`. */
    method AddRows(now: int)
      modifies this`rows
      ensures rows == old(rows) + Block(now, Blank)
      ensures old(IdsUnique(rows) && IdsBelow(rows, now)) ==> IdsUnique(rows)
    {
      if IdsUnique(rows) && IdsBelow(rows, now) {
        TimedKeepsUnique(rows, now, Blank);
      }
      rows := AppendTimed(rows, now, Blank);
    }

    /** `deleteRow`: removes the rows with the id, possibly the last one. */
    method DeleteRow(id: int)
      modifies this`rows
      ensures rows == Delete(old(rows), id)
      ensures old(IdsUnique(rows)) ==> IdsUnique(rows) && |rows| >= |old(rows)| - 1
    {
      if IdsUnique(rows) {
        DeleteKeepsUnique(rows, id);
        DeleteUniqueRemovesAtMostOne(rows, id);
      }
      rows := Delete(rows, id);
    }

    method UpdateRow(id: int, f: Field, value: string)
      modifies this`rows
      ensures rows == Update(old(rows), id, (r: UserRow) => SetField(r, f, value))
      ensures old(IdsUnique(rows)) ==> IdsUnique(rows)
    {
      UpdateKeepsIds(rows, id, (r: UserRow) => SetField(r, f, value));
      rows := Update(rows, id, (r: UserRow) => SetField(r, f, value));
    }

    /** `isFormValid` */
    predicate IsFormValid()
      reads this
    {
      AnyRow(rows, ValidRow)
    }

    /** `handleSubmit` with the response's `count` and the clock reading as
        inputs; success resets to one blank row. */
    method Submit(count: int, now: int) returns (o: Outcome<seq<NewUser>>)
      modifies this`rows
      ensures o == SubmitRequest(outletId, old(rows))
      ensures o.Sent? <==> old(IsFormValid())
      ensures o.Sent? && count >= 1 ==> rows == [Draft(now, Blank)]
      ensures !(o.Sent? && count >= 1) ==> rows == old(rows)
    {
      o := SubmitRequest(outletId, rows);
      if o.Sent? && count >= 1 {
        rows := [Draft(now, Blank)];
      }
    }
  }

  /** The only row can be deleted, leaving no row at all. */
  lemma DeleteOnlyRow(now: int)
    ensures Delete([Draft(now, Blank)], now) == []
  {
  }
}
