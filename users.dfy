/**
 * The user administration screen: a paged list filtered by name and role,
 * the add/edit form (where editing leaves the password out), saving,
 * disabling, and the texts of its error dialogs.
 */
module Users {
  import opened Js
  import opened Http
  import opened Labels
  import opened Listing

  /** A user as the API lists it. */
  datatype User = User(id: int, email: string, password: string, name: string, phone: string, role: string, status: string)

  /** The form; `password` is None once `editUser` has rebuilt the form without it. */
  datatype UserForm = UserForm(id: int, name: string, email: string, password: Option<string>, phone: string, role: string, status: string)

  /** `resetForm()`: a new, active staff member ('S') with an empty password. */
  const BlankForm: UserForm := UserForm(0, "", "", Some(""), "", "S", "1")

  /** `editUser(u)`: copies id, name, email, phone, role and status; the password is not carried over. */
  function FormOf(u: User): (f: UserForm)
    ensures f.id == u.id && f.name == u.name && f.email == u.email && f.phone == u.phone
    ensures f.role == u.role && f.status == u.status
    ensures f.password == None
  {
    UserForm(u.id, u.name, u.email, None, u.phone, u.role, u.status)
  }

  /** `isEditMode`: `!!(id && id > 0)`. */
  predicate IsEditMode(f: UserForm) { f.id > 0 }

  function PasswordValue(p: Option<string>): Value {
    if p.Some? then Str(p.value) else Undefined
  }

  /** The body of `save()`: name, email, password, phone, role, status and id. */
  function Payload(f: UserForm): (body: Object)
    ensures body.Keys == {"name", "email", "password", "phone", "role", "status", "id"}
    ensures Lookup(body, "name") == Str(f.name) && Lookup(body, "email") == Str(f.email)
    ensures Lookup(body, "password") == (if f.password.Some? then Str(f.password.value) else Undefined)
    ensures Lookup(body, "phone") == Str(f.phone) && Lookup(body, "role") == Str(f.role)
    ensures Lookup(body, "status") == Str(f.status) && Lookup(body, "id") == Num(f.id)
  {
    map["name" := Str(f.name), "email" := Str(f.email), "password" := PasswordValue(f.password),
        "phone" := Str(f.phone), "role" := Str(f.role), "status" := Str(f.status), "id" := Num(f.id)]
  }

  /** `save()`: PUT to edit_user/<id> in edit mode, POST to addUser otherwise. */
  function Save(f: UserForm): (r: Request)
    ensures r.body == Payload(f)
    ensures IsEditMode(f) ==> r.verb == Put && r.path == "/api/v1/users/edit_user/" + IntToString(f.id)
    ensures !IsEditMode(f) ==> r.verb == Post && r.path == "/api/v1/users/addUser"
  {
    SaveRequest(IsEditMode(f), Put, "/api/v1/users/edit_user", Num(f.id), "/api/v1/users/addUser", Payload(f))
  }

  /**
   * Saving an edited user updates that user and sends no password at all
   * (JSON drops the undefined property), so the stored password is kept;
   * saving a new user sends the password typed into the form.
   */
  lemma EditedUserKeepsPassword(u: User, f: UserForm)
    requires f.password.Some?
    ensures u.id > 0 ==> Save(FormOf(u)).verb == Put
    ensures "password" !in Serialized(Save(FormOf(u)).body)
    ensures "password" in Serialized(Save(f).body)
    ensures Serialized(Save(f).body)["password"] == Str(f.password.value)
  {
  }

  const UserNotFound := "ไม่พบผู้ใช้"

  const EditTexts := ErrorTexts("เกิดข้อผิดพลาดในการแก้ไข", InvalidInput, Some(UserNotFound), Unauthorized, Some(ServerFailed), NoConnection)
  const AddTexts := ErrorTexts("เกิดข้อผิดพลาดในการเพิ่มผู้ใช้", InvalidInput, Some(UserNotFound), Unauthorized, Some(ServerFailed), NoConnection)
  const DisableTexts := ErrorTexts("เกิดข้อผิดพลาดในการปิดการใช้งาน", "รหัสผู้ใช้ไม่ถูกต้อง", Some(UserNotFound), Unauthorized, Some(ServerFailed), NoConnection)

  /** The dialog text of a failed save: the edit texts or the add texts, by the form's mode. */
  function SaveFailureMessage(f: UserForm, e: Failure): (msg: Value)
    ensures Truthy(msg)
    ensures e.status == 404 ==> msg == Or(e.serverMessage, Str(UserNotFound))
    ensures e.status == 401 ==> msg == Str(Unauthorized)
    ensures e.status !in {0, 400, 401, 404, 500} ==>
      msg == Str(if IsEditMode(f) then "เกิดข้อผิดพลาดในการแก้ไข" else "เกิดข้อผิดพลาดในการเพิ่มผู้ใช้")
  {
    ErrorMessage(e, if IsEditMode(f) then EditTexts else AddTexts)
  }

  /** The dialog text of a failed disable. */
  function DisableFailureMessage(e: Failure): (msg: Value)
    ensures Truthy(msg)
    ensures e.status == 400 ==> msg == Or(e.serverMessage, Str("รหัสผู้ใช้ไม่ถูกต้อง"))
    ensures e.status !in {0, 400, 401, 404, 500} ==> msg == Str("เกิดข้อผิดพลาดในการปิดการใช้งาน")
  {
    ErrorMessage(e, DisableTexts)
  }

  /** `performDisableUser(id)` once confirmed: throws before any request without a stored token. */
  function DisableUser(confirmed: bool, token: Option<string>, id: int): (o: DisableOutcome)
    ensures o.Sent? <==> confirmed && HasToken(token)
    ensures o.MissingToken? <==> confirmed && !HasToken(token)
    ensures o.Sent? ==> o.request == Request(Patch, "/api/v1/users/disable_user/" + IntToString(id), map[])
  {
    Disable(confirmed, true, token, WithId("/api/v1/users/disable_user", Num(id)))
  }

  /** The search box and the role select, in the order `loadUsers()` tests them. */
  function Filters(searchName: string, selectedRole: string): seq<Filter> {
    [Filter("name", Str(searchName)), Filter("role", Str(selectedRole))]
  }

  /** The query of `loadUsers()`: page and limit, then name and role only when filled in. */
  function UsersQuery(page: int, limit: int, searchName: string, selectedRole: string): (q: Query)
    ensures |q| >= 2
    ensures q[0] == ("page", IntToString(page)) && q[1] == ("limit", IntToString(limit))
    ensures HasParam(q, "name") <==> searchName != ""
    ensures searchName != "" ==> ParamValue(q, "name") == Some(searchName)
    ensures HasParam(q, "role") <==> selectedRole != ""
    ensures selectedRole != "" ==> ParamValue(q, "role") == Some(selectedRole)
  {
    var fs := Filters(searchName, selectedRole);
    PageQueryParams(page, limit, fs, 0);
    PageQueryParams(page, limit, fs, 1);
    PageQuery(page, limit, fs)
  }

  const Roles: map<string, string> := map["A" := "ผู้ดูแลระบบ", "S" := "พนักงาน"]

  /** `getRoleText`: 'A' administrator, 'S' staff, any other code as it is. */
  function RoleText(code: string): (text: string)
    ensures code == "A" ==> text == "ผู้ดูแลระบบ"
    ensures code == "S" ==> text == "พนักงาน"
    ensures code != "A" && code != "S" ==> text == code
  {
    LabelOf(Roles, code)
  }

  function StatusText(code: string): (text: string)
    ensures code == "1" ==> text == "ใช้งานได้"
    ensures code == "2" ==> text == "ปิดใช้งาน"
    ensures code != "1" && code != "2" ==> text == code
  {
    LabelOf(ActiveOrDisabled, code)
  }

  /**
   * The screen on creation: page 1 of 5 rows, empty filters, a failed load
   * empties the list; the blank form, edited by `FormOf`.
   */
  method NewScreen() returns (list: ListController<User>, form: FormState<User, UserForm>)
    ensures fresh(list) && fresh(form) && list.Valid()
    ensures list.pageSize == 5 && list.currentPage == 1 && list.clearOnFailure
    ensures list.filters == Filters("", "") && list.items == []
    ensures form.form == BlankForm && form.blank == BlankForm && form.fromRecord == FormOf
  {
    list := new ListController<User>(5, true, Filters("", ""));
    form := new FormState<User, UserForm>(BlankForm, FormOf);
  }
}
