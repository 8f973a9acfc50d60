/**
 * The customer screen: a paged list filtered by name, phone and Facebook
 * name, the add/edit form, saving, disabling and its error dialogs.
 */
module Customers {
  import opened Js
  import opened Http
  import opened Labels
  import opened Listing

  /** A customer as the API lists it; the form has the same six fields. */
  datatype Customer = Customer(id: int, name: string, phone: string, email: string, facebook: string, status: string)

  /** `resetForm()`: a new, active customer with empty fields. */
  const BlankForm: Customer := Customer(0, "", "", "", "", "1")

  /** `editCustomer(c)`: copies all six fields unchanged. */
  function FormOf(c: Customer): (f: Customer)
    ensures f == c
  {
    Customer(c.id, c.name, c.phone, c.email, c.facebook, c.status)
  }

  predicate IsEditMode(f: Customer) { f.id > 0 }

  /** The body of `save()`: name, phone, email, facebook, status and id. */
  function Payload(f: Customer): (body: Object)
    ensures body.Keys == {"name", "phone", "email", "facebook", "status", "id"}
    ensures Lookup(body, "name") == Str(f.name) && Lookup(body, "phone") == Str(f.phone)
    ensures Lookup(body, "email") == Str(f.email) && Lookup(body, "facebook") == Str(f.facebook)
    ensures Lookup(body, "status") == Str(f.status) && Lookup(body, "id") == Num(f.id)
  {
    map["name" := Str(f.name), "phone" := Str(f.phone), "email" := Str(f.email),
        "facebook" := Str(f.facebook), "status" := Str(f.status), "id" := Num(f.id)]
  }

  /** `save()`: PUT to editCustomer/<id> in edit mode, POST to addCustomer otherwise. */
  function Save(f: Customer): (r: Request)
    ensures r.body == Payload(f)
    ensures IsEditMode(f) ==> r.verb == Put && r.path == "/api/v1/customers/editCustomer/" + IntToString(f.id)
    ensures !IsEditMode(f) ==> r.verb == Post && r.path == "/api/v1/customers/addCustomer"
  {
    SaveRequest(IsEditMode(f), Put, "/api/v1/customers/editCustomer", Num(f.id), "/api/v1/customers/addCustomer", Payload(f))
  }

  /** After `resetForm()` a save creates; after `editCustomer(c)` of a stored customer it updates `c` with its own values. */
  lemma SaveAfterResetOrEdit(c: Customer)
    ensures Save(BlankForm).verb == Post && Save(BlankForm).path == "/api/v1/customers/addCustomer"
    ensures c.id > 0 ==> Save(FormOf(c)) == Request(Put, "/api/v1/customers/editCustomer/" + IntToString(c.id), Payload(c))
  {
  }

  const CustomerNotFound := "ไม่พบลูกค้า"

  const EditTexts := ErrorTexts("เกิดข้อผิดพลาดในการแก้ไข", InvalidInput, Some(CustomerNotFound), Unauthorized, Some(ServerFailed), NoConnection)
  const AddTexts := ErrorTexts("เกิดข้อผิดพลาดในการเพิ่มลูกค้า", InvalidInput, Some(CustomerNotFound), Unauthorized, Some(ServerFailed), NoConnection)
  const DisableTexts := ErrorTexts("เกิดข้อผิดพลาดในการปิดการใช้งาน", "รหัสลูกค้าไม่ถูกต้อง", Some(CustomerNotFound), Unauthorized, Some(ServerFailed), NoConnection)

  /** The dialog text of a failed save: the edit texts or the add texts, by the form's mode. */
  function SaveFailureMessage(f: Customer, e: Failure): (msg: Value)
    ensures Truthy(msg)
    ensures e.status == 404 ==> msg == Or(e.serverMessage, Str(CustomerNotFound))
    ensures e.status == 500 ==> msg == Or(e.serverMessage, Str(ServerFailed))
    ensures e.status !in {0, 400, 401, 404, 500} ==>
      msg == Str(if IsEditMode(f) then "เกิดข้อผิดพลาดในการแก้ไข" else "เกิดข้อผิดพลาดในการเพิ่มลูกค้า")
  {
    ErrorMessage(e, if IsEditMode(f) then EditTexts else AddTexts)
  }

  /** The dialog text of a failed disable. */
  function DisableFailureMessage(e: Failure): (msg: Value)
    ensures Truthy(msg)
    ensures e.status == 400 ==> msg == Or(e.serverMessage, Str("รหัสลูกค้าไม่ถูกต้อง"))
    ensures e.status !in {0, 400, 401, 404, 500} ==> msg == Str("เกิดข้อผิดพลาดในการปิดการใช้งาน")
  {
    ErrorMessage(e, DisableTexts)
  }

  /** `performDisableCustomer(id)` once confirmed: throws before any request without a stored token. */
  function DisableCustomer(confirmed: bool, token: Option<string>, id: int): (o: DisableOutcome)
    ensures o.Sent? <==> confirmed && HasToken(token)
    ensures o.MissingToken? <==> confirmed && !HasToken(token)
    ensures o.Sent? ==> o.request == Request(Patch, "/api/v1/customers/disableCustomer/" + IntToString(id), map[])
  {
    Disable(confirmed, true, token, WithId("/api/v1/customers/disableCustomer", Num(id)))
  }

  /** The three search boxes, in the order `loadCustomers()` tests them. */
  function Filters(searchName: string, searchPhone: string, searchFacebook: string): seq<Filter> {
    [Filter("name", Str(searchName)), Filter("phone", Str(searchPhone)), Filter("facebook", Str(searchFacebook))]
  }

  /** The query of `loadCustomers()`: page and limit, then each search box only when filled in. */
  function CustomersQuery(page: int, limit: int, searchName: string, searchPhone: string, searchFacebook: string): (q: Query)
    ensures |q| >= 2
    ensures q[0] == ("page", IntToString(page)) && q[1] == ("limit", IntToString(limit))
    ensures HasParam(q, "name") <==> searchName != ""
    ensures searchName != "" ==> ParamValue(q, "name") == Some(searchName)
    ensures HasParam(q, "phone") <==> searchPhone != ""
    ensures searchPhone != "" ==> ParamValue(q, "phone") == Some(searchPhone)
    ensures HasParam(q, "facebook") <==> searchFacebook != ""
    ensures searchFacebook != "" ==> ParamValue(q, "facebook") == Some(searchFacebook)
  {
    var fs := Filters(searchName, searchPhone, searchFacebook);
    PageQueryParams(page, limit, fs, 0);
    PageQueryParams(page, limit, fs, 1);
    PageQueryParams(page, limit, fs, 2);
    PageQuery(page, limit, fs)
  }

  function StatusText(code: string): (text: string)
    ensures code == "1" ==> text == "ใช้งานได้"
    ensures code == "2" ==> text == "ปิดใช้งาน"
    ensures code != "1" && code != "2" ==> text == code
  {
    LabelOf(ActiveOrDisabled, code)
  }

  /** The screen on creation: page 1 of 5 rows, empty filters, a failed load empties the list; the blank form. */
  method NewScreen() returns (list: ListController<Customer>, form: FormState<Customer, Customer>)
    ensures fresh(list) && fresh(form) && list.Valid()
    ensures list.pageSize == 5 && list.currentPage == 1 && list.clearOnFailure
    ensures list.filters == Filters("", "", "") && list.items == []
    ensures form.form == BlankForm && form.blank == BlankForm && form.fromRecord == FormOf
  {
    list := new ListController<Customer>(5, true, Filters("", "", ""));
    form := new FormState<Customer, Customer>(BlankForm, FormOf);
  }
}
