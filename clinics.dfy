/** The clinic reference screen: its list, its add/edit form, saving and disabling. */
module Clinics {
  import opened Js
  import opened Http
  import opened Labels
  import opened Listing

  /** A clinic as the API lists it. */
  datatype Clinic = Clinic(id: int, name: string, address: string, phone: string, status: string)

  /** The form `resetForm()` puts back: a new, active clinic. */
  const BlankForm: Clinic := Clinic(0, "", "", "", "1")

  /** `editClinic(r)`: the form takes the record's id, fields and status. */
  function FormOf(r: Clinic): (f: Clinic)
    ensures f == r
  {
    Clinic(r.id, r.name, r.address, r.phone, r.status)
  }

  /** `isEditMode`: the form holds a stored record. */
  predicate IsEditMode(f: Clinic) { f.id > 0 }

  /** The JSON body `save()` sends: exactly name, address, phone, status, id. */
  function Payload(f: Clinic): (body: Object)
    ensures body.Keys == {"name", "address", "phone", "status", "id"}
    ensures Lookup(body, "name") == Str(f.name)
    ensures Lookup(body, "address") == Str(f.address)
    ensures Lookup(body, "phone") == Str(f.phone)
    ensures Lookup(body, "status") == Str(f.status)
    ensures Lookup(body, "id") == Num(f.id)
  {
    map["name" := Str(f.name), "address" := Str(f.address), "phone" := Str(f.phone), "status" := Str(f.status), "id" := Num(f.id)]
  }

  /** `save()`: PUT to the record's edit path in edit mode, POST to the add path otherwise. */
  function Save(f: Clinic): (r: Request)
    ensures r.body == Payload(f)
    ensures IsEditMode(f) ==> r.verb == Put && r.path == "/api/v1/Clinics/editClinic/" + IntToString(f.id)
    ensures !IsEditMode(f) ==> r.verb == Post && r.path == "/api/v1/Clinics/addClinic"
  {
    SaveRequest(IsEditMode(f), Put, "/api/v1/Clinics/editClinic", Num(f.id), "/api/v1/Clinics/addClinic", Payload(f))
  }

  /** After `resetForm()` a save creates; after editing a stored record it updates that record with the record's own values. */
  lemma SaveAfterResetOrEdit(r: Clinic)
    ensures Save(BlankForm).verb == Post && Lookup(Save(BlankForm).body, "id") == Num(0)
    ensures r.id > 0 ==> Save(FormOf(r)) == Request(Put, "/api/v1/Clinics/editClinic/" + IntToString(r.id), Payload(r))
  {
  }

  /** The confirmed disable: a PATCH only when a token is stored. */
  function DisableClinic(confirmed: bool, token: Option<string>, id: int): (o: DisableOutcome)
    ensures o.Sent? <==> confirmed && HasToken(token)
    ensures o.Sent? ==> o.request == Request(Patch, "/api/v1/Clinics/disableClinic/" + IntToString(id), map[])
  {
    Disable(confirmed, true, token, WithId("/api/v1/Clinics/disableClinic", Num(id)))
  }

  /** `getStatusText`: '1' active, '2' disabled, any other code as it is. */
  function StatusText(code: string): (text: string)
    ensures code == "1" ==> text == "ใช้งานได้"
    ensures code == "2" ==> text == "ปิดใช้งาน"
    ensures code != "1" && code != "2" ==> text == code
  {
    LabelOf(ActiveOrDisabled, code)
  }

  /** The screen's state on creation: an empty list and the blank form, edited by `FormOf`. */
  method NewScreen() returns (list: Collection<Clinic>, form: FormState<Clinic, Clinic>)
    ensures fresh(list) && fresh(form)
    ensures list.items == [] && !list.loading
    ensures form.form == BlankForm && form.blank == BlankForm && form.fromRecord == FormOf
  {
    list := new Collection<Clinic>();
    form := new FormState<Clinic, Clinic>(BlankForm, FormOf);
  }
}
