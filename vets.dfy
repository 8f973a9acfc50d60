/**
 * The veterinarian screen: like the other reference screens, except that a
 * vet belongs to a clinic that may be unset, and `save()` rewrites an unset
 * clinic in the form itself before building the body.
 */
module Vets {
  import opened Js
  import opened Http
  import opened Labels
  import opened Listing

  /** A vet as the API lists it; `clinicId` is a number or null. */
  datatype Vet = Vet(id: int, name: string, phone: string, clinicId: Value, clinicName: string, status: string)

  /** The form; `clinicName` is None once `editVet` has rebuilt the form without it. */
  datatype VetForm = VetForm(id: int, name: string, phone: string, clinicId: Value, clinicName: Option<string>, status: string)

  /** `resetForm()`: a new, active vet with clinic 0. */
  const BlankForm: VetForm := VetForm(0, "", "", Num(0), Some(""), "1")

  /** `editVet(v)`: copies every field but the clinic name. */
  function FormOf(v: Vet): (f: VetForm)
    ensures f.id == v.id && f.name == v.name && f.phone == v.phone
    ensures f.clinicId == v.clinicId && f.status == v.status
    ensures f.clinicName == None
  {
    VetForm(v.id, v.name, v.phone, v.clinicId, None, v.status)
  }

  predicate IsEditMode(f: VetForm) { f.id > 0 }

  /** `if (!clinicId) clinicId = null`: an unset clinic (0, '', undefined, null) is sent as null. */
  function WithClinicOrNull(f: VetForm): (g: VetForm)
    ensures Truthy(f.clinicId) ==> g == f
    ensures !Truthy(f.clinicId) ==> g == f.(clinicId := Null)
    ensures Truthy(g.clinicId) || g.clinicId == Null
  {
    if Truthy(f.clinicId) then f else f.(clinicId := Null)
  }

  /** Rewriting twice changes nothing more. */
  lemma WithClinicOrNullIdempotent(f: VetForm)
    ensures WithClinicOrNull(WithClinicOrNull(f)) == WithClinicOrNull(f)
  {
  }

  /** The body: name, phone, clinicId, status and id (never the clinic name). */
  function Payload(f: VetForm): (body: Object)
    ensures body.Keys == {"name", "phone", "clinicId", "status", "id"}
    ensures Lookup(body, "name") == Str(f.name) && Lookup(body, "phone") == Str(f.phone)
    ensures Lookup(body, "clinicId") == f.clinicId && Lookup(body, "status") == Str(f.status)
    ensures Lookup(body, "id") == Num(f.id)
  {
    map["name" := Str(f.name), "phone" := Str(f.phone), "clinicId" := f.clinicId,
        "status" := Str(f.status), "id" := Num(f.id)]
  }

  /** The request `save()` sends from the form as it stood: the clinic is a real id or null. */
  function Save(f: VetForm): (r: Request)
    ensures r.body == Payload(WithClinicOrNull(f))
    ensures Lookup(r.body, "clinicId") == (if Truthy(f.clinicId) then f.clinicId else Null)
    ensures IsEditMode(f) ==> r.verb == Put && r.path == "/api/v1/Vets/editVet/" + IntToString(f.id)
    ensures !IsEditMode(f) ==> r.verb == Post && r.path == "/api/v1/Vets/addVet"
  {
    var g := WithClinicOrNull(f);
    SaveRequest(IsEditMode(g), Put, "/api/v1/Vets/editVet", Num(g.id), "/api/v1/Vets/addVet", Payload(g))
  }

  /** The confirmed disable: a PATCH only when a token is stored. */
  function DisableVet(confirmed: bool, token: Option<string>, id: int): (o: DisableOutcome)
    ensures o.Sent? <==> confirmed && HasToken(token)
    ensures o.Sent? ==> o.request == Request(Patch, "/api/v1/Vets/disableVet/" + IntToString(id), map[])
  {
    Disable(confirmed, true, token, WithId("/api/v1/Vets/disableVet", Num(id)))
  }

  function StatusText(code: string): (text: string)
    ensures code == "1" ==> text == "ใช้งานได้"
    ensures code == "2" ==> text == "ปิดใช้งาน"
    ensures code != "1" && code != "2" ==> text == code
  {
    LabelOf(ActiveOrDisabled, code)
  }

  /** The vet screen's list and form. */
  class VetScreen {
    const vets: Collection<Vet>
    var form: VetForm

    constructor ()
      ensures fresh(vets) && vets.items == [] && !vets.loading
      ensures form == BlankForm
    {
      vets := new Collection<Vet>();
      form := BlankForm;
    }

    method ResetForm()
      modifies this`form
      ensures form == BlankForm
    {
      form := BlankForm;
    }

    method EditVet(v: Vet)
      modifies this`form
      ensures form == FormOf(v)
    {
      form := FormOf(v);
    }

    /** `save()`: clears an unset clinic in the form, then sends the form. */
    method SaveForm() returns (r: Request)
      modifies this`form
      ensures form == WithClinicOrNull(old(form))
      ensures r == Save(old(form))
    {
      if !Truthy(form.clinicId) {
        form := form.(clinicId := Null);
      }
      r := SaveRequest(IsEditMode(form), Put, "/api/v1/Vets/editVet", Num(form.id), "/api/v1/Vets/addVet", Payload(form));
    }
  }
}
