/**
 * The vaccination screen: a paged list of vaccination records, the record
 * form with its list of doses (appended and removed in place), the dose
 * form and the vaccination record it is saved under, the first active dose
 * of a record, disabling records and doses, and the error dialogs of each
 * call.
 */
module Vaccinations {
  import opened Js
  import opened Http
  import opened Labels
  import opened Listing

  /** A dose is a plain object: `dS_ID`, `vR_ID`, `vet_ID`, `dS_Number`, the dates, notes and `dS_Status`. */
  type Dose = Object

  /** A vaccination record as the API lists it, with its doses. */
  datatype Vaccination = Vaccination(vrId: int, vaccineId: Value, dogId: Value, userId: Value, status: Value, doses: seq<Dose>)

  /** `formVaccination`. */
  datatype VaccinationForm = VaccinationForm(id: int, vaccineId: Value, dogId: Value, userId: Value, status: Value, doses: seq<Dose>)

  // ---------------------------------------------------------------- the record form

  /** `resetForm()`'s record: nothing chosen, status '1', no doses. */
  const BlankForm: VaccinationForm := VaccinationForm(0, Num(0), Num(0), Num(0), Str("1"), [])

  /** `editVaccination(v)`: `vR_ID` becomes the form's id; the doses are copied. */
  function FormOf(v: Vaccination): (f: VaccinationForm)
    ensures f.id == v.vrId && f.vaccineId == v.vaccineId && f.dogId == v.dogId
    ensures f.userId == v.userId && f.status == v.status && f.doses == v.doses
  {
    VaccinationForm(v.vrId, v.vaccineId, v.dogId, v.userId, v.status, v.doses)
  }

  predicate IsEditMode(f: VaccinationForm) { f.id > 0 }

  /** The body of `save()`: the three ids, the status under the name `status`, and the id; never the doses. */
  function Payload(f: VaccinationForm): (body: Object)
    ensures body.Keys == {"vaccine_ID", "dog_ID", "user_ID", "status", "id"}
    ensures Lookup(body, "vaccine_ID") == f.vaccineId && Lookup(body, "dog_ID") == f.dogId
    ensures Lookup(body, "user_ID") == f.userId && Lookup(body, "status") == f.status && Lookup(body, "id") == Num(f.id)
  {
    map["vaccine_ID" := f.vaccineId, "dog_ID" := f.dogId, "user_ID" := f.userId, "status" := f.status, "id" := Num(f.id)]
  }

  /** `save()`: PATCH to editVaccinationRecord/<id> in edit mode, POST to addVaccinationRecord otherwise. */
  function Save(f: VaccinationForm): (r: Request)
    ensures r.body == Payload(f)
    ensures IsEditMode(f) ==> r.verb == Patch && r.path == "/api/v1/vaccinations/editVaccinationRecord/" + IntToString(f.id)
    ensures !IsEditMode(f) ==> r.verb == Post && r.path == "/api/v1/vaccinations/addVaccinationRecord"
  {
    SaveRequest(IsEditMode(f), Patch, "/api/v1/vaccinations/editVaccinationRecord", Num(f.id),
                "/api/v1/vaccinations/addVaccinationRecord", Payload(f))
  }

  /**
   * A record opened by `editVaccination(v)` is saved as an update of `v`'s
   * record, with its status; the doses gathered in the form are not sent.
   */
  lemma SaveOfEditedVaccination(v: Vaccination)
    ensures var r := Save(FormOf(v));
      && (v.vrId > 0 ==> r.verb == Patch && r.path == "/api/v1/vaccinations/editVaccinationRecord/" + IntToString(v.vrId))
      && Lookup(r.body, "status") == v.status && Lookup(r.body, "id") == Num(v.vrId)
      && "doses" !in r.body
    ensures Save(BlankForm).verb == Post && Lookup(Save(BlankForm).body, "status") == Str("1")
  {
  }

  // ---------------------------------------------------------------- doses

  /** `resetDoseForm()` and the initial `newDose`: vet 0, number 0, empty dates and notes, status '1'. */
  const DoseDefaults: Dose := map[
    "vet_ID" := Num(0), "dS_Number" := Num(0), "dS_ScheduledDate" := Str(""),
    "dS_ActualDate" := Str(""), "dS_Notes" := Str(""), "dS_Status" := Str("1")]

  /** The `newDose` that `addDose()` and `resetForm()` leave: as `DoseDefaults` but with no `vet_ID`. */
  const ClearedDose: Dose := map[
    "dS_Number" := Num(0), "dS_ScheduledDate" := Str(""),
    "dS_ActualDate" := Str(""), "dS_Notes" := Str(""), "dS_Status" := Str("1")]

  /** The guard of `addDose()`: a dose number and a scheduled date. */
  predicate DoseComplete(d: Dose) {
    Truthy(Lookup(d, "dS_Number")) && Truthy(Lookup(d, "dS_ScheduledDate"))
  }

  /** `{...newDose, dS_Status: newDose.dS_Status || '1'}`: the dose with a status that is never empty. */
  function DoseToAppend(d: Dose): (r: Dose)
    ensures r.Keys == d.Keys + {"dS_Status"}
    ensures forall k :: k in d && k != "dS_Status" ==> r[k] == d[k]
    ensures Truthy(Lookup(d, "dS_Status")) ==> r["dS_Status"] == d["dS_Status"]
    ensures !Truthy(Lookup(d, "dS_Status")) ==> r["dS_Status"] == Str("1")
  {
    d["dS_Status" := Or(Lookup(d, "dS_Status"), Str("1"))]
  }

  /** A dose still to be given: status '1', compared strictly. */
  predicate IsActiveDose(d: Dose) { Lookup(d, "dS_Status") == Str("1") }

  /**
   * `getActiveDose(v)`: the first dose whose status is '1', or null when
   * there are no doses or none of them is active.
   */
  function ActiveDose(doses: seq<Dose>): (r: Option<Dose>)
    ensures r.None? <==> forall i :: 0 <= i < |doses| ==> !IsActiveDose(doses[i])
    ensures r.Some? ==> exists i :: (0 <= i < |doses| && doses[i] == r.value && IsActiveDose(doses[i])
      && forall j :: 0 <= j < i ==> !IsActiveDose(doses[j]))
  {
    if doses == [] then None
    else if IsActiveDose(doses[0]) then Some(doses[0])
    else
      var rest := ActiveDose(doses[1..]);
      if rest.Some? then
        ghost var i :| (0 <= i < |doses[1..]| && doses[1..][i] == rest.value && IsActiveDose(doses[1..][i])
          && forall j :: 0 <= j < i ==> !IsActiveDose(doses[1..][j]));
        assert doses[i + 1] == rest.value && IsActiveDose(doses[i + 1]);
        assert forall j :: 0 <= j < i + 1 ==> !IsActiveDose(doses[j]) by {
          forall j | 0 <= j < i + 1 ensures !IsActiveDose(doses[j]) {
            if j > 0 { assert doses[j] == doses[1..][j - 1]; }
          }
        }
        rest
      else
        assert forall i :: 0 <= i < |doses| ==> !IsActiveDose(doses[i]) by {
          forall i | 0 <= i < |doses| ensures !IsActiveDose(doses[i]) {
            if i > 0 { assert doses[i] == doses[1..][i - 1]; }
          }
        }
        None
  }

  /** The body of `saveDose()`: the record from `currentVRID`, and the dose's vet, number, dates, notes and status. */
  function DosePayload(currentVRID: Value, d: Dose): (body: Object)
    ensures body.Keys == {"vR_ID", "vet_ID", "dS_Number", "dS_ScheduledDate", "dS_ActualDate", "dS_Notes", "dS_Status"}
    ensures Lookup(body, "vR_ID") == currentVRID
    ensures forall k :: k in body && k != "vR_ID" ==> body[k] == Lookup(d, k)
  {
    map["vR_ID" := currentVRID, "vet_ID" := Lookup(d, "vet_ID"), "dS_Number" := Lookup(d, "dS_Number"),
        "dS_ScheduledDate" := Lookup(d, "dS_ScheduledDate"), "dS_ActualDate" := Lookup(d, "dS_ActualDate"),
        "dS_Notes" := Lookup(d, "dS_Notes"), "dS_Status" := Lookup(d, "dS_Status")]
  }

  /** `saveDose()`: PATCH to editDose/<dS_ID> in dose edit mode, POST to addDose otherwise. */
  function SaveDose(doseEditMode: bool, currentVRID: Value, d: Dose): (r: Request)
    ensures r.body == DosePayload(currentVRID, d)
    ensures doseEditMode ==> r.verb == Patch && r.path == "/api/v1/vaccinations/editDose/" + ToString(Lookup(d, "dS_ID"))
    ensures !doseEditMode ==> r.verb == Post && r.path == "/api/v1/vaccinations/addDose"
  {
    SaveRequest(doseEditMode, Patch, "/api/v1/vaccinations/editDose", Lookup(d, "dS_ID"),
                "/api/v1/vaccinations/addDose", DosePayload(currentVRID, d))
  }

  /**
   * The form state of the screen: the record being edited with its doses,
   * the dose being edited, whether that dose is an existing one, and the
   * record a dose is saved under.
   */
  class VaccinationForms {
    var formVaccination: VaccinationForm
    var newDose: Dose
    var isDoseEditMode: bool
    var currentVRID: Value

    constructor ()
      ensures formVaccination == BlankForm && newDose == DoseDefaults
      ensures !isDoseEditMode && currentVRID == Num(0)
    {
      formVaccination := BlankForm;
      newDose := DoseDefaults;
      isDoseEditMode := false;
      currentVRID := Num(0);
    }

    function SaveDoseRequest(): (r: Request)
      reads this
      ensures r == SaveDose(isDoseEditMode, currentVRID, newDose)
    {
      SaveDose(isDoseEditMode, currentVRID, newDose)
    }

    /** `resetForm()`: the blank record, and a cleared dose form without a vet. */
    method ResetForm()
      modifies this`formVaccination, this`newDose
      ensures formVaccination == BlankForm && newDose == ClearedDose
    {
      formVaccination := BlankForm;
      newDose := ClearedDose;
    }

    method EditVaccination(v: Vaccination)
      modifies this`formVaccination
      ensures formVaccination == FormOf(v)
    {
      formVaccination := FormOf(v);
    }

    method ResetDoseForm()
      modifies this`newDose
      ensures newDose == DoseDefaults
    {
      newDose := DoseDefaults;
    }

    /** `openAddDoseModal(vrId)`: a new dose of record `vrId`. */
    method OpenAddDoseModal(vrId: int)
      modifies this`currentVRID, this`isDoseEditMode, this`newDose
      ensures currentVRID == Num(vrId) && !isDoseEditMode && newDose == DoseDefaults
    {
      currentVRID := Num(vrId);
      isDoseEditMode := false;
      ResetDoseForm();
    }

    /** `editDose(dose)`: the dose's own record, a copy of the dose, edit mode on. */
    method EditDose(dose: Dose)
      modifies this`currentVRID, this`isDoseEditMode, this`newDose
      ensures currentVRID == Lookup(dose, "vR_ID") && newDose == dose && isDoseEditMode
    {
      currentVRID := Lookup(dose, "vR_ID");
      newDose := dose;
      isDoseEditMode := true;
    }

    /**
     * `addDose()`: with a dose number and a scheduled date, appends exactly
     * that dose (status defaulting to '1') and clears the dose form;
     * otherwise changes nothing (a warning is shown).
     */
    method AddDose() returns (added: bool)
      modifies this`formVaccination, this`newDose
      ensures added <==> DoseComplete(old(newDose))
      ensures added ==> formVaccination == old(formVaccination).(doses := old(formVaccination).doses + [DoseToAppend(old(newDose))])
      ensures added ==> newDose == ClearedDose
      ensures !added ==> formVaccination == old(formVaccination) && newDose == old(newDose)
    {
      added := DoseComplete(newDose);
      if added {
        formVaccination := formVaccination.(doses := formVaccination.doses + [DoseToAppend(newDose)]);
        newDose := ClearedDose;
      }
    }

    /** `removeDose(index)`: `splice(index, 1)` on the doses; nothing else changes. */
    method RemoveDose(index: int)
      modifies this`formVaccination
      ensures formVaccination == old(formVaccination).(doses := SpliceOne(old(formVaccination).doses, index))
      ensures 0 <= index < |old(formVaccination).doses| ==>
        formVaccination.doses == old(formVaccination).doses[..index] + old(formVaccination).doses[index + 1..]
    {
      formVaccination := formVaccination.(doses := SpliceOne(formVaccination.doses, index));
    }
  }

  /**
   * Adding then removing the dose just added gives back the doses as they
   * were; the added dose is always active or carries its own status.
   */
  lemma AddThenRemoveLast(doses: seq<Dose>, d: Dose)
    ensures SpliceOne(doses + [DoseToAppend(d)], |doses|) == doses
    ensures SpliceOne(doses + [DoseToAppend(d)], -1) == doses
    ensures Truthy(Lookup(DoseToAppend(d), "dS_Status"))
  {
    assert (doses + [DoseToAppend(d)])[..|doses|] == doses;
  }

  /**
   * Once a record has an active dose, appending more doses does not change
   * which dose is active; appending an active dose to a record with none
   * makes that dose the active one.
   */
  lemma {:induction false} ActiveDoseAfterAppend(doses: seq<Dose>, d: Dose)
    ensures ActiveDose(doses).Some? ==> ActiveDose(doses + [d]) == ActiveDose(doses)
    ensures ActiveDose(doses).None? && IsActiveDose(d) ==> ActiveDose(doses + [d]) == Some(d)
    decreases |doses|
  {
    if doses != [] {
      assert (doses + [d])[0] == doses[0];
      assert (doses + [d])[1..] == doses[1..] + [d];
      ActiveDoseAfterAppend(doses[1..], d);
    }
  }

  /**
   * A new dose opened for record `vrId` is created under that record with
   * vet 0 and status '1'; a dose opened by `editDose(d)` is saved as an
   * update of `d` under `d`'s own record.
   */
  lemma DoseSavedUnderItsRecord(vrId: int, d: Dose)
    ensures var r := SaveDose(false, Num(vrId), DoseDefaults);
      && r.verb == Post && Lookup(r.body, "vR_ID") == Num(vrId)
      && Lookup(r.body, "vet_ID") == Num(0) && Lookup(r.body, "dS_Status") == Str("1")
    ensures var r := SaveDose(true, Lookup(d, "vR_ID"), d);
      && r.verb == Patch && r.path == "/api/v1/vaccinations/editDose/" + ToString(Lookup(d, "dS_ID"))
      && Lookup(r.body, "vR_ID") == Lookup(d, "vR_ID") && Lookup(r.body, "dS_Status") == Lookup(d, "dS_Status")
  {
    var r := SaveDose(true, Lookup(d, "vR_ID"), d);
    assert "dS_Status" in r.body;
  }

  // ---------------------------------------------------------------- disabling

  /** `performDisableVaccination(id)` once confirmed: throws before any request without a stored token. */
  function DisableVaccination(confirmed: bool, token: Option<string>, id: int): (o: DisableOutcome)
    ensures o.Sent? <==> confirmed && HasToken(token)
    ensures o.MissingToken? <==> confirmed && !HasToken(token)
    ensures o.Sent? ==> o.request == Request(Patch, "/api/v1/vaccinations/disableVaccinationRecord/" + IntToString(id), map[])
  {
    Disable(confirmed, true, token, WithId("/api/v1/vaccinations/disableVaccinationRecord", Num(id)))
  }

  /** `performDisableDose(dsId)` once confirmed: throws before any request without a stored token. */
  function DisableDose(confirmed: bool, token: Option<string>, dsId: int): (o: DisableOutcome)
    ensures o.Sent? <==> confirmed && HasToken(token)
    ensures o.MissingToken? <==> confirmed && !HasToken(token)
    ensures o.Sent? ==> o.request == Request(Patch, "/api/v1/vaccinations/disableDose/" + IntToString(dsId), map[])
  {
    Disable(confirmed, true, token, WithId("/api/v1/vaccinations/disableDose", Num(dsId)))
  }

  /** What the catch block shows for the thrown missing-token error (`${err}` of an Error). */
  const MissingTokenText := "เกิดข้อผิดพลาด: Error: ไม่พบ token การยืนยันตัวตน"

  // ---------------------------------------------------------------- error dialogs

  const RecordNotFound := "ไม่พบการฉีดวัคซีน"
  const DoseNotFound := "ไม่พบโดส"

  const EditTexts := ErrorTexts("เกิดข้อผิดพลาดในการแก้ไข", InvalidInput, Some(RecordNotFound), Unauthorized, Some(ServerFailed), NoConnection)
  const AddTexts := ErrorTexts("เกิดข้อผิดพลาดในการเพิ่มการฉีดวัคซีน", InvalidInput, None, Unauthorized, Some(ServerFailed), NoConnection)
  const DisableTexts := ErrorTexts("เกิดข้อผิดพลาดในการปิดการใช้งาน", "รหัสการฉีดวัคซีนไม่ถูกต้อง", Some(RecordNotFound), Unauthorized, Some(ServerFailed), NoConnection)
  const EditDoseTexts := ErrorTexts("เกิดข้อผิดพลาดในการแก้ไข", InvalidInput, Some(DoseNotFound), Unauthorized, Some(ServerFailed), NoConnection)
  const AddDoseTexts := ErrorTexts("เกิดข้อผิดพลาดในการเพิ่มโดส", InvalidInput, None, Unauthorized, Some(ServerFailed), NoConnection)
  const DisableDoseTexts := ErrorTexts("เกิดข้อผิดพลาดในการปิดการใช้งาน", "รหัสโดสไม่ถูกต้อง", Some(DoseNotFound), Unauthorized, Some(ServerFailed), NoConnection)

  /** The dialog text of a failed `save()`: adding has no branch for 404, which gets the add fallback. */
  function SaveFailureMessage(f: VaccinationForm, e: Failure): (msg: Value)
    ensures Truthy(msg)
    ensures e.status in {400, 500} && Truthy(e.serverMessage) ==> msg == e.serverMessage
    ensures e.status == 404 && IsEditMode(f) ==> msg == Or(e.serverMessage, Str(RecordNotFound))
    ensures e.status == 404 && !IsEditMode(f) ==> msg == Str("เกิดข้อผิดพลาดในการเพิ่มการฉีดวัคซีน")
    ensures e.status == 401 ==> msg == Str(Unauthorized)
    ensures e.status !in {0, 400, 401, 404, 500} ==>
      msg == Str(if IsEditMode(f) then "เกิดข้อผิดพลาดในการแก้ไข" else "เกิดข้อผิดพลาดในการเพิ่มการฉีดวัคซีน")
  {
    ErrorMessage(e, if IsEditMode(f) then EditTexts else AddTexts)
  }

  /** The dialog text of a failed `saveDose()`: adding a dose has no branch for 404 either. */
  function SaveDoseFailureMessage(doseEditMode: bool, e: Failure): (msg: Value)
    ensures Truthy(msg)
    ensures e.status in {400, 500} && Truthy(e.serverMessage) ==> msg == e.serverMessage
    ensures e.status == 404 && doseEditMode ==> msg == Or(e.serverMessage, Str(DoseNotFound))
    ensures e.status == 404 && !doseEditMode ==> msg == Str("เกิดข้อผิดพลาดในการเพิ่มโดส")
    ensures e.status !in {0, 400, 401, 404, 500} ==>
      msg == Str(if doseEditMode then "เกิดข้อผิดพลาดในการแก้ไข" else "เกิดข้อผิดพลาดในการเพิ่มโดส")
  {
    ErrorMessage(e, if doseEditMode then EditDoseTexts else AddDoseTexts)
  }

  function DisableFailureMessage(e: Failure): (msg: Value)
    ensures Truthy(msg)
    ensures e.status == 400 ==> msg == Or(e.serverMessage, Str("รหัสการฉีดวัคซีนไม่ถูกต้อง"))
    ensures e.status == 404 ==> msg == Or(e.serverMessage, Str(RecordNotFound))
    ensures e.status !in {0, 400, 401, 404, 500} ==> msg == Str("เกิดข้อผิดพลาดในการปิดการใช้งาน")
  {
    ErrorMessage(e, DisableTexts)
  }

  function DisableDoseFailureMessage(e: Failure): (msg: Value)
    ensures Truthy(msg)
    ensures e.status == 400 ==> msg == Or(e.serverMessage, Str("รหัสโดสไม่ถูกต้อง"))
    ensures e.status == 404 ==> msg == Or(e.serverMessage, Str(DoseNotFound))
    ensures e.status !in {0, 400, 401, 404, 500} ==> msg == Str("เกิดข้อผิดพลาดในการปิดการใช้งาน")
  {
    ErrorMessage(e, DisableDoseTexts)
  }

  // ---------------------------------------------------------------- the list

  /** The dog-name box and the status select, sent as `dog_Name` and `vR_Status`. */
  function Filters(searchDogName: string, searchStatus: string): seq<Filter> {
    [Filter("dog_Name", Str(searchDogName)), Filter("vR_Status", Str(searchStatus))]
  }

  /** The query of `loadVaccinations()`: page and limit, then each filter only when chosen. */
  function VaccinationsQuery(page: int, limit: int, searchDogName: string, searchStatus: string): (q: Query)
    ensures |q| >= 2
    ensures q[0] == ("page", IntToString(page)) && q[1] == ("limit", IntToString(limit))
    ensures HasParam(q, "dog_Name") <==> searchDogName != ""
    ensures searchDogName != "" ==> ParamValue(q, "dog_Name") == Some(searchDogName)
    ensures HasParam(q, "vR_Status") <==> searchStatus != ""
    ensures searchStatus != "" ==> ParamValue(q, "vR_Status") == Some(searchStatus)
  {
    var fs := Filters(searchDogName, searchStatus);
    PageQueryParams(page, limit, fs, 0);
    PageQueryParams(page, limit, fs, 1);
    PageQuery(page, limit, fs)
  }

  /** The screen on creation: page 1 of 5 rows, empty filters, a failed load empties the list; blank forms. */
  method NewScreen() returns (list: ListController<Vaccination>, forms: VaccinationForms)
    ensures fresh(list) && fresh(forms) && list.Valid()
    ensures list.pageSize == 5 && list.currentPage == 1 && list.clearOnFailure
    ensures list.filters == Filters("", "") && list.items == []
    ensures forms.formVaccination == BlankForm && forms.newDose == DoseDefaults && !forms.isDoseEditMode
  {
    list := new ListController<Vaccination>(5, true, Filters("", ""));
    forms := new VaccinationForms();
  }

  const Statuses: map<string, string> := map["1" := "อยู่ระหว่างการนัด", "2" := "สำเร็จ", "3" := "ยกเลิก", "4" := "ลบ"]
  const DoseStatuses: map<string, string> := map["1" := "นัดหมาย", "2" := "สำเร็จ", "3" := "ยกเลิก", "4" := "ลบ"]

  /** `getStatusText`: a switch over '1'..'4', any other code as it is. */
  function StatusText(code: string): (text: string)
    ensures code in Statuses ==> text == Statuses[code]
    ensures code !in {"1", "2", "3", "4"} ==> text == code
  {
    LabelOf(Statuses, code)
  }

  /** `getDoseStatusText`: as the record's, but '1' reads as an appointment. */
  function DoseStatusText(code: string): (text: string)
    ensures code in DoseStatuses ==> text == DoseStatuses[code]
    ensures code in {"2", "3", "4"} ==> text == StatusText(code)
    ensures code !in {"1", "2", "3", "4"} ==> text == code
  {
    LabelOf(DoseStatuses, code)
  }
}
