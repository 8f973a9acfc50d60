/**
 * The treatment-record screen: a paged list whose rows are flattened from
 * the API's nested treatment, dog, vet and user objects, the add/edit form,
 * the save body with an optional end date, disabling and the status labels.
 */
module TreatmentRecords {
  import opened Js
  import opened Http
  import opened Labels
  import opened Listing

  /** A row of the API's reply, with its four nested objects. */
  datatype ApiTreatmentRecord = ApiTreatmentRecord(
    id: int, treatmentList: Value, dog: Value, vet: Value, user: Value,
    startDate: Value, endDate: Value, status: Value)

  /** A flattened row; the form is a copy of one (`{...treatment}`). */
  datatype TreatmentRecord = TreatmentRecord(
    id: int, tlId: Value, tlName: Value, dogId: Value, dogName: Value,
    vetId: Value, vetName: Value, userId: Value, userName: Value,
    startDate: Value, endDate: Value, status: Value)

  /**
   * The row mapping of `loadTreatmentRecords()`: each nested object becomes
   * its id and name; a row missing any of the four objects throws.
   */
  function Flatten(item: ApiTreatmentRecord): (r: Option<TreatmentRecord>)
    ensures r.None? <==> Nullish(item.treatmentList) || Nullish(item.dog) || Nullish(item.vet) || Nullish(item.user)
    ensures r.Some? ==> var row := r.value;
      && row.id == item.id
      && row.tlId == OptionalMember(item.treatmentList, "id") && row.tlName == OptionalMember(item.treatmentList, "name")
      && row.dogId == OptionalMember(item.dog, "id") && row.dogName == OptionalMember(item.dog, "name")
      && row.vetId == OptionalMember(item.vet, "id") && row.vetName == OptionalMember(item.vet, "name")
      && row.userId == OptionalMember(item.user, "id") && row.userName == OptionalMember(item.user, "name")
      && row.startDate == item.startDate && row.endDate == item.endDate && row.status == item.status
  {
    var tl, dog, vet, user := Member(item.treatmentList, "id"), Member(item.dog, "id"), Member(item.vet, "id"), Member(item.user, "id");
    if tl.None? || dog.None? || vet.None? || user.None? then None
    else
      Some(TreatmentRecord(
        item.id, tl.value, OptionalMember(item.treatmentList, "name"),
        dog.value, OptionalMember(item.dog, "name"), vet.value, OptionalMember(item.vet, "name"),
        user.value, OptionalMember(item.user, "name"),
        item.startDate, item.endDate, item.status))
  }

  /** `resetForm()`: nothing chosen, empty dates, status '1' (under treatment). */
  const BlankForm: TreatmentRecord := TreatmentRecord(
    0, Undefined, Undefined, Undefined, Undefined, Undefined, Undefined, Undefined, Undefined,
    Str(""), Str(""), Str("1"))

  /** `editTreatmentRecord(t)`: a copy of the row. */
  function FormOf(t: TreatmentRecord): (f: TreatmentRecord)
    ensures f == t
  {
    t.(id := t.id)
  }

  predicate IsEditMode(f: TreatmentRecord) { f.id > 0 }

  /** The body of `save()`: the four ids, the dates and the status; an empty end date is sent as null. */
  function Payload(f: TreatmentRecord): (body: Object)
    ensures body.Keys == {"tlId", "dogId", "vetId", "userId", "startDate", "endDate", "status"}
    ensures Lookup(body, "tlId") == f.tlId && Lookup(body, "dogId") == f.dogId
    ensures Lookup(body, "vetId") == f.vetId && Lookup(body, "userId") == f.userId
    ensures Lookup(body, "startDate") == f.startDate && Lookup(body, "status") == f.status
    ensures Lookup(body, "endDate") == Or(f.endDate, Null)
  {
    map["tlId" := f.tlId, "dogId" := f.dogId, "vetId" := f.vetId, "userId" := f.userId,
        "startDate" := f.startDate, "endDate" := Or(f.endDate, Null), "status" := f.status]
  }

  /** `save()`: PUT to updateTreatmentRecord/<id> in edit mode, POST to addTreatmentRecord otherwise. */
  function Save(f: TreatmentRecord): (r: Request)
    ensures r.body == Payload(f)
    ensures IsEditMode(f) ==> r.verb == Put && r.path == "/api/v1/treatmentRecord/updateTreatmentRecord/" + IntToString(f.id)
    ensures !IsEditMode(f) ==> r.verb == Post && r.path == "/api/v1/treatmentRecord/addTreatmentRecord"
  {
    SaveRequest(IsEditMode(f), Put, "/api/v1/treatmentRecord/updateTreatmentRecord", Num(f.id),
                "/api/v1/treatmentRecord/addTreatmentRecord", Payload(f))
  }

  /**
   * A new record saved from the blank form has no end date (null, not '');
   * a listed record saved unchanged sends back its own ids and dates, with
   * an empty end date as null.
   */
  lemma SaveAfterResetOrEdit(item: ApiTreatmentRecord)
    requires Flatten(item).Some?
    ensures Save(BlankForm).verb == Post && Lookup(Save(BlankForm).body, "endDate") == Null
    ensures var row := Flatten(item).value; var body := Save(FormOf(row)).body;
      && Lookup(body, "tlId") == OptionalMember(item.treatmentList, "id")
      && Lookup(body, "dogId") == OptionalMember(item.dog, "id")
      && Lookup(body, "vetId") == OptionalMember(item.vet, "id")
      && Lookup(body, "userId") == OptionalMember(item.user, "id")
      && Lookup(body, "endDate") == (if Truthy(item.endDate) then item.endDate else Null)
  {
  }

  /** `performDisableTreatmentRecord(id)` once confirmed; this screen does not check for a token. */
  function DisableTreatmentRecord(confirmed: bool, token: Option<string>, id: int): (o: DisableOutcome)
    ensures o.Sent? <==> confirmed
    ensures o.Sent? ==> o.request == Request(Patch, "/api/v1/treatmentRecord/disableTreatmentRecord/" + IntToString(id), map[])
  {
    Disable(confirmed, false, token, WithId("/api/v1/treatmentRecord/disableTreatmentRecord", Num(id)))
  }

  /** The dog-name box and the status select, in the order `loadTreatmentRecords()` tests them. */
  function Filters(searchDogName: string, searchStatus: string): seq<Filter> {
    [Filter("dogName", Str(searchDogName)), Filter("status", Str(searchStatus))]
  }

  /** The query of `loadTreatmentRecords()`: page and limit, then each filter only when chosen. */
  function TreatmentRecordsQuery(page: int, limit: int, searchDogName: string, searchStatus: string): (q: Query)
    ensures |q| >= 2
    ensures q[0] == ("page", IntToString(page)) && q[1] == ("limit", IntToString(limit))
    ensures HasParam(q, "dogName") <==> searchDogName != ""
    ensures searchDogName != "" ==> ParamValue(q, "dogName") == Some(searchDogName)
    ensures HasParam(q, "status") <==> searchStatus != ""
    ensures searchStatus != "" ==> ParamValue(q, "status") == Some(searchStatus)
  {
    var fs := Filters(searchDogName, searchStatus);
    PageQueryParams(page, limit, fs, 0);
    PageQueryParams(page, limit, fs, 1);
    PageQuery(page, limit, fs)
  }

  const Statuses: map<string, string> := map["1" := "กำลังรักษา", "2" := "หายป่วย", "3" := "เสียชีวิต", "4" := "ลบ"]

  /** `getStatusText`: under treatment, recovered, died, deleted; other codes as they are. */
  function StatusText(code: string): (text: string)
    ensures code in Statuses ==> text == Statuses[code]
    ensures code !in {"1", "2", "3", "4"} ==> text == code
  {
    LabelOf(Statuses, code)
  }

  /** The screen on creation: page 1 of 5 rows, empty filters, a failed load empties the list; the blank form. */
  method NewScreen() returns (list: ListController<TreatmentRecord>, form: FormState<TreatmentRecord, TreatmentRecord>)
    ensures fresh(list) && fresh(form) && list.Valid()
    ensures list.pageSize == 5 && list.currentPage == 1 && list.clearOnFailure
    ensures list.filters == Filters("", "") && list.items == []
    ensures form.form == BlankForm && form.blank == BlankForm && form.fromRecord == FormOf
  {
    list := new ListController<TreatmentRecord>(5, true, Filters("", ""));
    form := new FormState<TreatmentRecord, TreatmentRecord>(BlankForm, FormOf);
  }

  /** The success callback of `loadTreatmentRecords()`: the rows flattened, or nothing assigned when a row throws. */
  method LoadSucceeded(list: ListController<TreatmentRecord>, data: seq<ApiTreatmentRecord>, total: nat)
    requires list.Valid()
    modifies list`items, list`totalRecords, list`totalPages, list`loading
    ensures list.Valid()
    ensures (forall i :: 0 <= i < |data| ==> Flatten(data[i]).Some?) ==>
      |list.items| == |data| && (forall i :: 0 <= i < |data| ==> list.items[i] == Flatten(data[i]).value)
      && list.totalRecords == total && list.totalPages == CeilDiv(total, list.pageSize) && !list.loading
    ensures (exists i :: 0 <= i < |data| && Flatten(data[i]).None?) ==>
      list.items == old(list.items) && list.loading == old(list.loading)
      && list.totalRecords == old(list.totalRecords) && list.totalPages == old(list.totalPages)
  {
    list.LoadedMapped(data, total, Flatten);
  }
}
