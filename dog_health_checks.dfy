/**
 * The dog health-check screen: a paged list whose rows are flattened from
 * the API's nested dog, check-list and vet objects, the add/edit form, the
 * save body with an optional date of the actual check, disabling and the
 * status and result labels.
 */
module DogHealthChecks {
  import opened Js
  import opened Http
  import opened Labels
  import opened Listing

  /** A row of the API's reply, with its three nested objects. */
  datatype ApiDogHealthCheck = ApiDogHealthCheck(
    id: int, dog: Value, healthCheckList: Value, vet: Value,
    scheduledDate: Value, actualDate: Value, notes: Value, status: Value, result: Value)

  /** A flattened row; the form is a copy of one (`{...healthCheck}`). */
  datatype DogHealthCheck = DogHealthCheck(
    id: int, dogId: Value, dogName: Value, hclId: Value, hclName: Value,
    vetId: Value, vetName: Value, scheduledDate: Value, actualDate: Value,
    notes: Value, status: Value, result: Value)

  /**
   * The row mapping of `loadDogHealthChecks()`: each nested object becomes
   * its id and name, missing notes become ''; a row missing the dog, the
   * check-list entry or the vet throws.
   */
  function Flatten(item: ApiDogHealthCheck): (r: Option<DogHealthCheck>)
    ensures r.None? <==> Nullish(item.dog) || Nullish(item.healthCheckList) || Nullish(item.vet)
    ensures r.Some? ==> var row := r.value;
      && row.id == item.id
      && row.dogId == OptionalMember(item.dog, "id") && row.dogName == OptionalMember(item.dog, "name")
      && row.hclId == OptionalMember(item.healthCheckList, "id") && row.hclName == OptionalMember(item.healthCheckList, "name")
      && row.vetId == OptionalMember(item.vet, "id") && row.vetName == OptionalMember(item.vet, "name")
      && row.scheduledDate == item.scheduledDate && row.actualDate == item.actualDate
      && row.notes == Or(item.notes, Str("")) && Truthy(row.notes) == Truthy(item.notes)
      && row.status == item.status && row.result == item.result
  {
    var dog, hcl, vet := Member(item.dog, "id"), Member(item.healthCheckList, "id"), Member(item.vet, "id");
    if dog.None? || hcl.None? || vet.None? then None
    else
      Some(DogHealthCheck(
        item.id, dog.value, OptionalMember(item.dog, "name"),
        hcl.value, OptionalMember(item.healthCheckList, "name"),
        vet.value, OptionalMember(item.vet, "name"),
        item.scheduledDate, item.actualDate, Or(item.notes, Str("")), item.status, item.result))
  }

  /** `resetForm()`: nothing chosen, empty dates and notes, status '1' (scheduled), result '1' (pending). */
  const BlankForm: DogHealthCheck := DogHealthCheck(
    0, Undefined, Undefined, Undefined, Undefined, Undefined, Undefined,
    Str(""), Str(""), Str(""), Str("1"), Str("1"))

  /** `editDogHealthCheck(h)`: a copy of the row. */
  function FormOf(h: DogHealthCheck): (f: DogHealthCheck)
    ensures f == h
  {
    h.(id := h.id)
  }

  predicate IsEditMode(f: DogHealthCheck) { f.id > 0 }

  /** The body of `save()`: the three ids, both dates, notes, status and result; an empty actual date is sent as null. */
  function Payload(f: DogHealthCheck): (body: Object)
    ensures body.Keys == {"dogId", "hclId", "vetId", "scheduledDate", "actualDate", "notes", "status", "result"}
    ensures Lookup(body, "dogId") == f.dogId && Lookup(body, "hclId") == f.hclId && Lookup(body, "vetId") == f.vetId
    ensures Lookup(body, "scheduledDate") == f.scheduledDate && Lookup(body, "actualDate") == Or(f.actualDate, Null)
    ensures Lookup(body, "notes") == f.notes && Lookup(body, "status") == f.status && Lookup(body, "result") == f.result
  {
    map["dogId" := f.dogId, "hclId" := f.hclId, "vetId" := f.vetId, "scheduledDate" := f.scheduledDate,
        "actualDate" := Or(f.actualDate, Null), "notes" := f.notes, "status" := f.status, "result" := f.result]
  }

  /** `save()`: PUT to updateDogHealthCheck/<id> in edit mode, POST to addDogHealthCheck otherwise. */
  function Save(f: DogHealthCheck): (r: Request)
    ensures r.body == Payload(f)
    ensures IsEditMode(f) ==> r.verb == Put && r.path == "/api/v1/dogHealthCheck/updateDogHealthCheck/" + IntToString(f.id)
    ensures !IsEditMode(f) ==> r.verb == Post && r.path == "/api/v1/dogHealthCheck/addDogHealthCheck"
  {
    SaveRequest(IsEditMode(f), Put, "/api/v1/dogHealthCheck/updateDogHealthCheck", Num(f.id),
                "/api/v1/dogHealthCheck/addDogHealthCheck", Payload(f))
  }

  /**
   * A check saved from the blank form is created as scheduled and pending,
   * with no actual date (null, not ''); a listed check saved unchanged
   * sends its own ids back, and never a null or undefined note.
   */
  lemma SaveAfterResetOrEdit(item: ApiDogHealthCheck)
    requires Flatten(item).Some?
    ensures var body := Save(BlankForm).body;
      && Save(BlankForm).verb == Post && Lookup(body, "actualDate") == Null
      && Lookup(body, "status") == Str("1") && Lookup(body, "result") == Str("1")
    ensures var row := Flatten(item).value; var body := Save(FormOf(row)).body;
      && Lookup(body, "dogId") == OptionalMember(item.dog, "id")
      && Lookup(body, "hclId") == OptionalMember(item.healthCheckList, "id")
      && Lookup(body, "vetId") == OptionalMember(item.vet, "id")
      && !Nullish(Lookup(body, "notes"))
      && (item.id > 0 ==> Save(FormOf(row)).verb == Put)
  {
  }

  /** `performDisableDogHealthCheck(id)` once confirmed; this screen does not check for a token. */
  function DisableDogHealthCheck(confirmed: bool, token: Option<string>, id: int): (o: DisableOutcome)
    ensures o.Sent? <==> confirmed
    ensures o.Sent? ==> o.request == Request(Patch, "/api/v1/dogHealthCheck/disableDogHealthCheck/" + IntToString(id), map[])
  {
    Disable(confirmed, false, token, WithId("/api/v1/dogHealthCheck/disableDogHealthCheck", Num(id)))
  }

  /** The dog-name box and the status and result selects, in the order `loadDogHealthChecks()` tests them. */
  function Filters(searchDogName: string, searchStatus: string, searchResult: string): seq<Filter> {
    [Filter("dogName", Str(searchDogName)), Filter("status", Str(searchStatus)), Filter("result", Str(searchResult))]
  }

  /** The query of `loadDogHealthChecks()`: page and limit, then each filter only when chosen. */
  function DogHealthChecksQuery(page: int, limit: int, searchDogName: string, searchStatus: string, searchResult: string): (q: Query)
    ensures |q| >= 2
    ensures q[0] == ("page", IntToString(page)) && q[1] == ("limit", IntToString(limit))
    ensures HasParam(q, "dogName") <==> searchDogName != ""
    ensures searchDogName != "" ==> ParamValue(q, "dogName") == Some(searchDogName)
    ensures HasParam(q, "status") <==> searchStatus != ""
    ensures searchStatus != "" ==> ParamValue(q, "status") == Some(searchStatus)
    ensures HasParam(q, "result") <==> searchResult != ""
    ensures searchResult != "" ==> ParamValue(q, "result") == Some(searchResult)
  {
    var fs := Filters(searchDogName, searchStatus, searchResult);
    PageQueryParams(page, limit, fs, 0);
    PageQueryParams(page, limit, fs, 1);
    PageQueryParams(page, limit, fs, 2);
    PageQuery(page, limit, fs)
  }

  const Statuses: map<string, string> := map["1" := "นัดหมาย", "2" := "สำเร็จ", "3" := "ยกเลิก", "4" := "ลบ"]
  const Results: map<string, string> := map["1" := "รอผล", "2" := "ปกติ", "3" := "ผิดปกติ"]

  /** `getStatusText`: scheduled, done, cancelled, deleted; other codes as they are. */
  function StatusText(code: string): (text: string)
    ensures code in Statuses ==> text == Statuses[code]
    ensures code !in {"1", "2", "3", "4"} ==> text == code
  {
    LabelOf(Statuses, code)
  }

  /** `getResultText`: pending, normal, abnormal; other codes as they are. */
  function ResultText(code: string): (text: string)
    ensures code in Results ==> text == Results[code]
    ensures code !in {"1", "2", "3"} ==> text == code
  {
    LabelOf(Results, code)
  }

  /** The screen on creation: page 1 of 5 rows, empty filters, a failed load empties the list; the blank form. */
  method NewScreen() returns (list: ListController<DogHealthCheck>, form: FormState<DogHealthCheck, DogHealthCheck>)
    ensures fresh(list) && fresh(form) && list.Valid()
    ensures list.pageSize == 5 && list.currentPage == 1 && list.clearOnFailure
    ensures list.filters == Filters("", "", "") && list.items == []
    ensures form.form == BlankForm && form.blank == BlankForm && form.fromRecord == FormOf
  {
    list := new ListController<DogHealthCheck>(5, true, Filters("", "", ""));
    form := new FormState<DogHealthCheck, DogHealthCheck>(BlankForm, FormOf);
  }

  /** The success callback of `loadDogHealthChecks()`: the rows flattened, or nothing assigned when a row throws. */
  method LoadSucceeded(list: ListController<DogHealthCheck>, data: seq<ApiDogHealthCheck>, total: nat)
    requires list.Valid()
    modifies list`items, list`totalRecords, list`totalPages, list`loading
    ensures list.Valid()
    ensures (forall i :: 0 <= i < |data| ==> Flatten(data[i]).Some?) ==>
      |list.items| == |data| && (forall i :: 0 <= i < |data| ==> list.items[i] == Flatten(data[i]).value)
      && list.totalRecords == total && list.totalPages == CeilDiv(total, list.pageSize) && !list.loading
    ensures (exists i :: 0 <= i < |data| && Flatten(data[i]).None?) ==>
      list.items == old(list.items) && list.loading == old(list.loading)
      && list.totalRecords == old(list.totalRecords) && list.totalPages == old(list.totalPages)
  {
    list.LoadedMapped(data, total, Flatten);
  }
}
