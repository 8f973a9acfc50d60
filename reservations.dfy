/**
 * The reservation screen: a paged list whose rows are flattened from the
 * API's nested objects, the add/edit form, the save body that turns empty
 * optional fields into null, disabling, and the label maps.
 */
module Reservations {
  import opened Js
  import opened Http
  import opened Labels
  import opened Listing

  /** A row of the API's reply: the breeding, dog, customer and user are nested objects (or null). */
  datatype ApiReservation = ApiReservation(
    id: int, breed: Value, dog: Value, customer: Value, user: Value,
    date: Value, deposit: Value, status: Value,
    cancelReason: Value, depositStatus: Value, cancelDate: Value, notes: Value)

  /** A flattened row; the form is a copy of one (`{...reservation}`). */
  datatype Reservation = Reservation(
    id: int, breedId: Value, breedDueDate: Value, dogId: Value, dogName: Value,
    cusId: Value, cusName: Value, userId: Value, userName: Value,
    date: Value, deposit: Value, status: Value,
    cancelReason: Value, depositStatus: Value, cancelDate: Value, notes: Value)

  /** A value `x || null` can produce. */
  predicate TruthyOrNull(v: Value) { Truthy(v) || v == Null }

  /** What `x || null` gives: `x` itself when truthy, otherwise null. */
  function OrNull(v: Value): Value { if Truthy(v) then v else Null }

  /**
   * The row mapping of `loadReservations()`: the optional breeding and dog
   * become their id (and due date, name) or null, a missing note becomes '';
   * a row without a customer or user object throws.
   */
  function Flatten(item: ApiReservation): (r: Option<Reservation>)
    ensures r.None? <==> Nullish(item.customer) || Nullish(item.user)
    ensures r.Some? ==> var row := r.value;
      && row.id == item.id
      && TruthyOrNull(row.breedId) && TruthyOrNull(row.breedDueDate)
      && TruthyOrNull(row.dogId) && TruthyOrNull(row.dogName)
      && row.breedId == OrNull(OptionalMember(item.breed, "id"))
      && row.breedDueDate == OrNull(OptionalMember(item.breed, "dueDate"))
      && row.dogId == OrNull(OptionalMember(item.dog, "id"))
      && row.dogName == OrNull(OptionalMember(item.dog, "name"))
      && row.cusId == OptionalMember(item.customer, "id") && row.cusName == OptionalMember(item.customer, "name")
      && row.userId == OptionalMember(item.user, "id") && row.userName == OptionalMember(item.user, "name")
      && row.date == item.date && row.deposit == item.deposit && row.status == item.status
      && TruthyOrNull(row.cancelReason) && TruthyOrNull(row.depositStatus) && TruthyOrNull(row.cancelDate)
      && row.cancelReason == OrNull(item.cancelReason)
      && row.depositStatus == OrNull(item.depositStatus)
      && row.cancelDate == OrNull(item.cancelDate)
      && (Truthy(row.notes) || row.notes == Str(""))
      && row.notes == (if Truthy(item.notes) then item.notes else Str(""))
  {
    var customerId := Member(item.customer, "id");
    var userId := Member(item.user, "id");
    if customerId.None? || userId.None? then None
    else
      Some(Reservation(
        item.id,
        Or(OptionalMember(item.breed, "id"), Null), Or(OptionalMember(item.breed, "dueDate"), Null),
        Or(OptionalMember(item.dog, "id"), Null), Or(OptionalMember(item.dog, "name"), Null),
        customerId.value, OptionalMember(item.customer, "name"),
        userId.value, OptionalMember(item.user, "name"),
        item.date, item.deposit, item.status,
        Or(item.cancelReason, Null), Or(item.depositStatus, Null), Or(item.cancelDate, Null),
        Or(item.notes, Str(""))))
  }

  /** `resetForm()`: no breeding or dog, an empty date and note, status '1' (booked). */
  const BlankForm: Reservation := Reservation(
    0, Null, Undefined, Null, Undefined, Undefined, Undefined, Undefined, Undefined,
    Str(""), Undefined, Str("1"), Null, Null, Null, Str(""))

  /** `editReservation(r)`: a copy of the row. */
  function FormOf(r: Reservation): (f: Reservation)
    ensures f == r
  {
    r.(id := r.id)
  }

  predicate IsEditMode(f: Reservation) { f.id > 0 }

  /** The body of `save()`: the optional fields as their value or null, the others as they are. */
  function Payload(f: Reservation): (body: Object)
    ensures body.Keys == {"breedId", "dogId", "cusId", "userId", "date", "deposit", "status",
                          "cancelReason", "depositStatus", "cancelDate", "notes"}
    ensures Lookup(body, "breedId") == Or(f.breedId, Null) && Lookup(body, "dogId") == Or(f.dogId, Null)
    ensures Lookup(body, "cancelReason") == Or(f.cancelReason, Null)
    ensures Lookup(body, "depositStatus") == Or(f.depositStatus, Null)
    ensures Lookup(body, "cancelDate") == Or(f.cancelDate, Null) && Lookup(body, "notes") == Or(f.notes, Null)
    ensures Lookup(body, "cusId") == f.cusId && Lookup(body, "userId") == f.userId
    ensures Lookup(body, "date") == f.date && Lookup(body, "deposit") == f.deposit
    ensures Lookup(body, "status") == f.status
  {
    map["breedId" := Or(f.breedId, Null), "dogId" := Or(f.dogId, Null), "cusId" := f.cusId,
        "userId" := f.userId, "date" := f.date, "deposit" := f.deposit, "status" := f.status,
        "cancelReason" := Or(f.cancelReason, Null), "depositStatus" := Or(f.depositStatus, Null),
        "cancelDate" := Or(f.cancelDate, Null), "notes" := Or(f.notes, Null)]
  }

  /** `save()`: PUT to updateReservation/<id> in edit mode, POST to addReservation otherwise. */
  function Save(f: Reservation): (r: Request)
    ensures r.body == Payload(f)
    ensures IsEditMode(f) ==> r.verb == Put && r.path == "/api/v1/reservation/updateReservation/" + IntToString(f.id)
    ensures !IsEditMode(f) ==> r.verb == Post && r.path == "/api/v1/reservation/addReservation"
  {
    SaveRequest(IsEditMode(f), Put, "/api/v1/reservation/updateReservation", Num(f.id),
                "/api/v1/reservation/addReservation", Payload(f))
  }

  /**
   * Editing a listed reservation and saving it unchanged sends back the
   * values it was listed with: flattening already put null in place of the
   * missing optional values. Only a missing note, listed as '', goes back as null.
   */
  lemma SaveOfListedReservation(item: ApiReservation)
    requires Flatten(item).Some?
    ensures var row := Flatten(item).value; var body := Save(FormOf(row)).body;
      && Lookup(body, "breedId") == row.breedId && Lookup(body, "dogId") == row.dogId
      && Lookup(body, "cancelReason") == row.cancelReason && Lookup(body, "depositStatus") == row.depositStatus
      && Lookup(body, "cancelDate") == row.cancelDate
      && Lookup(body, "notes") == (if Truthy(item.notes) then item.notes else Null)
  {
  }

  /** After `resetForm()` a save creates a reservation with no breeding, dog, cancellation or note. */
  lemma SaveAfterReset()
    ensures Save(BlankForm).verb == Post
    ensures var body := Save(BlankForm).body;
      && Lookup(body, "breedId") == Null && Lookup(body, "dogId") == Null
      && Lookup(body, "cancelReason") == Null && Lookup(body, "notes") == Null
      && Lookup(body, "status") == Str("1")
  {
  }

  /** `performDisableReservation(id)` once confirmed; this screen does not check for a token. */
  function DisableReservation(confirmed: bool, token: Option<string>, id: int): (o: DisableOutcome)
    ensures o.Sent? <==> confirmed
    ensures o.Sent? ==> o.request == Request(Patch, "/api/v1/reservation/disableReservation/" + IntToString(id), map[])
  {
    Disable(confirmed, false, token, WithId("/api/v1/reservation/disableReservation", Num(id)))
  }

  /** The customer-name box and the two selects, in the order `loadReservations()` tests them. */
  function Filters(searchCusName: string, searchStatus: string, searchDepositStatus: string): seq<Filter> {
    [Filter("cusName", Str(searchCusName)), Filter("status", Str(searchStatus)),
     Filter("depositStatus", Str(searchDepositStatus))]
  }

  /** The query of `loadReservations()`: page and limit, then each filter only when chosen. */
  function ReservationsQuery(page: int, limit: int, searchCusName: string, searchStatus: string, searchDepositStatus: string): (q: Query)
    ensures |q| >= 2
    ensures q[0] == ("page", IntToString(page)) && q[1] == ("limit", IntToString(limit))
    ensures HasParam(q, "cusName") <==> searchCusName != ""
    ensures searchCusName != "" ==> ParamValue(q, "cusName") == Some(searchCusName)
    ensures HasParam(q, "status") <==> searchStatus != ""
    ensures searchStatus != "" ==> ParamValue(q, "status") == Some(searchStatus)
    ensures HasParam(q, "depositStatus") <==> searchDepositStatus != ""
    ensures searchDepositStatus != "" ==> ParamValue(q, "depositStatus") == Some(searchDepositStatus)
  {
    var fs := Filters(searchCusName, searchStatus, searchDepositStatus);
    PageQueryParams(page, limit, fs, 0);
    PageQueryParams(page, limit, fs, 1);
    PageQueryParams(page, limit, fs, 2);
    PageQuery(page, limit, fs)
  }

  const Statuses: map<string, string> := map["1" := "จองแล้ว", "2" := "ถูกยกเลิก", "3" := "รอคืนมัดจำ", "4" := "จำหน่ายแล้ว"]
  const CancelReasons: map<string, string> := map["1" := "ลูกค้าผิดเงื่อนไข", "2" := "ปัญหาจากฟาร์ม"]
  const DepositStatuses: map<string, string> := map["1" := "รอคืน", "2" := "คืนแล้ว", "3" := "ยึดเงินมัดจำ"]

  /** `getStatusText`: booked, cancelled, awaiting refund, sold; other codes as they are. */
  function StatusText(code: string): (text: string)
    ensures code in Statuses ==> text == Statuses[code]
    ensures code !in {"1", "2", "3", "4"} ==> text == code
  {
    LabelOf(Statuses, code)
  }

  /** A text that is '-' for a missing (null or empty) code, else the code's label or the code. */
  function DashOrLabel(table: map<string, string>, code: Option<string>): (text: string)
    ensures code.None? || code.value == "" ==> text == "-"
    ensures code.Some? && code.value != "" ==> text == LabelOf(table, code.value)
  {
    if code.None? || code.value == "" then "-" else LabelOf(table, code.value)
  }

  /** `getCancelReasonText`: '-' when there is no reason. */
  function CancelReasonText(reason: Option<string>): (text: string)
    ensures reason.None? || reason == Some("") ==> text == "-"
    ensures reason == Some("1") ==> text == "ลูกค้าผิดเงื่อนไข"
    ensures reason == Some("2") ==> text == "ปัญหาจากฟาร์ม"
    ensures reason.Some? && reason.value !in {"", "1", "2"} ==> text == reason.value
  {
    DashOrLabel(CancelReasons, reason)
  }

  /** `getDepositStatusText`: '-' when there is no deposit status. */
  function DepositStatusText(depositStatus: Option<string>): (text: string)
    ensures depositStatus.None? || depositStatus == Some("") ==> text == "-"
    ensures depositStatus.Some? && depositStatus.value in DepositStatuses ==> text == DepositStatuses[depositStatus.value]
    ensures depositStatus.Some? && depositStatus.value !in {"", "1", "2", "3"} ==> text == depositStatus.value
  {
    DashOrLabel(DepositStatuses, depositStatus)
  }

  /** The screen on creation: page 1 of 5 rows, empty filters, a failed load empties the list; the blank form. */
  method NewScreen() returns (list: ListController<Reservation>, form: FormState<Reservation, Reservation>)
    ensures fresh(list) && fresh(form) && list.Valid()
    ensures list.pageSize == 5 && list.currentPage == 1 && list.clearOnFailure
    ensures list.filters == Filters("", "", "") && list.items == []
    ensures form.form == BlankForm && form.blank == BlankForm && form.fromRecord == FormOf
  {
    list := new ListController<Reservation>(5, true, Filters("", "", ""));
    form := new FormState<Reservation, Reservation>(BlankForm, FormOf);
  }

  /** The success callback of `loadReservations()`: the rows flattened, or nothing assigned when a row throws. */
  method LoadSucceeded(list: ListController<Reservation>, data: seq<ApiReservation>, total: nat)
    requires list.Valid()
    modifies list`items, list`totalRecords, list`totalPages, list`loading
    ensures list.Valid()
    ensures (forall i :: 0 <= i < |data| ==> Flatten(data[i]).Some?) ==>
      |list.items| == |data| && (forall i :: 0 <= i < |data| ==> list.items[i] == Flatten(data[i]).value)
      && list.totalRecords == total && list.totalPages == CeilDiv(total, list.pageSize) && !list.loading
    ensures (exists i :: 0 <= i < |data| && Flatten(data[i]).None?) ==>
      list.items == old(list.items) && list.loading == old(list.loading)
      && list.totalRecords == old(list.totalRecords) && list.totalPages == old(list.totalPages)
  {
    list.LoadedMapped(data, total, Flatten);
  }
}
