/**
 * The breeding screen: a paged list of breedings (ten to a page, kept on a
 * failed load), the breeding form, the breeding-attempt form that is always
 * saved under the breeding it was opened for, disabling both, the error
 * dialog that prefixes the failed action, and the label tables.
 */
module Breeding {
  import opened Js
  import opened Http
  import opened Labels
  import opened Listing

  /** An attempt as the API nests it in a breeding; the father is an object. */
  datatype BreedingAttempt = BreedingAttempt(
    id: int, breedId: int, father: Value, date: Value, notes: Value, typeBreed: Value, status: Value)

  /** A breeding as the API lists it; the optional fields may be missing (undefined). */
  datatype BreedingRecord = BreedingRecord(
    id: int, mother: Value, dueDate: Value, actualBirthDate: Value, notes: Value,
    puppyCount: Value, status: Value, attempts: seq<BreedingAttempt>)

  /** `formBreeding`: the mother is held by id. */
  datatype BreedingForm = BreedingForm(
    id: int, motherId: Value, dueDate: Value, actualBirthDate: Value, notes: Value,
    puppyCount: Value, status: Value, attempts: seq<BreedingAttempt>)

  /** `formAttempt`: the father is held by id, the breeding by `breed_ID`. */
  datatype AttemptForm = AttemptForm(
    id: int, breedId: int, fatherId: Value, date: Value, notes: Value, typeBreed: Value, status: Value)

  // ---------------------------------------------------------------- breedings

  /** `resetForm()`: no mother, empty dates and notes, no puppies, status '1' (in progress), no attempts. */
  const BlankBreedingForm: BreedingForm :=
    BreedingForm(0, Num(0), Str(""), Str(""), Str(""), Num(0), Str("1"), [])

  /** `isEditBreeding`: `!!id`, so any non-zero id edits (unlike the other screens' `id > 0`). */
  predicate IsEditBreeding(f: BreedingForm) { f.id != 0 }

  /**
   * `editBreeding(b)`: the mother's id in place of the mother, the other
   * fields and a copy of the attempts; reading `b.mother.id` throws when the
   * breeding has no mother.
   */
  function BreedingFormOf(b: BreedingRecord): (f: Option<BreedingForm>)
    ensures f.None? <==> Nullish(b.mother)
    ensures f.Some? ==>
      && f.value.id == b.id && f.value.motherId == OptionalMember(b.mother, "id")
      && f.value.dueDate == b.dueDate && f.value.actualBirthDate == b.actualBirthDate
      && f.value.notes == b.notes && f.value.puppyCount == b.puppyCount
      && f.value.status == b.status && f.value.attempts == b.attempts
  {
    var motherId := Member(b.mother, "id");
    if motherId.None? then None
    else Some(BreedingForm(b.id, motherId.value, b.dueDate, b.actualBirthDate, b.notes, b.puppyCount, b.status, b.attempts))
  }

  /** The body of `saveBreeding()`: mother_ID, the dates, notes, puppy count and status; never the id or the attempts. */
  function BreedingPayload(f: BreedingForm): (body: Object)
    ensures body.Keys == {"mother_ID", "dueDate", "actualBirthDate", "notes", "puppyCount", "status"}
    ensures Lookup(body, "mother_ID") == f.motherId && Lookup(body, "dueDate") == f.dueDate
    ensures Lookup(body, "actualBirthDate") == f.actualBirthDate && Lookup(body, "notes") == f.notes
    ensures Lookup(body, "puppyCount") == f.puppyCount && Lookup(body, "status") == f.status
  {
    map["mother_ID" := f.motherId, "dueDate" := f.dueDate, "actualBirthDate" := f.actualBirthDate,
        "notes" := f.notes, "puppyCount" := f.puppyCount, "status" := f.status]
  }

  /** `saveBreeding()`: PUT to editBreeding/<id> when editing, POST to addBreeding otherwise. */
  function SaveBreeding(f: BreedingForm): (r: Request)
    ensures r.body == BreedingPayload(f)
    ensures IsEditBreeding(f) ==> r.verb == Put && r.path == "/api/v1/breedings/editBreeding/" + IntToString(f.id)
    ensures !IsEditBreeding(f) ==> r.verb == Post && r.path == "/api/v1/breedings/addBreeding"
  {
    SaveRequest(IsEditBreeding(f), Put, "/api/v1/breedings/editBreeding", Num(f.id), "/api/v1/breedings/addBreeding", BreedingPayload(f))
  }

  /**
   * Saving a breeding opened by `editBreeding(b)` updates `b` (whatever the
   * sign of its id) with its mother's id; a field the API left out is not
   * written to the JSON at all, while a field it sent as null is. The blank
   * form creates a breeding in progress with no puppies.
   */
  lemma SaveEditedBreeding(b: BreedingRecord)
    requires !Nullish(b.mother)
    ensures var r := SaveBreeding(BreedingFormOf(b).value); var wire := Serialized(r.body);
      && (b.id != 0 ==> r.verb == Put && r.path == "/api/v1/breedings/editBreeding/" + IntToString(b.id))
      && (b.id == 0 ==> r.verb == Post)
      && ("mother_ID" in wire <==> OptionalMember(b.mother, "id") != Undefined)
      && ("actualBirthDate" in wire <==> b.actualBirthDate != Undefined)
      && ("notes" in wire <==> b.notes != Undefined)
      && ("puppyCount" in wire <==> b.puppyCount != Undefined)
      && "id" !in wire && "attempts" !in wire
    ensures var r := SaveBreeding(BlankBreedingForm);
      && r.verb == Post && r.path == "/api/v1/breedings/addBreeding"
      && Lookup(r.body, "puppyCount") == Num(0) && Lookup(r.body, "status") == Str("1")
  {
  }

  /** `performDisableBreeding(id)` once confirmed; no token check. */
  function DisableBreeding(confirmed: bool, token: Option<string>, id: int): (o: DisableOutcome)
    ensures o.Sent? <==> confirmed
    ensures o.Sent? ==> o.request == Request(Patch, "/api/v1/breedings/disableBreeding/" + IntToString(id), map[])
  {
    Disable(confirmed, false, token, WithId("/api/v1/breedings/disableBreeding", Num(id)))
  }

  // ---------------------------------------------------------------- attempts

  /** `resetAttemptForm()`: a new attempt of the breeding `breedId`, no father, status '1'. */
  function BlankAttemptForm(breedId: int): (f: AttemptForm)
    ensures f.id == 0 && f.breedId == breedId && f.fatherId == Num(0) && f.status == Str("1")
  {
    AttemptForm(0, breedId, Num(0), Str(""), Str(""), Str(""), Str("1"))
  }

  /** `editAttempt(a)`'s form: the father's id in place of the father; reading `a.father.id` throws without a father. */
  function AttemptFormOf(a: BreedingAttempt): (f: Option<AttemptForm>)
    ensures f.None? <==> Nullish(a.father)
    ensures f.Some? ==>
      && f.value.id == a.id && f.value.breedId == a.breedId && f.value.fatherId == OptionalMember(a.father, "id")
      && f.value.date == a.date && f.value.notes == a.notes && f.value.typeBreed == a.typeBreed && f.value.status == a.status
  {
    var fatherId := Member(a.father, "id");
    if fatherId.None? then None
    else Some(AttemptForm(a.id, a.breedId, fatherId.value, a.date, a.notes, a.typeBreed, a.status))
  }

  /**
   * The body of `saveAttempt()`: the fields renamed `attempt_*`, and the
   * breeding taken from `currentBreedingIdForAttempt`, not from the form.
   */
  function AttemptPayload(currentBreedingId: int, f: AttemptForm): (body: Object)
    ensures body.Keys == {"breed_ID", "father_ID", "attempt_Date", "attempt_Notes", "attempt_TypeBreed", "attempt_Status"}
    ensures Lookup(body, "breed_ID") == Num(currentBreedingId) && Lookup(body, "father_ID") == f.fatherId
    ensures Lookup(body, "attempt_Date") == f.date && Lookup(body, "attempt_Notes") == f.notes
    ensures Lookup(body, "attempt_TypeBreed") == f.typeBreed && Lookup(body, "attempt_Status") == f.status
  {
    map["breed_ID" := Num(currentBreedingId), "father_ID" := f.fatherId, "attempt_Date" := f.date,
        "attempt_Notes" := f.notes, "attempt_TypeBreed" := f.typeBreed, "attempt_Status" := f.status]
  }

  /** `saveAttempt()`: PUT to editBreedingAttempt/<id> when the form's id is non-zero, POST to addBreedingAttempt otherwise. */
  function SaveAttempt(currentBreedingId: int, f: AttemptForm): (r: Request)
    ensures r.body == AttemptPayload(currentBreedingId, f)
    ensures f.id != 0 ==> r.verb == Put && r.path == "/api/v1/breedingAttempts/editBreedingAttempt/" + IntToString(f.id)
    ensures f.id == 0 ==> r.verb == Post && r.path == "/api/v1/breedingAttempts/addBreedingAttempt"
  {
    SaveRequest(f.id != 0, Put, "/api/v1/breedingAttempts/editBreedingAttempt", Num(f.id),
                "/api/v1/breedingAttempts/addBreedingAttempt", AttemptPayload(currentBreedingId, f))
  }

  /** `performDisableAttempt(id)` once confirmed; no token check. */
  function DisableAttempt(confirmed: bool, token: Option<string>, id: int): (o: DisableOutcome)
    ensures o.Sent? <==> confirmed
    ensures o.Sent? ==> o.request == Request(Patch, "/api/v1/breedingAttempts/disableBreedingAttempt/" + IntToString(id), map[])
  {
    Disable(confirmed, false, token, WithId("/api/v1/breedingAttempts/disableBreedingAttempt", Num(id)))
  }

  /**
   * The two forms of the screen and the breeding an attempt will be saved
   * under, as the component's fields hold them.
   */
  class BreedingForms {
    var formBreeding: BreedingForm
    var formAttempt: AttemptForm
    var currentBreedingIdForAttempt: int

    constructor ()
      ensures formBreeding == BlankBreedingForm && formAttempt == BlankAttemptForm(0)
      ensures currentBreedingIdForAttempt == 0
    {
      formBreeding := BlankBreedingForm;
      formAttempt := BlankAttemptForm(0);
      currentBreedingIdForAttempt := 0;
    }

    /** The attempt form and the breeding it is saved under agree. */
    predicate AttemptTargetsCurrent()
      reads this
    {
      formAttempt.breedId == currentBreedingIdForAttempt
    }

    method ResetForm()
      modifies this`formBreeding
      ensures formBreeding == BlankBreedingForm
    {
      formBreeding := BlankBreedingForm;
    }

    /** `editBreeding(b)`; when it throws the form is left as it was. */
    method EditBreeding(b: BreedingRecord) returns (thrown: bool)
      modifies this`formBreeding
      ensures thrown <==> Nullish(b.mother)
      ensures !thrown ==> formBreeding == BreedingFormOf(b).value
      ensures thrown ==> formBreeding == old(formBreeding)
    {
      var f := BreedingFormOf(b);
      thrown := f.None?;
      if f.Some? {
        formBreeding := f.value;
      }
    }

    /** `resetAttemptForm()`: a blank attempt of the current breeding. */
    method ResetAttemptForm()
      modifies this`formAttempt
      ensures formAttempt == BlankAttemptForm(currentBreedingIdForAttempt)
      ensures AttemptTargetsCurrent()
    {
      formAttempt := BlankAttemptForm(currentBreedingIdForAttempt);
    }

    /** `openAddAttemptModal(breedId)`. */
    method OpenAddAttemptModal(breedId: int)
      modifies this`currentBreedingIdForAttempt, this`formAttempt
      ensures currentBreedingIdForAttempt == breedId && formAttempt == BlankAttemptForm(breedId)
      ensures AttemptTargetsCurrent()
    {
      currentBreedingIdForAttempt := breedId;
      ResetAttemptForm();
    }

    /**
     * `editAttempt(a)`: the current breeding is set before `a.father.id` is
     * read, so when that throws the breeding has moved but the form has not.
     */
    method EditAttempt(a: BreedingAttempt) returns (thrown: bool)
      modifies this`currentBreedingIdForAttempt, this`formAttempt
      ensures thrown <==> Nullish(a.father)
      ensures currentBreedingIdForAttempt == a.breedId
      ensures !thrown ==> formAttempt == AttemptFormOf(a).value && AttemptTargetsCurrent()
      ensures thrown ==> formAttempt == old(formAttempt)
    {
      currentBreedingIdForAttempt := a.breedId;
      var f := AttemptFormOf(a);
      thrown := f.None?;
      if f.Some? {
        formAttempt := f.value;
      }
    }

    function SaveAttemptRequest(): (r: Request)
      reads this
      ensures r == SaveAttempt(currentBreedingIdForAttempt, formAttempt)
    {
      SaveAttempt(currentBreedingIdForAttempt, formAttempt)
    }
  }

  /**
   * An attempt opened for a breeding is created under that breeding; an
   * attempt opened by `editAttempt(a)` updates `a` under `a`'s own breeding,
   * with its father's id.
   */
  lemma AttemptSavedUnderItsBreeding(breedId: int, a: BreedingAttempt)
    ensures var r := SaveAttempt(breedId, BlankAttemptForm(breedId));
      r.verb == Post && Lookup(r.body, "breed_ID") == Num(breedId) && Lookup(r.body, "attempt_Status") == Str("1")
    ensures !Nullish(a.father) ==>
      var r := SaveAttempt(a.breedId, AttemptFormOf(a).value);
      && Lookup(r.body, "breed_ID") == Num(a.breedId)
      && Lookup(r.body, "father_ID") == OptionalMember(a.father, "id")
      && (a.id != 0 ==> r.verb == Put && r.path == "/api/v1/breedingAttempts/editBreedingAttempt/" + IntToString(a.id))
  {
  }

  // ---------------------------------------------------------------- errors

  /** `handleError(err, action)`'s texts: there is no branch for 500, which falls to the generic text. */
  const BreedingTexts := ErrorTexts("เกิดข้อผิดพลาด", "ข้อมูลไม่ถูกต้อง", Some("ไม่พบข้อมูล"), "กรุณา login ใหม่", None, "ไม่สามารถเชื่อมต่อเซิร์ฟเวอร์")

  const SaveBreedingAction := "บันทึกการผสมพันธุ์"
  const SaveAttemptAction := "บันทึกการพยายามผสม"
  const DisableAction := "ปิดการใช้งาน"

  /** The dialog text shown when loading the list fails; the list itself is kept. */
  const LoadFailedText := "ไม่สามารถดึงข้อมูลได้"

  /** The `msg` of `handleError`: a 500 gets the generic text, not the server's. */
  function BreedingErrorMessage(e: Failure): (msg: Value)
    ensures Truthy(msg)
    ensures e.status in {400, 404} && Truthy(e.serverMessage) ==> msg == e.serverMessage
    ensures e.status == 400 && !Truthy(e.serverMessage) ==> msg == Str("ข้อมูลไม่ถูกต้อง")
    ensures e.status == 404 && !Truthy(e.serverMessage) ==> msg == Str("ไม่พบข้อมูล")
    ensures e.status == 401 ==> msg == Str("กรุณา login ใหม่")
    ensures e.status == 0 ==> msg == Str("ไม่สามารถเชื่อมต่อเซิร์ฟเวอร์")
    ensures e.status !in {0, 400, 401, 404} ==> msg == Str("เกิดข้อผิดพลาด")
  {
    ErrorMessage(e, BreedingTexts)
  }

  /** `${action}: ${msg}`: the failed action, a colon, then the message as text. */
  function FailureText(e: Failure, action: string): (text: string)
    ensures |text| >= |action| + 2 && text[..|action| + 2] == action + ": "
    ensures text[|action| + 2..] == ToString(BreedingErrorMessage(e))
  {
    var prefix := action + ": ";
    var text := prefix + ToString(BreedingErrorMessage(e));
    assert text[..|prefix|] == prefix;
    text
  }

  /** A 500 reads the same as any unlisted status, whatever the server sent. */
  lemma ServerErrorIsGeneric(e: Failure, action: string)
    requires e.status == 500
    ensures FailureText(e, action) == action + ": เกิดข้อผิดพลาด"
  {
  }

  // ---------------------------------------------------------------- the list

  /** The status select and the year and month selects (numbers, or '' for none), in the order `loadBreedings()` tests them. */
  function Filters(searchStatus: string, searchYear: Value, searchMonth: Value): seq<Filter> {
    [Filter("status", Str(searchStatus)), Filter("year", searchYear), Filter("month", searchMonth)]
  }

  /** The query of `loadBreedings()`: page and limit, then each chosen filter; year and month as `toString()` writes them. */
  function BreedingsQuery(page: int, limit: int, searchStatus: string, searchYear: Value, searchMonth: Value): (q: Query)
    ensures |q| >= 2
    ensures q[0] == ("page", IntToString(page)) && q[1] == ("limit", IntToString(limit))
    ensures HasParam(q, "status") <==> searchStatus != ""
    ensures searchStatus != "" ==> ParamValue(q, "status") == Some(searchStatus)
    ensures HasParam(q, "year") <==> Truthy(searchYear)
    ensures Truthy(searchYear) ==> ParamValue(q, "year") == Some(ToString(searchYear))
    ensures HasParam(q, "month") <==> Truthy(searchMonth)
    ensures Truthy(searchMonth) ==> ParamValue(q, "month") == Some(ToString(searchMonth))
  {
    var fs := Filters(searchStatus, searchYear, searchMonth);
    PageQueryParams(page, limit, fs, 0);
    PageQueryParams(page, limit, fs, 1);
    PageQueryParams(page, limit, fs, 2);
    PageQuery(page, limit, fs)
  }

  /** A chosen year is sent as its decimal digits; an unchosen one ('') is not sent. */
  lemma YearFilter(page: int, limit: int, status: string, year: nat)
    ensures year != 0 ==> ParamValue(BreedingsQuery(page, limit, status, Num(year), Str("")), "year") == Some(NatToString(year))
    ensures !HasParam(BreedingsQuery(page, limit, status, Str(""), Str("")), "year")
  {
  }

  /** The mothers and fathers offered in the selects: active-for-breeding dogs of each gender. */
  const MothersPath := "/api/v1/dogs/getDogs?dog_Gender=F&dog_StatusBreeding=1"
  const FathersPath := "/api/v1/dogs/getDogs?dog_Gender=M&dog_StatusBreeding=1"

  /**
   * The screen on creation: page 1 of 10 rows, no filter chosen, and a
   * failed load keeps the rows on show; both forms blank.
   */
  method NewScreen() returns (list: ListController<BreedingRecord>, forms: BreedingForms)
    ensures fresh(list) && fresh(forms) && list.Valid()
    ensures list.pageSize == 10 && list.currentPage == 1 && !list.clearOnFailure
    ensures list.filters == Filters("", Str(""), Str("")) && list.items == []
    ensures forms.formBreeding == BlankBreedingForm && forms.currentBreedingIdForAttempt == 0
  {
    list := new ListController<BreedingRecord>(10, false, Filters("", Str(""), Str("")));
    forms := new BreedingForms();
  }

  const BreedingStatuses: map<string, string> := map["1" := "กำลังดำเนินการ", "2" := "สำเร็จ", "3" := "ไม่สำเร็จ", "4" := "ปิดใช้งาน"]
  const AttemptStatuses: map<string, string> := map["1" := "กำลังดำเนินการ", "2" := "สำเร็จ", "3" := "ไม่สำเร็จ"]
  const AttemptTypes: map<string, string> := map["1" := "ผสมเทียม", "2" := "ธรรมชาติ"]

  /** `getBreedingStatusText`: in progress, succeeded, failed, disabled; other codes as they are. */
  function BreedingStatusText(code: string): (text: string)
    ensures code in BreedingStatuses ==> text == BreedingStatuses[code]
    ensures code !in {"1", "2", "3", "4"} ==> text == code
  {
    LabelOf(BreedingStatuses, code)
  }

  /** `getAttemptStatusText`: as the breeding's, without '4'. */
  function AttemptStatusText(code: string): (text: string)
    ensures code in AttemptStatuses ==> text == AttemptStatuses[code] == BreedingStatusText(code)
    ensures code !in {"1", "2", "3"} ==> text == code
  {
    LabelOf(AttemptStatuses, code)
  }

  /** `getAttemptTypeText`: '1' artificial insemination, '2' natural mating. */
  function AttemptTypeText(code: string): (text: string)
    ensures code in AttemptTypes ==> text == AttemptTypes[code]
    ensures code !in {"1", "2"} ==> text == code
  {
    LabelOf(AttemptTypes, code)
  }
}
