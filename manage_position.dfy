/**
 * The positions of one dog (the "manage position" screen reached from a
 * dog's row): its add/edit form, whose dog is the one named by the route,
 * the body it saves, disabling a position and the status labels.
 */
module ManagePosition {
  import opened Js
  import opened Http
  import opened Labels

  /** A position of the dog as the API lists it (`DogPosition`), without the display names. */
  datatype DogPosition = DogPosition(id: int, dogId: int, positionId: int, year: int, status: string)

  /**
   * `formPosition`. The dog is `parseInt` of the route id, so a route id
   * that is not a number gives NaN.
   */
  datatype PositionForm = PositionForm(id: int, dogId: Value, positionId: int, year: int, status: string)

  /** `this.dogId ? parseInt(this.dogId, 10) : 0`: the dog of the form, from the route's id. */
  function RouteDogId(routeId: Option<string>): (v: Value)
    ensures v.Num? || v.NaN?
    ensures routeId.None? || routeId == Some("") ==> v == Num(0)
    ensures routeId.Some? && routeId.value != "" ==> v == ParseInt(routeId.value)
  {
    if routeId.Some? && routeId.value != "" then ParseInt(routeId.value) else Num(0)
  }

  /** A route id written from a dog's number gives back that number. */
  lemma RouteDogIdOfNumber(n: int)
    ensures RouteDogId(Some(IntToString(n))) == Num(n)
  {
    ParseIntOfIntToString(n);
  }

  /** A new position for the route's dog in the given year: no id, no position, active. */
  function BlankForm(routeId: Option<string>, currentYear: int): (f: PositionForm)
    ensures f.id == 0 && f.positionId == 0 && f.status == "1"
    ensures f.dogId == RouteDogId(routeId) && f.year == currentYear
  {
    PositionForm(0, RouteDogId(routeId), 0, currentYear, "1")
  }

  /** `editPosition(position)`: the form takes the listed position's five fields unchanged. */
  function FormOf(p: DogPosition): (f: PositionForm)
    ensures f.id == p.id && f.dogId == Num(p.dogId) && f.positionId == p.positionId
    ensures f.year == p.year && f.status == p.status
  {
    PositionForm(p.id, Num(p.dogId), p.positionId, p.year, p.status)
  }

  /** `isEditMode`: `!!(id && id > 0)`. */
  predicate IsEditMode(f: PositionForm) { f.id > 0 }

  /** The JSON body `save()` sends: the dog, the position and the year, and neither the id nor the status. */
  function Payload(f: PositionForm): (body: Object)
    ensures body.Keys == {"dogId", "positionId", "year"}
    ensures "id" !in body && "status" !in body
    ensures body["dogId"] == f.dogId && body["positionId"] == Num(f.positionId) && body["year"] == Num(f.year)
  {
    map["dogId" := f.dogId, "positionId" := Num(f.positionId), "year" := Num(f.year)]
  }

  const AddPath := "/api/v1/dogPositions/add"
  const EditBase := "/api/v1/dogPositions/edit"

  /** `save()`: PUT to `edit/<id>` in edit mode, POST to `add` otherwise, with the same body. */
  function Save(f: PositionForm): (r: Request)
    ensures r.body == Payload(f)
    ensures IsEditMode(f) ==> r.verb == Put && r.path == EditBase + "/" + IntToString(f.id)
    ensures !IsEditMode(f) ==> r.verb == Post && r.path == AddPath
  {
    SaveRequest(IsEditMode(f), Put, EditBase, Num(f.id), AddPath, Payload(f))
  }

  /** The success dialog of a save: the server's message, else the text of the mode. */
  function SaveSucceededText(editMode: bool, serverMessage: Value): (msg: Value)
    ensures Truthy(msg)
    ensures Truthy(serverMessage) ==> msg == serverMessage
    ensures !Truthy(serverMessage) && editMode ==> msg == Str("แก้ไขข้อมูลตำแหน่งสำเร็จ")
    ensures !Truthy(serverMessage) && !editMode ==> msg == Str("เพิ่มข้อมูลตำแหน่งสำเร็จ")
  {
    Or(serverMessage, Str(if editMode then "แก้ไขข้อมูลตำแหน่งสำเร็จ" else "เพิ่มข้อมูลตำแหน่งสำเร็จ"))
  }

  /** A failed save shows one fixed text whatever the status. */
  const SaveFailedText := "ไม่สามารถบันทึกข้อมูลได้ในขณะนี้ กรุณาลองใหม่อีกครั้ง"

  /** `performDisablePosition(id)` once confirmed: throws before any request without a stored token. */
  function DisablePosition(confirmed: bool, token: Option<string>, id: int): (o: DisableOutcome)
    ensures o.Sent? <==> confirmed && HasToken(token)
    ensures o.MissingToken? <==> confirmed && !HasToken(token)
    ensures o.Sent? ==> o.request == Request(Patch, "/api/v1/dogPositions/disable/" + IntToString(id), map[])
  {
    Disable(confirmed, true, token, WithId("/api/v1/dogPositions/disable", Num(id)))
  }

  /** `getStatusText`: '1' active, '2' disabled, any other code as it is. */
  function StatusText(code: string): (text: string)
    ensures code == "1" ==> text == "ใช้งานได้"
    ensures code == "2" ==> text == "ปิดใช้งาน"
    ensures code != "1" && code != "2" ==> text == code
  {
    LabelOf(ActiveOrDisabled, code)
  }

  /**
   * The part of `ManagePositionComponent` its form methods change: the
   * route's dog id and `formPosition`. The current year, which the source
   * reads from the clock, is passed in.
   */
  class PositionScreen {
    var dogId: Option<string>
    var form: PositionForm

    /** The component as `ngOnInit` leaves it: the form's dog is the route's. */
    constructor (routeId: Option<string>, currentYear: int)
      ensures dogId == routeId && form == BlankForm(routeId, currentYear)
    {
      dogId := routeId;
      form := BlankForm(routeId, currentYear);
    }

    /** `resetForm()`: a blank form that still belongs to the route's dog. */
    method ResetForm(currentYear: int)
      modifies this`form
      ensures form == BlankForm(dogId, currentYear)
    {
      form := BlankForm(dogId, currentYear);
    }

    /** `editPosition(position)`. */
    method EditPosition(p: DogPosition)
      modifies this`form
      ensures form == FormOf(p)
    {
      form := FormOf(p);
    }

    /** The request `save()` sends for the current form. */
    function SaveRequestNow(): (r: Request)
      reads this`form
      ensures r == Save(form)
    {
      Save(form)
    }
  }

  /**
   * After `resetForm()` a save adds a position for the route's dog; after
   * editing a stored position it updates that position, sending its dog,
   * position and year but not its status.
   */
  lemma SaveAfterResetOrEdit(routeId: Option<string>, year: int, p: DogPosition)
    ensures Save(BlankForm(routeId, year)).verb == Post
    ensures Save(BlankForm(routeId, year)).body["dogId"] == RouteDogId(routeId)
    ensures p.id > 0 ==> Save(FormOf(p)).verb == Put
    ensures p.id > 0 ==> Save(FormOf(p)).path == EditBase + "/" + IntToString(p.id)
    ensures Save(FormOf(p)).body == map["dogId" := Num(p.dogId), "positionId" := Num(p.positionId), "year" := Num(p.year)]
  {
  }

  /** Opened from a dog's number, the screen adds positions for that very dog. */
  lemma NewPositionsBelongToTheRouteDog(n: int, year: int)
    ensures Save(BlankForm(Some(IntToString(n)), year)).body["dogId"] == Num(n)
  {
    RouteDogIdOfNumber(n);
  }
}
