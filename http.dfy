/**
 * Requests the components send through HttpClient, and the way every
 * component turns a failed call into the text of its error dialog.
 * Paths are relative to the configured API server.
 */
module Http {
  import opened Js

  datatype Verb = Get | Post | Put | Patch

  /** A request: its verb, its path and its JSON body. */
  datatype Request = Request(verb: Verb, path: string, body: Object)

  /** A failed call as the error callback sees it: `err.status` and `err.error?.error`. */
  datatype Failure = Failure(status: int, serverMessage: Value)

  /**
   * The texts one call site shows. `notFound` and `serverError` are None where
   * the call site has no branch for 404 or 500; such a status falls through to
   * `fallback` like any unlisted one.
   */
  datatype ErrorTexts = ErrorTexts(
    fallback: string,
    badRequest: string,
    notFound: Option<string>,
    unauthorized: string,
    serverError: Option<string>,
    noResponse: string)

  predicate NonEmptyTexts(t: ErrorTexts) {
    t.fallback != "" && t.badRequest != "" && t.unauthorized != "" && t.noResponse != ""
    && (t.notFound.Some? ==> t.notFound.value != "")
    && (t.serverError.Some? ==> t.serverError.value != "")
  }

  /** The statuses for which a call site prefers the server's own message. */
  predicate UsesServerText(status: int, t: ErrorTexts) {
    status == 400 || (status == 404 && t.notFound.Some?) || (status == 500 && t.serverError.Some?)
  }

  /** The call site's own text for a status, by the status classes of section 15 of RFC 9110 (0: no response). */
  function FixedText(status: int, t: ErrorTexts): string {
    if status == 400 then t.badRequest
    else if status == 404 && t.notFound.Some? then t.notFound.value
    else if status == 500 && t.serverError.Some? then t.serverError.value
    else if status == 401 then t.unauthorized
    else if status == 0 then t.noResponse
    else t.fallback
  }

  /**
   * The dialog text for a failed call, in the order the call sites test the
   * status: 400, 404 and 500 show the server's message when it has one and
   * the site's text otherwise; 401 and 0 show fixed texts; anything else the
   * site's fallback.
   */
  function ErrorMessage(f: Failure, t: ErrorTexts): (msg: Value)
    ensures NonEmptyTexts(t) ==> Truthy(msg)
    ensures UsesServerText(f.status, t) && Truthy(f.serverMessage) ==> msg == f.serverMessage
    ensures !UsesServerText(f.status, t) ==> msg == Str(FixedText(f.status, t))
  {
    if f.status == 400 then Or(f.serverMessage, Str(t.badRequest))
    else if f.status == 404 && t.notFound.Some? then Or(f.serverMessage, Str(t.notFound.value))
    else if f.status == 401 then Str(t.unauthorized)
    else if f.status == 500 && t.serverError.Some? then Or(f.serverMessage, Str(t.serverError.value))
    else if f.status == 0 then Str(t.noResponse)
    else Str(t.fallback)
  }

  /**
   * The message is either the server's or the site's text for the status;
   * two failures with the same status and no usable server message read the same.
   */
  lemma ErrorMessageBySource(f: Failure, g: Failure, t: ErrorTexts)
    requires f.status == g.status
    requires !(UsesServerText(f.status, t) && Truthy(f.serverMessage))
    requires !(UsesServerText(g.status, t) && Truthy(g.serverMessage))
    ensures ErrorMessage(f, t) == ErrorMessage(g, t) == Str(FixedText(f.status, t))
  {
  }

  // ---------------------------------------------------------------- JSON bodies

  /** The properties `JSON.stringify` writes: it skips every property whose value is undefined. */
  function Serialized(body: Object): (wire: Object)
    ensures forall k :: k in wire <==> k in body && body[k] != Undefined
    ensures forall k :: k in wire ==> wire[k] == body[k]
  {
    map k | k in body && body[k] != Undefined :: body[k]
  }

  // Texts several call sites share.
  const Unauthorized := "ไม่ได้รับอนุญาต กรุณา login ใหม่"
  const ServerFailed := "เกิดข้อผิดพลาดที่เซิร์ฟเวอร์"
  const NoConnection := "ไม่สามารถเชื่อมต่อกับเซิร์ฟเวอร์"
  const InvalidInput := "ข้อมูลที่ส่งไม่ถูกต้อง"

  /** The texts of `handleError` in the reservation, treatment-record and health-check screens. */
  const RecordScreenTexts := ErrorTexts("เกิดข้อผิดพลาด", InvalidInput, Some("ไม่พบข้อมูล"), Unauthorized, Some(ServerFailed), NoConnection)

  /**
   * `handleError(err)` of those screens, used for loading, saving and
   * disabling alike: the server's text for 400, 404 and 500 when it has one.
   */
  function HandleError(e: Failure): (msg: Value)
    ensures Truthy(msg)
    ensures e.status in {400, 404, 500} && Truthy(e.serverMessage) ==> msg == e.serverMessage
    ensures e.status == 404 && !Truthy(e.serverMessage) ==> msg == Str("ไม่พบข้อมูล")
    ensures e.status == 500 && !Truthy(e.serverMessage) ==> msg == Str(ServerFailed)
    ensures e.status == 401 ==> msg == Str(Unauthorized)
    ensures e.status == 0 ==> msg == Str(NoConnection)
    ensures e.status !in {0, 400, 401, 404, 500} ==> msg == Str("เกิดข้อผิดพลาด")
  {
    ErrorMessage(e, RecordScreenTexts)
  }

  /** `${base}/${id}` */
  function WithId(base: string, id: Value): string { base + "/" + ToString(id) }

  /**
   * The save of a form: an update of the record `id` when the form is in edit
   * mode, otherwise a creation; the body is the same either way.
   */
  function SaveRequest(editMode: bool, editVerb: Verb, editBase: string, id: Value, addPath: string, body: Object): (r: Request)
    ensures r.body == body
    ensures r.verb == Post <==> !editMode || editVerb == Post
    ensures editMode ==> r.path == WithId(editBase, id)
    ensures !editMode ==> r.path == addPath
  {
    if editMode then Request(editVerb, WithId(editBase, id), body) else Request(Post, addPath, body)
  }

  /** `if (!token)` on the value `localStorage.getItem('token')` returned. */
  predicate HasToken(token: Option<string>) { token.Some? && token.value != "" }

  /** What disabling a record comes to once the confirmation dialog has closed. */
  datatype DisableOutcome =
    | NotConfirmed          // the dialog was dismissed: nothing happens
    | MissingToken          // thrown before any request: 'ไม่พบ token การยืนยันตัวตน'
    | Sent(request: Request)

  /**
   * A PATCH with an empty body to `path`, sent only after confirmation and, at
   * the call sites that check it, only with a stored token.
   */
  function Disable(confirmed: bool, checksToken: bool, token: Option<string>, path: string): (o: DisableOutcome)
    ensures o.Sent? <==> confirmed && (checksToken ==> HasToken(token))
    ensures o.MissingToken? <==> confirmed && checksToken && !HasToken(token)
    ensures o.Sent? ==> o.request == Request(Patch, path, map[])
  {
    if !confirmed then NotConfirmed
    else if checksToken && !HasToken(token) then MissingToken
    else Sent(Request(Patch, path, map[]))
  }
}
