/**
 * The dog list: a paged list filtered by name and four selects, whose rows
 * get a full profile-image URL (or the default picture), the error dialog
 * of a failed load, disabling a dog and the four label tables.
 */
module ViewDogs {
  import opened Js
  import opened Http
  import opened Labels
  import opened Listing

  /** A dog row is the API's object, copied with `...dog`. */
  type Dog = Object

  /** Where the profile pictures are served from. */
  const ProfileImageBase := "http://localhost:3030/uploads/dogs/profile/"

  /**
   * The row mapping of `loadDogs()`: every field kept, and `profileImage`
   * the base URL followed by the file name, or by 'default.jpg' when the
   * dog has no picture.
   */
  function WithProfileImage(dog: Dog): (r: Dog)
    ensures r.Keys == dog.Keys + {"profileImage"}
    ensures forall k :: k in dog && k != "profileImage" ==> r[k] == dog[k]
    ensures Truthy(Lookup(dog, "profileImage")) ==> r["profileImage"] == Str(ProfileImageBase + ToString(dog["profileImage"]))
    ensures !Truthy(Lookup(dog, "profileImage")) ==> r["profileImage"] == Str(ProfileImageBase + "default.jpg")
    ensures r["profileImage"].Str? && |r["profileImage"].s| >= |ProfileImageBase|
      && r["profileImage"].s[..|ProfileImageBase|] == ProfileImageBase
  {
    var image := Lookup(dog, "profileImage");
    var url := ProfileImageBase + (if Truthy(image) then ToString(image) else "default.jpg");
    assert url[..|ProfileImageBase|] == ProfileImageBase;
    dog["profileImage" := Str(url)]
  }

  /** `response.data.map(...)`: one row per dog, in order. */
  function WithProfileImages(data: seq<Dog>): (rows: seq<Dog>)
    ensures |rows| == |data|
    ensures forall i :: 0 <= i < |data| ==> rows[i] == WithProfileImage(data[i])
  {
    seq(|data|, i requires 0 <= i < |data| => WithProfileImage(data[i]))
  }

  /** The success callback of `loadDogs()`. */
  method LoadSucceeded(list: ListController<Dog>, data: seq<Dog>, total: nat)
    requires list.Valid()
    modifies list`items, list`totalRecords, list`totalPages, list`loading
    ensures list.Valid() && !list.loading
    ensures list.items == WithProfileImages(data)
    ensures list.totalRecords == total && list.totalPages == CeilDiv(total, list.pageSize)
  {
    list.Loaded(WithProfileImages(data), total);
  }

  const LoadTexts := ErrorTexts("เกิดข้อผิดพลาดในการโหลดข้อมูลสุนัข", InvalidInput, Some("ไม่พบข้อมูล"), Unauthorized, Some(ServerFailed), NoConnection)

  /** The dialog text of a failed load: the server's text for 400, 404 and 500 when it has one. */
  function LoadFailureMessage(e: Failure): (msg: Value)
    ensures Truthy(msg)
    ensures e.status in {400, 404, 500} && Truthy(e.serverMessage) ==> msg == e.serverMessage
    ensures e.status == 404 && !Truthy(e.serverMessage) ==> msg == Str("ไม่พบข้อมูล")
    ensures e.status == 401 ==> msg == Str(Unauthorized)
    ensures e.status == 0 ==> msg == Str(NoConnection)
    ensures e.status !in {0, 400, 401, 404, 500} ==> msg == Str("เกิดข้อผิดพลาดในการโหลดข้อมูลสุนัข")
  {
    ErrorMessage(e, LoadTexts)
  }

  /** The error callback of `loadDogs()`: the dialog text, then an empty list with zero totals. */
  method LoadFailed(list: ListController<Dog>, e: Failure) returns (msg: Value)
    requires list.Valid() && list.clearOnFailure
    modifies list`items, list`totalRecords, list`totalPages, list`loading
    ensures list.Valid() && !list.loading
    ensures msg == LoadFailureMessage(e)
    ensures list.items == [] && list.totalRecords == 0 && list.totalPages == 0
  {
    msg := LoadFailureMessage(e);
    list.LoadFailed();
  }

  /** `performDisableDog(id)` once confirmed: throws before any request without a stored token. */
  function DisableDog(confirmed: bool, token: Option<string>, id: int): (o: DisableOutcome)
    ensures o.Sent? <==> confirmed && HasToken(token)
    ensures o.MissingToken? <==> confirmed && !HasToken(token)
    ensures o.Sent? ==> o.request == Request(Patch, "/api/v1/dogs/disableDog/" + IntToString(id), map[])
  {
    Disable(confirmed, true, token, WithId("/api/v1/dogs/disableDog", Num(id)))
  }

  /** Disabling shows one fixed text for any failed request, and another when the token is missing. */
  const DisableFailedText := "ไม่สามารถปิดการใช้งานได้ในขณะนี้ กรุณาลองใหม่อีกครั้ง"
  const DisableNotAttemptedText := "ไม่สามารถดำเนินการได้ กรุณาลองใหม่อีกครั้ง"

  /** The name box and the status, breeding-status, sale-status and gender selects, in the order `loadDogs()` tests them. */
  function Filters(searchName: string, status: string, statusBreeding: string, statusSale: string, gender: string): seq<Filter> {
    [Filter("dog_Name", Str(searchName)), Filter("dog_Status", Str(status)),
     Filter("dog_StatusBreeding", Str(statusBreeding)), Filter("dog_StatusSale", Str(statusSale)),
     Filter("dog_Gender", Str(gender))]
  }

  /** The query of `loadDogs()`: page and limit, then each of the five filters only when chosen. */
  function DogsQuery(page: int, limit: int, searchName: string, status: string, statusBreeding: string, statusSale: string, gender: string): (q: Query)
    ensures |q| >= 2
    ensures q[0] == ("page", IntToString(page)) && q[1] == ("limit", IntToString(limit))
    ensures HasParam(q, "dog_Name") <==> searchName != ""
    ensures searchName != "" ==> ParamValue(q, "dog_Name") == Some(searchName)
    ensures HasParam(q, "dog_Status") <==> status != ""
    ensures status != "" ==> ParamValue(q, "dog_Status") == Some(status)
    ensures HasParam(q, "dog_StatusBreeding") <==> statusBreeding != ""
    ensures statusBreeding != "" ==> ParamValue(q, "dog_StatusBreeding") == Some(statusBreeding)
    ensures HasParam(q, "dog_StatusSale") <==> statusSale != ""
    ensures statusSale != "" ==> ParamValue(q, "dog_StatusSale") == Some(statusSale)
    ensures HasParam(q, "dog_Gender") <==> gender != ""
    ensures gender != "" ==> ParamValue(q, "dog_Gender") == Some(gender)
  {
    var fs := Filters(searchName, status, statusBreeding, statusSale, gender);
    PageQueryParams(page, limit, fs, 0);
    PageQueryParams(page, limit, fs, 1);
    PageQueryParams(page, limit, fs, 2);
    PageQueryParams(page, limit, fs, 3);
    PageQueryParams(page, limit, fs, 4);
    PageQuery(page, limit, fs)
  }

  /** The screen on creation: page 1 of 5 rows, no filter chosen, a failed load empties the list. */
  method NewScreen() returns (list: ListController<Dog>)
    ensures fresh(list) && list.Valid()
    ensures list.pageSize == 5 && list.currentPage == 1 && list.clearOnFailure
    ensures list.filters == Filters("", "", "", "", "") && list.items == []
  {
    list := new ListController<Dog>(5, true, Filters("", "", "", "", ""));
  }

  const Statuses: map<string, string> := map[
    "1" := "พ่อพันธุ์", "2" := "พ่อพันธุ์นอกฟาร์ม", "3" := "แม่พันธุ์",
    "4" := "ประกวด", "5" := "ลูกสุนัข", "6" := "เสียชีวิต"]
  const BreedingStatuses: map<string, string> := map[
    "1" := "พร้อมผสม", "2" := "ไม่พร้อมผสม", "3" := "รอผลการผสม", "4" := "ท้อง", "5" := "พักฟื้น"]
  const SaleStatuses: map<string, string> := map["1" := "พร้อมขาย", "2" := "ไม่ขาย", "3" := "จอง", "4" := "จำหน่ายแล้ว"]
  const Genders: map<string, string> := map["M" := "ตัวผู้", "F" := "ตัวเมีย"]

  /** `getStatusText`: stud, outside stud, dam, show dog, puppy, deceased. */
  function StatusText(code: string): (text: string)
    ensures code in Statuses ==> text == Statuses[code]
    ensures code !in {"1", "2", "3", "4", "5", "6"} ==> text == code
  {
    LabelOf(Statuses, code)
  }

  /** `getBreedingStatusText`: ready, not ready, awaiting result, pregnant, recovering. */
  function BreedingStatusText(code: string): (text: string)
    ensures code in BreedingStatuses ==> text == BreedingStatuses[code]
    ensures code !in {"1", "2", "3", "4", "5"} ==> text == code
  {
    LabelOf(BreedingStatuses, code)
  }

  /** `getSaleStatusText`: for sale, not for sale, reserved, sold. */
  function SaleStatusText(code: string): (text: string)
    ensures code in SaleStatuses ==> text == SaleStatuses[code]
    ensures code !in {"1", "2", "3", "4"} ==> text == code
  {
    LabelOf(SaleStatuses, code)
  }

  /** `getGenderText`: 'M' male, 'F' female. */
  function GenderText(code: string): (text: string)
    ensures code in Genders ==> text == Genders[code]
    ensures code != "M" && code != "F" ==> text == code
  {
    LabelOf(Genders, code)
  }
}
