/**
 * The edit-dog screen: the dog form filled from the server, the files
 * already stored for the dog (profile picture, pedigree PDF, pedigree
 * picture, show pictures), new files picked to replace or add to them, the
 * delete flags, and the multipart PUT that sends the filled fields, the
 * deletions and the new files.
 */
module EditDog {
  import opened Js
  import opened Http
  import opened DogForms

  /** The base URLs of the stored files (`config.profileImage`, …). */
  datatype FileServer = FileServer(profileImage: string, pedigreePDF: string, pedigreeImage: string, showImages: string)

  /** A stored show picture: its file name, which is also its id for deletion, and its URL. */
  datatype ImageInfo = ImageInfo(id: Value, url: string)

  /** The property of the server's dog each form field is filled from. */
  const ApiNames: map<string, string> := map[
    "dog_Microchip" := "microchip", "dog_RegNo" := "regNo", "dog_Name" := "name",
    "dog_CallName" := "callName", "dog_Gender" := "gender", "color_ID" := "colorID",
    "dog_Status" := "status", "dog_StatusBreeding" := "statusBreeding", "dog_StatusSale" := "statusSale",
    "dog_StatusDel" := "statusDel", "dog_Owner" := "owner", "dog_Breeder" := "breeder",
    "dog_K9Url" := "k9Url", "dog_Price" := "price", "dog_Birthday" := "birthday",
    "breeding_ID" := "breedingID", "dog_Dad" := "dadID", "dog_Mom" := "momID"]

  /** What a field falls back to when the server's value is falsy: '1' (active) for the deletion status, '' for the rest. */
  function Fallback(key: string): string {
    if key == "dog_StatusDel" then "1" else ""
  }

  /** The form before any load: every field empty, the deletion status '1'. */
  const InitialForm: Object := map k | k in ApiNames :: Str(Fallback(k))

  lemma ApiNamesAreTheFormKeys()
    ensures forall k :: k in ApiNames <==> k in DogFormKeys
  {
  }

  /**
   * The form `loadDogData` builds from the server's dog: each field the
   * server's value when truthy, else its fallback. So every field is
   * truthy or '', and the deletion status is never empty.
   */
  function FormFromDog(dogData: Value): (f: Object)
    ensures f.Keys == ApiNames.Keys
    ensures forall k :: k in f ==> (Truthy(f[k]) || f[k] == Str("")) && (IsFilled(f[k]) <==> Truthy(f[k]))
    ensures forall k :: k in f ==> (Truthy(OptionalMember(dogData, ApiNames[k])) ==> f[k] == OptionalMember(dogData, ApiNames[k]))
    ensures forall k :: k in f ==> (!Truthy(OptionalMember(dogData, ApiNames[k])) ==> f[k] == Str(Fallback(k)))
    ensures "dog_StatusDel" in f && Truthy(f["dog_StatusDel"])
  {
    map k | k in ApiNames :: Or(OptionalMember(dogData, ApiNames[k]), Str(Fallback(k)))
  }

  /**
   * The screen's form is only ever the initial one or one built by a load,
   * and both have exactly the eighteen keys of the dog form, so `for…in`
   * visits them in the order of `DogFormKeys`.
   */
  lemma FormsAreDogForms(dogData: Value)
    ensures IsDogForm(InitialForm) && IsDogForm(FormFromDog(dogData))
  {
    ApiNamesAreTheFormKeys();
  }

  /** `dogData.x ? `${base}/${dogData.x}` : null`: the URL of a stored file, when the dog has one. */
  function ExistingFile(base: string, name: Value): (url: Option<string>)
    ensures url.Some? <==> Truthy(name)
    ensures url.Some? ==> url.value == base + "/" + ToString(name)
  {
    if Truthy(name) then Some(base + "/" + ToString(name)) else None
  }

  /** `dogData.showImages.map(...)`: one picture per file name; anything but an array throws. */
  function ExistingShowImages(base: string, images: Value): (r: Option<seq<ImageInfo>>)
    ensures r.Some? <==> images.Arr?
    ensures r.Some? ==> |r.value| == |images.items|
    ensures r.Some? ==> forall i :: 0 <= i < |images.items| ==>
      r.value[i].id == images.items[i] && r.value[i].url == base + "/" + ToString(images.items[i])
  {
    if images.Arr? then
      Some(seq(|images.items|, i requires 0 <= i < |images.items| =>
        ImageInfo(images.items[i], base + "/" + ToString(images.items[i]))))
    else None
  }

  const LoadFailedText := "ไม่สามารถโหลดข้อมูลสุนัขได้"

  // ------------------------------------------------------------ show pictures

  /** A dog has at most four show pictures, stored and new together. */
  const MaxShowImages := 4

  /**
   * The show files `onFileChange` keeps, as written: `slice(0, 4 - existing)`.
   * With more than four stored pictures the end is negative and counts from
   * the end of the picked files, so files are still kept.
   */
  function ShowFilesKeptAsWritten(files: seq<File>, existing: nat): (r: seq<File>)
    ensures |r| <= |files| && r == files[..|r|]
    ensures existing <= MaxShowImages ==> |r| == Min(|files|, MaxShowImages - existing)
    ensures existing > MaxShowImages ==> |r| == Max(|files| - (existing - MaxShowImages), 0)
  {
    SliceTo(files, MaxShowImages - existing)
  }

  /** As written, a dog with more than four stored pictures can be given more new ones. */
  lemma AsWrittenExceedsCap(files: seq<File>, existing: nat)
    requires existing > MaxShowImages && |files| > existing - MaxShowImages
    ensures existing + |ShowFilesKeptAsWritten(files, existing)| > MaxShowImages
    ensures ShowFilesKeptAsWritten(files, existing) != []
  {
  }

  /** Five stored pictures and three picked files: two are kept, seven in all. */
  lemma AsWrittenFiveStoredThreePicked()
    ensures var files := [File("a.jpg", "blob:a"), File("b.jpg", "blob:b"), File("c.jpg", "blob:c")];
      ShowFilesKeptAsWritten(files, 5) == files[..2]
  {
  }

  /** The show files kept under the four-picture cap: none once four are stored. */
  function CappedShowFiles(files: seq<File>, existing: nat): (r: seq<File>)
    ensures |r| <= |files| && r == files[..|r|]
    ensures existing + |r| <= MaxShowImages || r == []
    ensures existing >= MaxShowImages ==> r == []
    ensures existing <= MaxShowImages ==> |r| == Min(|files|, MaxShowImages - existing)
  {
    SliceTo(files, Max(0, MaxShowImages - existing))
  }

  /** Up to the cap the corrected rule keeps exactly what the code keeps. */
  lemma CappedAgreesUpToCap(files: seq<File>, existing: nat)
    requires existing <= MaxShowImages
    ensures CappedShowFiles(files, existing) == ShowFilesKeptAsWritten(files, existing)
  {
  }

  // ------------------------------------------------------------ the request

  /** `editDog/${this.dogId}`: a missing id is written as 'null'. */
  function EditPath(dogId: Option<string>): (path: string)
    ensures dogId.Some? ==> path == "/api/v1/dogs/editDog/" + dogId.value
    ensures dogId.None? ==> path == "/api/v1/dogs/editDog/null"
  {
    "/api/v1/dogs/editDog/" + (if dogId.Some? then dogId.value else "null")
  }

  /** `if (flag) formData.append(name, 'true')`. */
  function Flag(name: string, on: bool): (r: FormData)
    ensures on ==> r == [Field(name, "true")]
    ensures !on ==> r == []
  {
    if on then [Field(name, "true")] else []
  }

  function Count(b: bool): nat { if b then 1 else 0 }

  /**
   * The deletions `updateDog()` sends: 'true' for each set flag, then the
   * ids of the removed show pictures joined with commas when there are any.
   */
  function DeleteEntries(profile: bool, pedigree: bool, pedigreeImg: bool, showAll: bool, showIds: seq<Value>): (r: FormData)
    ensures |r| == Count(profile) + Count(pedigree) + Count(pedigreeImg) + Count(showAll) + Count(showIds != [])
    ensures showIds != [] ==> r[|r| - 1] == Field("delete_show_ids", ToString(Arr(showIds)))
  {
    var flags := Flag("delete_profile", profile) + Flag("delete_pedigree", pedigree)
      + Flag("delete_pedigreeImg", pedigreeImg) + Flag("delete_show_all", showAll);
    flags + (if showIds != [] then [Field("delete_show_ids", ToString(Arr(showIds)))] else [])
  }

  /** Every delete flag that is set is sent as 'true'. */
  lemma SetFlagsAreSent(profile: bool, pedigree: bool, pedigreeImg: bool, showAll: bool, showIds: seq<Value>)
    ensures var r := DeleteEntries(profile, pedigree, pedigreeImg, showAll, showIds);
      && (profile ==> Field("delete_profile", "true") in r)
      && (pedigree ==> Field("delete_pedigree", "true") in r)
      && (pedigreeImg ==> Field("delete_pedigreeImg", "true") in r)
      && (showAll ==> Field("delete_show_all", "true") in r)
  {
    var a, b, c, d := Flag("delete_profile", profile), Flag("delete_pedigree", pedigree),
      Flag("delete_pedigreeImg", pedigreeImg), Flag("delete_show_all", showAll);
    var r := DeleteEntries(profile, pedigree, pedigreeImg, showAll, showIds);
    var rest := r[|a + b + c + d|..];
    assert r == a + b + c + d + rest;
    assert profile ==> r[0] == Field("delete_profile", "true");
    assert pedigree ==> r[|a|] == Field("delete_pedigree", "true");
    assert pedigreeImg ==> r[|a + b|] == Field("delete_pedigreeImg", "true");
    assert showAll ==> r[|a + b + c|] == Field("delete_show_all", "true");
  }

  /** The dialog text of a failed update: `err.error?.message` when it is truthy. */
  function UpdateFailedText(message: Value): (msg: Value)
    ensures Truthy(msg)
    ensures Truthy(message) ==> msg == message
    ensures !Truthy(message) ==> msg == Str("ไม่สามารถแก้ไขข้อมูลได้")
  {
    Or(message, Str("ไม่สามารถแก้ไขข้อมูลได้"))
  }

  /** The URLs of the files the server already holds for the dog (`existingProfile`, …). */
  datatype StoredFiles = StoredFiles(
    existingProfile: Option<string>, existingPedigree: Option<string>, existingPedigreeImg: Option<string>,
    existingShowImages: seq<ImageInfo>)

  const NothingStored := StoredFiles(None, None, None, [])

  /** The deletions asked for (`deleteProfile`, …, `deleteShowIds`). */
  datatype Deletions = Deletions(
    deleteProfile: bool, deletePedigree: bool, deletePedigreeImg: bool, deleteShowAll: bool, deleteShowIds: seq<Value>)

  const NothingDeleted := Deletions(false, false, false, false, [])

  /**
   * The state of `EditDogComponent` that its methods change. Its file
   * fields are grouped in three records: the picked files, the stored
   * files and the deletions.
   */
  class EditDogScreen {
    var dogId: Option<string>
    var formDog: Object
    var picked: PickedFiles
    var stored: StoredFiles
    var deletions: Deletions

    predicate Valid()
      reads this`picked
    {
      PreviewsShown(picked)
    }

    /** The screen as created: the route's id, the initial form, nothing picked, stored or deleted. */
    constructor (routeId: Option<string>)
      ensures Valid()
      ensures dogId == routeId && formDog == InitialForm
      ensures picked == NothingPicked && stored == NothingStored && deletions == NothingDeleted
    {
      dogId := routeId;
      formDog := InitialForm;
      picked := NothingPicked;
      stored := NothingStored;
      deletions := NothingDeleted;
    }

    /** `ngOnInit` loads the dog only when the route gave a non-empty id. */
    predicate LoadsOnInit()
      reads this`dogId
    {
      dogId.Some? && dogId.value != ""
    }

    /**
     * The success callback of `loadDogData`: the form from `res.data || res`,
     * the URLs of the stored files, then the show pictures. A reply that is
     * null or undefined throws before anything is assigned; a dog whose
     * `showImages` is not an array throws after the form and the other
     * files are assigned.
     */
    method LoadDogData(res: Value, server: FileServer) returns (thrown: bool)
      requires Valid()
      modifies this`formDog, this`stored
      ensures Valid()
      ensures Nullish(res) ==> thrown && formDog == old(formDog) && stored == old(stored)
      ensures !Nullish(res) ==> var dogData := Or(OptionalMember(res, "data"), res);
        && formDog == FormFromDog(dogData)
        && stored.existingProfile == ExistingFile(server.profileImage, OptionalMember(dogData, "profileImage"))
        && stored.existingPedigree == ExistingFile(server.pedigreePDF, OptionalMember(dogData, "pedigreePDF"))
        && stored.existingPedigreeImg == ExistingFile(server.pedigreeImage, OptionalMember(dogData, "pedigreeImage"))
        && (thrown <==> !OptionalMember(dogData, "showImages").Arr?)
        && (thrown ==> stored.existingShowImages == old(stored.existingShowImages))
        && (!thrown ==> stored.existingShowImages == ExistingShowImages(server.showImages, OptionalMember(dogData, "showImages")).value)
    {
      var data := Member(res, "data");
      if data.None? {
        return true;
      }
      var dogData := Or(data.value, res);
      formDog := FormFromDog(dogData);
      stored := stored.(
        existingProfile := ExistingFile(server.profileImage, OptionalMember(dogData, "profileImage")),
        existingPedigree := ExistingFile(server.pedigreePDF, OptionalMember(dogData, "pedigreePDF")),
        existingPedigreeImg := ExistingFile(server.pedigreeImage, OptionalMember(dogData, "pedigreeImage")));
      var images := ExistingShowImages(server.showImages, OptionalMember(dogData, "showImages"));
      if images.None? {
        return true;
      }
      stored := stored.(existingShowImages := images.value);
      thrown := false;
    }

    /**
     * `onFileChange(event, type)`: a picked profile or pedigree picture
     * replaces the previous one with its preview, a pedigree PDF replaces the
     * previous one, and picked show pictures replace the previous ones, cut
     * by `slice(0, 4 - stored)` (what fits beside at most four stored ones;
     * more than four stored gives a negative end). Picking undoes the
     * matching delete flag. Picking nothing, or an unknown type, changes
     * nothing.
     */
    method OnFileChange(kind: string, files: seq<File>)
      requires Valid()
      modifies this`picked, this`deletions
      ensures Valid()
      ensures files == [] || kind !in {"profile", "pedigree", "pedigreeImg", "show"} ==>
        picked == old(picked) && deletions == old(deletions)
      ensures files != [] && kind == "profile" ==>
        picked == old(picked).(profileFile := Some(files[0]), profileFilePreview := Some(files[0].objectUrl))
        && deletions == old(deletions).(deleteProfile := false)
      ensures files != [] && kind == "pedigree" ==>
        picked == old(picked).(pedigreeFile := Some(files[0])) && deletions == old(deletions).(deletePedigree := false)
      ensures files != [] && kind == "pedigreeImg" ==>
        picked == old(picked).(pedigreeImgFile := Some(files[0]), pedigreeImgFilePreview := Some(files[0].objectUrl))
        && deletions == old(deletions).(deletePedigreeImg := false)
      ensures files != [] && kind == "show" ==>
        picked == old(picked).(showFiles := ShowFilesKeptAsWritten(files, |stored.existingShowImages|), showFilesPreview := Previews(picked.showFiles))
        && deletions == old(deletions).(deleteShowAll := false)
      ensures files != [] && kind == "show" && |stored.existingShowImages| <= MaxShowImages ==>
        picked.showFiles == CappedShowFiles(files, |stored.existingShowImages|)
        && |stored.existingShowImages| + |picked.showFiles| <= MaxShowImages
    {
      if files == [] {
        return;
      }
      if kind == "profile" {
        picked := picked.(profileFile := Some(files[0]), profileFilePreview := Some(files[0].objectUrl));
        deletions := deletions.(deleteProfile := false);
      } else if kind == "pedigree" {
        picked := picked.(pedigreeFile := Some(files[0]));
        deletions := deletions.(deletePedigree := false);
      } else if kind == "pedigreeImg" {
        picked := picked.(pedigreeImgFile := Some(files[0]), pedigreeImgFilePreview := Some(files[0].objectUrl));
        deletions := deletions.(deletePedigreeImg := false);
      } else if kind == "show" {
        var kept := ShowFilesKeptAsWritten(files, |stored.existingShowImages|);
        if |stored.existingShowImages| <= MaxShowImages {
          CappedAgreesUpToCap(files, |stored.existingShowImages|);
        }
        picked := picked.(showFiles := kept, showFilesPreview := Previews(kept));
        deletions := deletions.(deleteShowAll := false);
      }
    }

    /** `removeFile(type, index)`. */
    method RemoveFile(kind: string, index: Option<int>)
      requires Valid()
      modifies this`picked
      ensures Valid()
      ensures picked == RemovePicked(old(picked), kind, index)
    {
      RemovePickedKeepsPreviews(picked, kind, index);
      picked := RemovePicked(picked, kind, index);
    }

    /**
     * `toggleDelete(type)`: flips a delete flag; setting it hides the stored
     * file (or all stored show pictures). Clearing it does not bring them back.
     */
    method ToggleDelete(kind: string)
      requires Valid()
      modifies this`stored, this`deletions
      ensures Valid()
      ensures kind == "profile" ==>
        deletions == old(deletions).(deleteProfile := !old(deletions.deleteProfile))
        && stored == (if deletions.deleteProfile then old(stored).(existingProfile := None) else old(stored))
      ensures kind == "pedigree" ==>
        deletions == old(deletions).(deletePedigree := !old(deletions.deletePedigree))
        && stored == (if deletions.deletePedigree then old(stored).(existingPedigree := None) else old(stored))
      ensures kind == "pedigreeImg" ==>
        deletions == old(deletions).(deletePedigreeImg := !old(deletions.deletePedigreeImg))
        && stored == (if deletions.deletePedigreeImg then old(stored).(existingPedigreeImg := None) else old(stored))
      ensures kind == "showAll" ==>
        deletions == old(deletions).(deleteShowAll := !old(deletions.deleteShowAll))
        && stored == (if deletions.deleteShowAll then old(stored).(existingShowImages := []) else old(stored))
      ensures kind !in {"profile", "pedigree", "pedigreeImg", "showAll"} ==> deletions == old(deletions) && stored == old(stored)
    {
      if kind == "profile" {
        deletions := deletions.(deleteProfile := !deletions.deleteProfile);
        if deletions.deleteProfile { stored := stored.(existingProfile := None); }
      } else if kind == "pedigree" {
        deletions := deletions.(deletePedigree := !deletions.deletePedigree);
        if deletions.deletePedigree { stored := stored.(existingPedigree := None); }
      } else if kind == "pedigreeImg" {
        deletions := deletions.(deletePedigreeImg := !deletions.deletePedigreeImg);
        if deletions.deletePedigreeImg { stored := stored.(existingPedigreeImg := None); }
      } else if kind == "showAll" {
        deletions := deletions.(deleteShowAll := !deletions.deleteShowAll);
        if deletions.deleteShowAll { stored := stored.(existingShowImages := []); }
      }
    }

    /**
     * `removeExistingShow(index)`: records the picture's id for deletion and
     * removes it from the list; an index with no picture throws before
     * anything changes.
     */
    method RemoveExistingShow(index: int) returns (thrown: bool)
      requires Valid()
      modifies this`stored, this`deletions
      ensures Valid()
      ensures thrown <==> !(0 <= index < |old(stored.existingShowImages)|)
      ensures thrown ==> stored == old(stored) && deletions == old(deletions)
      ensures !thrown ==> var images := old(stored.existingShowImages);
        && deletions == old(deletions).(deleteShowIds := old(deletions.deleteShowIds) + [images[index].id])
        && stored == old(stored).(existingShowImages := images[..index] + images[index + 1..])
    {
      var images := stored.existingShowImages;
      if !(0 <= index < |images|) {
        return true;
      }
      deletions := deletions.(deleteShowIds := deletions.deleteShowIds + [images[index].id]);
      stored := stored.(existingShowImages := SpliceOne(images, index));
      thrown := false;
    }

    /**
     * `updateDog()`: the form's fields that are neither '' nor null, in the
     * form's key order, then the deletions, then the new files, PUT to
     * `editDog/<id>`.
     */
    method UpdateDog() returns (r: MultipartRequest)
      requires Valid()
      ensures r.verb == Put && r.path == EditPath(dogId)
      ensures r.data == FilledFields(DogFormKeys, formDog)
        + DeleteEntries(deletions.deleteProfile, deletions.deletePedigree, deletions.deletePedigreeImg,
                        deletions.deleteShowAll, deletions.deleteShowIds)
        + FileEntries(picked.profileFile, picked.pedigreeFile, picked.pedigreeImgFile, picked.showFiles)
    {
      var fields: FormData := [];
      var i := 0;
      while i < |DogFormKeys|
        invariant 0 <= i <= |DogFormKeys|
        invariant fields == FilledFields(DogFormKeys[..i], formDog)
      {
        var key := DogFormKeys[i];
        var value := Lookup(formDog, key);
        assert DogFormKeys[..i + 1] == DogFormKeys[..i] + [key];
        FilledFieldsSnoc(DogFormKeys[..i], key, formDog);
        if value != Str("") && value != Null {
          fields := fields + [Field(key, ToString(value))];
        }
        i := i + 1;
      }
      assert DogFormKeys[..i] == DogFormKeys;
      var d := deletions;
      var deleted := DeleteEntries(d.deleteProfile, d.deletePedigree, d.deletePedigreeImg, d.deleteShowAll, d.deleteShowIds);
      var uploads := FileEntries(picked.profileFile, picked.pedigreeFile, picked.pedigreeImgFile, picked.showFiles);
      r := MultipartRequest(Put, EditPath(dogId), fields + deleted + uploads);
    }

    /**
     * `resetForm()`: forgets the picked files and the deletions; the stored
     * dog is then loaded again when the screen has an id (`reload`).
     */
    method ResetForm() returns (reload: bool)
      requires Valid()
      modifies this`picked, this`deletions
      ensures Valid()
      ensures reload <==> LoadsOnInit()
      ensures picked == NothingPicked && deletions == NothingDeleted
    {
      reload := LoadsOnInit();
      picked := NothingPicked;
      deletions := NothingDeleted;
    }
  }

  /**
   * Right after a load, an update sends exactly the fields the server gave
   * a truthy value (the deletion status always), each as that value's text.
   */
  lemma UpdateAfterLoadSendsTruthyFields(dogData: Value, k: string)
    requires k in DogFormKeys
    ensures var f := FormFromDog(dogData); var sent := FilledFields(DogFormKeys, f);
      (exists i :: 0 <= i < |sent| && sent[i].name == k) <==> Truthy(OptionalMember(dogData, ApiNames[k])) || k == "dog_StatusDel"
    ensures var f := FormFromDog(dogData); var sent := FilledFields(DogFormKeys, f);
      Truthy(OptionalMember(dogData, ApiNames[k])) ==>
        exists i :: 0 <= i < |sent| && sent[i] == Field(k, ToString(OptionalMember(dogData, ApiNames[k])))
  {
    var f := FormFromDog(dogData);
    var sent := FilledFields(DogFormKeys, f);
    FilledFieldsSound(DogFormKeys, f);
    ApiNamesAreTheFormKeys();
    assert k in f;
    if IsFilled(f[k]) {
      FilledFieldsComplete(DogFormKeys, f, k);
    } else {
      EmptyFieldsNotSent(DogFormKeys, f, k);
    }
  }
}
