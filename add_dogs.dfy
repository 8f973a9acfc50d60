/**
 * The add-dog screen: a dog form with its default statuses, the picked
 * profile picture, pedigree PDF, pedigree picture and show pictures, and
 * the multipart POST that sends every field and every picked file.
 */
module AddDogs {
  import opened Js
  import opened Http
  import opened DogForms

  /** What a new dog starts as: a puppy ('5'), not ready to breed ('2'), not for sale ('2'), active ('1'); every other field empty. */
  function Default(key: string): (v: string)
    ensures key == "dog_Status" ==> v == "5"
    ensures key == "dog_StatusBreeding" || key == "dog_StatusSale" ==> v == "2"
    ensures key == "dog_StatusDel" ==> v == "1"
    ensures key !in {"dog_Status", "dog_StatusBreeding", "dog_StatusSale", "dog_StatusDel"} ==> v == ""
  {
    if key == "dog_Status" then "5"
    else if key == "dog_StatusBreeding" || key == "dog_StatusSale" then "2"
    else if key == "dog_StatusDel" then "1"
    else ""
  }

  /** The form on creation and after `resetForm()`. */
  const NewDogForm: Object := map k | k in DogFormKeys :: Str(Default(k))

  /** The new-dog form has exactly the eighteen keys. */
  lemma NewDogFormIsDogForm()
    ensures IsDogForm(NewDogForm)
  {
  }

  /** Where the new dog is posted. */
  const AddPath := "/api/v1/dogs/addDog"

  /** The dialog text of a failed save: `err.error?.message` when it is truthy. */
  function SaveFailedText(message: Value): (msg: Value)
    ensures Truthy(msg)
    ensures Truthy(message) ==> msg == message
    ensures !Truthy(message) ==> msg == Str("ไม่สามารถเพิ่มข้อมูลได้")
  {
    Or(message, Str("ไม่สามารถเพิ่มข้อมูลได้"))
  }

  /** The state of `AddDogsComponent` that its methods change; the file fields are grouped in one record. */
  class AddDogScreen {
    var formDog: Object
    var picked: PickedFiles

    predicate Valid()
      reads this`picked
    {
      PreviewsShown(picked)
    }

    constructor ()
      ensures Valid() && formDog == NewDogForm && picked == NothingPicked
    {
      formDog := NewDogForm;
      picked := NothingPicked;
    }

    /**
     * `onFileChange(event, type)`: a picked profile or pedigree picture
     * replaces the previous one with its preview, a pedigree PDF replaces the
     * previous one, and picked show pictures replace the previous ones, all
     * of them. Picking nothing, or an unknown type, changes nothing.
     */
    method OnFileChange(kind: string, files: seq<File>)
      requires Valid()
      modifies this`picked
      ensures Valid()
      ensures files == [] || kind !in {"profile", "pedigree", "pedigreeImg", "show"} ==> picked == old(picked)
      ensures files != [] && kind == "profile" ==>
        picked == old(picked).(profileFile := Some(files[0]), profileFilePreview := Some(files[0].objectUrl))
      ensures files != [] && kind == "pedigree" ==> picked == old(picked).(pedigreeFile := Some(files[0]))
      ensures files != [] && kind == "pedigreeImg" ==>
        picked == old(picked).(pedigreeImgFile := Some(files[0]), pedigreeImgFilePreview := Some(files[0].objectUrl))
      ensures files != [] && kind == "show" ==> picked == old(picked).(showFiles := files, showFilesPreview := Previews(files))
    {
      if files == [] {
        return;
      }
      if kind == "profile" {
        picked := picked.(profileFile := Some(files[0]), profileFilePreview := Some(files[0].objectUrl));
      } else if kind == "pedigree" {
        picked := picked.(pedigreeFile := Some(files[0]));
      } else if kind == "pedigreeImg" {
        picked := picked.(pedigreeImgFile := Some(files[0]), pedigreeImgFilePreview := Some(files[0].objectUrl));
      } else if kind == "show" {
        picked := picked.(showFiles := files, showFilesPreview := Previews(files));
      }
    }

    /** `removeFile(type, index)`. */
    method RemoveFile(kind: string, index: Option<int>)
      requires Valid()
      modifies this`picked
      ensures Valid()
      ensures picked == RemovePicked(old(picked), kind, index)
    {
      RemovePickedKeepsPreviews(picked, kind, index);
      picked := RemovePicked(picked, kind, index);
    }

    /**
     * `saveDog()`: every field of the form, in the form's key order and
     * whatever its value, then the picked files, POSTed to `addDog`.
     */
    method SaveDog() returns (r: MultipartRequest)
      requires Valid()
      ensures r.verb == Post && r.path == AddPath
      ensures r.data == AllFields(DogFormKeys, formDog)
        + FileEntries(picked.profileFile, picked.pedigreeFile, picked.pedigreeImgFile, picked.showFiles)
    {
      var fields: FormData := [];
      var i := 0;
      while i < |DogFormKeys|
        invariant 0 <= i <= |DogFormKeys|
        invariant fields == AllFields(DogFormKeys[..i], formDog)
      {
        var key := DogFormKeys[i];
        assert DogFormKeys[..i + 1] == DogFormKeys[..i] + [key];
        fields := fields + [Field(key, ToString(Lookup(formDog, key)))];
        i := i + 1;
      }
      assert DogFormKeys[..i] == DogFormKeys;
      var uploads := FileEntries(picked.profileFile, picked.pedigreeFile, picked.pedigreeImgFile, picked.showFiles);
      r := MultipartRequest(Post, AddPath, fields + uploads);
    }

    /** `resetForm()`, also run after a successful save: the new-dog form and nothing picked. */
    method ResetForm()
      modifies this`formDog, this`picked
      ensures Valid() && formDog == NewDogForm && picked == NothingPicked
    {
      formDog := NewDogForm;
      picked := NothingPicked;
    }
  }

  /**
   * Saving the untouched new-dog form sends all eighteen fields, each with
   * its default: the statuses '5', '2', '2' and '1', every other field ''.
   */
  lemma SaveOfNewDog()
    ensures |AllFields(DogFormKeys, NewDogForm)| == |DogFormKeys|
    ensures forall i :: 0 <= i < |DogFormKeys| ==>
      AllFields(DogFormKeys, NewDogForm)[i] == Field(DogFormKeys[i], Default(DogFormKeys[i]))
  {
    forall i | 0 <= i < |DogFormKeys|
      ensures AllFields(DogFormKeys, NewDogForm)[i] == Field(DogFormKeys[i], Default(DogFormKeys[i]))
    {
      var k := DogFormKeys[i];
      assert k in NewDogForm;
    }
  }

  /**
   * Where every field is filled, the edit screen's filtered update sends
   * the same fields as this screen's save.
   */
  lemma SaveAndUpdateAgreeOnFullForms(form: Object)
    requires forall i :: 0 <= i < |DogFormKeys| ==> IsFilled(Lookup(form, DogFormKeys[i]))
    ensures FilledFields(DogFormKeys, form) == AllFields(DogFormKeys, form)
  {
    FilledFieldsOfFullForm(DogFormKeys, form);
  }
}
