/**
 * What the add-dog and edit-dog screens share: the eighteen keys of the dog
 * form in the order `for…in` visits them, the FormData they build (text
 * fields, then the chosen files), and the rule that a picked file's preview
 * is its object URL.
 */
module DogForms {
  import opened Js
  import opened Http

  /**
   * A file picked in an `<input type="file">`. `objectUrl` stands for the
   * URL `URL.createObjectURL` makes for it, taken as fixed per file.
   */
  datatype File = File(name: string, objectUrl: string)

  /** One `formData.append(name, value)`: a text value (`String(value)`) or a file. */
  datatype Entry = Field(name: string, text: string) | Upload(name: string, file: File)

  type FormData = seq<Entry>

  /** The keys of `formDog`, in the order of its object literal (and so of `for…in`). */
  const DogFormKeys: seq<string> := [
    "dog_Microchip", "dog_RegNo", "dog_Name", "dog_CallName", "dog_Gender", "color_ID",
    "dog_Status", "dog_StatusBreeding", "dog_StatusSale", "dog_StatusDel", "dog_Owner",
    "dog_Breeder", "dog_K9Url", "dog_Price", "dog_Birthday", "breeding_ID", "dog_Dad", "dog_Mom"]

  /** A dog form: an object with exactly the eighteen keys. */
  predicate IsDogForm(form: Object) {
    (forall k :: k in form ==> k in DogFormKeys) && (forall i :: 0 <= i < |DogFormKeys| ==> DogFormKeys[i] in form)
  }

  /** `formData.append(key, formDog[key])` for every key, in order, with no filtering. */
  function AllFields(keys: seq<string>, form: Object): (r: FormData)
    ensures |r| == |keys|
    ensures forall i :: 0 <= i < |keys| ==> r[i] == Field(keys[i], ToString(Lookup(form, keys[i])))
  {
    seq(|keys|, i requires 0 <= i < |keys| => Field(keys[i], ToString(Lookup(form, keys[i]))))
  }

  /** `v !== '' && v !== null`: the test the edit screen puts before appending a field. */
  predicate IsFilled(v: Value) { v != Str("") && v != Null }

  /** The fields among `keys` whose value is filled, in order, each with its value as text. */
  function FilledFields(keys: seq<string>, form: Object): (r: FormData)
    ensures |r| <= |keys|
  {
    if keys == [] then []
    else if IsFilled(Lookup(form, keys[0])) then [Field(keys[0], ToString(Lookup(form, keys[0])))] + FilledFields(keys[1..], form)
    else FilledFields(keys[1..], form)
  }

  /** An entry the edit screen may send for `form`: a filled field among `keys`, with its value as text. */
  predicate SentField(keys: seq<string>, form: Object, e: Entry) {
    e.Field? && e.name in keys && IsFilled(Lookup(form, e.name)) && e.text == ToString(Lookup(form, e.name))
  }

  /** The entry the edit screen appends for one key: its text when the value is filled, nothing otherwise. */
  function FilledField(key: string, form: Object): (r: FormData)
    ensures IsFilled(Lookup(form, key)) ==> r == [Field(key, ToString(Lookup(form, key)))]
    ensures !IsFilled(Lookup(form, key)) ==> r == []
  {
    if IsFilled(Lookup(form, key)) then [Field(key, ToString(Lookup(form, key)))] else []
  }

  /** Visiting one more key appends its entry, if any: what a loop over the keys relies on. */
  lemma {:induction false} FilledFieldsSnoc(keys: seq<string>, key: string, form: Object)
    ensures FilledFields(keys + [key], form) == FilledFields(keys, form) + FilledField(key, form)
    decreases |keys|
  {
    if keys == [] {
      assert FilledFields([key], form) == FilledField(key, form) + FilledFields([], form);
    } else {
      assert (keys + [key])[1..] == keys[1..] + [key];
      FilledFieldsSnoc(keys[1..], key, form);
    }
  }

  /** Every entry of `FilledFields` is a filled field of the form, sent with its value as text. */
  lemma {:induction false} FilledFieldsSound(keys: seq<string>, form: Object)
    ensures forall i :: 0 <= i < |FilledFields(keys, form)| ==> SentField(keys, form, FilledFields(keys, form)[i])
    decreases |keys|
  {
    if keys != [] {
      FilledFieldsSound(keys[1..], form);
      var rest := FilledFields(keys[1..], form);
      var r := FilledFields(keys, form);
      var d := if IsFilled(Lookup(form, keys[0])) then 1 else 0;
      assert r == r[..d] + rest;
      forall i | 0 <= i < |r| ensures SentField(keys, form, r[i]) {
        if i >= d {
          assert r[i] == rest[i - d];
          assert SentField(keys[1..], form, rest[i - d]);
        }
      }
    }
  }

  /** Every filled field among `keys` is sent: the filter drops only '' and null. */
  lemma {:induction false} FilledFieldsComplete(keys: seq<string>, form: Object, k: string)
    requires k in keys && IsFilled(Lookup(form, k))
    ensures exists i :: 0 <= i < |FilledFields(keys, form)| && FilledFields(keys, form)[i] == Field(k, ToString(Lookup(form, k)))
    decreases |keys|
  {
    var r := FilledFields(keys, form);
    if keys[0] == k {
      assert r[0] == Field(k, ToString(Lookup(form, k)));
    } else {
      FilledFieldsComplete(keys[1..], form, k);
      var rest := FilledFields(keys[1..], form);
      var j :| 0 <= j < |rest| && rest[j] == Field(k, ToString(Lookup(form, k)));
      if IsFilled(Lookup(form, keys[0])) {
        assert r[j + 1] == rest[j];
      } else {
        assert r[j] == rest[j];
      }
    }
  }

  /** A field whose value is '' or null is not sent at all. */
  lemma EmptyFieldsNotSent(keys: seq<string>, form: Object, k: string)
    requires !IsFilled(Lookup(form, k))
    ensures forall i :: 0 <= i < |FilledFields(keys, form)| ==> FilledFields(keys, form)[i].name != k
  {
    FilledFieldsSound(keys, form);
  }

  /** With every value filled, the edit screen's filtering keeps all the fields, as the add screen sends them. */
  lemma {:induction false} FilledFieldsOfFullForm(keys: seq<string>, form: Object)
    requires forall i :: 0 <= i < |keys| ==> IsFilled(Lookup(form, keys[i]))
    ensures FilledFields(keys, form) == AllFields(keys, form)
    decreases |keys|
  {
    if keys != [] {
      FilledFieldsOfFullForm(keys[1..], form);
      assert AllFields(keys, form) == [Field(keys[0], ToString(Lookup(form, keys[0])))] + AllFields(keys[1..], form);
    }
  }

  /** An optional file (`profile`, `pedigree`, `pedigreeImg`), appended only when one is chosen. */
  function OptionalUpload(name: string, file: Option<File>): (r: FormData)
    ensures file.None? ==> r == []
    ensures file.Some? ==> r == [Upload(name, file.value)]
  {
    if file.Some? then [Upload(name, file.value)] else []
  }

  /** `showFiles.forEach(f => formData.append('show', f))`: one `show` entry per file, in order. */
  function ShowUploads(files: seq<File>): (r: FormData)
    ensures |r| == |files|
    ensures forall i :: 0 <= i < |files| ==> r[i] == Upload("show", files[i])
  {
    seq(|files|, i requires 0 <= i < |files| => Upload("show", files[i]))
  }

  /** The files of a dog form: profile, pedigree, pedigree image, then every show picture. */
  function FileEntries(profile: Option<File>, pedigree: Option<File>, pedigreeImg: Option<File>, show: seq<File>): (r: FormData)
    ensures |r| == |OptionalUpload("profile", profile)| + |OptionalUpload("pedigree", pedigree)|
      + |OptionalUpload("pedigreeImg", pedigreeImg)| + |show|
    ensures forall i :: 0 <= i < |r| ==> r[i].Upload?
  {
    OptionalUpload("profile", profile) + OptionalUpload("pedigree", pedigree)
      + OptionalUpload("pedigreeImg", pedigreeImg) + ShowUploads(show)
  }

  /** The preview list of the show pictures: one object URL per file, index by index. */
  predicate PreviewsMatch(files: seq<File>, previews: seq<string>) {
    |previews| == |files| && forall i :: 0 <= i < |files| ==> previews[i] == files[i].objectUrl
  }

  function Previews(files: seq<File>): (previews: seq<string>)
    ensures PreviewsMatch(files, previews)
  {
    seq(|files|, i requires 0 <= i < |files| => files[i].objectUrl)
  }

  /** Removing the same index from the files and their previews keeps them matched. */
  lemma SpliceKeepsPreviews(files: seq<File>, previews: seq<string>, index: int)
    requires PreviewsMatch(files, previews)
    ensures PreviewsMatch(SpliceOne(files, index), SpliceOne(previews, index))
  {
    var f, p := SpliceOne(files, index), SpliceOne(previews, index);
    var start := if index < 0 then Max(|files| + index, 0) else Min(index, |files|);
    if start < |files| {
      assert f == files[..start] + files[start + 1..];
      assert p == previews[..start] + previews[start + 1..];
      forall i | 0 <= i < |f| ensures p[i] == f[i].objectUrl {
        if i < start {
          assert f[i] == files[i] && p[i] == previews[i];
        } else {
          assert f[i] == files[i + 1] && p[i] == previews[i + 1];
        }
      }
    }
  }

  /** The preview of an optional file: its object URL when there is one. */
  function PreviewOf(file: Option<File>): Option<string> {
    if file.Some? then Some(file.value.objectUrl) else None
  }

  /** The files picked on a dog screen (`profileFile`, …) and their previews (`profileFilePreview`, …). */
  datatype PickedFiles = PickedFiles(
    profileFile: Option<File>, pedigreeFile: Option<File>, pedigreeImgFile: Option<File>, showFiles: seq<File>,
    profileFilePreview: Option<string>, pedigreeImgFilePreview: Option<string>, showFilesPreview: seq<string>)

  const NothingPicked := PickedFiles(None, None, None, [], None, None, [])

  /** Every picked picture is shown by its own object URL; the PDF has no preview. */
  predicate PreviewsShown(p: PickedFiles) {
    p.profileFilePreview == PreviewOf(p.profileFile)
    && p.pedigreeImgFilePreview == PreviewOf(p.pedigreeImgFile)
    && PreviewsMatch(p.showFiles, p.showFilesPreview)
  }

  /**
   * `removeFile(type, index)`, the same on both screens: drops a picked file
   * and its preview; for show pictures, the one at `index` (JavaScript
   * `splice` rules) or all of them when no index is given. An unknown type
   * changes nothing.
   */
  function RemovePicked(p: PickedFiles, kind: string, index: Option<int>): (q: PickedFiles)
    ensures kind == "profile" ==> q == p.(profileFile := None, profileFilePreview := None)
    ensures kind == "pedigree" ==> q == p.(pedigreeFile := None)
    ensures kind == "pedigreeImg" ==> q == p.(pedigreeImgFile := None, pedigreeImgFilePreview := None)
    ensures kind == "show" && index.Some? ==>
      q == p.(showFiles := SpliceOne(p.showFiles, index.value), showFilesPreview := SpliceOne(p.showFilesPreview, index.value))
    ensures kind == "show" && index.None? ==> q == p.(showFiles := [], showFilesPreview := [])
    ensures kind !in {"profile", "pedigree", "pedigreeImg", "show"} ==> q == p
  {
    if kind == "profile" then p.(profileFile := None, profileFilePreview := None)
    else if kind == "pedigree" then p.(pedigreeFile := None)
    else if kind == "pedigreeImg" then p.(pedigreeImgFile := None, pedigreeImgFilePreview := None)
    else if kind == "show" then
      if index.Some? then
        p.(showFiles := SpliceOne(p.showFiles, index.value), showFilesPreview := SpliceOne(p.showFilesPreview, index.value))
      else p.(showFiles := [], showFilesPreview := [])
    else p
  }

  /** Removing a picked file leaves every picture still picked shown by its own preview. */
  lemma RemovePickedKeepsPreviews(p: PickedFiles, kind: string, index: Option<int>)
    requires PreviewsShown(p)
    ensures PreviewsShown(RemovePicked(p, kind, index))
  {
    if kind == "show" && index.Some? {
      SpliceKeepsPreviews(p.showFiles, p.showFilesPreview, index.value);
    }
  }

  /** The multipart request a dog screen sends. */
  datatype MultipartRequest = MultipartRequest(verb: Verb, path: string, data: FormData)
}
