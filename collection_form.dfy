/** The collector's add/edit form: its fields filled from the collection
    being edited, the photo picker that keeps the accepted files and their
    preview URLs side by side, and the data a submit hands to the page. */
module CollectionForm {
  import opened Wrappers
  import opened Models
  import opened Text
  import opened Seqs

  // ---------------------------------------------------------------- photos

  /** A picked `File`: its MIME type and its size in bytes. */
  datatype PhotoFile = PhotoFile(name: string, mime: string, size: nat)

  const ValidTypes: seq<string> := ["image/jpeg", "image/jpg", "image/png", "image/heic", "image/heif"]
  const MaxSize: nat := 10 * 1024 * 1024
  const InvalidTypeMessage := "Invalid file type. Please upload JPG, PNG, or HEIC files only."
  const TooLargeMessage := "File size exceeds 10MB limit."

  /** `validateFile`: the type is checked before the size, and a file of
      exactly 10 MB is still accepted. */
  function ValidateFile(f: PhotoFile): (r: Option<string>)
    ensures r.None? <==> f.mime in ValidTypes && f.size <= 10485760
    ensures f.mime !in ValidTypes ==> r == Some(InvalidTypeMessage)
    ensures f.mime in ValidTypes && f.size > 10485760 ==> r == Some(TooLargeMessage)
  {
    if f.mime !in ValidTypes then Some(InvalidTypeMessage)
    else if f.size > MaxSize then Some(TooLargeMessage)
    else None
  }

  predicate Acceptable(f: PhotoFile) {
    ValidateFile(f).None?
  }

  /** The preview URL `URL.createObjectURL` gives each file, in order. */
  function Previews(files: seq<PhotoFile>, url: PhotoFile -> string): (r: seq<string>)
    ensures |r| == |files| && forall k :: 0 <= k < |files| ==> r[k] == url(files[k])
  {
    seq(|files|, k requires 0 <= k < |files| => url(files[k]))
  }

  lemma PreviewsAppend(files: seq<PhotoFile>, f: PhotoFile, url: PhotoFile -> string)
    ensures Previews(files + [f], url) == Previews(files, url) + [url(f)]
  {
  }

  /** One more file of the input is kept exactly when it is acceptable. */
  lemma FilterOneMore(input: seq<PhotoFile>, i: nat)
    requires i < |input|
    ensures Filter(input[..i + 1], Acceptable) ==
            Filter(input[..i], Acceptable) + (if Acceptable(input[i]) then [input[i]] else [])
  {
    assert input[..i + 1] == input[..i] + [input[i]];
    FilterAppend(input[..i], [input[i]], Acceptable);
  }

  /** The picked files and their preview URLs. */
  datatype Photos = Photos(files: seq<PhotoFile>, urls: seq<string>)

  /** Every preview URL belongs to the file at the same place. */
  predicate Paired(p: Photos, url: PhotoFile -> string) {
    |p.files| == |p.urls| && forall k :: 0 <= k < |p.files| ==> p.urls[k] == url(p.files[k])
  }

  /** `handleFileSelect(files)`: the acceptable files, in the order given,
      after those already picked, each with its preview. */
  function SelectStep(p: Photos, input: seq<PhotoFile>, url: PhotoFile -> string): Photos {
    var accepted := Filter(input, Acceptable);
    Photos(p.files + accepted, p.urls + Previews(accepted, url))
  }

  /** `removeFile(index)`: the same index leaves both lists. */
  function RemoveStep(p: Photos, index: int): Photos {
    Photos(RemoveAt(p.files, index), RemoveAt(p.urls, index))
  }

  /** A selection keeps what was picked, adds exactly the acceptable files
      in their input order, and refuses the others. */
  lemma SelectAddsAcceptable(p: Photos, input: seq<PhotoFile>, url: PhotoFile -> string)
    ensures var after := SelectStep(p, input, url);
      && after.files[..|p.files|] == p.files
      && IsSubsequence(after.files[|p.files|..], input)
      && forall f :: f in after.files[|p.files|..] <==> f in input && Acceptable(f)
  {
    var after := SelectStep(p, input, url);
    assert after.files[..|p.files|] == p.files;
    assert after.files[|p.files|..] == Filter(input, Acceptable);
    FilterIsSubsequence(input, Acceptable);
  }

  /** Selecting keeps every preview next to its own file. */
  lemma SelectKeepsPairs(p: Photos, input: seq<PhotoFile>, url: PhotoFile -> string)
    requires Paired(p, url)
    ensures Paired(SelectStep(p, input, url), url)
  {
    var accepted := Filter(input, Acceptable);
    var after := SelectStep(p, input, url);
    forall k | 0 <= k < |after.files| ensures after.urls[k] == url(after.files[k]) {
      if k >= |p.files| {
        assert after.files[k] == accepted[k - |p.files|];
      }
    }
  }

  /** Removing keeps every remaining preview next to its own file. */
  lemma RemoveKeepsPairs(p: Photos, index: int, url: PhotoFile -> string)
    requires Paired(p, url)
    ensures Paired(RemoveStep(p, index), url)
  {
    var after := RemoveStep(p, index);
    if 0 <= index < |p.files| {
      forall k | 0 <= k < |after.files| ensures after.urls[k] == url(after.files[k]) {
        if k < index {
          assert after.files[k] == p.files[k] && after.urls[k] == p.urls[k];
        } else {
          assert after.files[k] == p.files[k + 1] && after.urls[k] == p.urls[k + 1];
        }
      }
    }
  }

  /** Removing the file that was just picked puts the photos back as they were. */
  lemma RemoveUndoesSelect(p: Photos, f: PhotoFile, url: PhotoFile -> string)
    requires Acceptable(f) && |p.files| == |p.urls|
    ensures RemoveStep(SelectStep(p, [f], url), |p.files|) == p
  {
    assert Filter([f], Acceptable) == [f];
    var after := SelectStep(p, [f], url);
    assert after.files[..|p.files|] == p.files;
    assert after.urls[..|p.urls|] == p.urls;
  }

  /** A file the picker refuses is never added. */
  lemma RefusedNeverPicked(p: Photos, input: seq<PhotoFile>, url: PhotoFile -> string, f: PhotoFile)
    requires !Acceptable(f) && f !in p.files
    ensures f !in SelectStep(p, input, url).files
  {
  }

  // ------------------------------------------------------------ the fields

  /** `formData`: every field as the inputs hold it. */
  datatype FormFields = FormFields(species: string, quantity: string, unit: string, motherTree: string,
                                   additionalInfo: string, latitude: string, longitude: string)

  const DefaultUnit := "KG"

  /** `a || b` on strings. */
  function OrElse(a: string, b: string): (r: string)
    ensures r != "" || b == ""
    ensures a != "" ==> r == a
  {
    if a != "" then a else b
  }

  /** `value?.toString() || ""`; `show` stands for `Number.prototype.toString`. */
  function ShowOptional(v: Option<real>, show: real -> string): string {
    if v.Some? then OrElse(show(v.value), "") else ""
  }

  /** The initial `formData`: the edited collection's values as text, or
      empty fields with the unit `KG`. */
  function InitialFields(collection: Option<SeedCollection>, show: real -> string): (f: FormFields)
    ensures collection.None? ==> f == FormFields("", "", DefaultUnit, "", "", "", "")
    ensures collection.Some? ==> f.unit == OrElse(ToUpper(collection.value.unit), DefaultUnit)
  {
    match collection
    case None => FormFields("", "", DefaultUnit, "", "", "", "")
    case Some(c) =>
      FormFields(c.species.GetOr(""), OrElse(show(c.quantity), ""), OrElse(ToUpper(c.unit), DefaultUnit),
                 c.motherTree, c.additionalInfo.GetOr(""),
                 ShowOptional(c.latitude, show), ShowOptional(c.longitude, show))
  }

  /** What the browser asks before it lets the form submit: a whole
      quantity and coordinates that are empty or numbers. The species, unit
      and mother tree pickers keep their value in hidden inputs, which the
      browser does not check. */
  predicate Submittable(f: FormFields) {
    && ParseNumber(f.quantity).Some? && Whole(ParseNumber(f.quantity).value)
    && (f.latitude == "" || ParseNumber(f.latitude).Some?)
    && (f.longitude == "" || ParseNumber(f.longitude).Some?)
  }

  /** `formData.latitude ? parseFloat(formData.latitude) : undefined` */
  function Coordinate(text: string): (r: Option<real>)
    ensures text == "" ==> r.None?
    ensures text != "" && ParseNumber(text).Some? ==> r == ParseNumber(text)
  {
    if text == "" then None else ParseNumber(text)
  }

  /** `handleSubmit`: the object handed to `onSubmit`, the unit lower-cased.
      It has no `photos`. */
  function SubmittedData(f: FormFields): (d: CollectionData)
    requires Submittable(f)
    ensures ParseNumber(f.quantity) == Some(d.quantity)
    ensures d.unit == ToLower(f.unit) && d.motherTree == f.motherTree
    ensures d.species == Some(f.species) && d.additionalInfo == Some(f.additionalInfo)
    ensures d.latitude == Coordinate(f.latitude) && d.longitude == Coordinate(f.longitude)
    ensures d.photos.None?
  {
    CollectionData(f.motherTree, ToLower(f.unit), ParseNumber(f.quantity).value, Some(f.species),
                   Some(f.additionalInfo), Coordinate(f.latitude), Coordinate(f.longitude), None)
  }

  /** The submitted object as an update: every key but `photos`, so an edit
      leaves the collection's photos alone. */
  function Submitted(d: CollectionData): (u: CollectionUpdates)
    ensures u.photos.None? && u.quantity == Some(d.quantity)
  {
    AsUpdates(d).(photos := None)
  }

  /** An edit replaces every field of the collection but its id and photos. */
  lemma EditKeepsPhotos(c: SeedCollection, d: CollectionData)
    ensures var r := MergeCollection(c, Submitted(d));
      && r.id == c.id && r.photos == c.photos
      && Data(r) == d.(photos := c.photos)
  {
  }

  // --------------------------------------------------------------- the unit

  /** None of the units holds a capital letter. */
  lemma UnitsHaveNoCapitals(u: string)
    requires u in CollectionUnits
    ensures NoCapitals(u) && u != ""
  {
    assert u == "count" || u == "kg" || u == "g";
  }

  /** A unit of the interface shows upper-cased and comes back as it was. */
  lemma UnitRoundTrip(c: SeedCollection, show: real -> string)
    requires c.unit in CollectionUnits
    ensures ToLower(InitialFields(Some(c), show).unit) == c.unit
  {
    UnitsHaveNoCapitals(c.unit);
    LowerOfUpper(c.unit);
  }

  /** A new collection is submitted in kilograms. */
  lemma NewFormInKilograms(show: real -> string)
    ensures ToLower(InitialFields(None, show).unit) == "kg"
  {
  }

  /** A coordinate shown as text that reads back is submitted as it was. */
  lemma CoordinateRoundTrip(v: Option<real>, show: real -> string)
    requires v.Some? ==> ParseNumber(show(v.value)) == v
    ensures Coordinate(ShowOptional(v, show)) == v
  {
    if v.Some? {
      assert show(v.value) != "";
    }
  }

  /** Opening the form on a collection and submitting it untouched gives the
      collection back, photos included, as long as every number's text reads
      back as the number and the collection has what the form needs. */
  lemma EditRoundTrip(c: SeedCollection, show: real -> string)
    requires c.unit in CollectionUnits
    requires c.species.Some? && c.additionalInfo.Some?
    requires ParseNumber(show(c.quantity)) == Some(c.quantity) && Whole(c.quantity)
    requires c.latitude.Some? ==> ParseNumber(show(c.latitude.value)) == c.latitude
    requires c.longitude.Some? ==> ParseNumber(show(c.longitude.value)) == c.longitude
    ensures Submittable(InitialFields(Some(c), show))
    ensures MergeCollection(c, Submitted(SubmittedData(InitialFields(Some(c), show)))) == c
  {
    var f := InitialFields(Some(c), show);
    assert show(c.quantity) != "";
    assert f.quantity == show(c.quantity);
    CoordinateRoundTrip(c.latitude, show);
    CoordinateRoundTrip(c.longitude, show);
    UnitRoundTrip(c, show);
  }

  // ------------------------------------------------------------------ class

  class Form {
    var fields: FormFields
    var files: seq<PhotoFile>
    var previewUrls: seq<string>

    constructor (collection: Option<SeedCollection>, show: real -> string)
      ensures fields == InitialFields(collection, show) && files == [] && previewUrls == []
    {
      fields := InitialFields(collection, show);
      files := [];
      previewUrls := [];
    }

    function State(): Photos
      reads this
    {
      Photos(files, previewUrls)
    }

    /** `handleFileSelect`: walk the input, keeping each acceptable file and
        its preview, then append both. */
    method SelectFiles(input: seq<PhotoFile>, url: PhotoFile -> string)
      modifies this`files, this`previewUrls
      ensures State() == SelectStep(old(State()), input, url)
    {
      if |input| == 0 {
        assert files + Filter(input, Acceptable) == files;
        assert previewUrls + Previews(Filter(input, Acceptable), url) == previewUrls;
        return;
      }
      var newFiles: seq<PhotoFile> := [];
      var newUrls: seq<string> := [];
      var i := 0;
      while i < |input|
        invariant 0 <= i <= |input|
        invariant newFiles == Filter(input[..i], Acceptable)
        invariant newUrls == Previews(newFiles, url)
        invariant files == old(files) && previewUrls == old(previewUrls)
      {
        FilterOneMore(input, i);
        PreviewsAppend(newFiles, input[i], url);
        if ValidateFile(input[i]).None? {
          newFiles := newFiles + [input[i]];
          newUrls := newUrls + [url(input[i])];
        }
        i := i + 1;
      }
      assert input[..i] == input;
      files := files + newFiles;
      previewUrls := previewUrls + newUrls;
    }

    /** `removeFile` */
    method RemoveFile(index: int)
      modifies this`files, this`previewUrls
      ensures State() == RemoveStep(old(State()), index)
    {
      files := RemoveAt(files, index);
      previewUrls := RemoveAt(previewUrls, index);
    }

    /** `handleSubmit`, once the browser let the form through: the data
        handed to `onSubmit`, or nothing when the browser holds it back. */
    method Submit() returns (data: Option<CollectionData>)
      ensures Submittable(fields) <==> data.Some?
      ensures data.Some? ==> data.value == SubmittedData(fields)
    {
      if !Submittable(fields) {
        return None;
      }
      return Some(SubmittedData(fields));
    }
  }
}
