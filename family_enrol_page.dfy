/** The family's enrol/edit form for a missing person: required-field
    guards, the aged-image generation request, and the multipart payloads
    of an edit and of a registration with the routing that follows. */
module FamilyEnrolPage {
  import opened Js
  import opened Http
  import opened Posts
  import opened Forms

  /** The page state the payloads are built from. */
  datatype Draft = Draft(
    imageFile: Option<File>, resultImageSrc: string, situation: string,
    evidence: string, place: string, photoAge: string)

  /** Name, birth date, missing date and the age in the photo must all be filled in. */
  predicate RequiredFilled(input: FormInput, photoAge: string) {
    input.name != "" && input.birth != "" && input.missingDate != "" && photoAge != ""
  }

  /** A registration also needs the chosen photo and a generated aged image. */
  predicate RegisterReady(d: Draft) {
    d.imageFile.Some? && d.resultImageSrc != ""
  }

  /** An image made in this session by `createObjectURL`, as opposed to the stored one shown while editing. */
  predicate IsBlobUrl(src: string) {
    src != "" && StartsWith(src, "blob:")
  }

  /** `parseInt(photoAge) || 0` as the text the form carries: NaN and 0 both become "0". */
  function PhotoAgeText(photoAge: string): (t: string)
    ensures ParseInt(photoAge).NaN? ==> t == "0"
  {
    match ParseInt(photoAge)
    case Int(i) => if i != 0 then IntToString(i) else "0"
    case NaN => "0"
  }

  /** The server reads back the parsed age, or 0 where there was no number. */
  lemma PhotoAgeTextParses(photoAge: string)
    ensures ParseInt(PhotoAgeText(photoAge)) == if ParseInt(photoAge).Int? then ParseInt(photoAge) else Int(0)
  {
    match ParseInt(photoAge)
    case Int(i) => ParseIntOfIntToString(i); ParseIntOfIntToString(0); assert IntToString(0) == "0";
    case NaN => ParseIntOfIntToString(0); assert IntToString(0) == "0";
  }

  const AgedImageName: string := "aged_image.png"

  /** The parts of an edit, in append order: the post and its name, the
      images that changed, then the details. */
  function EditEntries(editId: string, input: FormInput, d: Draft): seq<Entry> {
    EditHead(editId, input) + EditImages(d) + Details(MissingBirth, MissingDate, input, d)
  }

  function EditHead(editId: string, input: FormInput): seq<Entry> {
    [Entry(MissingId, Text(editId)), Entry(Type, Text("1")), Entry(MissingName, Text(input.name))]
  }

  function EditImages(d: Draft): seq<Entry> {
    (if d.imageFile.Some? then [Entry(ImgOrigin, FilePart(d.imageFile.value))] else [])
    + (if IsBlobUrl(d.resultImageSrc) then [Entry(ImgAging, Blob(d.resultImageSrc, AgedImageName))] else [])
  }

  /** The details both payloads end with; only the names of the birth and
      missing-date fields differ between an edit and a registration. */
  function Details(birthKey: Field, dateKey: Field, input: FormInput, d: Draft): seq<Entry> {
    [Entry(Gender, Text(input.gender)), Entry(birthKey, Text(input.birth)),
     Entry(dateKey, Text(input.missingDate)), Entry(MissingSituation, Text(d.situation)),
     Entry(MissingExtraEvidence, Text(d.evidence)), Entry(MissingPlace, Text(d.place)),
     Entry(PhotoAge, Text(PhotoAgeText(d.photoAge)))]
  }

  /** The parts of a registration, in append order. */
  function RegisterEntries(input: FormInput, file: File, d: Draft): seq<Entry> {
    [Entry(Type, Text("1")), Entry(Name, Text(input.name)), Entry(ImgOrigin, FilePart(file)),
     Entry(ImgAging, Blob(d.resultImageSrc, AgedImageName))]
    + Details(Birth, MissingDateCamel, input, d)
  }

  /** The keys of a registration, in append order. */
  const RegisterKeys: seq<Field> :=
    [Type, Name, ImgOrigin, ImgAging, Gender, Birth, MissingDateCamel,
     MissingSituation, MissingExtraEvidence, MissingPlace, PhotoAge]

  /** The keys of an edit, in append order: the photo and the aged image only when they are sent. */
  function EditKeys(withOrigin: bool, withAging: bool): seq<Field> {
    [MissingId, Type, MissingName]
    + (if withOrigin then [ImgOrigin] else [])
    + (if withAging then [ImgAging] else [])
    + [Gender, MissingBirth, MissingDate, MissingSituation,
       MissingExtraEvidence, MissingPlace, PhotoAge]
  }

  /** An edit's fields, in their fixed order. */
  lemma EditEntriesKeys(editId: string, input: FormInput, d: Draft)
    ensures Keys(EditEntries(editId, input, d)) == EditKeys(d.imageFile.Some?, IsBlobUrl(d.resultImageSrc))
  {
    var head, images := EditHead(editId, input), EditImages(d);
    var details := Details(MissingBirth, MissingDate, input, d);
    KeysAppend(head + images, details);
    KeysAppend(head, images);
    assert Keys(head) == [MissingId, Type, MissingName];
    assert Keys(details) == [Gender, MissingBirth, MissingDate, MissingSituation,
                             MissingExtraEvidence, MissingPlace, PhotoAge];
    assert Keys(images) == (if d.imageFile.Some? then [ImgOrigin] else [])
                           + (if IsBlobUrl(d.resultImageSrc) then [ImgAging] else []) by {
      var origin := if d.imageFile.Some? then [Entry(ImgOrigin, FilePart(d.imageFile.value))] else [];
      var aging := if IsBlobUrl(d.resultImageSrc) then [Entry(ImgAging, Blob(d.resultImageSrc, AgedImageName))] else [];
      KeysAppend(origin, aging);
    }
  }

  /** An edit sends the new photo only when one was chosen and the aged
      image only when it was generated in this session. */
  lemma EditSendsChangedImagesOnly(editId: string, input: FormInput, d: Draft)
    ensures ImgOrigin in Keys(EditEntries(editId, input, d)) <==> d.imageFile.Some?
    ensures ImgAging in Keys(EditEntries(editId, input, d)) <==> IsBlobUrl(d.resultImageSrc)
  {
    EditEntriesKeys(editId, input, d);
    var origin := if d.imageFile.Some? then [ImgOrigin] else [];
    var aging := if IsBlobUrl(d.resultImageSrc) then [ImgAging] else [];
    var tail := [Gender, MissingBirth, MissingDate, MissingSituation, MissingExtraEvidence, MissingPlace, PhotoAge];
    assert EditKeys(d.imageFile.Some?, IsBlobUrl(d.resultImageSrc)) == [MissingId, Type, MissingName] + origin + aging + tail;
  }

  /** An edit names the post by `missing_id`, always sends type 1 and sends the parsed age last. */
  lemma EditEntriesValues(editId: string, input: FormInput, d: Draft)
    ensures Get(EditEntries(editId, input, d), MissingId) == Some(Text(editId))
    ensures Get(EditEntries(editId, input, d), Type) == Some(Text("1"))
    ensures Get(EditEntries(editId, input, d), PhotoAge) == Some(Text(PhotoAgeText(d.photoAge)))
  {
    var e := EditEntries(editId, input, d);
    var ks := EditKeys(d.imageFile.Some?, IsBlobUrl(d.resultImageSrc));
    EditEntriesKeys(editId, input, d);
    GetFirst(e, 0);
    GetFirst(e, 1);
    assert Keys(e)[..|e| - 1] == ks[..|ks| - 1];
    assert PhotoAge !in ks[..|ks| - 1];
    GetFirst(e, |e| - 1);
  }

  /** A registration always carries the photo and the aged image, under the short field names. */
  lemma RegisterEntriesKeys(input: FormInput, file: File, d: Draft)
    ensures Keys(RegisterEntries(input, file, d)) == RegisterKeys
  {
  }

  /** A registration sends type 1, the chosen photo, the aged image and the parsed age. */
  lemma RegisterEntriesValues(input: FormInput, file: File, d: Draft)
    ensures Get(RegisterEntries(input, file, d), Type) == Some(Text("1"))
    ensures Get(RegisterEntries(input, file, d), ImgOrigin) == Some(FilePart(file))
    ensures Get(RegisterEntries(input, file, d), ImgAging) == Some(Blob(d.resultImageSrc, AgedImageName))
    ensures Get(RegisterEntries(input, file, d), PhotoAge) == Some(Text(PhotoAgeText(d.photoAge)))
  {
    var e := RegisterEntries(input, file, d);
    GetFirst(e, 0);
    assert Keys(e)[..2] == [Type, Name];
    GetFirst(e, 2);
    assert Keys(e)[..3] == [Type, Name, ImgOrigin];
    GetFirst(e, 3);
    assert Keys(e)[..10] == [Type, Name, ImgOrigin, ImgAging, Gender, Birth, MissingDateCamel,
                             MissingSituation, MissingExtraEvidence, MissingPlace];
    GetFirst(e, 10);
  }

  /** The appends of `gender` through `photo_age`, common to both branches. */
  method AppendDetails(form: FormData, birthKey: Field, dateKey: Field, input: FormInput, d: Draft)
    modifies form`entries
    ensures form.entries == old(form.entries) + Details(birthKey, dateKey, input, d)
  {
    form.Append(Gender, Text(input.gender));
    form.Append(birthKey, Text(input.birth));
    form.Append(dateKey, Text(input.missingDate));
    form.Append(MissingSituation, Text(d.situation));
    form.Append(MissingExtraEvidence, Text(d.evidence));
    form.Append(MissingPlace, Text(d.place));
    form.Append(PhotoAge, Text(PhotoAgeText(d.photoAge)));
  }

  /** The edit branch's `formData.append` calls. */
  method BuildEditForm(editId: string, input: FormInput, d: Draft) returns (entries: seq<Entry>)
    ensures entries == EditEntries(editId, input, d)
  {
    var form := new FormData();
    form.Append(MissingId, Text(editId));
    form.Append(Type, Text("1"));
    form.Append(MissingName, Text(input.name));
    assert form.entries == EditHead(editId, input);
    if d.imageFile.Some? {
      form.Append(ImgOrigin, FilePart(d.imageFile.value));
    }
    if d.resultImageSrc != "" && StartsWith(d.resultImageSrc, "blob:") {
      form.Append(ImgAging, Blob(d.resultImageSrc, AgedImageName));
    }
    assert form.entries == EditHead(editId, input) + EditImages(d);
    AppendDetails(form, MissingBirth, MissingDate, input, d);
    entries := form.entries;
  }

  /** The registration branch's `formData.append` calls; the aged image is
      appended behind a check the registration guard has already made. */
  method BuildRegisterForm(input: FormInput, file: File, d: Draft) returns (entries: seq<Entry>)
    requires d.resultImageSrc != ""
    ensures entries == RegisterEntries(input, file, d)
  {
    var form := new FormData();
    form.Append(Type, Text("1"));
    form.Append(Name, Text(input.name));
    form.Append(ImgOrigin, FilePart(file));
    if d.resultImageSrc != "" {
      form.Append(ImgAging, Blob(d.resultImageSrc, AgedImageName));
    }
    AppendDetails(form, Birth, MissingDateCamel, input, d);
    entries := form.entries;
  }

  /** The post being edited, as `detail_missing_search` returns it. */
  datatype PostDetail = PostDetail(
    missing_situation: Option<string>, missing_extra_evidence: Option<string>,
    missing_place: Option<string>, photo_age: Option<int>,
    face_img_origin: Option<string>, face_img_aging: Option<string>)

  class Page {
    const editId: Option<string>
    var imageSrc: string
    var imageFile: Option<File>
    var resultImageSrc: string
    var missingSituation: string
    var missingExtraEvidence: string
    var missingPlace: string
    var photoAge: string
    var loading: bool

    constructor (editId: Option<string>)
      ensures this.editId == editId && loading == IsEditMode(editId)
      ensures imageSrc == "" && imageFile == None && resultImageSrc == ""
      ensures missingSituation == "" && missingExtraEvidence == "" && missingPlace == "" && photoAge == ""
    {
      this.editId := editId;
      imageSrc := "";
      imageFile := None;
      resultImageSrc := "";
      missingSituation := "";
      missingExtraEvidence := "";
      missingPlace := "";
      photoAge := "";
      loading := IsEditMode(editId);
    }

    function Current(): Draft
      reads this
    {
      Draft(imageFile, resultImageSrc, missingSituation, missingExtraEvidence, missingPlace, photoAge)
    }

    /** The edit-mode load: the text fields take the stored values (absent
        becomes empty, an age of 0 too), the previews show the stored images
        where there are any; a failure keeps the form. Loading ends either way. */
    method LoadForEdit(outcome: Response<PostDetail>) returns (requested: bool)
      modifies this`loading, this`missingSituation, this`missingExtraEvidence, this`missingPlace,
               this`photoAge, this`imageSrc, this`resultImageSrc
      ensures requested <==> IsEditMode(editId)
      ensures !requested ==> loading == old(loading)
      ensures requested ==> !loading
      ensures !(requested && outcome.Ok?) ==>
        (missingSituation == old(missingSituation) && missingExtraEvidence == old(missingExtraEvidence)
         && missingPlace == old(missingPlace) && photoAge == old(photoAge)
         && imageSrc == old(imageSrc) && resultImageSrc == old(resultImageSrc))
      ensures requested && outcome.Ok? ==> missingSituation == outcome.data.missing_situation.GetOr("")
      ensures requested && outcome.Ok? ==> missingExtraEvidence == outcome.data.missing_extra_evidence.GetOr("")
      ensures requested && outcome.Ok? ==> missingPlace == outcome.data.missing_place.GetOr("")
      ensures requested && outcome.Ok? ==>
        photoAge == (if outcome.data.photo_age.Some? && outcome.data.photo_age.value != 0
                     then IntToString(outcome.data.photo_age.value) else "")
      ensures requested && outcome.Ok? ==>
        imageSrc == (if Truthy(outcome.data.face_img_origin) then ImageHost + outcome.data.face_img_origin.value
                     else old(imageSrc))
      ensures requested && outcome.Ok? ==>
        resultImageSrc == (if Truthy(outcome.data.face_img_aging) then ImageHost + outcome.data.face_img_aging.value
                           else old(resultImageSrc))
    {
      requested := false;
      if IsEditMode(editId) {
        requested := true;
        loading := true;
        if outcome.Ok? {
          var data := outcome.data;
          missingSituation := data.missing_situation.GetOr("");
          missingExtraEvidence := data.missing_extra_evidence.GetOr("");
          missingPlace := data.missing_place.GetOr("");
          photoAge := if data.photo_age.Some? && data.photo_age.value != 0 then IntToString(data.photo_age.value) else "";
          if Truthy(data.face_img_origin) {
            imageSrc := ImageHost + data.face_img_origin.value;
          }
          if Truthy(data.face_img_aging) {
            resultImageSrc := ImageHost + data.face_img_aging.value;
          }
        }
        loading := false;
      }
    }

    /** `handleImageChange`: a chosen file and its data URL preview, or, when the input is cleared, neither. */
    method HandleImageChange(file: Option<File>, dataUrl: string)
      modifies this`imageFile, this`imageSrc
      ensures file.Some? ==> imageFile == file && imageSrc == dataUrl
      ensures file.None? ==> imageFile == None && imageSrc == ""
    {
      if file.Some? {
        imageFile := file;
        imageSrc := dataUrl;
      } else {
        imageFile := None;
        imageSrc := "";
      }
    }

    /** The "delete image" button. */
    method ClearResultImage()
      modifies this`resultImageSrc
      ensures resultImageSrc == ""
    {
      resultImageSrc := "";
    }

    /** `handleImageGeneration`: nothing is sent without a photo, a birth date
        and the age in the photo; the request carries those three as they
        are. A success shows the returned image under a fresh `blob:` URL,
        which an edit then uploads; a failure keeps the previous image. */
    method HandleImageGeneration(birth: string, outcome: Response<string>) returns (request: Option<seq<Entry>>)
      modifies this`resultImageSrc
      ensures request.Some? <==> imageFile.Some? && birth != "" && photoAge != ""
      ensures request.Some? ==>
        request.value == [Entry(Img, FilePart(imageFile.value)), Entry(MissingBirth, Text(birth)),
                          Entry(PhotoAge, Text(photoAge))]
      ensures request.Some? && outcome.Ok? ==> resultImageSrc == "blob:" + outcome.data && IsBlobUrl(resultImageSrc)
      ensures !(request.Some? && outcome.Ok?) ==> resultImageSrc == old(resultImageSrc)
    {
      request := None;
      if imageFile.None? || birth == "" || photoAge == "" {
        return;
      }
      var form := new FormData();
      form.Append(Img, FilePart(imageFile.value));
      form.Append(MissingBirth, Text(birth));
      form.Append(PhotoAge, Text(photoAge));
      request := Some(form.entries);
      if outcome.Ok? {
        resultImageSrc := "blob:" + outcome.data;
        assert StartsWith(resultImageSrc, "blob:") by {
          assert resultImageSrc[..5] == "blob:";
        }
      }
    }

    /** `handleFormSubmit`: blocked unless the required fields are filled
        and, for a registration, the photo and the aged image exist. An edit
        goes to `update_post` and returns to My Page only on success; a
        registration goes to `upload` and moves on to the family list
        whatever the outcome. */
    method HandleFormSubmit(input: FormInput, outcome: Response<()>) returns (submission: Option<Submission>, route: Option<string>)
      ensures submission.Some? <==> RequiredFilled(input, photoAge) && (IsEditMode(editId) || RegisterReady(Current()))
      ensures submission.None? ==> route.None?
      ensures submission.Some? && IsEditMode(editId) ==>
        submission.value == Submission("/api/posts/update_post", EditEntries(editId.value, input, Current()))
      ensures submission.Some? && IsEditMode(editId) ==> (route.Some? <==> outcome.Ok?)
      ensures submission.Some? && IsEditMode(editId) && route.Some? ==> route.value == "/mypage"
      ensures submission.Some? && !IsEditMode(editId) ==>
        submission.value == Submission("/api/posts/upload", RegisterEntries(input, imageFile.value, Current()))
      ensures submission.Some? && !IsEditMode(editId) ==> route == Some("/family")
    {
      submission, route := None, None;
      if input.name == "" || input.birth == "" || input.missingDate == "" || photoAge == "" {
        return;
      }
      var draft := Current();
      if IsEditMode(editId) {
        var entries := BuildEditForm(editId.value, input, draft);
        submission := Some(Submission("/api/posts/update_post", entries));
        if outcome.Ok? {
          route := Some("/mypage");
        }
      } else {
        if draft.imageFile.None? || draft.resultImageSrc == "" {
          return;
        }
        var entries := BuildRegisterForm(input, draft.imageFile.value, draft);
        submission := Some(Submission("/api/posts/upload", entries));
        route := Some("/family");
      }
    }
  }
}
