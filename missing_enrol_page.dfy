/** The enrol/edit form a missing person (or someone on their behalf) fills
    in: required-field guards and the multipart payloads of an edit and of
    a registration with the routing that follows. */
module MissingEnrolPage {
  import opened Js
  import opened Http
  import opened Posts
  import opened Forms

  /** The page state the payloads are built from. */
  datatype Draft = Draft(imageFile: Option<File>, situation: string, evidence: string, place: string)

  /** Name, birth date and missing date must be filled in. */
  predicate RequiredFilled(input: FormInput) {
    input.name != "" && input.birth != "" && input.missingDate != ""
  }

  /** The parts of an edit, in append order; no age is sent. */
  function EditEntries(editId: string, input: FormInput, d: Draft): seq<Entry> {
    [Entry(MissingId, Text(editId)), Entry(Type, Text("2")), Entry(MissingName, Text(input.name))]
    + (if d.imageFile.Some? then [Entry(ImgOrigin, FilePart(d.imageFile.value))] else [])
    + EditDetails(input, d)
  }

  function EditDetails(input: FormInput, d: Draft): seq<Entry> {
    [Entry(Gender, Text(input.gender)), Entry(MissingBirth, Text(input.birth)),
     Entry(MissingDate, Text(input.missingDate)), Entry(MissingSituation, Text(d.situation)),
     Entry(MissingExtraEvidence, Text(d.evidence)), Entry(MissingPlace, Text(d.place))]
  }

  /** The parts of a registration, in append order; the age is always 0. */
  function RegisterEntries(input: FormInput, file: File, d: Draft): seq<Entry> {
    [Entry(Type, Text("2")), Entry(Name, Text(input.name)), Entry(ImgOrigin, FilePart(file))]
    + RegisterDetails(input, d)
  }

  function RegisterDetails(input: FormInput, d: Draft): seq<Entry> {
    [Entry(Gender, Text(input.gender)), Entry(Birth, Text(input.birth)),
     Entry(MissingDateCamel, Text(input.missingDate)), Entry(MissingSituation, Text(d.situation)),
     Entry(MissingExtraEvidence, Text(d.evidence)), Entry(MissingPlace, Text(d.place)),
     Entry(PhotoAge, Text("0"))]
  }

  /** The keys of an edit, in append order: the photo only when a new one was chosen. */
  function EditKeys(withOrigin: bool): seq<Field> {
    [MissingId, Type, MissingName]
    + (if withOrigin then [ImgOrigin] else [])
    + [Gender, MissingBirth, MissingDate, MissingSituation, MissingExtraEvidence, MissingPlace]
  }

  /** The keys of a registration, in append order. */
  const RegisterKeys: seq<Field> :=
    [Type, Name, ImgOrigin, Gender, Birth, MissingDateCamel,
     MissingSituation, MissingExtraEvidence, MissingPlace, PhotoAge]

  /** An edit uses the `missing_` field names, sends the photo only when a
      new one was chosen and sends no age. */
  lemma EditEntriesKeys(editId: string, input: FormInput, d: Draft)
    ensures Keys(EditEntries(editId, input, d)) == EditKeys(d.imageFile.Some?)
    ensures ImgOrigin in Keys(EditEntries(editId, input, d)) <==> d.imageFile.Some?
    ensures PhotoAge !in Keys(EditEntries(editId, input, d))
  {
    var ks := Keys(EditEntries(editId, input, d));
    assert ks == EditKeys(d.imageFile.Some?);
  }

  /** An edit names the post by `missing_id` and always sends type 2. */
  lemma EditEntriesValues(editId: string, input: FormInput, d: Draft)
    ensures Get(EditEntries(editId, input, d), MissingId) == Some(Text(editId))
    ensures Get(EditEntries(editId, input, d), Type) == Some(Text("2"))
  {
    var e := EditEntries(editId, input, d);
    GetFirst(e, 0);
    GetFirst(e, 1);
  }

  /** A registration always carries the photo, under the short field names. */
  lemma RegisterEntriesKeys(input: FormInput, file: File, d: Draft)
    ensures Keys(RegisterEntries(input, file, d)) == RegisterKeys
  {
  }

  /** A registration sends type 2, the chosen photo and an age of 0. */
  lemma RegisterEntriesValues(input: FormInput, file: File, d: Draft)
    ensures Get(RegisterEntries(input, file, d), Type) == Some(Text("2"))
    ensures Get(RegisterEntries(input, file, d), ImgOrigin) == Some(FilePart(file))
    ensures Get(RegisterEntries(input, file, d), PhotoAge) == Some(Text("0"))
  {
    var e := RegisterEntries(input, file, d);
    GetFirst(e, 0);
    assert Keys(e)[..2] == [Type, Name];
    GetFirst(e, 2);
    assert Keys(e)[..9] == [Type, Name, ImgOrigin, Gender, Birth, MissingDateCamel,
                            MissingSituation, MissingExtraEvidence, MissingPlace];
    GetFirst(e, 9);
  }

  /** The edit branch's `formData.append` calls. */
  method BuildEditForm(editId: string, input: FormInput, d: Draft) returns (entries: seq<Entry>)
    ensures entries == EditEntries(editId, input, d)
  {
    var form := new FormData();
    form.Append(MissingId, Text(editId));
    form.Append(Type, Text("2"));
    form.Append(MissingName, Text(input.name));
    if d.imageFile.Some? {
      form.Append(ImgOrigin, FilePart(d.imageFile.value));
    }
    ghost var before := form.entries;
    form.Append(Gender, Text(input.gender));
    form.Append(MissingBirth, Text(input.birth));
    form.Append(MissingDate, Text(input.missingDate));
    form.Append(MissingSituation, Text(d.situation));
    form.Append(MissingExtraEvidence, Text(d.evidence));
    form.Append(MissingPlace, Text(d.place));
    assert form.entries == before + EditDetails(input, d);
    entries := form.entries;
  }

  /** The registration branch's `formData.append` calls. */
  method BuildRegisterForm(input: FormInput, file: File, d: Draft) returns (entries: seq<Entry>)
    ensures entries == RegisterEntries(input, file, d)
  {
    var form := new FormData();
    form.Append(Type, Text("2"));
    form.Append(Name, Text(input.name));
    form.Append(ImgOrigin, FilePart(file));
    ghost var before := form.entries;
    form.Append(Gender, Text(input.gender));
    form.Append(Birth, Text(input.birth));
    form.Append(MissingDateCamel, Text(input.missingDate));
    form.Append(MissingSituation, Text(d.situation));
    form.Append(MissingExtraEvidence, Text(d.evidence));
    form.Append(MissingPlace, Text(d.place));
    form.Append(PhotoAge, Text("0"));
    assert form.entries == before + RegisterDetails(input, d);
    entries := form.entries;
  }

  /** The post being edited, as `detail_missing_search` returns it. */
  datatype PostDetail = PostDetail(
    missing_situation: Option<string>, missing_extra_evidence: Option<string>,
    missing_place: Option<string>, face_img_origin: Option<string>)

  class Page {
    const editId: Option<string>
    var imageSrc: string
    var imageFile: Option<File>
    var missingSituation: string
    var missingExtraEvidence: string
    var missingPlace: string
    var loading: bool

    constructor (editId: Option<string>)
      ensures this.editId == editId && loading == IsEditMode(editId)
      ensures imageSrc == "" && imageFile == None
      ensures missingSituation == "" && missingExtraEvidence == "" && missingPlace == ""
    {
      this.editId := editId;
      imageSrc := "";
      imageFile := None;
      missingSituation := "";
      missingExtraEvidence := "";
      missingPlace := "";
      loading := IsEditMode(editId);
    }

    function Current(): Draft
      reads this
    {
      Draft(imageFile, missingSituation, missingExtraEvidence, missingPlace)
    }

    /** The edit-mode load: the text fields take the stored values (absent
        becomes empty) and the preview shows the stored photo if there is
        one; a failure keeps the form. Loading ends either way. */
    method LoadForEdit(outcome: Response<PostDetail>) returns (requested: bool)
      modifies this`loading, this`missingSituation, this`missingExtraEvidence, this`missingPlace, this`imageSrc
      ensures requested <==> IsEditMode(editId)
      ensures !requested ==> loading == old(loading)
      ensures requested ==> !loading
      ensures !(requested && outcome.Ok?) ==>
        (missingSituation == old(missingSituation) && missingExtraEvidence == old(missingExtraEvidence)
         && missingPlace == old(missingPlace) && imageSrc == old(imageSrc))
      ensures requested && outcome.Ok? ==> missingSituation == outcome.data.missing_situation.GetOr("")
      ensures requested && outcome.Ok? ==> missingExtraEvidence == outcome.data.missing_extra_evidence.GetOr("")
      ensures requested && outcome.Ok? ==> missingPlace == outcome.data.missing_place.GetOr("")
      ensures requested && outcome.Ok? ==>
        imageSrc == (if Truthy(outcome.data.face_img_origin) then ImageHost + outcome.data.face_img_origin.value
                     else old(imageSrc))
    {
      requested := false;
      if IsEditMode(editId) {
        requested := true;
        loading := true;
        if outcome.Ok? {
          var data := outcome.data;
          missingSituation := data.missing_situation.GetOr("");
          missingExtraEvidence := data.missing_extra_evidence.GetOr("");
          missingPlace := data.missing_place.GetOr("");
          if Truthy(data.face_img_origin) {
            imageSrc := ImageHost + data.face_img_origin.value;
          }
        }
        loading := false;
      }
    }

    /** `handleImageChange`: a chosen file and its data URL preview, or, when the input is cleared, neither. */
    method HandleImageChange(file: Option<File>, dataUrl: string)
      modifies this`imageFile, this`imageSrc
      ensures file.Some? ==> imageFile == file && imageSrc == dataUrl
      ensures file.None? ==> imageFile == None && imageSrc == ""
    {
      if file.Some? {
        imageFile := file;
        imageSrc := dataUrl;
      } else {
        imageFile := None;
        imageSrc := "";
      }
    }

    /** `handleFormSubmit`: blocked unless name, birth date and missing date
        are filled and, for a registration, a photo was chosen. An edit goes
        to `update_post` and returns to My Page only on success; a
        registration goes to `upload` and moves on to the missing-person
        list only on success. */
    method HandleFormSubmit(input: FormInput, outcome: Response<()>) returns (submission: Option<Submission>, route: Option<string>)
      ensures submission.Some? <==> RequiredFilled(input) && (IsEditMode(editId) || imageFile.Some?)
      ensures route.Some? <==> submission.Some? && outcome.Ok?
      ensures submission.Some? && IsEditMode(editId) ==>
        submission.value == Submission("/api/posts/update_post", EditEntries(editId.value, input, Current()))
      ensures submission.Some? && !IsEditMode(editId) ==>
        submission.value == Submission("/api/posts/upload", RegisterEntries(input, imageFile.value, Current()))
      ensures route.Some? ==> route.value == if IsEditMode(editId) then "/mypage" else "/missing"
    {
      submission, route := None, None;
      if input.name == "" || input.birth == "" || input.missingDate == "" {
        return;
      }
      var draft := Current();
      if IsEditMode(editId) {
        var entries := BuildEditForm(editId.value, input, draft);
        submission := Some(Submission("/api/posts/update_post", entries));
        if outcome.Ok? {
          route := Some("/mypage");
        }
      } else {
        if draft.imageFile.None? {
          return;
        }
        var entries := BuildRegisterForm(input, draft.imageFile.value, draft);
        submission := Some(Submission("/api/posts/upload", entries));
        if outcome.Ok? {
          route := Some("/missing");
        }
      }
    }
  }
}
