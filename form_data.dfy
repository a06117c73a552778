/** The browser `FormData` the enrol pages fill: an ordered list of named
    parts grown by `append`. Numbers are appended as their decimal text, a
    blob appended with a file name becomes a named file part. */
module Forms {
  import opened Js

  /** A file picked in the file input, known only by its name and size. */
  datatype File = File(name: string, size: nat)

  /** One value of a form part. `Blob` is the aged image fetched back from its
      object URL and sent under `filename`. */
  datatype Part = Text(s: string) | FilePart(file: File) | Blob(url: string, filename: string)

  /** The field names the enrol pages append; `Wire` is the name sent. */
  datatype Field =
    | MissingId | Type | MissingName | Name | ImgOrigin | ImgAging | Img | Gender
    | MissingBirth | Birth | MissingDate | MissingDateCamel | MissingSituation
    | MissingExtraEvidence | MissingPlace | PhotoAge
  {
    function Wire(): (n: string)
      ensures n != ""
    {
      match this
      case MissingId => "missing_id"
      case Type => "type"
      case MissingName => "missing_name"
      case Name => "name"
      case ImgOrigin => "img_origin"
      case ImgAging => "img_aging"
      case Img => "img"
      case Gender => "gender"
      case MissingBirth => "missing_birth"
      case Birth => "birth"
      case MissingDate => "missing_date"
      case MissingDateCamel => "missingDate"
      case MissingSituation => "missing_situation"
      case MissingExtraEvidence => "missing_extra_evidence"
      case MissingPlace => "missing_place"
      case PhotoAge => "photo_age"
    }
  }

  /** The field sent under a given name, if any. */
  function FieldNamed(name: string): Option<Field> {
    if name == "missing_id" then Some(MissingId)
    else if name == "type" then Some(Type)
    else if name == "missing_name" then Some(MissingName)
    else if name == "name" then Some(Name)
    else if name == "img_origin" then Some(ImgOrigin)
    else if name == "img_aging" then Some(ImgAging)
    else if name == "img" then Some(Img)
    else if name == "gender" then Some(Gender)
    else if name == "missing_birth" then Some(MissingBirth)
    else if name == "birth" then Some(Birth)
    else if name == "missing_date" then Some(MissingDate)
    else if name == "missingDate" then Some(MissingDateCamel)
    else if name == "missing_situation" then Some(MissingSituation)
    else if name == "missing_extra_evidence" then Some(MissingExtraEvidence)
    else if name == "missing_place" then Some(MissingPlace)
    else if name == "photo_age" then Some(PhotoAge)
    else None
  }

  /** The name a field is sent under identifies it. */
  lemma FieldNamedWire(f: Field)
    ensures FieldNamed(f.Wire()) == Some(f)
  {
  }

  /** Distinct fields go out under distinct names, so a form is determined by its fields. */
  lemma WireInjective(a: Field, b: Field)
    ensures a.Wire() == b.Wire() ==> a == b
  {
    FieldNamedWire(a);
    FieldNamedWire(b);
  }

  datatype Entry = Entry(key: Field, part: Part)

  /** `!!searchParams.get('edit')`: an enrol page edits a post exactly when
      the `edit` query parameter is present and not empty. */
  predicate IsEditMode(editId: Option<string>) {
    Truthy(editId)
  }

  /** The values an enrol page's `handleFormSubmit` reads from its inputs. */
  datatype FormInput = FormInput(name: string, gender: string, birth: string, missingDate: string)

  /** A multipart request: its endpoint and its parts in order. */
  datatype Submission = Submission(path: string, entries: seq<Entry>)

  /** The keys in the order they were appended. */
  function Keys(entries: seq<Entry>): seq<Field> {
    seq(|entries|, i requires 0 <= i < |entries| => entries[i].key)
  }

  /** `formData.get(key)`: the first part appended under `key`. */
  function Get(entries: seq<Entry>, key: Field): Option<Part> {
    if entries == [] then None
    else if entries[0].key == key then Some(entries[0].part)
    else Get(entries[1..], key)
  }

  /** The keys of a concatenation are the keys of its halves. */
  lemma KeysAppend(a: seq<Entry>, b: seq<Entry>)
    ensures Keys(a + b) == Keys(a) + Keys(b)
  {
  }

  /** `get` finds nothing exactly when no part was appended under the key. */
  lemma {:induction false} GetNone(entries: seq<Entry>, key: Field)
    ensures Get(entries, key).None? <==> key !in Keys(entries)
  {
    if entries != [] {
      GetNone(entries[1..], key);
      assert Keys(entries) == [entries[0].key] + Keys(entries[1..]);
    }
  }

  /** A lookup in a concatenation finds the first half's part if it has the key, else the second's. */
  lemma {:induction false} GetAppend(a: seq<Entry>, b: seq<Entry>, key: Field)
    ensures Get(a + b, key) == if key in Keys(a) then Get(a, key) else Get(b, key)
  {
    if a == [] {
      assert a + b == b;
    } else {
      assert (a + b)[0] == a[0];
      assert (a + b)[1..] == a[1..] + b;
      GetAppend(a[1..], b, key);
      assert Keys(a) == [a[0].key] + Keys(a[1..]);
      assert Keys(a[1..] + b)[..|a| - 1] == Keys(a[1..]);
    }
  }

  /** The part at position `i` is what `get` returns when no earlier part has its key. */
  lemma {:induction false} GetFirst(entries: seq<Entry>, i: nat)
    requires i < |entries| && entries[i].key !in Keys(entries)[..i]
    ensures Get(entries, entries[i].key) == Some(entries[i].part)
  {
    if i > 0 {
      assert Keys(entries)[0] in Keys(entries)[..i];
      assert Keys(entries[1..])[..i - 1] == Keys(entries)[1..i];
      GetFirst(entries[1..], i - 1);
    }
  }

  class FormData {
    var entries: seq<Entry>

    constructor ()
      ensures entries == []
    {
      entries := [];
    }

    /** `formData.append(key, value)` adds a part at the end and keeps the earlier ones. */
    method Append(key: Field, part: Part)
      modifies this`entries
      ensures entries == old(entries) + [Entry(key, part)]
    {
      entries := entries + [Entry(key, part)];
    }
  }
}
