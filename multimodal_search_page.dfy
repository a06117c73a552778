/** The attribute-based ("multimodal") similarity search page: the face
    attribute record, the label table, the type code of the request, the
    result list (cleared on type or gender change, replaced by a search,
    filtered by a card's delete) and the ranked cards. */
module MultimodalSearchPage {
  import opened Js
  import opened Http
  import opened Posts
  import FaceSimilarityCard

  /** The message shown when the similarity request fails. */
  const SearchErrorMessage: string := "유사도 정보를 불러오는 중 오류가 발생했습니다."

  /** English attribute value -> Korean label shown in the selects. */
  const AttributeLabels: map<string, string> := map[
    "narrow" := "좁다", "normal" := "보통", "wide" := "넓다",
    "deep_set" := "오목눈", "narrowed" := "실눈", "protruding" := "돌출눈",
    "slanted" := "째진눈", "sleepy" := "졸린눈",
    "large" := "크다", "small" := "작다",
    "down" := "내려감", "up" := "올라감",
    "double_eyelid" := "쌍꺼풀", "in_eyelid" := "속쌍꺼풀", "left_asym" := "왼쪽 비대칭",
    "monolid" := "외꺼풀 (무쌍꺼풀)", "right_asym" := "오른쪽 비대칭",
    "high" := "높다", "low" := "낮다",
    "long" := "길다", "short" := "짧다",
    "angular" := "각진형", "arrow" := "화살코", "blunt" := "뭉툭형", "bulbous" := "주먹코",
    "concave" := "버선코", "crooked" := "휜코", "hump" := "매부리코", "round" := "둥근형",
    "upturned" := "들창코",
    "equal" := "위아래가 같다", "lower_big" := "아랫입술이 크다", "upper_big" := "윗입술이 크다",
    "M_shape" := "M모양", "O_shape" := "O모양", "V_shape" := "V모양", "flat" := "ㅡ모양 (평평한 모양)",
    "drooping" := "처짐",
    "thick" := "두껍다", "thin" := "얇다"]

  /** `attributeLabels[value] || value` */
  function GetLabel(value: string): (shown: string)
    ensures value in AttributeLabels && AttributeLabels[value] != "" ==> shown == AttributeLabels[value]
    ensures value !in AttributeLabels ==> shown == value
    ensures shown != "" || value == ""
  {
    if value in AttributeLabels && AttributeLabels[value] != "" then AttributeLabels[value] else value
  }

  /** The initial `faceAttributes`: sixteen attributes with their default values. */
  const InitialAttributes: map<string, string> := map[
    "eyes_distance" := "normal", "eyes_shape" := "protruding", "eyes_size" := "normal",
    "eyes_slant" := "normal", "eyes_type" := "in_eyelid",
    "nose_height" := "normal", "nose_length" := "normal", "nose_nostrils" := "normal",
    "nose_size" := "normal", "nose_top" := "angular",
    "mouth_ratio" := "lower_big", "mouth_shape" := "M_shape", "mouth_side" := "normal",
    "mouth_size" := "normal", "mouth_thick" := "normal", "mouth_type" := "protruding"]

  /** The type code of the request: 2 for missing persons, 1 for anything else. */
  function TypeCode(activeType: string): (code: int)
    ensures code == 1 || code == 2
    ensures code == 2 <==> activeType == MissingType
  {
    if activeType == MissingType then 2 else 1
  }

  /** The body of `multimodal_similarity`. */
  datatype RequestBody = RequestBody(typeCode: int, attributes: map<string, string>, gender: Num)

  /** The response body; `similarPosts` may be missing. */
  datatype SimilarityResponse = SimilarityResponse(similarPosts: Option<seq<SimilarItem>>)

  /** What a result card is given. */
  datatype CardView = CardView(
    rank: nat, key: Key, originalImage: Option<string>, genImage: Option<string>,
    name: Option<string>, genderLabel: string, birth: Option<string>,
    place: Option<string>, date: Option<string>,
    score: Score, showGenImage: bool, userId: Option<string>)

  /** `gender_id === 1 ? '남' : '여'`: anything but 1, absent included, is shown as female. */
  function GenderLabel(genderId: Option<int>): (shown: string)
    ensures shown == "남" <==> genderId == Some(1)
    ensures shown == "남" || shown == "여"
  {
    if genderId == Some(1) then "남" else "여"
  }

  /** `similarityLists.map((item, index) => <FaceSimilarityCard .../>)` */
  function Cards(items: seq<SimilarItem>, activeType: string): (cards: seq<CardView>)
    ensures |cards| == |items|
    ensures forall i :: 0 <= i < |items| ==>
      && cards[i].rank == i + 1
      && cards[i].key == CardKey(items[i].post, i)
      && cards[i].showGenImage == (activeType == FamilyType)
      && cards[i].originalImage == ImageUrl(items[i].post.face_img_origin)
      && cards[i].genImage == ImageUrl(items[i].post.face_img_aging)
      && cards[i].score == items[i].score
      && cards[i].userId == items[i].post.user_id
  {
    seq(|items|, i requires 0 <= i < |items| =>
      var p := items[i].post;
      CardView(i + 1, CardKey(p, i), ImageUrl(p.face_img_origin), ImageUrl(p.face_img_aging),
               p.missing_name, GenderLabel(p.gender_id), p.missing_birth, p.missing_place,
               p.missing_date, items[i].score, activeType == FamilyType, p.user_id))
  }

  /** Deleting from card `i` removes that card's post and every other post
      with the same id, and keeps every post with another id; a card without
      an id deletes nothing. */
  lemma DeletingCardRemovesIt(items: seq<SimilarItem>, activeType: string, i: nat, x: SimilarItem)
    requires i < |items|
    ensures var key := Cards(items, activeType)[i].key;
      && (key.TextKey? ==> items[i] !in RemoveKey(items, key))
      && (key.IndexKey? ==> RemoveKey(items, key) == items)
      && (x in items && PostId(x.post) != PostId(items[i].post) ==> x in RemoveKey(items, key))
  {
    var key := Cards(items, activeType)[i].key;
    RemoveKeyMembers(items, key, items[i]);
    RemoveKeyMembers(items, key, x);
    if key.IndexKey? {
      IndexKeyRemovesNothing(items, key.i);
    }
  }

  /** The aging image beside a result card: never on the `'가족'` tab (the
      card is told `showGenImage`), and on the other tab exactly when the
      post has an aging image (`getImageUrl` is truthy for it). */
  lemma CardsShowAgingImage(items: seq<SimilarItem>, activeType: string, i: nat)
    requires i < |items|
    ensures var c := Cards(items, activeType)[i];
      && (activeType == FamilyType ==> !FaceSimilarityCard.ShowsAgingImage(c.showGenImage, c.genImage))
      && (activeType != FamilyType ==>
            (FaceSimilarityCard.ShowsAgingImage(c.showGenImage, c.genImage) <==> Truthy(items[i].post.face_img_aging)))
  {
    var url := ImageUrl(items[i].post.face_img_aging);
    if url.Some? {
      assert |url.value| >= |ImageHost| > 0;
    }
  }

  /** What the result area shows. */
  datatype Display = LoadingText | ErrorText(message: string) | ResultCards(cards: seq<CardView>) | SearchPrompt

  class Page {
    var activeType: string
    var gender: Num
    var similarityLists: seq<SimilarItem>
    var loading: bool
    var error: Option<string>
    var faceAttributes: map<string, string>

    constructor ()
      ensures activeType == MissingType && gender == Int(1) && similarityLists == []
      ensures !loading && error == None && faceAttributes == InitialAttributes
    {
      activeType := MissingType;
      gender := Int(1);
      similarityLists := [];
      loading := false;
      error := None;
      faceAttributes := InitialAttributes;
    }

    /** `handleTypeClick`: a new type empties the results. */
    method HandleTypeClick(typ: string)
      modifies this`activeType, this`similarityLists
      ensures activeType == typ && similarityLists == []
    {
      activeType := typ;
      similarityLists := [];
    }

    /** `handleGenderChange`: the gender is `parseInt` of the option value, and the results are emptied. */
    method HandleGenderChange(value: string)
      modifies this`gender, this`similarityLists
      ensures gender == ParseInt(value) && similarityLists == []
    {
      gender := ParseInt(value);
      similarityLists := [];
    }

    /** `handleAttributeChange`: only the given attribute changes. */
    method HandleAttributeChange(key: string, value: string)
      modifies this`faceAttributes
      ensures faceAttributes.Keys == old(faceAttributes).Keys + {key}
      ensures faceAttributes[key] == value
      ensures forall k :: k in old(faceAttributes) && k != key ==> faceAttributes[k] == old(faceAttributes)[k]
    {
      faceAttributes := faceAttributes[key := value];
    }

    /** `handleSearch`: sends the type code with the attributes and gender
        unchanged; the list becomes the returned `similarPosts`, or empty
        when they are missing or the request fails, which also sets the
        error. Loading is over afterwards either way. */
    method HandleSearch(outcome: Response<SimilarityResponse>) returns (body: RequestBody)
      modifies this`loading, this`error, this`similarityLists
      ensures body == RequestBody(TypeCode(activeType), faceAttributes, gender)
      ensures !loading
      ensures outcome.Ok? && outcome.data.similarPosts.Some? ==>
        similarityLists == outcome.data.similarPosts.value && error == None
      ensures outcome.Ok? && outcome.data.similarPosts.None? ==> similarityLists == [] && error == None
      ensures outcome.Error? ==> similarityLists == [] && error == Some(SearchErrorMessage)
    {
      loading := true;
      error := None;
      var typeCode := if activeType == MissingType then 2 else 1;
      body := RequestBody(typeCode, faceAttributes, gender);
      match outcome {
        case Ok(data) =>
          if data.similarPosts.Some? {
            similarityLists := data.similarPosts.value;
          } else {
            similarityLists := [];
          }
        case Error(_) =>
          error := Some(SearchErrorMessage);
          similarityLists := [];
      }
      loading := false;
    }

    /** A card's `onDelete(deletedId)`: the list keeps, in order, the items whose id differs. */
    method OnDelete(deletedId: Key)
      modifies this`similarityLists
      ensures similarityLists == RemoveKey(old(similarityLists), deletedId)
    {
      similarityLists := RemoveKey(similarityLists, deletedId);
    }

    /** The result area: loading text, then the error, then the cards, then the prompt. */
    function Display(): (d: Display)
      reads this
      ensures loading ==> d == LoadingText
      ensures !loading && Truthy(error) ==> d == ErrorText(error.value)
      ensures !loading && !Truthy(error) && |similarityLists| > 0 ==> d == ResultCards(Cards(similarityLists, activeType))
      ensures !loading && !Truthy(error) && |similarityLists| == 0 ==> d == SearchPrompt
      ensures d.ResultCards? ==> |d.cards| == |similarityLists| > 0
    {
      if loading then LoadingText
      else if error.Some? && error.value != "" then ErrorText(error.value)
      else if |similarityLists| > 0 then ResultCards(Cards(similarityLists, activeType))
      else SearchPrompt
    }
  }
}
