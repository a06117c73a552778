/** The post records the API returns and the rules shared by the pages that
    show them: the `mp_id || fp_id` identifier, the card key, image URLs and
    the id-based removal of a post from a locally held result list. */
module Posts {
  import opened Js

  /** A missing-person post (`mp_id`) or a family post (`fp_id`), as the API
      returns it; every property may be absent. */
  datatype Post = Post(
    mp_id: Option<string>,
    fp_id: Option<string>,
    user_id: Option<string>,
    missing_name: Option<string>,
    gender_id: Option<int>,
    missing_birth: Option<string>,
    missing_place: Option<string>,
    missing_date: Option<string>,
    face_img_origin: Option<string>,
    face_img_aging: Option<string>)

  /** A similarity score: a number or whatever else the API put there. */
  datatype Score = Number(x: real) | Other(text: string)

  /** One entry of a `similarPosts` list. */
  datatype SimilarItem = SimilarItem(post: Post, score: Score)

  /** A card key / `postId`: the post's id string, or the list index when
      the post has no truthy id. */
  datatype Key = TextKey(s: string) | IndexKey(i: nat)

  /** `post.mp_id || post.fp_id` */
  function PostId(p: Post): (r: Option<string>)
    ensures Truthy(p.mp_id) ==> r == p.mp_id
    ensures !Truthy(p.mp_id) ==> r == p.fp_id
  {
    Or(p.mp_id, p.fp_id)
  }

  /** `item.post.mp_id || item.post.fp_id || index`, the key and `postId` of a card. */
  function CardKey(p: Post, index: nat): (k: Key)
    ensures k.TextKey? <==> Truthy(p.mp_id) || Truthy(p.fp_id)
    ensures k.TextKey? ==> Some(k.s) == PostId(p) && k.s != ""
    ensures k.IndexKey? ==> k.i == index
  {
    if Truthy(PostId(p)) then TextKey(PostId(p).value) else IndexKey(index)
  }

  /** `(mp_id || fp_id) === deletedId`: strict equality never holds between
      a string id and a numeric index key. */
  predicate Matches(p: Post, deleted: Key) {
    deleted.TextKey? && PostId(p) == Some(deleted.s)
  }

  /** `list.filter(item => (item.post.mp_id || item.post.fp_id) !== deletedId)` */
  function RemoveKey(items: seq<SimilarItem>, deleted: Key): (r: seq<SimilarItem>)
    ensures |r| <= |items|
    ensures forall i :: 0 <= i < |r| ==> !Matches(r[i].post, deleted)
  {
    if items == [] then []
    else (if Matches(items[0].post, deleted) then [] else [items[0]]) + RemoveKey(items[1..], deleted)
  }

  /** An item survives the removal exactly when it was in the list and does not match. */
  lemma {:induction false} RemoveKeyMembers(items: seq<SimilarItem>, deleted: Key, x: SimilarItem)
    ensures x in RemoveKey(items, deleted) <==> x in items && !Matches(x.post, deleted)
  {
    if items != [] {
      RemoveKeyMembers(items[1..], deleted, x);
      assert items == [items[0]] + items[1..];
    }
  }

  /** Removal works piecewise, so the kept items stay in their original order. */
  lemma {:induction false} RemoveKeyAppend(a: seq<SimilarItem>, b: seq<SimilarItem>, deleted: Key)
    ensures RemoveKey(a + b, deleted) == RemoveKey(a, deleted) + RemoveKey(b, deleted)
  {
    if a == [] {
      assert a + b == b;
    } else {
      assert (a + b)[0] == a[0];
      assert (a + b)[1..] == a[1..] + b;
      RemoveKeyAppend(a[1..], b, deleted);
    }
  }

  /** A list in which nothing matches is kept exactly as it is. */
  lemma {:induction false} RemoveKeyNoMatch(items: seq<SimilarItem>, deleted: Key)
    requires forall i :: 0 <= i < |items| ==> !Matches(items[i].post, deleted)
    ensures RemoveKey(items, deleted) == items
  {
    if items != [] {
      RemoveKeyNoMatch(items[1..], deleted);
    }
  }

  /** Deleting the id of exactly one item removes that item and nothing else. */
  lemma RemoveKeyUniqueMatch(items: seq<SimilarItem>, deleted: Key, j: nat)
    requires j < |items| && Matches(items[j].post, deleted)
    requires forall i :: 0 <= i < |items| && i != j ==> !Matches(items[i].post, deleted)
    ensures RemoveKey(items, deleted) == items[..j] + items[j + 1..]
  {
    var before, after := items[..j], items[j + 1..];
    var middle := [items[j]];
    assert items == before + (middle + after);
    RemoveKeyAppend(before, middle + after, deleted);
    RemoveKeyAppend(middle, after, deleted);
    assert RemoveKey(middle, deleted) == [] by {
      assert middle[1..] == [];
    }
    RemoveKeyNoMatch(before, deleted);
    RemoveKeyNoMatch(after, deleted);
  }

  /** A numeric `postId` (a card without a truthy id) removes nothing. */
  lemma IndexKeyRemovesNothing(items: seq<SimilarItem>, index: nat)
    ensures RemoveKey(items, IndexKey(index)) == items
  {
    RemoveKeyNoMatch(items, IndexKey(index));
  }

  /** The two post types of the similarity pages' type buttons. */
  const MissingType: string := "실종자"
  const FamilyType: string := "가족"

  /** The image server every relative path is resolved against. */
  const ImageHost: string := "http://202.31.202.8/images/"

  /** `getImageUrl` of the listing and similarity pages. */
  function ImageUrl(path: Option<string>): (r: Option<string>)
    ensures r.None? <==> !Truthy(path)
    ensures r.Some? ==> StartsWith(r.value, ImageHost) && r.value[|ImageHost|..] == path.value
  {
    if !Truthy(path) then None else Some(ImageHost + path.value)
  }
}
