/** The image-similarity ranking page: the user's own posts of both types,
    the selected post, and the ranking fetched for it. */
module FaceSimilarityPage {
  import opened Js
  import opened Http
  import opened Posts

  /** The `register_missing_search` response; either list may be missing. */
  datatype PostsData = PostsData(missing_posts: Option<seq<Post>>, family_posts: Option<seq<Post>>)

  /** `selectedUser`: `null` before anything is chosen, `undefined` after a
      pick that matched no post (both falsy), or a post. */
  datatype UserChoice = Null | Undefined | Chosen(post: Post)

  /** `list && list.length > 0` */
  predicate HasPosts(list: Option<seq<Post>>) {
    list.Some? && |list.value| > 0
  }

  /** The id a pick is matched against: `mp_id` on the missing list, `fp_id` on the family list. */
  function IdOf(p: Post, byMissingId: bool): Option<string> {
    if byMissingId then p.mp_id else p.fp_id
  }

  /** `list[i]` is the first post of `list` whose id equals `id`. */
  predicate FirstMatchAt(list: seq<Post>, byMissingId: bool, id: string, i: int) {
    && 0 <= i < |list|
    && IdOf(list[i], byMissingId) == Some(id)
    && forall j :: 0 <= j < i ==> IdOf(list[j], byMissingId) != Some(id)
  }

  /** `list.find(item => item.mp_id === id)` (or `fp_id` for family posts):
      the first post whose id equals `id`, else `undefined`. */
  function FindById(list: seq<Post>, byMissingId: bool, id: string): (u: UserChoice)
    ensures u.Null? == false
    ensures u.Chosen? ==> exists i :: FirstMatchAt(list, byMissingId, id, i) && list[i] == u.post
    ensures u.Undefined? <==> forall p :: p in list ==> IdOf(p, byMissingId) != Some(id)
  {
    if list == [] then Undefined
    else if IdOf(list[0], byMissingId) == Some(id) then
      assert FirstMatchAt(list, byMissingId, id, 0);
      Chosen(list[0])
    else
      var u := FindById(list[1..], byMissingId, id);
      assert u.Chosen? ==> exists i :: FirstMatchAt(list, byMissingId, id, i) && list[i] == u.post by {
        if u.Chosen? {
          var k :| FirstMatchAt(list[1..], byMissingId, id, k) && list[1..][k] == u.post;
          forall j | 0 <= j < k + 1 ensures IdOf(list[j], byMissingId) != Some(id) {
            if j > 0 { assert list[j] == list[1..][j - 1]; }
          }
          assert FirstMatchAt(list, byMissingId, id, k + 1);
        }
      }
      u
  }

  /** What the ranking area shows. */
  datatype ListDisplay = Ranked(keys: seq<Key>) | NoRanking | SelectPrompt

  class Page {
    var activeType: string
    var data: PostsData
    var selectedUser: UserChoice
    var similarityLists: seq<SimilarItem>

    constructor ()
      ensures activeType == MissingType && data == PostsData(Some([]), Some([]))
      ensures selectedUser == Null && similarityLists == []
    {
      activeType := MissingType;
      data := PostsData(Some([]), Some([]));
      selectedUser := Null;
      similarityLists := [];
    }

    /** `userList`: the posts of the active type. */
    function UserList(): (list: Option<seq<Post>>)
      reads this
      ensures activeType == MissingType ==> list == data.missing_posts
      ensures activeType != MissingType ==> list == data.family_posts
    {
      if activeType == MissingType then data.missing_posts else data.family_posts
    }

    /** The user select is disabled exactly when the active list is missing or empty. */
    function UserSelectDisabled(): (disabled: bool)
      reads this
      ensures disabled <==> !HasPosts(UserList())
    {
      UserList().None? || |UserList().value| == 0
    }

    /** The selected post, if any, belongs to the active list. */
    predicate SelectionInList()
      reads this
    {
      selectedUser.Chosen? ==> UserList().Some? && selectedUser.post in UserList().value
    }

    /** The initial load: a failure changes nothing; a success stores the
        lists and selects the first missing post, else the first family
        post (switching to the family type), else leaves the selection. */
    method LoadInitial(outcome: Response<PostsData>)
      modifies this`data, this`selectedUser, this`activeType
      ensures outcome.Error? ==> data == old(data) && selectedUser == old(selectedUser) && activeType == old(activeType)
      ensures outcome.Ok? ==> data == outcome.data
      ensures outcome.Ok? && HasPosts(outcome.data.missing_posts) ==>
        selectedUser == Chosen(outcome.data.missing_posts.value[0]) && activeType == old(activeType)
      ensures outcome.Ok? && !HasPosts(outcome.data.missing_posts) && HasPosts(outcome.data.family_posts) ==>
        selectedUser == Chosen(outcome.data.family_posts.value[0]) && activeType == FamilyType
      ensures outcome.Ok? && !HasPosts(outcome.data.missing_posts) && !HasPosts(outcome.data.family_posts) ==>
        selectedUser == old(selectedUser) && activeType == old(activeType)
      ensures (outcome.Ok? && old(activeType) == MissingType
               && (HasPosts(outcome.data.missing_posts) || HasPosts(outcome.data.family_posts))) ==> SelectionInList()
    {
      if outcome.Ok? {
        var apiData := outcome.data;
        data := apiData;
        if apiData.missing_posts.Some? && |apiData.missing_posts.value| > 0 {
          selectedUser := Chosen(apiData.missing_posts.value[0]);
        } else if apiData.family_posts.Some? && |apiData.family_posts.value| > 0 {
          selectedUser := Chosen(apiData.family_posts.value[0]);
          activeType := FamilyType;
        }
      }
    }

    /** `handleTypeClick`: the ranking is emptied and the first post of the
        chosen type's list is selected, or nothing when that list is empty. */
    method HandleTypeClick(typ: string)
      modifies this`activeType, this`similarityLists, this`selectedUser
      ensures activeType == typ && similarityLists == []
      ensures typ == MissingType && HasPosts(data.missing_posts) ==> selectedUser == Chosen(data.missing_posts.value[0])
      ensures typ == FamilyType && HasPosts(data.family_posts) ==> selectedUser == Chosen(data.family_posts.value[0])
      ensures ((typ == MissingType && !HasPosts(data.missing_posts))
            || (typ == FamilyType && !HasPosts(data.family_posts))
            || (typ != MissingType && typ != FamilyType)) ==> selectedUser == Null
      ensures SelectionInList()
    {
      activeType := typ;
      similarityLists := [];
      if typ == MissingType && data.missing_posts.Some? && |data.missing_posts.value| > 0 {
        selectedUser := Chosen(data.missing_posts.value[0]);
      } else if typ == FamilyType && data.family_posts.Some? && |data.family_posts.value| > 0 {
        selectedUser := Chosen(data.family_posts.value[0]);
      } else {
        selectedUser := Null;
        similarityLists := [];
      }
    }

    /** `handleUserSelect`: the active list is searched by `mp_id` on the
        missing side and by `fp_id` on the family side; no match selects
        `undefined`. A missing list makes `find` throw, which leaves the
        selection as it was. */
    method HandleUserSelect(selectedId: string)
      modifies this`selectedUser
      ensures UserList().None? ==> selectedUser == old(selectedUser)
      ensures UserList().Some? ==> selectedUser == FindById(UserList().value, activeType == MissingType, selectedId)
      ensures UserList().Some? ==> SelectionInList()
    {
      var list := if activeType == MissingType then data.missing_posts else data.family_posts;
      if list.Some? {
        selectedUser := FindById(list.value, activeType == MissingType, selectedId);
      }
    }

    /** The similarity effect: nothing is requested while no post is
        selected; otherwise the request carries `mp_id || fp_id` of the
        selection, and the ranking becomes the returned `similarPosts`, or
        empty when they are missing or the request fails. */
    method FetchSimilarity(outcome: Response<Option<seq<SimilarItem>>>) returns (missingId: Option<Option<string>>)
      modifies this`similarityLists
      ensures missingId.Some? <==> selectedUser.Chosen?
      ensures missingId.Some? ==> missingId.value == PostId(selectedUser.post)
      ensures missingId.None? ==> similarityLists == old(similarityLists)
      ensures missingId.Some? && outcome.Ok? && outcome.data.Some? ==> similarityLists == outcome.data.value
      ensures missingId.Some? && (outcome.Error? || outcome.data.None?) ==> similarityLists == []
    {
      missingId := None;
      if selectedUser.Chosen? {
        missingId := Some(Or(selectedUser.post.mp_id, selectedUser.post.fp_id));
        if outcome.Ok? && outcome.data.Some? {
          similarityLists := outcome.data.value;
        } else {
          similarityLists := [];
        }
      }
    }

    /** The ranking area: the cards when there are any, otherwise a
        "no ranking" note for a selected post or a prompt to select one. */
    function Display(): (d: ListDisplay)
      reads this
      ensures d.Ranked? <==> |similarityLists| > 0
      ensures d.Ranked? ==> |d.keys| == |similarityLists|
      ensures d.Ranked? ==> forall i :: 0 <= i < |d.keys| ==> d.keys[i] == CardKey(similarityLists[i].post, i)
      ensures d.NoRanking? <==> |similarityLists| == 0 && selectedUser.Chosen?
    {
      var items := similarityLists;
      if |items| > 0 then Ranked(seq(|items|, i requires 0 <= i < |items| => CardKey(items[i].post, i)))
      else if selectedUser.Chosen? then NoRanking
      else SelectPrompt
    }
  }
}
