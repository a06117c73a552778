/** One ranked similarity result card: the route of its detail page, whether
    the post is the current user's, which buttons and images it shows, and
    the delete action that reports back to the list. */
module FaceSimilarityCard {
  import opened Js
  import opened Http
  import opened Posts

  /** `postId && postId[0] === 'm' ? 'missing' : 'family'`. A numeric index
      key has no character 0, and a page that passes no `postId` gets `family`. */
  function PostType(postId: Option<Key>): (t: string)
    ensures t == "missing" || t == "family"
    ensures t == "missing" <==>
      postId.Some? && postId.value.TextKey? && postId.value.s != "" && postId.value.s[0] == 'm'
  {
    match postId
    case Some(TextKey(s)) => if s != "" && s[0] == 'm' then "missing" else "family"
    case _ => "family"
  }

  /** `${postId}` inside a template string. */
  function KeyText(postId: Option<Key>): string {
    match postId
    case None => "undefined"
    case Some(TextKey(s)) => s
    case Some(IndexKey(i)) => IntToString(i)
  }

  /** The route the detail button navigates to: `/missing/<id>` or `/family/<id>`. */
  function DetailPath(postId: Option<Key>): (path: string)
    ensures StartsWith(path, "/missing/") <==> PostType(postId) == "missing"
    ensures StartsWith(path, "/" + PostType(postId) + "/")
    ensures path[|PostType(postId)| + 2..] == KeyText(postId)
  {
    var t := PostType(postId);
    var path := "/" + t + "/" + KeyText(postId);
    assert t == "family" ==> path[1] == 'f' && "/missing/"[1] == 'm';
    path
  }

  /** A missing-person card goes to `/missing/` followed by its own id. */
  lemma MissingDetailPath(id: string)
    requires id != "" && id[0] == 'm'
    ensures DetailPath(Some(TextKey(id))) == "/missing/" + id
  {
  }

  /** `currentUserId && userId && currentUserId === userId` */
  predicate IsMyPost(currentUserId: Option<string>, userId: Option<string>) {
    Truthy(currentUserId) && Truthy(userId) && currentUserId == userId
  }

  /** `isLoggedIn && isMyPost`: the delete button is shown. */
  predicate DeleteShown(isLoggedIn: bool, currentUserId: Option<string>, userId: Option<string>) {
    isLoggedIn && IsMyPost(currentUserId, userId)
  }

  /** A card whose post has no owner (the face-similarity page passes no
      `userId`) never offers deletion, whoever is logged in. */
  lemma NoOwnerNoDelete(isLoggedIn: bool, currentUserId: Option<string>)
    ensures !DeleteShown(isLoggedIn, currentUserId, None)
  {
  }

  /** `!showGenImage && genImage`: the aging image is shown next to the original. */
  predicate ShowsAgingImage(showGenImage: bool, genImage: Option<string>) {
    !showGenImage && Truthy(genImage)
  }

  /** The similarity as displayed: a number scaled to a percentage, anything else passed through. */
  datatype ShownScore = Percent(value: real) | Raw(text: string)

  function FormatSimilarity(score: Score): (shown: ShownScore)
    ensures score.Other? ==> shown == Raw(score.text)
    ensures score.Number? ==> shown == Percent(score.x * 100.0)
  {
    match score
    case Number(x) => Percent(x * 100.0)
    case Other(text) => Raw(text)
  }

  class Card {
    const postId: Option<Key>
    const userId: Option<string>
    const hasOnDelete: bool
    var currentUserId: Option<string>
    var isLoggedIn: bool

    constructor (postId: Option<Key>, userId: Option<string>, hasOnDelete: bool)
      ensures this.postId == postId && this.userId == userId && this.hasOnDelete == hasOnDelete
      ensures currentUserId == None && !isLoggedIn
    {
      this.postId := postId;
      this.userId := userId;
      this.hasOnDelete := hasOnDelete;
      currentUserId := None;
      isLoggedIn := false;
    }

    /** `checkLoginStatus`: the status call, then (when logged in) the
        current-user call; a failure of either leaves the card logged out. */
    method CheckLoginStatus(status: Response<bool>, currentUser: Response<Option<string>>)
      returns (askedForUser: bool)
      modifies this`currentUserId, this`isLoggedIn
      ensures askedForUser <==> status.Ok? && status.data
      ensures isLoggedIn <==> status.Ok? && status.data && currentUser.Ok?
      ensures currentUserId == if askedForUser && currentUser.Ok? then currentUser.data else old(currentUserId)
    {
      askedForUser := false;
      if status.Error? {
        isLoggedIn := false;
        return;
      }
      isLoggedIn := status.data;
      if status.data {
        askedForUser := true;
        if currentUser.Error? {
          isLoggedIn := false;
          return;
        }
        currentUserId := currentUser.data;
      }
    }

    /** The delete button: only for the logged-in owner of a post that has an owner. */
    predicate DeleteButtonShown()
      reads this
      ensures DeleteButtonShown() ==> isLoggedIn && Truthy(userId) && currentUserId == userId
      ensures userId.None? || currentUserId.None? ==> !DeleteButtonShown()
    {
      DeleteShown(isLoggedIn, currentUserId, userId)
    }

    /** `handleDelete`: nothing happens unless the confirm dialog is accepted;
        `onDelete(postId)` is called only after the delete request succeeded. */
    method HandleDelete(confirmed: bool, outcome: Response<()>) returns (requestSent: bool, notified: bool)
      ensures requestSent <==> confirmed
      ensures notified <==> confirmed && outcome.Ok? && hasOnDelete
    {
      requestSent, notified := false, false;
      if !confirmed {
        return;
      }
      requestSent := true;
      if outcome.Ok? && hasOnDelete {
        notified := true;
      }
    }
  }
}
