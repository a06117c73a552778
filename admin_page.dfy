/** The administrator's approval queue: the access check and its routing,
    the pending-post lists, approve/reject behind a confirmation, and the
    queue's own image URL rule. */
module AdminPage {
  import opened Js
  import opened Http
  import opened Posts

  const NoImage: string := "/no-image.jpg"

  const MissingTab: string := "missing"
  const FamilyTab: string := "family"

  /** The admin page's `getImageUrl`: a placeholder for a falsy path, an
      absolute `http…` path as it is, anything else under the image host. */
  function AdminImageUrl(path: Option<string>): (url: string)
    ensures !Truthy(path) ==> url == NoImage
    ensures Truthy(path) && StartsWith(path.value, "http") ==> url == path.value
    ensures Truthy(path) && !StartsWith(path.value, "http") ==>
      StartsWith(url, ImageHost) && url[|ImageHost|..] == path.value
  {
    if !Truthy(path) then NoImage
    else if StartsWith(path.value, "http") then path.value
    else ImageHost + path.value
  }

  /** For a relative path the queue shows the same address as the listing pages. */
  lemma AdminImageUrlAgreesForRelativePaths(path: Option<string>)
    requires Truthy(path) && !StartsWith(path.value, "http")
    ensures ImageUrl(path) == Some(AdminImageUrl(path))
  {
  }

  /** Every address the rule produces for a truthy path is absolute, so applying the rule again changes nothing. */
  lemma AdminImageUrlIdempotent(path: Option<string>)
    requires Truthy(path)
    ensures StartsWith(AdminImageUrl(path), "http")
    ensures AdminImageUrl(Some(AdminImageUrl(path))) == AdminImageUrl(path)
  {
    var url := AdminImageUrl(path);
    if !StartsWith(path.value, "http") {
      assert url[..4] == ImageHost[..4] == "http";
    }
  }

  /** The `/api/posts/pending` response; either list may be missing. */
  datatype PendingData = PendingData(missing_posts: Option<seq<Post>>, family_posts: Option<seq<Post>>)

  /** An approve or reject request: its endpoint, the name of its one query parameter and the id. */
  datatype ActionRequest = ActionRequest(path: string, param: string, id: Option<string>)

  class Page {
    var missingPosts: seq<Post>
    var familyPosts: seq<Post>
    var loading: bool
    var activeTab: string

    constructor ()
      ensures missingPosts == [] && familyPosts == [] && loading && activeTab == MissingTab
    {
      missingPosts := [];
      familyPosts := [];
      loading := true;
      activeTab := MissingTab;
    }

    /** `loadPendingPosts`: a missing list becomes empty; a failed request keeps both lists. */
    method LoadPendingPosts(outcome: Response<PendingData>)
      modifies this`missingPosts, this`familyPosts
      ensures outcome.Ok? ==> missingPosts == outcome.data.missing_posts.GetOr([])
      ensures outcome.Ok? ==> familyPosts == outcome.data.family_posts.GetOr([])
      ensures outcome.Error? ==> missingPosts == old(missingPosts) && familyPosts == old(familyPosts)
    {
      if outcome.Ok? {
        missingPosts := outcome.data.missing_posts.GetOr([]);
        familyPosts := outcome.data.family_posts.GetOr([]);
      }
    }

    /** `checkAdminAndLoadPosts`: a non-administrator is sent home without
        the queue being requested; an administrator gets the queue; a failed
        check sends the user to the login page on 401 and home otherwise.
        Loading is over on every path. */
    method CheckAdminAndLoadPosts(isAdmin: Response<bool>, pending: Response<PendingData>)
      returns (route: Option<string>, pendingRequested: bool)
      modifies this`missingPosts, this`familyPosts, this`loading
      ensures !loading
      ensures pendingRequested <==> isAdmin == Ok(true)
      ensures route.None? <==> pendingRequested
      ensures isAdmin == Ok(false) ==> route == Some("/")
      ensures isAdmin.Error? && isAdmin.status == Some(401) ==> route == Some("/login")
      ensures isAdmin.Error? && isAdmin.status != Some(401) ==> route == Some("/")
      ensures !pendingRequested ==> missingPosts == old(missingPosts) && familyPosts == old(familyPosts)
      ensures pendingRequested && pending.Ok? ==> missingPosts == pending.data.missing_posts.GetOr([])
      ensures pendingRequested && pending.Ok? ==> familyPosts == pending.data.family_posts.GetOr([])
      ensures pendingRequested && pending.Error? ==> missingPosts == old(missingPosts) && familyPosts == old(familyPosts)
    {
      route := None;
      pendingRequested := false;
      match isAdmin {
        case Ok(admin) =>
          if !admin {
            route := Some("/");
          } else {
            pendingRequested := true;
            LoadPendingPosts(pending);
          }
        case Error(status) =>
          if status == Some(401) {
            route := Some("/login");
          } else {
            route := Some("/");
          }
      }
      loading := false;
    }

    /** `handleApprove`: nothing is sent unless confirmed; the request names
        the post as `missing_id`; the queue is reloaded only after success. */
    method HandleApprove(postId: Option<string>, confirmed: bool, outcome: Response<()>, reload: Response<PendingData>)
      returns (request: Option<ActionRequest>, reloaded: bool)
      modifies this`missingPosts, this`familyPosts
      ensures request.Some? <==> confirmed
      ensures request.Some? ==> request.value == ActionRequest("/api/posts/approve", "missing_id", postId)
      ensures reloaded <==> confirmed && outcome.Ok?
      ensures !(reloaded && reload.Ok?) ==> missingPosts == old(missingPosts) && familyPosts == old(familyPosts)
      ensures reloaded && reload.Ok? ==> missingPosts == reload.data.missing_posts.GetOr([])
      ensures reloaded && reload.Ok? ==> familyPosts == reload.data.family_posts.GetOr([])
    {
      request, reloaded := None, false;
      if confirmed {
        request := Some(ActionRequest("/api/posts/approve", "missing_id", postId));
        if outcome.Ok? {
          reloaded := true;
          LoadPendingPosts(reload);
        }
      }
    }

    /** `handleReject`: as approval, but to the reject endpoint with the post as `post_id`. */
    method HandleReject(postId: Option<string>, confirmed: bool, outcome: Response<()>, reload: Response<PendingData>)
      returns (request: Option<ActionRequest>, reloaded: bool)
      modifies this`missingPosts, this`familyPosts
      ensures request.Some? <==> confirmed
      ensures request.Some? ==> request.value == ActionRequest("/api/posts/reject", "post_id", postId)
      ensures reloaded <==> confirmed && outcome.Ok?
      ensures !(reloaded && reload.Ok?) ==> missingPosts == old(missingPosts) && familyPosts == old(familyPosts)
      ensures reloaded && reload.Ok? ==> missingPosts == reload.data.missing_posts.GetOr([])
      ensures reloaded && reload.Ok? ==> familyPosts == reload.data.family_posts.GetOr([])
    {
      request, reloaded := None, false;
      if confirmed {
        request := Some(ActionRequest("/api/posts/reject", "post_id", postId));
        if outcome.Ok? {
          reloaded := true;
          LoadPendingPosts(reload);
        }
      }
    }

    /** `handleLogout`: home after a successful logout, nowhere after a failure. */
    method HandleLogout(outcome: Response<()>) returns (route: Option<string>)
      ensures route.Some? <==> outcome.Ok?
      ensures route.Some? ==> route.value == "/"
    {
      route := if outcome.Ok? then Some("/") else None;
    }

    /** A tab button. */
    method SetActiveTab(tab: string)
      modifies this`activeTab
      ensures activeTab == tab
    {
      activeTab := tab;
    }

    /** The queue on screen: the missing-person posts on the `missing` tab, the family posts on any other. */
    function ShownPosts(): (posts: seq<Post>)
      reads this
      ensures activeTab == MissingTab ==> posts == missingPosts
      ensures activeTab != MissingTab ==> posts == familyPosts
    {
      if activeTab == MissingTab then missingPosts else familyPosts
    }

    /** The id a queue row's approve and reject buttons pass: `mp_id` on the missing tab, `fp_id` on the family tab. */
    function ActionId(post: Post): (id: Option<string>)
      reads this
      ensures activeTab == MissingTab ==> id == post.mp_id
      ensures activeTab != MissingTab ==> id == post.fp_id
    {
      if activeTab == MissingTab then post.mp_id else post.fp_id
    }
  }
}
