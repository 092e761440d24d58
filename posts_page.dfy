/** The posts page: the list of posts, the create-post form, deleting a post, and which controls
    a post shows to the signed-in user. */
module PostsPage {
  import opened Wrappers
  import opened Http
  import opened Seqs
  import PostsRoute

  const CreateFailed := "Failed to create post"
  const CreateRetry := "Failed to create post. Please try again."
  const DeleteRetry := "Failed to delete post. Please try again."

  /** A post's joined author: `{ _id, name, image }`. */
  datatype Author = Author(id: string, name: string, image: string)

  /** A post as the page holds it. */
  datatype PagePost = PagePost(
    id: string,
    title: string,
    content: string,
    images: seq<string>,
    author: Author,
    skillName: string,
    likes: int,
    createdAt: int)

  /** The signed-in user of the client session; either field may be missing. */
  datatype SessionUser = SessionUser(id: Option<string>, email: Option<string>)

  /** A file chosen in the form's file input. */
  datatype ImageFile = ImageFile(fileName: string)

  /** The form data `handleCreatePost` sends: `title`, `content` and `skillId` always, then
      `image` only when an image is selected. */
  function BuildForm(title: string, content: string, skill: string, image: Option<ImageFile>): (f: PostsRoute.FormData)
    ensures |f| == if image.Some? then 4 else 3
    ensures f[..3] == [PostsRoute.FormEntry("title", PostsRoute.Text(title)),
                       PostsRoute.FormEntry("content", PostsRoute.Text(content)),
                       PostsRoute.FormEntry("skillId", PostsRoute.Text(skill))]
    ensures (exists i :: 0 <= i < |f| && f[i].name == "image") <==> image.Some?
  {
    var f := [PostsRoute.FormEntry("title", PostsRoute.Text(title)),
              PostsRoute.FormEntry("content", PostsRoute.Text(content)),
              PostsRoute.FormEntry("skillId", PostsRoute.Text(skill))];
    if image.Some? then
      var g := f + [PostsRoute.FormEntry("image", PostsRoute.Upload(image.value.fileName))];
      assert g[3].name == "image";
      g
    else f
  }

  /** The form the page sends passes the route's field check exactly when the title, the
      content and the chosen skill are all non-empty. */
  lemma SentFormFieldsChecked(title: string, content: string, skill: string, image: Option<ImageFile>)
    ensures PostsRoute.FieldsPresent(BuildForm(title, content, skill, image)) <==>
      title != "" && content != "" && skill != ""
  {
    var f := BuildForm(title, content, skill, image);
    assert PostsRoute.FormGet(f, "title") == Some(PostsRoute.Text(title));
    assert PostsRoute.FormGet(f[1..], "content") == Some(PostsRoute.Text(content));
    assert PostsRoute.FormGet(f[2..], "skillId") == Some(PostsRoute.Text(skill));
  }

  /** The route sees an image exactly when one was selected, so the created post gets the
      placeholder image exactly then. */
  lemma SentFormImage(title: string, content: string, skill: string, image: Option<ImageFile>)
    ensures PostsRoute.FormTruthy(PostsRoute.FormGet(BuildForm(title, content, skill, image), "image")) <==> image.Some?
    ensures PostsRoute.ImagesFor(PostsRoute.FormGet(BuildForm(title, content, skill, image), "image")) ==
      if image.Some? then [PostsRoute.PlaceholderImage] else []
  {
    var f := BuildForm(title, content, skill, image);
    if image.Some? {
      assert PostsRoute.FormGet(f[3..], "image") == Some(PostsRoute.Upload(image.value.fileName));
    }
  }

  /** The JSON error body of a refused request; either field may be missing. */
  datatype ErrorData = ErrorData(error: Option<string>, details: Option<string>)

  /** How the create request ends: the server returns the new post, refuses with an error body,
      or something throws on the way (the request rejects, or a body is not JSON). */
  datatype CreateOutcome = Created(post: PagePost) | Refused(errorData: ErrorData) | CreateThrows(raised: Raised)

  /** The message of the error thrown for a refused create:
      `errorData.error || errorData.details || 'Failed to create post'`. */
  function RefusalMessage(d: ErrorData): (r: string)
    ensures r != ""
    ensures Truthy(d.error) ==> r == d.error.value
    ensures !Truthy(d.error) && Truthy(d.details) ==> r == d.details.value
    ensures !Truthy(d.error) && !Truthy(d.details) ==> r == CreateFailed
  {
    if Truthy(d.error) then d.error.value
    else if Truthy(d.details) then d.details.value
    else CreateFailed
  }

  /** The text the create `catch` stores: `err.message || 'Failed to create post. Please try
      again.'`. */
  function CaughtCreateText(e: Raised): (r: string)
    ensures r != ""
    ensures e.ErrorObject? && e.message != "" ==> r == e.message
    ensures !(e.ErrorObject? && e.message != "") ==> r == CreateRetry
  {
    if e.ErrorObject? && e.message != "" then e.message else CreateRetry
  }

  /** The error text a failed create leaves, or `None` when the post was created. */
  function CreateErrorText(o: CreateOutcome): (r: Option<string>)
    ensures r.None? <==> o.Created?
    ensures o.Refused? ==> r == Some(RefusalMessage(o.errorData))
    ensures o.CreateThrows? ==> r == Some(CaughtCreateText(o.raised))
    ensures r.Some? ==> r.value != ""
  {
    match o
    case Created(_) => None
    case Refused(d) => Some(CaughtCreateText(ErrorObject(RefusalMessage(d))))
    case CreateThrows(e) => Some(CaughtCreateText(e))
  }

  /** The posts after a delete of `postId` succeeded: those with another `_id`, in order. */
  function WithoutPost(posts: seq<PagePost>, postId: string): (r: seq<PagePost>)
    ensures forall p :: p in r <==> p in posts && p.id != postId
    ensures IsSubsequence(r, posts)
    ensures forall p: PagePost :: p.id != postId ==> multiset(r)[p] == multiset(posts)[p]
  {
    Filter(posts, (p: PagePost) => p.id != postId)
  }

  /** Deleting a post that is not shown changes nothing. */
  lemma {:induction false} DeleteAbsentKeepsAll(posts: seq<PagePost>, postId: string)
    requires forall i :: 0 <= i < |posts| ==> posts[i].id != postId
    ensures WithoutPost(posts, postId) == posts
  {
    if posts != [] {
      DeleteAbsentKeepsAll(posts[1..], postId);
      assert posts == [posts[0]] + posts[1..];
    }
  }

  /** Deleting twice is deleting once. */
  lemma DeleteIdempotent(posts: seq<PagePost>, postId: string)
    ensures WithoutPost(WithoutPost(posts, postId), postId) == WithoutPost(posts, postId)
  {
    var r := WithoutPost(posts, postId);
    forall i | 0 <= i < |r| ensures r[i].id != postId {
      assert r[i] in r;
    }
    DeleteAbsentKeepsAll(r, postId);
  }

  /** The controls a post shows: edit and delete for its author, a message button otherwise. */
  datatype Controls = EditAndDelete | MessageAuthor

  /** The owner test as the page writes it: the session user's email equals the author's id. */
  predicate OwnerControlsAsWritten(session: Option<SessionUser>, p: PagePost) {
    session.Some? && session.value.email == Some(p.author.id)
  }

  /** The owner test the server applies before deleting a post: the author is the session
      user's id. */
  predicate MayDelete(sessionUserId: string, p: PagePost) {
    p.author.id == sessionUserId
  }

  /** The owner test the page evidently intends: the session user's id equals the author's id. */
  predicate OwnerControls(session: Option<SessionUser>, p: PagePost) {
    session.Some? && session.value.id == Some(p.author.id)
  }

  /** As written, an author whose email differs from their id (an email has an `@`, a
      database id does not) never gets the edit and delete controls on their own post, though the
      server would let them delete it. */
  lemma AuthorDeniedControlsAsWritten(session: Option<SessionUser>, p: PagePost)
    requires session.Some? && session.value.id == Some(p.author.id)
    requires session.value.email != session.value.id
    ensures !OwnerControlsAsWritten(session, p)
    ensures MayDelete(session.value.id.value, p)
  {
  }

  /** One concrete case: the user "u1" with email "a@b.c" sees a message button on their own
      post. */
  lemma AsWrittenCounterexample()
    ensures var p := PagePost("p1", "t", "c", [], Author("u1", "A", ""), "s", 0, 0);
      var s := Some(SessionUser(Some("u1"), Some("a@b.c")));
      !OwnerControlsAsWritten(s, p) && MayDelete("u1", p) && OwnerControls(s, p)
  {
  }

  /** The controls shown, by the intended owner test. They are the edit and delete controls
      exactly when the server would accept a delete from the session user. */
  function ControlsFor(session: Option<SessionUser>, p: PagePost): (c: Controls)
    ensures c == EditAndDelete <==> session.Some? && session.value.id.Some? && MayDelete(session.value.id.value, p)
  {
    if OwnerControls(session, p) then EditAndDelete else MessageAuthor
  }

  /** The state of the page. */
  class PostsPageState {
    var posts: seq<PagePost>
    var showCreateModal: bool
    var error: string
    var selectedUser: Option<string>
    var title: string
    var content: string
    var selectedSkill: string
    var selectedImage: Option<ImageFile>

    constructor ()
      ensures posts == [] && !showCreateModal && error == "" && selectedUser == None
      ensures title == "" && content == "" && selectedSkill == "" && selectedImage == None
    {
      posts := [];
      showCreateModal := false;
      error := "";
      selectedUser := None;
      title := "";
      content := "";
      selectedSkill := "";
      selectedImage := None;
    }

    /** `handleCreatePost`: it sends the form built from the fields (returned as `form`). When
        the post is created it goes in front of the list, the modal closes and the form is
        cleared; otherwise the list and the form stay and the error text is set. */
    method HandleCreatePost(o: CreateOutcome) returns (form: PostsRoute.FormData)
      modifies this
      ensures form == BuildForm(old(title), old(content), old(selectedSkill), old(selectedImage))
      ensures o.Created? ==>
        && posts == [o.post] + old(posts)
        && !showCreateModal
        && title == "" && content == "" && selectedSkill == "" && selectedImage == None
        && error == old(error)
      ensures !o.Created? ==>
        && posts == old(posts)
        && showCreateModal == old(showCreateModal)
        && title == old(title) && content == old(content)
        && selectedSkill == old(selectedSkill) && selectedImage == old(selectedImage)
        && error == CreateErrorText(o).value
      ensures selectedUser == old(selectedUser)
    {
      form := BuildForm(title, content, selectedSkill, selectedImage);
      match o {
        case Created(p) =>
          posts := [p] + posts;
          showCreateModal := false;
          title := "";
          content := "";
          selectedSkill := "";
          selectedImage := None;
        case Refused(d) =>
          error := CaughtCreateText(ErrorObject(RefusalMessage(d)));
        case CreateThrows(e) =>
          error := CaughtCreateText(e);
      }
    }

    /** `handleDeletePost`: when the server confirms (`deleted`), the posts with that `_id` leave
        the list; otherwise the list stays and the error text is set. */
    method HandleDeletePost(postId: string, deleted: bool)
      modifies this
      ensures deleted ==> posts == WithoutPost(old(posts), postId) && error == old(error)
      ensures !deleted ==> posts == old(posts) && error == DeleteRetry
      ensures showCreateModal == old(showCreateModal) && selectedUser == old(selectedUser)
      ensures title == old(title) && content == old(content)
      ensures selectedSkill == old(selectedSkill) && selectedImage == old(selectedImage)
    {
      if deleted {
        posts := WithoutPost(posts, postId);
      } else {
        error := DeleteRetry;
      }
    }

    /** `handleMessageAuthor`: opens the chat with the post's author. */
    method HandleMessageAuthor(authorId: string)
      modifies this
      ensures selectedUser == Some(authorId)
      ensures posts == old(posts) && error == old(error) && showCreateModal == old(showCreateModal)
      ensures title == old(title) && content == old(content)
      ensures selectedSkill == old(selectedSkill) && selectedImage == old(selectedImage)
    {
      selectedUser := Some(authorId);
    }
  }
}
