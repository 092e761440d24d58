/** `GET /api/posts` (every post, newest first) and `POST /api/posts` (create a post from a
    multipart form). The posts collection is an object holding the stored posts; `Post.create`
    appends to it. */
module PostsRoute {
  import opened Wrappers
  import opened Http
  import opened Seqs
  import opened PostSchema

  const PlaceholderImage := "/placeholder-image.jpg"
  const FetchFailed := "Failed to fetch posts"
  const MissingFields := "Missing required fields"
  const InvalidData := "Invalid data provided"
  const CreateFailed := "Failed to create post"

  /** One value of a multipart form: a text field or an uploaded file. */
  datatype FormValue = Text(text: string) | Upload(fileName: string)

  datatype FormEntry = FormEntry(name: string, value: FormValue)

  /** A multipart form: its entries in the order they were appended. */
  type FormData = seq<FormEntry>

  /** `formData.get(name)`: the value of the first entry called `name`, or null. */
  function FormGet(form: FormData, name: string): (v: Option<FormValue>)
    ensures v.None? <==> forall i :: 0 <= i < |form| ==> form[i].name != name
    ensures v.Some? ==> exists i :: 0 <= i < |form| && form[i] == FormEntry(name, v.value) &&
                                   (forall j :: 0 <= j < i ==> form[j].name != name)
  {
    if form == [] then None
    else if form[0].name == name then Some(form[0].value)
    else
      var v := FormGet(form[1..], name);
      assert v.Some? ==> exists i :: 0 <= i < |form| && form[i] == FormEntry(name, v.value) &&
                                    (forall j :: 0 <= j < i ==> form[j].name != name) by {
        if v.Some? {
          var i :| 0 <= i < |form[1..]| && form[1..][i] == FormEntry(name, v.value) &&
            forall j :: 0 <= j < i ==> form[1..][j].name != name;
          assert form[i + 1] == FormEntry(name, v.value);
          assert forall j :: 0 <= j < i + 1 ==> form[j].name != name by {
            forall j | 0 <= j < i + 1 ensures form[j].name != name {
              if j > 0 { assert form[j] == form[1..][j - 1]; }
            }
          }
        }
      }
      v
  }

  /** A text field read as a string (`formData.get(name) as string`). */
  function FormText(form: FormData, name: string): Option<string> {
    match FormGet(form, name)
    case Some(Text(s)) => Some(s)
    case _ => None
  }

  /** The field check of `POST`: `title`, `content` and `skillId` are present and not empty. */
  predicate FieldsPresent(form: FormData) {
    Truthy(FormText(form, "title")) && Truthy(FormText(form, "content")) && Truthy(FormText(form, "skillId"))
  }

  /** JavaScript truthiness of a form value: a file, or a non-empty text. */
  predicate FormTruthy(v: Option<FormValue>) {
    match v
    case None => false
    case Some(Text(s)) => s != ""
    case Some(Upload(_)) => true
  }

  /** The `images` of the created post: the placeholder when an image was supplied, none
      otherwise. Uploads are not stored anywhere. */
  function ImagesFor(image: Option<FormValue>): (r: seq<string>)
    ensures |r| <= 1
    ensures r == [PlaceholderImage] <==> FormTruthy(image)
    ensures r == [] <==> !FormTruthy(image)
  {
    var imageUrl := if FormTruthy(image) then Some(PlaceholderImage) else None;
    if imageUrl.Some? then [imageUrl.value] else []
  }

  /** The `catch` of `POST`: a `ValidationError` is the client's fault (400), anything else the
      server's (500); both carry the error's message as `details`. */
  function CreateErrorResponse(e: Thrown): (r: Response<Post>)
    ensures r.Failure? && r.err.details == Some(e.message)
    ensures r.err.error == if e.name == "ValidationError" then InvalidData else CreateFailed
    ensures r.Status() == StatusBadRequest <==> e.name == "ValidationError"
    ensures r.Status() == StatusServerError <==> e.name != "ValidationError"
  {
    if e.name == "ValidationError" then
      Failure(StatusBadRequest, ErrorBody(InvalidData, Some(e.message)))
    else
      Failure(StatusServerError, ErrorBody(CreateFailed, Some(e.message)))
  }

  /** Sort key of `GET`: newest post first. */
  function NewestPostFirst(p: Post): int {
    -p.createdAt
  }

  /** The fields `POST` hands to `Post.create`. */
  function NewPostFields(author: UserId, title: string, content: string, skillId: string,
                         image: Option<FormValue>): PostFields {
    PostFields(Some(title), Some(content), Some(ImagesFor(image)), Some(author), Some(skillId), None, None)
  }

  /** The route's own field check already guarantees what the schema requires, so the post it
      creates always validates, gets the session user as author, the submitted skill, 0 likes and
      at most one image. */
  lemma CheckedFieldsValidate(author: UserId, title: string, content: string, skillId: string,
                              image: Option<FormValue>, id: PostId, now: int)
    requires title != "" && content != "" && skillId != ""
    ensures Create(NewPostFields(author, title, content, skillId, image), id, now).Yields?
    ensures var p := Create(NewPostFields(author, title, content, skillId, image), id, now).value;
      && p.author == author && p.skill == skillId && p.title == title && p.content == content
      && p.likes == 0 && p.images == ImagesFor(image) && |p.images| <= 1 && p.comments == []
  {
    assert MissingPaths(NewPostFields(author, title, content, skillId, image)) == [];
  }

  /** The stored `posts` collection. */
  class PostCollection {
    var posts: seq<Post>

    constructor (initial: seq<Post>)
      ensures posts == initial
    {
      posts := initial;
    }

    /** `Post.create`: the new post is stored after every existing one. */
    method Append(p: Post)
      modifies this
      ensures posts == old(posts) + [p]
    {
      posts := posts + [p];
    }

    /** `GET`: every stored post, newest first, or 500 when the database fails. */
    function GetPosts(db: Attempt): (r: Response<seq<Post>>)
      reads this
      ensures db.Throws? ==> r == Failure(StatusServerError, ErrorBody(FetchFailed, None))
      ensures db.Completes? ==> r.Success? && multiset(r.body) == multiset(posts)
      ensures r.Success? ==> forall i, j :: 0 <= i < j < |r.body| ==> r.body[i].createdAt >= r.body[j].createdAt
    {
      if db.Throws? then Failure(StatusServerError, ErrorBody(FetchFailed, None))
      else
        var sorted := SortBy(posts, NewestPostFirst);
        assert forall i, j :: 0 <= i < j < |sorted| ==> NewestPostFirst(sorted[i]) <= NewestPostFirst(sorted[j]);
        Success(sorted)
    }

    /** `POST`. Its steps, in the source's order: the session check (401); connecting and
        reading the form (`connect`; a failure goes to the error mapping); the field check
        (400, "Missing required fields"); schema validation; storing the post (`write`);
        reading it back (`reload`). Every failure after the session check goes through
        `CreateErrorResponse`. Only a successful `write` stores anything. */
    method HandlePost(session: Option<UserId>, connect: Attempt, form: FormData,
                      id: PostId, now: int, write: Attempt, reload: Attempt)
      returns (r: Response<Post>)
      modifies this
      ensures session.None? ==> r == Unauthorized() && posts == old(posts)
      ensures session.Some? && connect.Throws? ==>
        r == CreateErrorResponse(connect.error) && posts == old(posts)
      ensures session.Some? && connect.Completes? && !FieldsPresent(form) ==>
        r == Failure(StatusBadRequest, ErrorBody(MissingFields, None)) && posts == old(posts)
      ensures session.Some? && connect.Completes? && write.Throws? ==>
        r.Failure? && posts == old(posts)
      ensures session.Some? && connect.Completes? && FieldsPresent(form) && write.Throws? ==>
        r == CreateErrorResponse(write.error)
      ensures session.Some? && connect.Completes? && FieldsPresent(form) && write.Completes? ==>
        |posts| == |old(posts)| + 1 && (r.Success? <==> reload.Completes?)
      ensures posts == old(posts) || |posts| == |old(posts)| + 1
      ensures |posts| == |old(posts)| + 1 ==>
        && session.Some? && connect.Completes? && write.Completes?
        && posts[..|old(posts)|] == old(posts)
        && var p := posts[|old(posts)|];
        && Some(p.title) == FormText(form, "title") && Some(p.content) == FormText(form, "content")
        && Some(p.skill) == FormText(form, "skillId") && p.author == session.value
        && p.images == ImagesFor(FormGet(form, "image")) && p.likes == 0
        && p.id == id && p.createdAt == now && p.updatedAt == now
        && r == (if reload.Completes? then Success(p) else CreateErrorResponse(reload.error))
      ensures r.Success? ==> |posts| == |old(posts)| + 1 && r.body == posts[|old(posts)|]
    {
      if session.None? {
        return Unauthorized();
      }
      if connect.Throws? {
        return CreateErrorResponse(connect.error);
      }
      var title := FormText(form, "title");
      var content := FormText(form, "content");
      var skillId := FormText(form, "skillId");
      var image := FormGet(form, "image");
      if !FieldsPresent(form) {
        return Failure(StatusBadRequest, ErrorBody(MissingFields, None));
      }
      var fields := NewPostFields(session.value, title.value, content.value, skillId.value, image);
      CheckedFieldsValidate(session.value, title.value, content.value, skillId.value, image, id, now);
      var created := Create(fields, id, now);
      if write.Throws? {
        return CreateErrorResponse(write.error);
      }
      var p := created.value;
      Append(p);
      if reload.Throws? {
        return CreateErrorResponse(reload.error);
      }
      return Success(p);
    }
  }
}
