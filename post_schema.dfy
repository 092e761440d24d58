/** The `Post` schema: which fields a post must have, what `likes` defaults to, and the two
    timestamps the schema maintains. `Post.create` validates its input against this schema,
    fills in the defaults, and stamps the new document. */
module PostSchema {
  import opened Wrappers
  import opened Http
  import opened Text

  type UserId = string
  type SkillId = string
  type PostId = string
  type CommentId = string

  /** The document handed to `Post.create`, each field possibly absent. */
  datatype PostFields = PostFields(
    title: Option<string>,
    content: Option<string>,
    images: Option<seq<string>>,
    author: Option<UserId>,
    skill: Option<SkillId>,
    likes: Option<int>,
    comments: Option<seq<CommentId>>)

  /** A stored post. */
  datatype Post = Post(
    id: PostId,
    title: string,
    content: string,
    images: seq<string>,
    author: UserId,
    skill: SkillId,
    likes: int,
    comments: seq<CommentId>,
    createdAt: int,
    updatedAt: int)

  /** `required: true` on a `String` path: present and not the empty string. */
  predicate RequiredString(v: Option<string>) {
    v.Some? && v.value != ""
  }

  /** `required: true` on an `ObjectId` reference: present. */
  predicate RequiredRef(v: Option<string>) {
    v.Some?
  }

  /** The required paths that `f` fails, in the schema's order. */
  function MissingPaths(f: PostFields): (paths: seq<string>)
    ensures "title" in paths <==> !RequiredString(f.title)
    ensures "content" in paths <==> !RequiredString(f.content)
    ensures "author" in paths <==> !RequiredRef(f.author)
    ensures "skill" in paths <==> !RequiredRef(f.skill)
    ensures paths == [] <==>
      RequiredString(f.title) && RequiredString(f.content) && RequiredRef(f.author) && RequiredRef(f.skill)
  {
    (if RequiredString(f.title) then [] else ["title"]) +
    (if RequiredString(f.content) then [] else ["content"]) +
    (if RequiredRef(f.author) then [] else ["author"]) +
    (if RequiredRef(f.skill) then [] else ["skill"])
  }

  /** The text of the validation error: "Post validation failed: " followed by one entry
      "<path>: Path `<path>` is required." per failing path, separated by ", ". */
  function ValidationMessage(paths: seq<string>): string {
    "Post validation failed: " + PathMessages(paths)
  }

  function PathMessages(paths: seq<string>): string {
    if paths == [] then ""
    else
      var one := paths[0] + ": Path `" + paths[0] + "` is required.";
      if |paths| == 1 then one else one + ", " + PathMessages(paths[1..])
  }

  /** `Post.create(f)`: a `ValidationError` when a required path fails; otherwise the stored
      post, with `likes` defaulting to 0, `images` and `comments` to empty arrays, and both
      timestamps set to the creation time `now`. */
  function Create(f: PostFields, id: PostId, now: int): (r: Outcome<Post>)
    ensures r.Yields? <==> MissingPaths(f) == []
    ensures r.Fails? ==> r.error == Thrown("ValidationError", ValidationMessage(MissingPaths(f)))
    ensures r.Yields? ==>
      && r.value.id == id
      && Some(r.value.title) == f.title && Some(r.value.content) == f.content
      && Some(r.value.author) == f.author && Some(r.value.skill) == f.skill
      && r.value.images == f.images.GetOr([]) && r.value.comments == f.comments.GetOr([])
      && r.value.likes == f.likes.GetOr(0)
      && r.value.createdAt == now && r.value.updatedAt == now
  {
    if MissingPaths(f) != [] then Fails(Thrown("ValidationError", ValidationMessage(MissingPaths(f))))
    else
      Yields(Post(id, f.title.value, f.content.value, f.images.GetOr([]), f.author.value, f.skill.value,
                  f.likes.GetOr(0), f.comments.GetOr([]), now, now))
  }

  /** A post created without `likes` starts with 0 likes. */
  lemma LikesDefaultToZero(f: PostFields, id: PostId, now: int)
    requires f.likes.None? && MissingPaths(f) == []
    ensures Create(f, id, now).Yields? && Create(f, id, now).value.likes == 0
  {
  }

  /** The error text names every failing path. */
  lemma {:induction false} PathMessagesName(paths: seq<string>, k: int)
    requires 0 <= k < |paths|
    ensures Includes(PathMessages(paths), paths[k])
  {
    var one := paths[0] + ": Path `" + paths[0] + "` is required.";
    if k == 0 {
      IncludesSelf(paths[0]);
      IncludesWithin("", paths[0], ": Path `" + paths[0] + "` is required.", paths[0]);
      assert one == "" + paths[0] + ": Path `" + paths[0] + "` is required.";
      if |paths| > 1 {
        IncludesWithin("", one, ", " + PathMessages(paths[1..]), paths[0]);
        assert "" + one + (", " + PathMessages(paths[1..])) == one + ", " + PathMessages(paths[1..]);
      }
    } else {
      PathMessagesName(paths[1..], k - 1);
      IncludesWithin(one + ", ", PathMessages(paths[1..]), "", paths[k]);
      assert one + ", " + PathMessages(paths[1..]) + "" == one + ", " + PathMessages(paths[1..]);
    }
  }

  /** A post lacking any one required field (`title` or `content` absent or empty, `author` or
      `skill` absent) is rejected with a `ValidationError` whose message names that field. */
  lemma MissingFieldRejected(f: PostFields, id: PostId, now: int, path: string)
    requires path == "title" || path == "content" || path == "author" || path == "skill"
    requires path == "title" ==> !RequiredString(f.title)
    requires path == "content" ==> !RequiredString(f.content)
    requires path == "author" ==> !RequiredRef(f.author)
    requires path == "skill" ==> !RequiredRef(f.skill)
    ensures Create(f, id, now).Fails? && Create(f, id, now).error.name == "ValidationError"
    ensures Includes(Create(f, id, now).error.message, path)
  {
    var paths := MissingPaths(f);
    assert path in paths;
    var k :| 0 <= k < |paths| && paths[k] == path;
    PathMessagesName(paths, k);
    IncludesWithin("Post validation failed: ", PathMessages(paths), "", path);
    assert "Post validation failed: " + PathMessages(paths) + "" == ValidationMessage(paths);
  }
}
