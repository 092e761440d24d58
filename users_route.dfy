/** `GET /api/users` (every user, without the password, with both skill lists populated) and
    `POST /api/users` (create a user and reply with the created document minus its password). */
module UsersRoute {
  import opened Wrappers
  import opened Http
  import Seqs

  const Password := "password"
  const SkillsToShare := "skillsToShare"
  const SkillsToLearn := "skillsToLearn"
  const FetchFailed := "Failed to fetch users"
  const CreateFailed := "Failed to create user"

  /** A skill document. */
  datatype Skill = Skill(id: string, name: string)

  /** The value of one field of a user document: a scalar, an array of skill references, or
      that array once populated with the skill documents. */
  datatype Value = Text(s: string) | Number(n: int) | Flag(b: bool) | Refs(ids: seq<string>) | Skills(docs: seq<Skill>)

  /** A user document as a plain object: its fields by name. */
  type Document = map<string, Value>

  /** The skill collection, by `_id`. */
  type SkillStore = map<string, Skill>

  /** The document without its `password` field; every other field is kept with its value. */
  function WithoutPassword(d: Document): (r: Document)
    ensures Password !in r
    ensures forall k :: k != Password ==> (k in r <==> k in d)
    ensures forall k :: k in r ==> r[k] == d[k]
  {
    d - {Password}
  }

  /** `populate` of an array of references: each reference replaced by its skill document, in
      order, a reference to no document being dropped. */
  function Resolve(ids: seq<string>, skills: SkillStore): (r: seq<Skill>)
    ensures |r| <= |ids|
    ensures forall s :: s in r ==> exists id :: id in ids && id in skills && skills[id] == s
    ensures forall id :: id in ids && id in skills ==> skills[id] in r
    ensures (forall id :: id in ids ==> id in skills) ==>
      |r| == |ids| && forall i :: 0 <= i < |ids| ==> r[i] == skills[ids[i]]
  {
    if ids == [] then []
    else
      var rest := Resolve(ids[1..], skills);
      assert forall id :: id in ids[1..] ==> id in ids;
      assert forall id :: id in ids ==> id == ids[0] || id in ids[1..];
      if ids[0] in skills then [skills[ids[0]]] + rest else rest
  }

  /** `populate` keeps the order of the references it resolves: the documents are those of the
      references that name a stored skill, in the order of those references. */
  lemma {:induction false} ResolveInOrder(ids: seq<string>, skills: SkillStore)
    ensures var kept := Seqs.Filter(ids, Stored(skills));
      var r := Resolve(ids, skills);
      |r| == |kept| && forall i :: 0 <= i < |kept| ==> kept[i] in skills && r[i] == skills[kept[i]]
  {
    if ids != [] {
      ResolveInOrder(ids[1..], skills);
      var rest := Resolve(ids[1..], skills);
      var restKept := Seqs.Filter(ids[1..], Stored(skills));
      var kept := Seqs.Filter(ids, Stored(skills));
      var r := Resolve(ids, skills);
      assert kept == if ids[0] in skills then [ids[0]] + restKept else restKept;
      assert r == if ids[0] in skills then [skills[ids[0]]] + rest else rest;
      if ids[0] in skills {
        forall i | 0 <= i < |kept| ensures kept[i] in skills && r[i] == skills[kept[i]] {
          if i > 0 { assert kept[i] == restKept[i - 1] && r[i] == rest[i - 1]; }
        }
      }
    }
  }

  /** The test `populate` keeps a reference by: it names a stored skill. */
  function Stored(skills: SkillStore): string -> bool {
    id => id in skills
  }

  /** `populate(path)` on one document: a reference array under `path` becomes the skill
      documents; any other field, and a document without `path`, is left as it is. */
  function PopulatePath(d: Document, path: string, skills: SkillStore): (r: Document)
    ensures r.Keys == d.Keys
    ensures forall k :: k in d && k != path ==> r[k] == d[k]
    ensures path in d && d[path].Refs? ==> r[path] == Skills(Resolve(d[path].ids, skills))
    ensures path in d && !d[path].Refs? ==> r[path] == d[path]
  {
    if path in d && d[path].Refs? then d[path := Skills(Resolve(d[path].ids, skills))] else d
  }

  /** One user as `GET` returns it: `.select('-password')`, then both skill lists populated. */
  function Listed(d: Document, skills: SkillStore): (r: Document)
    ensures Password !in r
    ensures forall k :: k != Password ==> (k in r <==> k in d)
    ensures forall k :: k in r && k != SkillsToShare && k != SkillsToLearn ==> r[k] == d[k]
  {
    PopulatePath(PopulatePath(WithoutPassword(d), SkillsToShare, skills), SkillsToLearn, skills)
  }

  function ListAll(users: seq<Document>, skills: SkillStore): (r: seq<Document>)
    ensures |r| == |users|
    ensures forall i :: 0 <= i < |r| ==> r[i] == Listed(users[i], skills)
  {
    if users == [] then [] else [Listed(users[0], skills)] + ListAll(users[1..], skills)
  }

  /** What `GET` reads: the stored users and skills. */
  datatype Collections = Collections(users: seq<Document>, skills: SkillStore)

  /** `GET`: every user (the query has no filter), in storage order, none with a password; 500
      when the database fails. */
  function Get(db: Outcome<Collections>): (r: Response<seq<Document>>)
    ensures db.Fails? ==> r == Failure(StatusServerError, ErrorBody(FetchFailed, None))
    ensures db.Yields? ==> r == Success(ListAll(db.value.users, db.value.skills))
    ensures db.Yields? ==> |r.body| == |db.value.users|
    ensures r.Success? ==> forall i :: 0 <= i < |r.body| ==> Password !in r.body[i]
  {
    match db
    case Fails(_) => Failure(StatusServerError, ErrorBody(FetchFailed, None))
    case Yields(c) => Success(ListAll(c.users, c.skills))
  }

  /** A listed user's skill lists hold exactly the stored skills their references name. */
  lemma ListedSkillsResolved(d: Document, skills: SkillStore, path: string, id: string)
    requires path == SkillsToShare || path == SkillsToLearn
    requires path in d && d[path].Refs? && id in d[path].ids && id in skills
    ensures path in Listed(d, skills) && Listed(d, skills)[path].Skills?
    ensures skills[id] in Listed(d, skills)[path].docs
  {
    var a := WithoutPassword(d);
    var b := PopulatePath(a, SkillsToShare, skills);
    assert a[path] == d[path];
    if path == SkillsToShare {
      assert b[path] == Skills(Resolve(d[path].ids, skills));
    } else {
      assert b[path] == d[path];
    }
  }

  /** The plain object `user.toObject()` returns, which `POST` edits in place. */
  class PlainObject {
    var fields: Document

    constructor (fields: Document)
      ensures this.fields == fields
    {
      this.fields := fields;
    }

    /** `delete obj[key]`: the field goes, every other one stays. */
    method Delete(key: string)
      modifies this
      ensures fields == old(fields) - {key}
    {
      fields := fields - {key};
    }
  }

  /** `POST`. `connect` is the outcome of connecting, `body` of reading the request as JSON, and
      `create` stands for `User.create` under the user schema, which is not part of this model.
      A failure at any step is a 500; otherwise the reply is the created document without its
      password. */
  method Post(connect: Attempt, body: Outcome<Document>, create: Document -> Outcome<Document>)
    returns (r: Response<Document>)
    ensures r.Success? <==> connect.Completes? && body.Yields? && create(body.value).Yields?
    ensures r.Failure? ==> r == Failure(StatusServerError, ErrorBody(CreateFailed, None))
    ensures r.Success? ==> r.body == WithoutPassword(create(body.value).value)
  {
    if connect.Throws? || body.Fails? {
      return Failure(StatusServerError, ErrorBody(CreateFailed, None));
    }
    var created := create(body.value);
    if created.Fails? {
      return Failure(StatusServerError, ErrorBody(CreateFailed, None));
    }
    var user := new PlainObject(created.value);
    user.Delete(Password);
    return Success(user.fields);
  }
}
