/** The user directory component: it loads every user once, filters them by the search query
    on the name and the skill names, and shows each user's bio shortened to one line. */
module UserList {
  import opened Wrappers
  import opened Http
  import opened Seqs
  import opened Text

  const FetchFailed := "Failed to fetch users"
  const InvalidFormat := "Invalid data format received"
  const LoadingFailed := "Error loading users"
  const NoBio := "No bio available"
  const Ellipsis := "..."
  const BioLength := 60

  datatype Skill = Skill(id: string, name: string)

  /** A user as the directory receives it; `image`, `bio` and the skill arrays may be absent. */
  datatype ListedUser = ListedUser(
    id: string,
    name: string,
    email: string,
    image: Option<string>,
    bio: Option<string>,
    skillsToShare: Option<seq<Skill>>,
    skillsToLearn: Option<seq<Skill>>)

  /** The skills searched: those to share, then those to learn, an absent array counting as
      empty. */
  function SearchedSkills(u: ListedUser): (r: seq<Skill>)
    ensures |r| == |u.skillsToShare.GetOr([])| + |u.skillsToLearn.GetOr([])|
    ensures forall s :: s in r <==> s in u.skillsToShare.GetOr([]) || s in u.skillsToLearn.GetOr([])
  {
    u.skillsToShare.GetOr([]) + u.skillsToLearn.GetOr([])
  }

  /** `skills.some(skill => skill.name.toLowerCase().includes(q))`, tried front to back. */
  function SomeSkillMatches(skills: seq<Skill>, q: string): (r: bool)
    ensures r <==> exists i :: 0 <= i < |skills| && Includes(ToLower(skills[i].name), q)
  {
    if skills == [] then false
    else if Includes(ToLower(skills[0].name), q) then true
    else
      var r := SomeSkillMatches(skills[1..], q);
      assert r <==> exists i :: 0 <= i < |skills| && Includes(ToLower(skills[i].name), q) by {
        if !r {
          forall i | 0 <= i < |skills| ensures !Includes(ToLower(skills[i].name), q) {
            if i > 0 { assert skills[i] == skills[1..][i - 1]; }
          }
        } else {
          var i :| 0 <= i < |skills[1..]| && Includes(ToLower(skills[1..][i].name), q);
          assert skills[i + 1] == skills[1..][i];
        }
      }
      r
  }

  /** The `filteredUsers` test: every user passes an empty query; otherwise the lower-cased
      name or some lower-cased skill name must contain the lower-cased query. */
  predicate Matches(query: string, u: ListedUser) {
    if query == "" then true
    else
      var q := ToLower(query);
      Includes(ToLower(u.name), q) || SomeSkillMatches(SearchedSkills(u), q)
  }

  /** `filteredUsers`: the users that match `query`, in their order. */
  function FilterUsers(users: seq<ListedUser>, query: string): (r: seq<ListedUser>)
    ensures forall u :: u in r <==> u in users && Matches(query, u)
    ensures IsSubsequence(r, users)
    ensures forall u :: multiset(r)[u] == if Matches(query, u) then multiset(users)[u] else 0
  {
    Filter(users, (u: ListedUser) => Matches(query, u))
  }

  /** A user's name or skill name contains the query text as a contiguous slice, ignoring
      ASCII case. */
  ghost predicate MentionsQuery(query: string, u: ListedUser) {
    var q := ToLower(query);
    (exists i :: OccursAt(ToLower(u.name), q, i)) ||
    (exists s, i :: s in SearchedSkills(u) && OccursAt(ToLower(s.name), q, i))
  }

  /** A user is kept exactly when the query is empty or it occurs, case-insensitively, in the
      user's name or in the name of one of the user's skills. */
  lemma MatchesIffMentions(query: string, u: ListedUser)
    ensures Matches(query, u) <==> query == "" || MentionsQuery(query, u)
  {
    var q := ToLower(query);
    var skills := SearchedSkills(u);
    IncludesIffOccurs(ToLower(u.name), q);
    forall s | s in skills ensures Includes(ToLower(s.name), q) <==> exists i :: OccursAt(ToLower(s.name), q, i) {
      IncludesIffOccurs(ToLower(s.name), q);
    }
    if SomeSkillMatches(skills, q) {
      var k :| 0 <= k < |skills| && Includes(ToLower(skills[k].name), q);
      var i :| OccursAt(ToLower(skills[k].name), q, i);
      assert skills[k] in skills && OccursAt(ToLower(skills[k].name), q, i);
    }
    if exists s, i :: s in skills && OccursAt(ToLower(s.name), q, i) {
      var s, i :| s in skills && OccursAt(ToLower(s.name), q, i);
      var k :| 0 <= k < |skills| && skills[k] == s;
      assert Includes(ToLower(skills[k].name), q);
    }
  }

  /** An empty search query keeps every user, in order. */
  lemma {:induction false} EmptyQueryKeepsAll(users: seq<ListedUser>)
    ensures FilterUsers(users, "") == users
  {
    if users != [] {
      EmptyQueryKeepsAll(users[1..]);
      assert users == [users[0]] + users[1..];
    }
  }

  /** A user without skill arrays is searched on the name alone. */
  lemma MissingSkillsSearchNameOnly(query: string, u: ListedUser)
    requires u.skillsToShare.None? && u.skillsToLearn.None?
    ensures Matches(query, u) <==> query == "" || Includes(ToLower(u.name), ToLower(query))
  {
    assert SearchedSkills(u) == [];
  }

  /** The query's own case does not matter: searching for its lower-cased form keeps the same
      users. */
  lemma QueryCaseIgnored(users: seq<ListedUser>, query: string)
    ensures FilterUsers(users, ToLower(query)) == FilterUsers(users, query)
  {
    ToLowerIdempotent(query);
    forall u ensures Matches(ToLower(query), u) == Matches(query, u) {
      assert (ToLower(query) == "") == (query == "");
    }
    FilterAgrees(users, (u: ListedUser) => Matches(ToLower(query), u), (u: ListedUser) => Matches(query, u));
  }

  /** The bio line under a user's name, as the UTF-16 code units JavaScript holds: the first 60
      code units of a non-empty bio (`slice(0, 60)`) followed by "...", or "No bio available". */
  function BioLine(bio: Option<string>): (r: seq<CodeUnit>)
    ensures !Truthy(bio) ==> r == Utf16(NoBio)
    ensures Truthy(bio) ==>
      var units := Utf16(bio.value);
      && |r| == (if |units| < BioLength then |units| else BioLength) + |Utf16(Ellipsis)|
      && r[..|r| - |Utf16(Ellipsis)|] <= units
      && r[|r| - |Utf16(Ellipsis)|..] == Utf16(Ellipsis)
  {
    if Truthy(bio) then
      var units := Utf16(bio.value);
      (if |units| < BioLength then units else units[..BioLength]) + Utf16(Ellipsis)
    else Utf16(NoBio)
  }

  /** A bio of at most 60 code units is shown whole, only followed by "...". */
  lemma ShortBioShownWhole(bio: string)
    requires bio != "" && |Utf16(bio)| <= BioLength
    ensures BioLine(Some(bio)) == Utf16(bio) + Utf16(Ellipsis)
  {
    var r := BioLine(Some(bio));
    var e := |Utf16(Ellipsis)|;
    assert r[..|r| - e] == Utf16(bio);
    assert r == r[..|r| - e] + r[|r| - e..];
  }

  /** Inside the Basic Multilingual Plane code units are characters: such a bio shows its first
      60 characters, and one of at most 60 characters is shown whole. */
  lemma BmpBioCountsCharacters(bio: string)
    requires bio != ""
    requires forall i :: 0 <= i < |bio| ==> bio[i] as int < 0x1_0000
    ensures |BioLine(Some(bio))| == (if |bio| < BioLength then |bio| else BioLength) + |Utf16(Ellipsis)|
    ensures |bio| <= BioLength ==> BioLine(Some(bio)) == Utf16(bio) + Utf16(Ellipsis)
  {
    if |bio| <= BioLength {
      ShortBioShownWhole(bio);
    }
  }

  /** Characters above the Basic Multilingual Plane count twice: a bio of more than 30 of them
      (an emoji string, say) is cut, though it has at most 60 characters. */
  lemma AstralBioCut(bio: string)
    requires |bio| > BioLength / 2
    requires forall i :: 0 <= i < |bio| ==> bio[i] as int >= 0x1_0000
    ensures |BioLine(Some(bio))| == BioLength + |Utf16(Ellipsis)| < |Utf16(bio)| + |Utf16(Ellipsis)|
  {
    var units := Utf16(bio);
    assert |units| == 2 * |bio| > BioLength;
    assert BioLine(Some(bio)) == units[..BioLength] + Utf16(Ellipsis);
  }

  /** The cut can split a surrogate pair: after 59 characters of the Basic Multilingual Plane, a
      character above it leaves only its high surrogate in the line. */
  lemma CutSplitsSurrogatePair(bio: string)
    requires |bio| >= BioLength
    requires forall i :: 0 <= i < BioLength - 1 ==> bio[i] as int < 0x1_0000
    requires bio[BioLength - 1] as int >= 0x1_0000
    ensures 0xD800 <= BioLine(Some(bio))[BioLength - 1] < 0xDC00
  {
    var head := bio[..BioLength - 1];
    var tail := bio[BioLength - 1..];
    assert bio == head + tail;
    Utf16Append(head, tail);
    assert tail == [tail[0]] + tail[1..];
    Utf16Append([tail[0]], tail[1..]);
    assert Utf16([tail[0]]) == CharUnits(tail[0]);
    assert |Utf16(head)| == BioLength - 1;
    assert Utf16(bio)[BioLength - 1] == CharUnits(bio[BioLength - 1])[0];
  }

  /** The parsed response body: an array of users, or any other JSON value. */
  datatype Payload = UserArray(users: seq<ListedUser>) | NotArray

  /** The outcome of reading the response as JSON. */
  datatype Body = Parsed(data: Payload) | ParseFails(raised: Raised)

  /** The outcome of `fetch('/api/users')`: it rejects, or it delivers a response with its `ok`
      flag and its body. */
  datatype FetchOutcome = Rejects(raised: Raised) | Delivers(ok: bool, body: Body)

  /** The text `catch` stores: an `Error` object's message, otherwise the fixed text. */
  function CaughtText(e: Raised): string {
    if e.ErrorObject? then e.message else LoadingFailed
  }

  /** The users the fetch delivers, when it succeeds. */
  function FetchedUsers(o: FetchOutcome): (r: Option<seq<ListedUser>>)
    ensures r.Some? <==> o.Delivers? && o.ok && o.body.Parsed? && o.body.data.UserArray?
    ensures r.Some? ==> r.value == o.body.data.users
  {
    if o.Delivers? && o.ok && o.body.Parsed? && o.body.data.UserArray? then Some(o.body.data.users) else None
  }

  /** The error text the fetch stores when it fails. A response that is not `ok` or not an
      array is reported by the fixed texts; a rejection or an unreadable body by what was
      thrown. */
  function FetchError(o: FetchOutcome): (r: Option<string>)
    ensures r.None? <==> FetchedUsers(o).Some?
    ensures o.Delivers? && !o.ok ==> r == Some(FetchFailed)
    ensures o.Delivers? && o.ok && o.body.Parsed? && o.body.data.NotArray? ==> r == Some(InvalidFormat)
    ensures o.Rejects? ==> r == Some(CaughtText(o.raised))
    ensures o.Delivers? && o.ok && o.body.ParseFails? ==> r == Some(CaughtText(o.body.raised))
  {
    match o
    case Rejects(e) => Some(CaughtText(e))
    case Delivers(ok, body) =>
      if !ok then Some(CaughtText(ErrorObject(FetchFailed)))
      else match body
        case ParseFails(e) => Some(CaughtText(e))
        case Parsed(NotArray) => Some(CaughtText(ErrorObject(InvalidFormat)))
        case Parsed(UserArray(_)) => None
  }

  /** What the component renders. */
  datatype Screen = Skeleton | ErrorMessage(text: string) | NoUsersFound | Cards(shown: seq<ListedUser>)

  /** The render branches, in order: the loading skeleton, the error (when its text is not
      empty), "No users found" when nothing passes the filter, otherwise one card per user that
      passes. */
  function ScreenOf(loading: bool, error: string, users: seq<ListedUser>, query: string): (r: Screen)
    ensures r == Skeleton <==> loading
    ensures r.ErrorMessage? <==> !loading && error != ""
    ensures r.ErrorMessage? ==> r.text == error
    ensures r == NoUsersFound <==> !loading && error == "" && FilterUsers(users, query) == []
    ensures r.Cards? ==> r.shown == FilterUsers(users, query) && r.shown != []
  {
    if loading then Skeleton
    else if error != "" then ErrorMessage(error)
    else if FilterUsers(users, query) == [] then NoUsersFound
    else Cards(FilterUsers(users, query))
  }

  /** The state of the component. */
  class UserListState {
    var users: seq<ListedUser>
    var loading: bool
    var error: string
    var selectedUser: Option<string>

    /** The initial state: no users, loading, no error, no chat open. */
    constructor ()
      ensures users == [] && loading && error == "" && selectedUser == None
    {
      users := [];
      loading := true;
      error := "";
      selectedUser := None;
    }

    /** `fetchUsers`: on success the users are replaced by the delivered array; on failure the
        error text is set and the users stay as they were; `loading` ends false either way. */
    method FetchUsers(o: FetchOutcome)
      modifies this
      ensures users == FetchedUsers(o).GetOr(old(users))
      ensures error == FetchError(o).GetOr(old(error))
      ensures !loading
      ensures selectedUser == old(selectedUser)
    {
      match o {
        case Rejects(e) =>
          error := CaughtText(e);
        case Delivers(ok, body) =>
          if !ok {
            error := CaughtText(ErrorObject(FetchFailed));
          } else {
            match body {
              case ParseFails(e) =>
                error := CaughtText(e);
              case Parsed(NotArray) =>
                error := CaughtText(ErrorObject(InvalidFormat));
              case Parsed(UserArray(data)) =>
                users := data;
            }
          }
      }
      loading := false;
    }

    /** The message button of a card opens the chat with that user. */
    method OpenChat(userId: string)
      modifies this
      ensures selectedUser == Some(userId)
      ensures users == old(users) && loading == old(loading) && error == old(error)
    {
      selectedUser := Some(userId);
    }

    /** Closing the chat. */
    method CloseChat()
      modifies this
      ensures selectedUser == None
      ensures users == old(users) && loading == old(loading) && error == old(error)
    {
      selectedUser := None;
    }
  }

  /** After the one fetch from the initial state, a failure with a non-empty error text shows that
      text and no user, and a success shows the users matching the query (or "No users found"). */
  lemma FirstFetchScreen(o: FetchOutcome, query: string)
    ensures var s := ScreenOf(false, FetchError(o).GetOr(""), FetchedUsers(o).GetOr([]), query);
      && (FetchError(o).Some? && FetchError(o).value != "" ==> s == ErrorMessage(FetchError(o).value))
      && (FetchedUsers(o).Some? ==>
            s == (if FilterUsers(o.body.data.users, query) == [] then NoUsersFound
                  else Cards(FilterUsers(o.body.data.users, query))))
  {
  }

  /** A failure whose thrown `Error` carries an empty message leaves no error text, so the
      component shows "No users found" rather than an error. */
  lemma EmptyErrorMessageShowsNoUsers(query: string)
    ensures ScreenOf(false, FetchError(Rejects(ErrorObject(""))).GetOr(""),
                     FetchedUsers(Rejects(ErrorObject(""))).GetOr([]), query) == NoUsersFound
  {
    assert FilterUsers([], query) == [];
  }
}
