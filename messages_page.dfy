/** The messages page: the list of conversations of the signed-in user, each with its last
    message and an unread dot, and the chat with the selected one. */
module MessagesPage {
  import opened Wrappers
  import opened Messages
  import Conversations

  /** One row of the list as the page receives it; `lastMessage` may be absent. */
  datatype Entry = Entry(id: UserId, name: string, image: Option<string>, lastMessage: Option<Conversations.LastMessage>)

  /** The row the page holds for one entry of the conversations route. */
  function FromConversation(c: Conversations.Conversation): (e: Entry)
    ensures e.id == c.id && e.name == c.name && e.image == c.image
    ensures e.lastMessage == Some(c.lastMessage)
  {
    Entry(c.id, c.name, c.image, Some(c.lastMessage))
  }

  /** The client session: it may exist without a user, and a user without an id. */
  datatype ClientUser = ClientUser(id: Option<UserId>)
  datatype ClientSession = ClientSession(user: Option<ClientUser>)

  /** `session?.user?.id`. */
  function SessionUserId(session: Option<ClientSession>): (r: Option<UserId>)
    ensures r.Some? ==> session.Some? && session.value.user.Some?
    ensures session.Some? && session.value.user.Some? ==> r == session.value.user.value.id
  {
    if session.Some? && session.value.user.Some? then session.value.user.value.id else None
  }

  /** The unread dot: the row has a last message, it is unread, and its receiver is the session
      user. */
  predicate ShowsUnreadDot(e: Entry, sessionUserId: Option<UserId>) {
    e.lastMessage.Some? && !e.lastMessage.value.read && Some(e.lastMessage.value.receiver.id) == sessionUserId
  }

  /** A last message the session user sent to someone else never shows the dot, read or not. */
  lemma SentMessageNoDot(e: Entry, me: UserId)
    requires e.lastMessage.Some? && e.lastMessage.value.sender.id == me && e.lastMessage.value.receiver.id != me
    ensures !ShowsUnreadDot(e, Some(me))
  {
  }

  /** For a row the conversations route returned, the dot shows exactly when the latest
      message with that counterparty is unread and was received by the requester; when the
      requester sent it to someone else, no dot shows. */
  lemma RouteEntryDot(me: UserId, db: Conversations.Collections, c: Conversations.Conversation)
    requires c in Conversations.Aggregate(me, db)
    ensures ShowsUnreadDot(FromConversation(c), Some(me)) <==>
      !c.lastMessage.read && c.lastMessage.receiver.id == me
    ensures c.id != me && c.lastMessage.sender.id == me ==> !ShowsUnreadDot(FromConversation(c), Some(me))
  {
    Conversations.EntriesCarryUserSummaries(me, db);
  }

  /** One rendered row: the name, the last message's text when there is one, and the dot. */
  datatype Row = Row(id: UserId, name: string, preview: Option<string>, dot: bool)

  function RowOf(e: Entry, sessionUserId: Option<UserId>): (r: Row)
    ensures r.id == e.id && r.name == e.name
    ensures r.preview.Some? <==> e.lastMessage.Some?
    ensures r.preview.Some? ==> r.preview.value == e.lastMessage.value.content
    ensures r.dot <==> ShowsUnreadDot(e, sessionUserId)
  {
    Row(e.id, e.name,
        if e.lastMessage.Some? then Some(e.lastMessage.value.content) else None,
        ShowsUnreadDot(e, sessionUserId))
  }

  function Rows(entries: seq<Entry>, sessionUserId: Option<UserId>): (r: seq<Row>)
    ensures |r| == |entries|
    ensures forall i :: 0 <= i < |r| ==> r[i] == RowOf(entries[i], sessionUserId)
  {
    if entries == [] then [] else [RowOf(entries[0], sessionUserId)] + Rows(entries[1..], sessionUserId)
  }

  /** What the page renders: the skeleton while loading, otherwise the rows and, when there are
      none, the "No conversations yet" notice. */
  datatype Screen = Skeleton | Listing(rows: seq<Row>, emptyNotice: bool)

  function ScreenOf(loading: bool, entries: seq<Entry>, session: Option<ClientSession>): (s: Screen)
    ensures s == Skeleton <==> loading
    ensures s.Listing? ==> s.rows == Rows(entries, SessionUserId(session))
    ensures s.Listing? ==> (s.emptyNotice <==> entries == [])
  {
    if loading then Skeleton else Listing(Rows(entries, SessionUserId(session)), entries == [])
  }

  /** The state of the page. */
  class MessagesPageState {
    var users: seq<Entry>
    var selectedUser: Option<UserId>
    var loading: bool

    constructor ()
      ensures users == [] && selectedUser == None && loading
    {
      users := [];
      selectedUser := None;
      loading := true;
    }

    /** The session effect: only with a session user does it fetch the conversations
        (`requested`); `fetched` is what the request delivers, `None` when it fails. After a
        fetch, successful or not, `loading` is false; without a session user nothing changes,
        so the page keeps loading. */
    method SessionChanged(session: Option<ClientSession>, fetched: Option<seq<Entry>>) returns (requested: bool)
      modifies this
      ensures requested <==> session.Some? && session.value.user.Some?
      ensures requested ==> users == fetched.GetOr(old(users)) && !loading
      ensures !requested ==> users == old(users) && loading == old(loading)
      ensures selectedUser == old(selectedUser)
    {
      requested := session.Some? && session.value.user.Some?;
      if requested {
        if fetched.Some? {
          users := fetched.value;
        }
        loading := false;
      }
    }

    /** Clicking a row opens the chat with that user. */
    method Select(id: UserId)
      modifies this
      ensures selectedUser == Some(id)
      ensures users == old(users) && loading == old(loading)
    {
      selectedUser := Some(id);
    }

    /** Closing the chat. */
    method CloseChat()
      modifies this
      ensures selectedUser == None
      ensures users == old(users) && loading == old(loading)
    {
      selectedUser := None;
    }
  }
}
